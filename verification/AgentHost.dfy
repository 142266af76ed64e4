/** The code of the turn machine over mutable tables: the broker with its sets of listeners, and
    the lifecycle, service and tool-call sections. Each method is shown to do exactly the action of
    the machine, so every theorem about runs is about sequences of these calls. */
module AgentHost {
  import opened Options
  import opened TurnMachine
  import TurnEffects

  /** Waiters ws are told o and forgotten. */
  function Told(b: Broker, ws: set<Id>, o: Outcome): Broker {
    Broker(map w | w in b.waiting && w !in ws :: b.waiting[w],
           map w | w in b.outcomes.Keys + ws :: if w in ws then o else b.outcomes[w])
  }

  lemma SettleMore(b: Broker, s: set<nat>, a: nat, o: Outcome)
    ensures SettleAll(SettleAll(b, s, o), {a}, o) == SettleAll(b, s + {a}, o)
  {
    var c, d := SettleAll(SettleAll(b, s, o), {a}, o), SettleAll(b, s + {a}, o);
    assert c.waiting.Keys == d.waiting.Keys;
    assert c.outcomes.Keys == d.outcomes.Keys;
  }

  lemma SettleNobody(b: Broker, o: Outcome)
    ensures SettleAll(b, {}, o) == b
  {
  }

  lemma ToldMore(b: Broker, ws: set<Id>, w: Id, o: Outcome)
    ensures Told(Told(b, ws, o), {w}, o) == Told(b, ws + {w}, o)
  {
    var c, d := Told(Told(b, ws, o), {w}, o), Told(b, ws + {w}, o);
    assert c.waiting.Keys == d.waiting.Keys;
    assert c.outcomes.Keys == d.outcomes.Keys;
  }

  lemma ToldStep(b: Broker, ws: set<Id>, todo: set<Id>, w: Id, a: nat, o: Outcome)
    requires w in todo && todo <= ws && w in b.waiting && b.waiting[w] == a
    ensures var c := Told(b, ws - todo, o); w in c.waiting && c.waiting[w] == a
    ensures Told(Told(b, ws - todo, o), {w}, o) == Told(b, ws - (todo - {w}), o)
  {
    ToldMore(b, ws - todo, w, o);
    assert ws - (todo - {w}) == ws - todo + {w};
  }

  /** Telling everyone who waits on an approval is settling it. */
  lemma ToldAll(b: Broker, ws: set<Id>, a: nat, o: Outcome)
    requires forall w :: w in ws <==> w in b.waiting && b.waiting[w] == a
    ensures Told(b, ws, o) == SettleAll(b, {a}, o)
  {
    var c, d := Told(b, ws, o), SettleAll(b, {a}, o);
    assert c.waiting.Keys == d.waiting.Keys;
    assert c.outcomes.Keys == d.outcomes.Keys;
  }

  lemma ToldNobody(b: Broker, o: Outcome)
    ensures Told(b, {}, o) == b
  {
  }

  /** The listener sets say who waits on what; no set is empty. */
  ghost predicate Matches(sets: map<nat, set<Id>>, waiting: map<Id, nat>) {
    && (forall a <- sets :: sets[a] != {} && forall w <- sets[a] :: w in waiting && waiting[w] == a)
    && (forall w <- waiting :: waiting[w] in sets && w in sets[waiting[w]])
  }

  function RemoveListener(sets: map<nat, set<Id>>, a: nat, w: Id): map<nat, set<Id>>
    requires a in sets
  {
    var rest := sets[a] - {w};
    if rest == {} then map x | x in sets && x != a :: sets[x] else sets[a := rest]
  }

  lemma RemoveMatches(sets: map<nat, set<Id>>, waiting: map<Id, nat>, a: nat, w: Id)
    requires Matches(sets, waiting) && w in waiting && waiting[w] == a
    ensures Matches(RemoveListener(sets, a, w), Except(waiting, w))
  {
    var sets' := RemoveListener(sets, a, w);
    var waiting' := Except(waiting, w);
    forall x <- waiting' ensures waiting'[x] in sets' && x in sets'[waiting'[x]] {
      assert x in sets[waiting[x]];
      assert waiting[x] == a ==> x in sets[a] - {w};
    }
  }

  lemma ToldOne(b: Broker, w: Id, o: Outcome)
    requires w in b.waiting
    ensures Told(b, {w}, o) == Resolve(b, w, o)
  {
  }

  /** Sets of listeners, one per approval that someone waits on. */
  class ApprovalBroker {
    var waiters: map<nat, set<Id>>
    var resolved: map<Id, Outcome>
    ghost var waiting: map<Id, nat>

    ghost predicate Valid()
      reads this
    {
      Matches(waiters, waiting) && waiting.Keys !! resolved.Keys
    }

    ghost function View(): Broker
      reads this
    {
      Broker(waiting, resolved)
    }

    constructor ()
      ensures Valid() && View() == Broker(map[], map[])
    {
      waiters, resolved, waiting := map[], map[], map[];
    }

    /** Register waiter w on approval a; a turn that was stopped before is told so at once. */
    method Wait(w: Id, a: nat, stopped: bool)
      requires Valid() && w !in View().waiting && w !in View().outcomes
      modifies this
      ensures Valid()
      ensures View() == if stopped then old(View()).(outcomes := old(View()).outcomes[w := Aborted])
                        else old(View()).(waiting := old(View()).waiting[w := a])
    {
      if stopped {
        resolved := resolved[w := Aborted];
        return;
      }
      var listeners := if a in waiters then waiters[a] else {};
      waiters := waiters[a := listeners + {w}];
      waiting := waiting[w := a];
    }

    /** `finish` of one waiter: forget it, drop an empty set, resolve its promise. */
    method FinishOne(w: Id, a: nat, o: Outcome)
      requires Valid() && w in View().waiting && View().waiting[w] == a
      modifies this
      ensures Valid()
      ensures View() == Told(old(View()), {w}, o)
    {
      RemoveMatches(waiters, waiting, a, w);
      ToldOne(View(), w, o);
      waiters := RemoveListener(waiters, a, w);
      waiting := Except(waiting, w);
      resolved := resolved[w := o];
    }

    /** The approval whose listeners include w; each waiter's closure knows its own. */
    method ApprovalOf(w: Id) returns (a: Option<nat>)
      requires Valid()
      ensures a == if w in View().waiting then Some(View().waiting[w]) else None
    {
      var todo := waiters.Keys;
      while todo != {}
        invariant forall x <- waiters :: x !in todo ==> w !in waiters[x]
        decreases todo
      {
        var x :| x in todo;
        if w in waiters[x] { return Some(x); }
        todo := todo - {x};
      }
      return None;
    }

    /** Wake everyone who waits on an approval. */
    method Settle(a: nat, o: Outcome)
      requires Valid()
      modifies this
      ensures Valid() && View() == SettleAll(old(View()), {a}, o)
    {
      ghost var before := View();
      var listeners := if a in waiters then waiters[a] else {};
      var todo := listeners;
      ToldNobody(before, o);
      while todo != {}
        invariant Valid() && todo <= listeners
        invariant forall w :: w in listeners <==> w in before.waiting && before.waiting[w] == a
        invariant View() == Told(before, listeners - todo, o)
        decreases todo
      {
        var w :| w in todo;
        ToldStep(before, listeners, todo, w, a, o);
        FinishOne(w, a, o);
        todo := todo - {w};
      }
      assert listeners - {} == listeners;
      ToldAll(before, listeners, a, o);
    }
  }

  lemma ExpireMore(a: seq<Approval>, s: set<nat>, i: nat, at: Option<int>)
    requires i < |a|
    ensures ExpireSet(a, s, at)[i := a[i].(status := Expired, decidedAt := at)] == ExpireSet(a, s + {i}, at)
  {
  }

  lemma OpenMore(m: map<Id, SessionStatus>, a: seq<Approval>, s: set<nat>, i: nat)
    requires i < |a|
    ensures OpenWaiting(m, a, s + {i}) ==
            var n := OpenWaiting(m, a, s);
            if a[i].session in n && n[a[i].session] == SWaiting then n[a[i].session := SOpen] else n
  {
    var n := OpenWaiting(m, a, s);
    var l := OpenWaiting(m, a, s + {i});
    var r := if a[i].session in n && n[a[i].session] == SWaiting then n[a[i].session := SOpen] else n;
    assert i in s + {i};
    forall x | x in m ensures l[x] == r[x] {
      if (exists k: nat :: k in s + {i} && k < |a| && a[k].session == x) && x != a[i].session {
        var k: nat :| k in s + {i} && k < |a| && a[k].session == x;
        assert k in s;
      }
    }
    assert l.Keys == r.Keys;
  }

  class Host {
    var now: int
    var sessions: map<Id, SessionStatus>
    var turns: map<Id, Turn>
    var approvals: seq<Approval>
    var executed: set<(Id, Id)>
    var messages: seq<Message>
    var gates: map<Id, Gate>
    var broker: ApprovalBroker

    ghost predicate Valid()
      reads this, broker
    {
      broker.Valid()
    }

    ghost function View(): State
      reads this, broker
    {
      State(now, sessions, turns, approvals, executed, messages, broker.View(), gates)
    }

    constructor ()
      ensures Valid() && fresh(broker) && View() == INIT
    {
      now, sessions, turns, approvals, executed, messages, gates := 0, map[], map[], [], {}, [], map[];
      broker := new ApprovalBroker();
    }

    method UpdateSession(s: Id, status: SessionStatus)
      requires Valid()
      modifies this`sessions
      ensures Valid() && View() == old(View()).(sessions := SetSession(old(sessions), s, status))
    {
      if s in sessions {
        sessions := sessions[s := status];
      }
    }

    /** The approvals of a kind, expired one by one; returns their positions. */
    method ExpireRows(due: nat -> bool, ghost rows: set<nat>) returns (ids: seq<nat>)
      requires Valid()
      requires forall i: nat :: i in rows <==> i < |approvals| && approvals[i].status == Pending && due(i)
      modifies this`approvals
      ensures Valid() && View() == old(View()).(approvals := ExpireSet(old(approvals), rows, Some(old(now))))
      ensures forall i :: i in ids <==> i in rows
    {
      ids := [];
      ghost var done: set<nat> := {};
      assert ExpireSet(approvals, {}, Some(now)) == approvals;
      for i := 0 to |approvals|
        invariant |approvals| == |old(approvals)| && now == old(now)
        invariant forall k :: k in done <==> k in rows && k < i
        invariant forall k :: k in ids <==> k in done
        invariant approvals == ExpireSet(old(approvals), done, Some(now))
      {
        if approvals[i].status == Pending && due(i) {
          ExpireMore(old(approvals), done, i, Some(now));
          approvals := approvals[i := approvals[i].(status := Expired, decidedAt := Some(now))];
          ids := ids + [i];
          done := done + {i};
        }
      }
      assert done == rows;
    }

    method SettleRows(ids: seq<nat>, ghost rows: set<nat>)
      requires Valid() && forall i :: i in ids <==> i in rows
      modifies broker
      ensures Valid() && View() == old(View()).(broker := SettleAll(old(broker.View()), rows, Decided(Expired)))
    {
      ghost var done: set<nat> := {};
      SettleNobody(broker.View(), Decided(Expired));
      for k := 0 to |ids|
        invariant Valid()
        invariant done == set i | i in ids[..k]
        invariant broker.View() == SettleAll(old(broker.View()), done, Decided(Expired))
      {
        SettleMore(old(broker.View()), done, ids[k], Decided(Expired));
        broker.Settle(ids[k], Decided(Expired));
        assert ids[..k + 1] == ids[..k] + [ids[k]];
        done := done + {ids[k]};
      }
      assert ids[..|ids|] == ids;
      assert done == rows;
    }

    method OpenSessions(ids: seq<nat>, ghost rows: set<nat>, ghost table: seq<Approval>)
      requires Valid() && forall i :: i in ids <==> i in rows
      requires |table| == |approvals| && (forall i <- ids :: i < |table|)
      requires forall i :: 0 <= i < |table| ==> table[i].session == approvals[i].session
      modifies this`sessions
      ensures Valid() && View() == old(View()).(sessions := OpenWaiting(old(sessions), table, rows))
    {
      ghost var done: set<nat> := {};
      assert OpenWaiting(sessions, table, {}) == sessions;
      for k := 0 to |ids|
        invariant done == set i | i in ids[..k]
        invariant sessions == OpenWaiting(old(sessions), table, done)
      {
        assert ids[k] in ids;
        OpenMore(old(sessions), table, done, ids[k]);
        var s := approvals[ids[k]].session;
        if s in sessions && sessions[s] == SWaiting {
          sessions := sessions[s := SOpen];
        }
        assert ids[..k + 1] == ids[..k] + [ids[k]];
        done := done + {ids[k]};
      }
      assert ids[..|ids|] == ids;
      assert done == rows;
    }

    /** `expireDue`: three loops over what is due. */
    method ExpireAll()
      requires Valid()
      modifies this, broker
      ensures broker == old(broker) && Valid() && View() == ExpireDue(old(View()))
    {
      ghost var due := Due(approvals, now);
      ghost var table := approvals;
      var deadlines, at := approvals, now;
      var ids := ExpireRows((i: nat) => i < |deadlines| && deadlines[i].expiresAt <= at, due);
      OpenSessions(ids, due, table);
      SettleRows(ids, due);
    }

    /** `wait`. */
    method WaitOn(t: Id, a: nat) returns (answer: WaitAnswer)
      requires Valid()
      modifies this
      ensures broker == old(broker) && Valid() && View() == TurnMachine.Wait(old(View()), t, a)
      ensures answer == WaitAnswerOf(old(View()), t, a)
    {
      if t !in turns || turns[t].status != Running { return Inactive; }
      if a < |approvals| && approvals[a].status != Pending { return AlreadyDecided(approvals[a].status); }
      var s := turns[t].session;
      turns := turns[t := turns[t].(status := Waiting)];
      UpdateSession(s, SWaiting);
      return NowWaiting;
    }

    method ResumeTurn(t: Id) returns (resumed: bool)
      requires Valid()
      modifies this
      ensures broker == old(broker) && Valid() && View() == Resume(old(View()), t)
      ensures resumed <==> t in old(turns) && old(turns)[t].status == Waiting
    {
      if t !in turns || turns[t].status != Waiting { return false; }
      var s := turns[t].session;
      turns := turns[t := turns[t].(status := Running)];
      UpdateSession(s, SRunning);
      return true;
    }

    /** `finish`; false for a turn that it refuses. */
    method FinishTurn(t: Id, e: Ending) returns (ended: bool)
      requires Valid() && IsTerminal(e.status)
      modifies this, broker
      ensures broker == old(broker) && Valid() && View() == Finish(old(View()), t, e)
      ensures ended <==> t in old(turns) && !IsTerminal(old(turns)[t].status)
      ensures if ended then TurnEffects.Ended(old(View()), t, e, View()) else View() == old(View())
    {
      ghost var was := View();
      ended := EndRows(t, e);
      if ended { TurnEffects.FinishEnds(was, t, e, View()); }
    }

    method EndRows(t: Id, e: Ending) returns (ended: bool)
      requires Valid() && IsTerminal(e.status)
      modifies this, broker
      ensures broker == old(broker) && Valid() && View() == Finish(old(View()), t, e)
      ensures ended <==> t in old(turns) && !IsTerminal(old(turns)[t].status)
    {
      if t !in turns || IsTerminal(turns[t].status) { return false; }
      var turn := turns[t];
      if e.reply != "" {
        messages := Append(messages, turn.session, t, Assistant, e.reply);
      }
      turns := turns[t := turn.(status := e.status, errorCode := e.errorCode)];
      ghost var open := PendingOfTurn(approvals, t);
      var rows := approvals;
      var ids := ExpireRows((i: nat) => i < |rows| && rows[i].turn == Some(t), open);
      UpdateSession(turn.session, e.sessionStatus);
      SettleRows(ids, open);
      return true;
    }

    /** `TurnLifecycle.closeApproval`. */
    method CloseApproval(a: nat) returns (closed: bool)
      requires Valid()
      modifies this, broker
      ensures broker == old(broker) && Valid() && View() == CloseOne(old(View()), a)
      ensures closed <==> IsPending(old(approvals), a)
    {
      if a >= |approvals| || approvals[a].status != Pending { return false; }
      assert ExpireSet(approvals, {}, Some(now)) == approvals;
      ExpireMore(approvals, {}, a, Some(now));
      assert {} + {a} == {a};
      approvals := approvals[a := approvals[a].(status := Expired, decidedAt := Some(now))];
      broker.Settle(a, Decided(Expired));
      return true;
    }

    /** `AgentService.closeApproval`. */
    method CloseStopped(a: nat)
      requires Valid()
      modifies this, broker
      ensures broker == old(broker) && Valid() && View() == Close(old(View()), a)
    {
      if a >= |approvals| { return; }
      var s := approvals[a].session;
      var _ := CloseApproval(a);
      if s in sessions && sessions[s] == SWaiting {
        UpdateSession(s, SOpen);
      }
    }

    /** `decide`. */
    method DecidePending(a: nat, approve: bool) returns (stale: bool)
      requires Valid() && IsPending(View().approvals, a)
      modifies this, broker
      ensures broker == old(broker) && Valid() && View() == DecideOne(old(View()), a, approve)
      ensures stale <==> TurnOver(old(View()), a)
    {
      var row := approvals[a];
      if row.turn.Some? && row.turn.value in turns && IsTerminal(turns[row.turn.value].status) {
        var _ := CloseApproval(a);
        return true;
      }
      var status := if approve then Approved else Denied;
      approvals := approvals[a := row.(status := status, decidedAt := Some(now))];
      if approve {
        executed := executed + {(row.session, row.hash)};
      }
      UpdateSession(row.session, SOpen);
      broker.Settle(a, Decided(status));
      return false;
    }

    method DecideApproval(s: Id, approve: bool, permitted: bool, enabled: bool)
      returns (answer: Result<nat, DecideError>)
      requires Valid()
      modifies this, broker
      ensures broker == old(broker) && Valid() && View() == Decide(old(View()), s, approve, permitted, enabled)
      ensures answer == DecideAnswer(old(View()), s, approve, permitted, enabled)
    {
      if s !in sessions { return Err(SessionNotFound); }
      if !permitted { return Err(Forbidden); }
      var pending := FirstPending(approvals, s);
      if pending.None? { return Err(NotPending); }
      if approvals[pending.value].expiresAt <= now {
        ExpireAll();
        return Err(DeadlinePassed);
      }
      if approve && !enabled { return Err(AgentDisabled); }
      var stale := DecidePending(pending.value, approve);
      return if stale then Err(NotPending) else Ok(pending.value);
    }

    method RequestApproval(c: Call) returns (answer: Result<nat, Refusal>)
      requires Valid()
      modifies this, broker
      ensures broker == old(broker) && Valid() && (View(), answer) == Request(old(View()), c)
    {
      ExpireAll();
      answer := AnswerCall(c);
    }

    method AnswerCall(c: Call) returns (answer: Result<nat, Refusal>)
      requires Valid()
      modifies this
      ensures broker == old(broker) && Valid() && (View(), answer) == Answer(old(View()), c)
    {
      if c.session !in sessions { return Err(NotFound); }
      if !c.enabled { return Err(Disabled); }
      if !c.granted { return Err(NotGranted); }
      if !c.askFirst { return Err(NotRequired); }
      if (c.session, c.hash) in executed {
        var prior := Latest(approvals, c.session, c.hash);
        if prior.Some? { return Ok(prior.value); }
      }
      var existing := FirstPending(approvals, c.session);
      if existing.Some? {
        if approvals[existing.value].tool != c.tool || approvals[existing.value].hash != c.hash { return Err(Busy); }
        return Ok(existing.value);
      }
      approvals := approvals + [Approval(c.session, c.turn, c.tool, c.hash, Pending, now + c.timeout, None)];
      UpdateSession(c.session, SWaiting);
      return Ok(|approvals| - 1);
    }

    /** `beginTurn` for a fresh turn id. */
    method BeginTurn(s: Id, t: Id, text: string, resume: Option<Id>, enabled: bool, withinLimits: bool)
      returns (error: Option<BeginError>)
      requires Valid() && t !in turns
      modifies this
      ensures broker == old(broker) && Valid()
      ensures View() == Begin(old(View()), s, t, text, resume, enabled, withinLimits)
      ensures error == BeginRefused(old(View()), s, enabled, withinLimits)
      ensures error.None? ==> TurnEffects.Began(old(View()), s, t, text, resume, View())
    {
      ghost var begins := DoBegin(s, t, text, resume, enabled, withinLimits);
      TurnEffects.BeginBegins(View(), begins, Step(View(), begins));
      if s !in sessions { return Some(NoSession); }
      if !enabled { return Some(TurnsDisabled); }
      if sessions[s] == SRunning || sessions[s] == SWaiting { return Some(SessionBusy); }
      if !withinLimits { return Some(LimitReached); }
      var retried := if resume.Some? then UserMessage(messages, s, resume.value) else None;
      turns := turns[t := Turn(s, Running, None)];
      if retried.Some? && retried.value < |messages| {
        messages := messages[retried.value := messages[retried.value].(turn := t)];
      } else {
        messages := Append(messages, s, t, User, text);
      }
      UpdateSession(s, SRunning);
      return None;
    }

    /** A new Host over the tables of the old one: `failInterruptedTurns`, and no waiters. */
    method RestartHost()
      requires Valid()
      modifies this
      ensures fresh(broker) && Valid() && View() == Restart(old(View()))
    {
      turns := FailActive(turns);
      sessions := OpenActive(sessions);
      approvals := ExpireSet(approvals, AllPending(approvals), None);
      gates := map[];
      broker := new ApprovalBroker();
    }

    /** `replyDelivery`. */
    method ReportReply(t: Id, delivered: bool)
      requires Valid()
      modifies this
      ensures broker == old(broker) && Valid() && View() == ReplyDelivery(old(View()), t, delivered)
    {
      if t !in turns { return; }
      var undelivered := turns[t].status == Failed && turns[t].errorCode == Some(UNDELIVERED);
      if delivered {
        if undelivered {
          turns := turns[t := turns[t].(status := Succeeded, errorCode := None)];
        }
      } else if turns[t].status == Succeeded {
        turns := turns[t := turns[t].(status := Failed, errorCode := Some(UNDELIVERED))];
      }
    }

    // ---------- the sections of gateOne between its awaits ----------

    /** The call's request, after ExpireAll. */
    method OpenGate(g: Id, c: Call)
      requires Valid()
      modifies this
      ensures broker == old(broker) && Valid() && View() == GateOpen(old(View()), g, c)
    {
      if g in gates || c.turn.None? { return; }
      var answer := AnswerCall(c);
      if answer.Ok? {
        var approved := answer.value < |approvals| && approvals[answer.value].status == Approved;
        gates := gates[g := Gate(c.session, c.turn.value, c.tool, c.hash,
                                 if approved then Finished(true) else Requested(answer.value))];
      }
    }

    method ParkGate(g: Id)
      requires Valid()
      modifies this
      ensures broker == old(broker) && Valid() && View() == GatePark(old(View()), g)
    {
      if g !in gates || !gates[g].stage.Requested? { return; }
      var gate := gates[g];
      var a := gate.stage.approval;
      var answer := WaitOn(gate.turn, a);
      var next :=
        match answer
        case NowWaiting => Parked(a)
        case AlreadyDecided(status) => Finished(status == Approved)
        case Inactive => Finished(false);
      gates := gates[g := gate.(stage := next)];
    }

    method ListenGate(g: Id, stopped: bool)
      requires Valid()
      modifies this, broker
      ensures broker == old(broker) && Valid()
      ensures View() == GateListen(old(View()), g, stopped)
      requires g in gates && gates[g].stage.Parked? ==> g !in broker.View().waiting && g !in broker.View().outcomes
    {
      if g !in gates || !gates[g].stage.Parked? { return; }
      var a := gates[g].stage.approval;
      gates := gates[g := gates[g].(stage := Listening(a))];
      broker.Wait(g, a, stopped);
    }

    /** The turn of a waiting call is stopped. */
    method AbortGate(g: Id)
      requires Valid()
      modifies broker
      ensures Valid() && View() == GateAbort(old(View()), g)
    {
      var a := broker.ApprovalOf(g);
      if a.Some? {
        ToldOne(broker.View(), g, Aborted);
        broker.FinishOne(g, a.value, Aborted);
      }
    }

    /** The waiter's timer: it re-arms until the deadline has passed. */
    method TimerGate(g: Id)
      requires Valid()
      modifies broker
      ensures Valid() && View() == GateTimer(old(View()), g)
    {
      var a := broker.ApprovalOf(g);
      if a.Some? && a.value < |approvals| && approvals[a.value].expiresAt <= now {
        ToldOne(broker.View(), g, Decided(Expired));
        broker.FinishOne(g, a.value, Decided(Expired));
      }
    }

    method WakeGate(g: Id)
      requires Valid()
      modifies this, broker
      ensures broker == old(broker) && Valid() && View() == GateWake(old(View()), g)
    {
      if g !in gates || !gates[g].stage.Listening? || g !in broker.resolved { return; }
      var gate := gates[g];
      var a := gate.stage.approval;
      match broker.resolved[g]
      case Aborted =>
        CloseStopped(a);
        gates := gates[g := gate.(stage := Finished(false))];
      case Decided(s) =>
        if s == Expired {
          ExpireAll();
          gates := gates[g := gate.(stage := Returning(a))];
        } else {
          var _ := ResumeTurn(gate.turn);
          gates := gates[g := gate.(stage := Finished(s == Approved))];
        }
    }

    method ReturnGate(g: Id)
      requires Valid()
      modifies this
      ensures broker == old(broker) && Valid() && View() == GateReturn(old(View()), g)
    {
      if g !in gates || !gates[g].stage.Returning? { return; }
      var gate := gates[g];
      var _ := ResumeTurn(gate.turn);
      gates := gates[g := gate.(stage := Finished(false))];
    }
  }
}
