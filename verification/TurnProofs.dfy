/** What every run of the turn machine keeps of turns, deadlines and the transcript. */
module TurnProofs {
  import opened Options
  import opened TurnMachine
  import opened ApprovalProofs

  // ---------- a finished turn ----------

  /** The delivery reports of a run about one turn, applied in order. */
  function Replies(turn: Turn, t: Id, xs: seq<Action>): Turn
    decreases |xs|
  {
    if xs == [] then turn
    else Replies(if xs[0].DoReply? && xs[0].t == t then ReplyTurn(turn, xs[0].delivered) else turn, t, xs[1..])
  }

  function LastReport(t: Id, xs: seq<Action>): Option<bool>
    decreases |xs|
  {
    if xs == [] then None
    else
      var n := |xs| - 1;
      if xs[n].DoReply? && xs[n].t == t then Some(xs[n].delivered) else LastReport(t, xs[..n])
  }

  /** The one marker that may still move: succeeded, or failed only because the reply did not arrive. */
  predicate HasMarker(turn: Turn) {
    turn.status == Succeeded || (turn.status == Failed && turn.errorCode == Some(UNDELIVERED))
  }

  /** What the sections that only move approvals leave alone: turns, messages, clock and tool calls. */
  predicate Aside(st: State, st': State) {
    st'.turns == st.turns && st'.messages == st.messages && st'.now == st.now && st'.gates == st.gates
  }

  lemma ExpireDueAside(st: State)
    ensures Aside(st, ExpireDue(st))
  {
  }

  lemma CloseAside(st: State, a: nat)
    ensures Aside(st, CloseOne(st, a)) && Aside(st, Close(st, a))
  {
  }

  lemma AnswerAside(st: State, c: Call)
    ensures Aside(st, Answer(st, c).0)
  {
  }

  lemma DecideOneAside(st: State, a: nat, approve: bool)
    requires IsPending(st.approvals, a)
    ensures Aside(st, DecideOne(st, a, approve))
  {
    CloseAside(st, a);
  }

  lemma DecideAside(st: State, s: Id, approve: bool, permitted: bool, enabled: bool)
    ensures Aside(st, Decide(st, s, approve, permitted, enabled))
  {
    ExpireDueAside(st);
    var p := FirstPending(st.approvals, s);
    if p.Some? {
      DecideOneAside(st, p.value, approve);
    }
  }

  /** What waking a tool call does to turns: at most one waiting turn runs again. */
  lemma WakeTurns(st: State, g: Id)
    ensures GateWake(st, g).turns == st.turns ||
            (g in st.gates && GateWake(st, g).turns == Resume(st, st.gates[g].turn).turns)
  {
    if Wakeable(st, g) {
      TablesAside(st, st.gates[g].turn, st.broker.outcomes[g], st.gates[g].stage.approval);
    }
  }

  lemma TablesAside(st: State, t: Id, o: Outcome, a: nat)
    ensures var st' := WakeTables(st, t, o, a);
            st'.messages == st.messages && st'.now == st.now && (st'.turns == st.turns || st' == Resume(st, t))
  {
    ExpireDueAside(st);
    CloseAside(st, a);
  }

  predicate TouchesTurns(x: Action) {
    x.DoBegin? || x.DoWait? || x.DoResume? || x.DoFinish? || x.DoRestart? || x.DoReply? || x.DoGatePark? ||
      x.DoGateWake? || x.DoGateReturn?
  }

  lemma StepLeavesTurns(st: State, x: Action)
    requires !TouchesTurns(x)
    ensures Step(st, x).turns == st.turns && Step(st, x).messages == st.messages
  {
    match x
    case DoAnswer(c) => AnswerAside(st, c);
    case DoGateOpen(_, c) => AnswerAside(st, c);
    case DoDecide(s, approve, permitted, enabled) => DecideAside(st, s, approve, permitted, enabled);
    case DoExpire => ExpireDueAside(st);
    case DoClose(a) => CloseAside(st, a);
    case _ =>
  }

  /** What an action does to a turn row that is there already. */
  lemma StepTurn(st: State, x: Action, t: Id)
    requires t in st.turns
    ensures t in Step(st, x).turns
    ensures var was, now := st.turns[t], Step(st, x).turns[t];
            && now.session == was.session
            && (IsTerminal(was.status) ==> now == if x.DoReply? && x.t == t then ReplyTurn(was, x.delivered) else was)
  {
    if !TouchesTurns(x) {
      StepLeavesTurns(st, x);
    } else if x.DoGateWake? {
      WakeTurns(st, x.g);
    }
  }

  lemma {:induction false} RunFinished(st: State, xs: seq<Action>, t: Id)
    requires t in st.turns && IsTerminal(st.turns[t].status)
    ensures t in Run(st, xs).turns && Run(st, xs).turns[t] == Replies(st.turns[t], t, xs)
    ensures IsTerminal(Run(st, xs).turns[t].status)
    decreases |xs|
  {
    if xs != [] {
      StepTurn(st, xs[0], t);
      RunFinished(Step(st, xs[0]), xs[1..], t);
    }
  }

  lemma {:induction false} RepliesAppend(turn: Turn, t: Id, xs: seq<Action>, x: Action)
    ensures Replies(turn, t, xs + [x]) == Replies(Replies(turn, t, xs), t, [x])
    decreases |xs|
  {
    if xs == [] {
      assert [] + [x] == [x];
    } else {
      assert (xs + [x])[1..] == xs[1..] + [x];
      RepliesAppend(if xs[0].DoReply? && xs[0].t == t then ReplyTurn(turn, xs[0].delivered) else turn, t, xs[1..], x);
    }
  }

  lemma {:induction false} RepliesFollowLast(turn: Turn, t: Id, xs: seq<Action>)
    ensures HasMarker(Replies(turn, t, xs)) == HasMarker(turn)
    ensures !HasMarker(turn) || LastReport(t, xs).None? ==> Replies(turn, t, xs) == turn
    ensures HasMarker(turn) && LastReport(t, xs).Some? ==>
              (Replies(turn, t, xs).status == Succeeded <==> LastReport(t, xs).value)
    ensures Replies(turn, t, xs).session == turn.session
    decreases |xs|
  {
    if xs != [] {
      var n := |xs| - 1;
      assert xs == xs[..n] + [xs[n]];
      RepliesFollowLast(turn, t, xs[..n]);
      RepliesAppend(turn, t, xs[..n], xs[n]);
      assert Replies(Replies(turn, t, xs[..n]), t, [xs[n]]) ==
        if xs[n].DoReply? && xs[n].t == t then ReplyTurn(Replies(turn, t, xs[..n]), xs[n].delivered)
          else Replies(turn, t, xs[..n]);
    }
  }

  /** A finished turn never becomes active again. Without the delivery marker its row never changes;
      with it, the turn counts as succeeded exactly when the last delivery report said so. */
  lemma TurnFinal(st: State, xs: seq<Action>, t: Id)
    requires t in st.turns && IsTerminal(st.turns[t].status)
    ensures t in Run(st, xs).turns
    ensures var was, now := st.turns[t], Run(st, xs).turns[t];
            && IsTerminal(now.status) && now.session == was.session
            && HasMarker(now) == HasMarker(was)
            && (!HasMarker(was) || LastReport(t, xs).None? ==> now == was)
            && (HasMarker(was) && LastReport(t, xs).Some? ==> (now.status == Succeeded <==> LastReport(t, xs).value))
  {
    RunFinished(st, xs, t);
    RepliesFollowLast(st.turns[t], t, xs);
  }

  // ---------- deadlines and ended turns ----------

  /** Only a decision in time, on a turn that is not over, approves a row. */
  lemma StepApproves(st: State, x: Action, i: nat)
    requires i < |st.approvals| && st.approvals[i].status != Approved
    requires i < |Step(st, x).approvals| && Step(st, x).approvals[i].status == Approved
    ensures x.DoDecide? && x.approve && x.permitted && x.enabled && x.s == st.approvals[i].session
    ensures IsPending(st.approvals, i) && st.now < st.approvals[i].expiresAt && !TurnOver(st, i)
  {
    match x
    case DoAnswer(c) => AnswerApprovesNothing(st, c);
    case DoGateOpen(_, c) => AnswerApprovesNothing(st, c);
    case DoDecide(s, approve, permitted, enabled) => DecideApproves(st, s, approve, permitted, enabled, i);
    case DoGateWake(g) => WakeApprovesNothing(st, g);
    case _ => if TouchesApprovals(x) { ExpiringApprovesNothing(st, x, i); } else { StepLeaves(st, x); }
  }

  lemma ExpiringApprovesNothing(st: State, x: Action, i: nat)
    requires x.DoExpire? || x.DoFinish? || x.DoClose? || x.DoRestart?
    requires i < |st.approvals| && st.approvals[i].status != Approved
    ensures i < |Step(st, x).approvals| && Step(st, x).approvals[i].status != Approved
  {
  }

  lemma DecideApproves(st: State, s: Id, approve: bool, permitted: bool, enabled: bool, i: nat)
    requires i < |st.approvals| && st.approvals[i].status != Approved
    requires var st' := Decide(st, s, approve, permitted, enabled);
             i < |st'.approvals| && st'.approvals[i].status == Approved
    ensures approve && permitted && enabled && s == st.approvals[i].session
    ensures IsPending(st.approvals, i) && st.now < st.approvals[i].expiresAt && !TurnOver(st, i)
  {
  }

  lemma AnswerApprovesNothing(st: State, c: Call)
    ensures forall i :: 0 <= i < |Answer(st, c).0.approvals| && Answer(st, c).0.approvals[i].status == Approved ==>
                          i < |st.approvals| && st.approvals[i].status == Approved
  {
    AnswerLeaves(st, c);
  }

  lemma WakeApprovesNothing(st: State, g: Id)
    ensures forall i :: 0 <= i < |GateWake(st, g).approvals| && GateWake(st, g).approvals[i].status == Approved ==>
                          i < |st.approvals| && st.approvals[i].status == Approved
  {
  }

  /** Out of reach of an approval: not approved, and past its deadline or its turn over. */
  ghost predicate OutOfReach(st: State, i: nat) {
    i < |st.approvals| && st.approvals[i].status != Approved && (st.approvals[i].expiresAt <= st.now || TurnOver(st, i))
  }

  lemma StepClock(st: State, x: Action)
    ensures st.now <= Step(st, x).now
  {
    match x
    case DoAnswer(c) => AnswerAside(st, c);
    case DoGateOpen(_, c) => AnswerAside(st, c);
    case DoDecide(s, approve, permitted, enabled) => DecideAside(st, s, approve, permitted, enabled);
    case DoClose(a) => CloseAside(st, a);
    case DoGateWake(g) => WakeMessages(st, g);
    case DoGatePark(g) => ParkClock(st, g);
    case DoExpire => ExpireDueAside(st);
    case _ => OtherClock(st, x);
  }

  lemma ParkClock(st: State, g: Id)
    ensures GatePark(st, g).now == st.now
  {
  }

  lemma OtherClock(st: State, x: Action)
    requires !TouchesApprovals(x) || x.DoFinish? || x.DoRestart?
    requires !x.DoGatePark?
    ensures st.now <= Step(st, x).now
  {
  }

  /** Once the deadline of an approval has passed, or its turn has ended, it can never become approved. */
  lemma {:induction false} NeverApprovedLate(st: State, xs: seq<Action>, i: nat)
    requires OutOfReach(st, i)
    ensures OutOfReach(Run(st, xs), i)
    decreases |xs|
  {
    if xs != [] {
      StepOk(st, xs[0]);
      StepClock(st, xs[0]);
      var st' := Step(st, xs[0]);
      if TurnOver(st, i) {
        StepTurn(st, xs[0], st.approvals[i].turn.value);
      }
      if st'.approvals[i].status == Approved {
        StepApproves(st, xs[0], i);
      }
      NeverApprovedLate(st', xs[1..], i);
    }
  }

  // ---------- the transcript ----------

  /** Messages of a session are numbered 1, 2, 3, ... in order. */
  ghost predicate Numbered(ms: seq<Message>) {
    forall i :: 0 <= i < |ms| ==> ms[i].number == CountOf(ms[..i], ms[i].session) + 1
  }

  /** A turn has at most one message of each role. */
  ghost predicate OnePerRole(ms: seq<Message>) {
    forall i, j :: 0 <= i < j < |ms| && ms[i].role == ms[j].role ==> ms[i].turn != ms[j].turn
  }

  /** A message belongs to a known turn of its session; a reply belongs to a finished one. */
  ghost predicate Owned(ms: seq<Message>, turns: map<Id, Turn>) {
    forall i :: 0 <= i < |ms| ==>
      ms[i].turn in turns && turns[ms[i].turn].session == ms[i].session &&
      (ms[i].role == Assistant ==> IsTerminal(turns[ms[i].turn].status))
  }

  ghost predicate TranscriptOk(st: State) {
    Numbered(st.messages) && OnePerRole(st.messages) && Owned(st.messages, st.turns)
  }

  lemma {:induction false} MaxIsCount(ms: seq<Message>, s: Id)
    requires Numbered(ms)
    ensures MaxNumber(ms, s) == CountOf(ms, s)
  {
    if ms != [] {
      var rest := ms[..|ms| - 1];
      assert forall i :: 0 <= i < |rest| ==> rest[i] == ms[i] && rest[..i] == ms[..i];
      MaxIsCount(rest, s);
    }
  }

  lemma AppendNumbered(ms: seq<Message>, s: Id, t: Id, role: Role, text: string)
    requires Numbered(ms)
    ensures Numbered(Append(ms, s, t, role, text))
  {
    var b := Append(ms, s, t, role, text);
    MaxIsCount(ms, s);
    assert forall i :: 0 <= i < |ms| ==> b[..i] == ms[..i];
    assert b[..|ms|] == ms;
  }

  lemma {:induction false} CountSame(ms: seq<Message>, ns: seq<Message>, s: Id)
    requires |ms| == |ns| && forall i :: 0 <= i < |ms| ==> ms[i].session == ns[i].session
    ensures CountOf(ms, s) == CountOf(ns, s)
  {
    if ms != [] {
      CountSame(ms[..|ms| - 1], ns[..|ns| - 1], s);
    }
  }

  lemma MoveNumbered(ms: seq<Message>, k: nat, t: Id)
    requires Numbered(ms) && k < |ms|
    ensures Numbered(ms[k := ms[k].(turn := t)])
  {
    var b := ms[k := ms[k].(turn := t)];
    forall i | 0 <= i < |b| ensures b[i].number == CountOf(b[..i], b[i].session) + 1 {
      CountSame(ms[..i], b[..i], b[i].session);
    }
  }

  lemma {:induction false} UserMessageFinds(ms: seq<Message>, s: Id, t: Id)
    ensures match UserMessage(ms, s, t)
            case Some(i) => i < |ms| && ms[i].session == s && ms[i].turn == t && ms[i].role == User
            case None => forall i :: 0 <= i < |ms| ==> !(ms[i].session == s && ms[i].turn == t && ms[i].role == User)
  {
    if ms != [] {
      UserMessageFinds(ms[..|ms| - 1], s, t);
    }
  }

  /** A user message that another turn takes over. */
  lemma MoveOwned(ms: seq<Message>, turns: map<Id, Turn>, k: nat, s: Id, t: Id, ns: seq<Message>)
    requires OnePerRole(ms) && Owned(ms, turns) && t !in turns
    requires k < |ms| && ms[k].session == s && ms[k].role == User && ns == ms[k := ms[k].(turn := t)]
    ensures OnePerRole(ns) && Owned(ns, turns[t := Turn(s, Running, None)])
  {
    assert forall i :: 0 <= i < |ms| && i != k ==> ns[i] == ms[i] && ms[i].turn != t;
  }

  /** A new message, of a role that its turn has none of yet. */
  lemma PushOwned(ms: seq<Message>, turns: map<Id, Turn>, m: Message, after: map<Id, Turn>)
    requires OnePerRole(ms) && Owned(ms, turns) && TurnsGrow(turns, after)
    requires forall i :: 0 <= i < |ms| && ms[i].role == m.role ==> ms[i].turn != m.turn
    requires m.turn in after && after[m.turn].session == m.session
    requires m.role == Assistant ==> IsTerminal(after[m.turn].status)
    ensures OnePerRole(ms + [m]) && Owned(ms + [m], after)
  {
  }

  lemma SameOwned(ms: seq<Message>, turns: map<Id, Turn>, after: map<Id, Turn>)
    requires Owned(ms, turns) && TurnsGrow(turns, after)
    ensures Owned(ms, after)
  {
  }

  lemma BeginOwned(ms: seq<Message>, turns: map<Id, Turn>, s: Id, t: Id, text: string)
    requires OnePerRole(ms) && Owned(ms, turns) && t !in turns
    ensures var ns := Append(ms, s, t, User, text); OnePerRole(ns) && Owned(ns, turns[t := Turn(s, Running, None)])
  {
    PushOwned(ms, turns, Message(s, MaxNumber(ms, s) + 1, t, User, text), turns[t := Turn(s, Running, None)]);
  }

  lemma BeginTranscript(st: State, s: Id, t: Id, text: string, resume: Option<Id>, enabled: bool, withinLimits: bool)
    requires TranscriptOk(st)
    ensures TranscriptOk(Begin(st, s, t, text, resume, enabled, withinLimits))
  {
    if Begin(st, s, t, text, resume, enabled, withinLimits) != st {
      var k := if resume.Some? then UserMessage(st.messages, s, resume.value) else None;
      if k.Some? {
        UserMessageFinds(st.messages, s, resume.value);
        MoveNumbered(st.messages, k.value, t);
        MoveOwned(st.messages, st.turns, k.value, s, t, st.messages[k.value := st.messages[k.value].(turn := t)]);
      } else {
        AppendNumbered(st.messages, s, t, User, text);
        BeginOwned(st.messages, st.turns, s, t, text);
      }
    }
  }

  lemma ReplyOwned(ms: seq<Message>, turns: map<Id, Turn>, t: Id, turn: Turn, reply: string)
    requires OnePerRole(ms) && Owned(ms, turns)
    requires t in turns && !IsTerminal(turns[t].status) && turn.session == turns[t].session && IsTerminal(turn.status)
    ensures var ns := if reply == "" then ms else Append(ms, turn.session, t, Assistant, reply);
            OnePerRole(ns) && Owned(ns, turns[t := turn])
  {
    SameOwned(ms, turns, turns[t := turn]);
    assert forall i :: 0 <= i < |ms| && ms[i].role == Assistant ==> ms[i].turn != t;
    PushOwned(ms, turns, Message(turn.session, MaxNumber(ms, turn.session) + 1, t, Assistant, reply), turns[t := turn]);
  }

  lemma FinishTranscript(st: State, t: Id, e: Ending)
    requires TranscriptOk(st) && IsTerminal(e.status)
    ensures TranscriptOk(Finish(st, t, e))
  {
    if t in st.turns && !IsTerminal(st.turns[t].status) {
      AppendNumbered(st.messages, st.turns[t].session, t, Assistant, e.reply);
      ReplyOwned(st.messages, st.turns, t, st.turns[t].(status := e.status, errorCode := e.errorCode), e.reply);
    }
  }

  /** Turns only gain rows, keep their session, and once over stay over. */
  ghost predicate TurnsGrow(m: map<Id, Turn>, n: map<Id, Turn>) {
    forall t <- m :: t in n && n[t].session == m[t].session && (IsTerminal(m[t].status) ==> IsTerminal(n[t].status))
  }

  lemma StepTurnsGrow(st: State, x: Action)
    ensures TurnsGrow(st.turns, Step(st, x).turns)
  {
    forall t <- st.turns
      ensures t in Step(st, x).turns && Step(st, x).turns[t].session == st.turns[t].session
      ensures IsTerminal(st.turns[t].status) ==> IsTerminal(Step(st, x).turns[t].status)
    {
      StepTurn(st, x, t);
    }
  }

  lemma WakeMessages(st: State, g: Id)
    ensures GateWake(st, g).messages == st.messages && GateWake(st, g).now == st.now
  {
    if Wakeable(st, g) {
      TablesAside(st, st.gates[g].turn, st.broker.outcomes[g], st.gates[g].stage.approval);
    }
  }

  lemma StepMessages(st: State, x: Action)
    requires !x.DoBegin? && !x.DoFinish?
    ensures Step(st, x).messages == st.messages
  {
    if !TouchesTurns(x) {
      StepLeavesTurns(st, x);
    } else {
      match x
      case DoGateWake(g) => WakeMessages(st, g);
      case DoGatePark(g) =>
      case DoGateReturn(g) =>
      case DoRestart =>
      case DoReply(_, _) =>
      case DoWait(_, _) =>
      case DoResume(_) =>
    }
  }

  lemma {:induction false} RunTranscript(st: State, xs: seq<Action>)
    requires TranscriptOk(st)
    ensures TranscriptOk(Run(st, xs))
    decreases |xs|
  {
    if xs != [] {
      var x := xs[0];
      StepTurnsGrow(st, x);
      if x.DoBegin? {
        BeginTranscript(st, x.s, x.t, x.text, x.resume, x.enabled, x.withinLimits);
      } else if x.DoFinish? && IsTerminal(x.e.status) {
        FinishTranscript(st, x.t, x.e);
      } else if !x.DoFinish? {
        StepMessages(st, x);
      }
      RunTranscript(Step(st, x), xs[1..]);
    }
  }

  /** In every reachable state sequence numbers run 1..n in each session, no turn has two user or two
      assistant messages, and only a finished turn has a reply. */
  lemma TranscriptInEveryRun(xs: seq<Action>)
    ensures TranscriptOk(Run(INIT, xs))
  {
    RunTranscript(INIT, xs);
  }

  /** What a message says and where it stands; only the turn of a user message may change. */
  predicate SameMessage(m: Message, n: Message) {
    n == m.(turn := n.turn) && (m.role == Assistant ==> n == m)
  }

  /** The transcript is append-only. */
  ghost predicate Extends(ms: seq<Message>, ns: seq<Message>) {
    |ms| <= |ns| && forall i :: 0 <= i < |ms| ==> SameMessage(ms[i], ns[i])
  }

  lemma {:induction false} TranscriptAppendOnly(st: State, xs: seq<Action>)
    ensures Extends(st.messages, Run(st, xs).messages)
    decreases |xs|
  {
    if xs != [] {
      var x := xs[0];
      if x.DoBegin? {
        if x.resume.Some? {
          UserMessageFinds(st.messages, x.s, x.resume.value);
        }
      } else if !x.DoFinish? {
        StepMessages(st, x);
      }
      assert Extends(st.messages, Step(st, x).messages);
      TranscriptAppendOnly(Step(st, x), xs[1..]);
    }
  }

  /** A retry that starts takes over the earlier turn's message: nothing is added, that message now
      belongs to the new turn, and the earlier turn is left without one. */
  lemma RetryMoves(xs: seq<Action>, s: Id, t: Id, text: string, from: Id)
    ensures var st := Run(INIT, xs);
            var st' := Begin(st, s, t, text, Some(from), true, true);
            st' != st && UserMessage(st.messages, s, from).Some? ==>
              && |st'.messages| == |st.messages|
              && UserMessage(st'.messages, s, t) == UserMessage(st.messages, s, from)
              && UserMessage(st'.messages, s, from) == None
              && Extends(st.messages, st'.messages)
  {
    var st := Run(INIT, xs);
    RunTranscript(INIT, xs);
    var k := UserMessage(st.messages, s, from);
    UserMessageFinds(st.messages, s, from);
    if Begin(st, s, t, text, Some(from), true, true) != st && k.Some? {
      MoveFinds(st.messages, st.turns, k.value, s, t, from);
    }
  }

  lemma MoveFinds(ms: seq<Message>, turns: map<Id, Turn>, k: nat, s: Id, t: Id, from: Id)
    requires OnePerRole(ms) && Owned(ms, turns) && t !in turns
    requires k < |ms| && ms[k].session == s && ms[k].turn == from && ms[k].role == User
    ensures var ns := ms[k := ms[k].(turn := t)];
            UserMessage(ns, s, t) == Some(k) && UserMessage(ns, s, from) == None
  {
    var ns := ms[k := ms[k].(turn := t)];
    UserMessageFinds(ns, s, t);
    UserMessageFinds(ns, s, from);
    assert ns[k].turn == t && ns[k].role == User && ns[k].session == s;
    assert forall i :: 0 <= i < |ms| && i != k ==> ns[i] == ms[i] && ms[i].turn != t;
  }
}
