/** What each step of the turn machine does, told by the rows it leaves: ending and beginning a turn,
    deciding, expiring and answering, and a restart. */
module TurnEffects {
  import opened Options
  import opened TurnMachine
  import opened ApprovalProofs
  import opened TurnProofs
  import opened ActiveTurns

  // ---------- ending a turn ----------

  /** One message more, the rest as it was. */
  predicate OneMore(ms: seq<Message>, ns: seq<Message>, s: Id, t: Id, role: Role, text: string) {
    |ns| == |ms| + 1 && ns[..|ms|] == ms &&
    var m := ns[|ms|]; m.session == s && m.turn == t && m.role == role && m.text == text
  }

  predicate PendingFor(row: Approval, t: Id) { row.status == Pending && row.turn == Some(t) }

  predicate ExpiredNow(row: Approval, after: Approval, now: int) {
    after == row.(status := Expired, decidedAt := Some(now))
  }

  /** The waiters on some approvals are told an outcome and wait no more; the others are as they were. */
  ghost predicate ToldOn(b: Broker, c: Broker, on: nat -> bool, o: Outcome) {
    && (forall w <- b.waiting :: if on(b.waiting[w]) then w !in c.waiting && w in c.outcomes && c.outcomes[w] == o
                                 else w in c.waiting && c.waiting[w] == b.waiting[w])
    && (forall w <- c.waiting :: w in b.waiting)
  }

  /** The turn has ended as asked: its session and its row say so, it has no pending approval and those it
      had have expired with their waiters told, and its reply is the last message. Nothing else moved. */
  ghost predicate Ended(st: State, t: Id, e: Ending, st': State) {
    && t in st.turns
    && st'.turns == st.turns[t := Turn(st.turns[t].session, e.status, e.errorCode)]
    && st'.sessions.Keys == st.sessions.Keys
    && (forall s <- st.sessions ::
          st'.sessions[s] == if s == st.turns[t].session then e.sessionStatus else st.sessions[s])
    && |st'.approvals| == |st.approvals|
    && (forall i :: 0 <= i < |st.approvals| ==>
          if PendingFor(st.approvals[i], t) then ExpiredNow(st.approvals[i], st'.approvals[i], st.now)
          else st'.approvals[i] == st.approvals[i])
    && (if e.reply == "" then st'.messages == st.messages
        else OneMore(st.messages, st'.messages, st.turns[t].session, t, Assistant, e.reply))
    && ToldOn(st.broker, st'.broker, (i: nat) => i < |st.approvals| && PendingFor(st.approvals[i], t), Decided(Expired))
    && st'.executed == st.executed && st'.gates == st.gates && st'.now == st.now
  }

  lemma FinishEnds(st: State, t: Id, e: Ending, st': State)
    requires t in st.turns && !IsTerminal(st.turns[t].status) && IsTerminal(e.status) && st' == Step(st, DoFinish(t, e))
    ensures Ended(st, t, e, st')
  {
  }

  /** An unknown turn, or one that is over, is left alone with everything else. */
  lemma FinishRefuses(st: State, t: Id, e: Ending)
    requires t !in st.turns || IsTerminal(st.turns[t].status)
    ensures Step(st, DoFinish(t, e)) == st
  {
  }

  /** Once a turn has ended and left its session open, the next turn of it may begin. */
  lemma EndedLetsBegin(st: State, t: Id, e: Ending, st': State)
    requires Ended(st, t, e, st') && st.turns[t].session in st.sessions && e.sessionStatus == SOpen
    ensures BeginRefused(st', st.turns[t].session, true, true).None?
    ensures forall i :: 0 <= i < |st'.approvals| ==> !PendingFor(st'.approvals[i], t)
  {
  }

  ghost predicate SessionsKnown(st: State) {
    forall t <- st.turns :: st.turns[t].session in st.sessions
  }

  lemma ExpireSessions(st: State)
    ensures ExpireDue(st).sessions.Keys == st.sessions.Keys
  {
  }

  lemma CloseSessions(st: State, a: nat)
    ensures Close(st, a).sessions.Keys == st.sessions.Keys && CloseOne(st, a).sessions.Keys == st.sessions.Keys
  {
  }

  lemma DecideSessions(st: State, x: Action)
    requires x.DoDecide?
    ensures st.sessions.Keys <= Step(st, x).sessions.Keys
  {
    var p := FirstPending(st.approvals, x.s);
    ExpireSessions(st);
    if p.Some? { CloseSessions(st, p.value); }
  }

  lemma TablesSessions(st: State, t: Id, o: Outcome, a: nat)
    ensures st.sessions.Keys <= WakeTables(st, t, o, a).sessions.Keys
  {
    match o
    case Aborted => CloseSessions(st, a);
    case Decided(s) => if s == Expired { ExpireSessions(st); }
  }

  lemma WakeSessions(st: State, g: Id)
    ensures st.sessions.Keys <= GateWake(st, g).sessions.Keys
  {
    if Wakeable(st, g) {
      TablesSessions(st, st.gates[g].turn, st.broker.outcomes[g], st.gates[g].stage.approval);
    }
  }

  lemma StepSessions(st: State, x: Action)
    ensures st.sessions.Keys <= Step(st, x).sessions.Keys
  {
    match x
    case DoDecide(_, _, _, _) => DecideSessions(st, x);
    case DoGateWake(g) => WakeSessions(st, g);
    case DoExpire => ExpireSessions(st);
    case DoClose(a) => CloseSessions(st, a);
    case _ =>
  }

  lemma {:induction false} RunKnown(st: State, xs: seq<Action>)
    requires SessionsKnown(st)
    ensures SessionsKnown(Run(st, xs))
    decreases |xs|
  {
    if xs != [] {
      var st', x := Step(st, xs[0]), xs[0];
      StepSessions(st, x);
      forall t <- st'.turns ensures st'.turns[t].session in st'.sessions {
        if t in st.turns { StepTurn(st, x, t); } else { StepKeys(st, x, t); BeginsBusy(st, x, x.s); }
      }
      RunKnown(st', xs[1..]);
    }
  }

  /** In every run the session of a turn is there. */
  lemma TurnHasSession(xs: seq<Action>, t: Id)
    requires t in Run(INIT, xs).turns
    ensures Run(INIT, xs).turns[t].session in Run(INIT, xs).sessions
  {
    RunKnown(INIT, xs);
  }

  // ---------- beginning a turn ----------

  /** A user message of the session that the turn to be retried left. */
  predicate LeftBy(m: Message, s: Id, from: Option<Id>) {
    from.Some? && m.session == s && m.turn == from.value && m.role == User
  }

  /** The turn runs, its session is busy, and it has a user message: one that the retried turn left, moved
      over as it is, or if there is none a new one with the text. Nothing else moved. */
  ghost predicate Began(st: State, s: Id, t: Id, text: string, from: Option<Id>, st': State) {
    && st'.turns == st.turns[t := Turn(s, Running, None)]
    && st'.sessions == st.sessions[s := SRunning]
    && st'.approvals == st.approvals && st'.executed == st.executed && st'.broker == st.broker
    && st'.gates == st.gates && st'.now == st.now
    && (if exists i :: 0 <= i < |st.messages| && LeftBy(st.messages[i], s, from)
        then exists i :: 0 <= i < |st.messages| && LeftBy(st.messages[i], s, from) &&
                         st'.messages == st.messages[i := st.messages[i].(turn := t)]
        else OneMore(st.messages, st'.messages, s, t, User, text))
  }

  lemma BeginBegins(st: State, x: Action, st': State)
    requires x.DoBegin? && x.t !in st.turns && st' == Step(st, x)
    ensures if BeginRefused(st, x.s, x.enabled, x.withinLimits).Some? then st' == st
            else Began(st, x.s, x.t, x.text, x.resume, st')
  {
    if x.resume.Some? {
      UserMessageFinds(st.messages, x.s, x.resume.value);
    }
  }

  /** When a turn may begin, and why not: the first of the checks that fails. */
  lemma BeginIff(st: State, s: Id, enabled: bool, withinLimits: bool)
    ensures var r, known := BeginRefused(st, s, enabled, withinLimits), s in st.sessions;
            var busy := known && (st.sessions[s] == SRunning || st.sessions[s] == SWaiting);
            && (r == Some(NoSession) <==> !known)
            && (r == Some(TurnsDisabled) <==> known && !enabled)
            && (r == Some(SessionBusy) <==> known && enabled && busy)
            && (r == Some(LimitReached) <==> known && enabled && !busy && !withinLimits)
            && (r == None <==> known && enabled && !busy && withinLimits)
  {
  }

  // ---------- answering a call ----------

  /** The approval that a call raises asks for just that call, until its timeout. */
  predicate Asks(row: Approval, c: Call, now: int) {
    row.session == c.session && row.turn == c.turn && row.tool == c.tool && row.hash == c.hash &&
    row.status == Pending && row.expiresAt == now + c.timeout && row.decidedAt == None
  }

  /** What a call that is not refused is answered, by the rows of its session: the approval of its payload
      if it has one; else the pending one if that is for the same tool and payload, and busy if it is
      for another; else a new one, on which the session waits. */
  lemma AnswerMeans(xs: seq<Action>, c: Call)
    requires Refused(Run(INIT, xs), c).None?
    ensures var st := Run(INIT, xs);
            var (st', answer) := Answer(st, c);
            && (forall i :: 0 <= i < |st.approvals| && st.approvals[i].session == c.session ==>
                  (st.approvals[i].status == Approved && st.approvals[i].hash == c.hash ==>
                     st' == st && answer == Ok(i)) &&
                  (st.approvals[i].status == Pending && !HasApproved(st.approvals, c.session, c.hash) ==>
                     st' == st &&
                     answer == if st.approvals[i].tool == c.tool && st.approvals[i].hash == c.hash then Ok(i)
                       else Err(Busy)))
            && (NothingStands(st, c) ==>
                  answer == Ok(|st.approvals|) && |st'.approvals| == |st.approvals| + 1 &&
                    st'.approvals[..|st.approvals|] == st.approvals &&
                  Asks(st'.approvals[|st.approvals|], c, st.now) && st'.sessions == st.sessions[c.session := SWaiting])
  {
    var st := Run(INIT, xs);
    RunOk(INIT, xs);
    AnswerPrompts(st, c);
    forall i: nat | i < |st.approvals| && st.approvals[i].session == c.session
      ensures st.approvals[i].status == Approved && st.approvals[i].hash == c.hash ==> Answer(st, c) == (st, Ok(i))
      ensures st.approvals[i].status == Pending ==> FirstPending(st.approvals, c.session) == Some(i)
    {
      if st.approvals[i].status == Approved && st.approvals[i].hash == c.hash {
        ApprovedIsLatest(st.approvals, st.executed, i);
      }
      if st.approvals[i].status == Pending { OnlyPending(st, i); }
    }
  }

  /** The pending approval of a session is the one that is found. */
  lemma OnlyPending(st: State, i: nat)
    requires PendingIsLast(st.approvals) && IsPending(st.approvals, i)
    ensures FirstPending(st.approvals, st.approvals[i].session) == Some(i)
  {
    assert i in PendingOf(st.approvals, st.approvals[i].session);
  }

  /** The refusals, in order. */
  lemma RefusedMeans(st: State, c: Call)
    ensures Refused(st, c) == if c.session !in st.sessions then Some(NotFound) else if !c.enabled then Some(Disabled)
                              else if !c.granted then Some(NotGranted) else if !c.askFirst then Some(NotRequired)
                                else None
    ensures Refused(st, c).Some? ==> Answer(st, c) == (st, Err(Refused(st, c).value))
  {
  }

  // ---------- deciding ----------

  predicate TurnIsOver(st: State, row: Approval) {
    row.turn.Some? && row.turn.value in st.turns && IsTerminal(st.turns[row.turn.value].status)
  }

  /** A permitted decision on a known session, before the deadline and for a turn that is not over, leaves
      the pending approval as it says; only then does the row become approved or denied. */
  lemma DecideIff(xs: seq<Action>, i: nat, approve: bool, permitted: bool, enabled: bool)
    requires IsPending(Run(INIT, xs).approvals, i)
    ensures var st := Run(INIT, xs);
            var row := st.approvals[i];
            var st' := Step(st, DoDecide(row.session, approve, permitted, enabled));
            var heard := row.session in st.sessions && permitted && st.now < row.expiresAt && !TurnIsOver(st, row);
            && |st'.approvals| == |st.approvals|
            && (st'.approvals[i].status == Approved <==> heard && approve && enabled)
            && (st'.approvals[i].status == Denied <==> heard && !approve)
  {
    var st := Run(INIT, xs);
    RunOk(INIT, xs);
    OnlyPending(st, i);
    DecideRow(st, i, approve, permitted, enabled);
  }

  lemma DecideRow(st: State, i: nat, approve: bool, permitted: bool, enabled: bool)
    requires IsPending(st.approvals, i) && FirstPending(st.approvals, st.approvals[i].session) == Some(i)
    ensures var row := st.approvals[i];
            var st' := Step(st, DoDecide(row.session, approve, permitted, enabled));
            var heard := row.session in st.sessions && permitted && st.now < row.expiresAt && !TurnIsOver(st, row);
            && |st'.approvals| == |st.approvals|
            && (st'.approvals[i].status == Approved <==> heard && approve && enabled)
            && (st'.approvals[i].status == Denied <==> heard && !approve)
  {
  }

  predicate IsOpenFor(row: Approval, s: Id) { row.status == Pending && row.session == s }

  /** What a decision answers: in every run the row that it decided, or the first check that fails. */
  lemma DecideAnswers(xs: seq<Action>, s: Id, approve: bool, permitted: bool, enabled: bool)
    ensures var st := Run(INIT, xs);
            var answer := DecideAnswer(st, s, approve, permitted, enabled);
            && (answer == Err(SessionNotFound) <==> s !in st.sessions)
            && (answer == Err(Forbidden) <==> s in st.sessions && !permitted)
            && (s in st.sessions && permitted ==>
                  forall i :: 0 <= i < |st.approvals| && IsOpenFor(st.approvals[i], s) ==>
                    answer == if st.approvals[i].expiresAt <= st.now then Err(DeadlinePassed)
                              else if approve && !enabled then Err(AgentDisabled)
                              else if TurnIsOver(st, st.approvals[i]) then Err(NotPending)
                              else Ok(i))
            && ((forall row <- st.approvals :: !IsOpenFor(row, s)) && s in st.sessions && permitted ==>
                  answer == Err(NotPending))
  {
    var st := Run(INIT, xs);
    RunOk(INIT, xs);
    var found := FirstPending(st.approvals, s);
    assert found.Some? ==> st.approvals[found.value] in st.approvals && IsOpenFor(st.approvals[found.value], s);
    forall i: nat | i < |st.approvals| && IsOpenFor(st.approvals[i], s)
      ensures FirstPending(st.approvals, s) == Some(i)
    {
      OnlyPending(st, i);
    }
  }

  /** A decision that is heard: only the row changes, the session opens, its waiters are told, and an
      approved payload is remembered. */
  ghost predicate DecidedAs(st: State, i: nat, approve: bool, st': State)
    requires i < |st.approvals|
  {
    var row, status := st.approvals[i], if approve then Approved else Denied;
    && st'.approvals == st.approvals[i := row.(status := status, decidedAt := Some(st.now))]
    && st'.executed == (if approve then st.executed + {(row.session, row.hash)} else st.executed)
    && row.session in st.sessions && st'.sessions == st.sessions[row.session := SOpen]
    && ToldOn(st.broker, st'.broker, (k: nat) => k == i, Decided(status))
    && st'.turns == st.turns && st'.messages == st.messages && st'.gates == st.gates && st'.now == st.now
  }

  lemma DecideDecides(st: State, i: nat, approve: bool, st': State)
    requires IsPending(st.approvals, i) && FirstPending(st.approvals, st.approvals[i].session) == Some(i)
    requires st.approvals[i].session in st.sessions && st.now < st.approvals[i].expiresAt &&
             !TurnIsOver(st, st.approvals[i])
    requires st' == Step(st, DoDecide(st.approvals[i].session, approve, true, true))
    ensures DecidedAs(st, i, approve, st')
  {
  }

  // ---------- expiring, closing, resuming, restarting ----------

  predicate IsDue(row: Approval, now: int) { row.status == Pending && row.expiresAt <= now }

  /** Exactly what is due has expired: its waiters are told, and sessions that wait on it are open. */
  ghost predicate ExpiredDue(st: State, st': State) {
    && |st'.approvals| == |st.approvals|
    && (forall i :: 0 <= i < |st.approvals| ==>
          if IsDue(st.approvals[i], st.now) then ExpiredNow(st.approvals[i], st'.approvals[i], st.now)
          else st'.approvals[i] == st.approvals[i])
    && st'.sessions.Keys == st.sessions.Keys
    && (forall s <- st.sessions :: st'.sessions[s] ==
          if st.sessions[s] == SWaiting &&
            (exists i :: 0 <= i < |st.approvals| && st.approvals[i].session == s && IsDue(st.approvals[i], st.now))
          then SOpen else st.sessions[s])
    && ToldOn(st.broker, st'.broker, (i: nat) => i < |st.approvals| && IsDue(st.approvals[i], st.now), Decided(Expired))
    && st'.turns == st.turns && st'.messages == st.messages && st'.executed == st.executed &&
       st'.gates == st.gates && st'.now == st.now
  }

  lemma ExpireExpires(st: State, st': State)
    requires st' == Step(st, DoExpire)
    ensures ExpiredDue(st, st')
  {
    var due := Due(st.approvals, st.now);
    assert forall i: nat :: i in due <==> i < |st.approvals| && IsDue(st.approvals[i], st.now);
    assert st'.approvals == ExpireSet(st.approvals, due, Some(st.now));
    forall s <- st.sessions
      ensures (exists i: nat :: i in due && i < |st.approvals| && st.approvals[i].session == s) <==>
              (exists i :: 0 <= i < |st.approvals| && st.approvals[i].session == s && IsDue(st.approvals[i], st.now))
    {
      if exists i :: 0 <= i < |st.approvals| && st.approvals[i].session == s && IsDue(st.approvals[i], st.now) {
        var i :| 0 <= i < |st.approvals| && st.approvals[i].session == s && IsDue(st.approvals[i], st.now);
        var k: nat := i;
        assert k in due;
      }
    }
  }

  /** Closing a stopped call's approval expires it if it is pending, and opens the session if it waits. */
  lemma CloseMeans(st: State, a: nat, st': State)
    requires a < |st.approvals| && st' == Step(st, DoClose(a))
    ensures var row := st.approvals[a];
            && st'.approvals == (if row.status == Pending
                                 then st.approvals[a := row.(status := Expired, decidedAt := Some(st.now))]
                                 else st.approvals)
            && st'.sessions == (if row.session in st.sessions && st.sessions[row.session] == SWaiting
                                then st.sessions[row.session := SOpen] else st.sessions)
            && (row.status == Pending ==> ToldOn(st.broker, st'.broker, (k: nat) => k == a, Decided(Expired)))
            && st'.turns == st.turns && st'.messages == st.messages && st'.gates == st.gates
  {
  }

  /** Waiting and resuming move the turn and its session together, and only from one to the other. */
  lemma WaitResumeMean(st: State, t: Id, a: nat)
    requires t in st.turns && st.turns[t].session in st.sessions
    ensures var turn := st.turns[t];
            && Step(st, DoWait(t, a)) ==
               (if turn.status == Running && (a < |st.approvals| ==> st.approvals[a].status == Pending)
                then st.(turns := st.turns[t := turn.(status := Waiting)],
                  sessions := st.sessions[turn.session := SWaiting])
                else st)
            && Step(st, DoResume(t)) ==
               (if turn.status == Waiting
                then st.(turns := st.turns[t := turn.(status := Running)],
                  sessions := st.sessions[turn.session := SRunning])
                else st)
  {
  }

  /** After a restart no turn is active, no session busy, no approval pending and nobody waiting; the turns
      that were active have failed for it, and what was finished, decided or said stays. */
  lemma RestartMeans(st: State, st': State)
    requires st' == Step(st, DoRestart)
    ensures st'.turns.Keys == st.turns.Keys && st'.sessions.Keys == st.sessions.Keys &&
            |st'.approvals| == |st.approvals|
    ensures forall t <- st.turns :: st'.turns[t] ==
              if IsTerminal(st.turns[t].status) then st.turns[t]
              else Turn(st.turns[t].session, Failed, Some("agent.host_restarted"))
    ensures forall s <- st.sessions ::
              !IsBusy(st', s) && st'.sessions[s] == if IsBusy(st, s) then SOpen else st.sessions[s]
    ensures forall i :: 0 <= i < |st.approvals| ==>
              if st.approvals[i].status == Pending
                then st'.approvals[i] == st.approvals[i].(status := Expired, decidedAt := None)
              else st'.approvals[i] == st.approvals[i]
    ensures st'.broker.waiting == map[] && st'.gates == map[] && st'.messages == st.messages &&
            st'.executed == st.executed
  {
  }

  /** A reply that did not arrive turns its turn's success into a failure, and its arrival turns that back;
      any other turn keeps what it says. */
  lemma ReplyMeans(st: State, t: Id, delivered: bool)
    requires t in st.turns
    ensures var turn, undelivered := st.turns[t], Turn(st.turns[t].session, Failed, Some("agent.reply_undelivered"));
            Step(st, DoReply(t, delivered)) ==
            st.(turns := st.turns[t := if !delivered && turn.status == Succeeded then undelivered
                                       else if delivered && turn == undelivered
                                       then Turn(turn.session, Succeeded, None)
                                       else turn])
    ensures st.turns[t].status == Succeeded && st.turns[t].errorCode == None ==>
            Step(Step(st, DoReply(t, false)), DoReply(t, true)) == st
  {
  }
}
