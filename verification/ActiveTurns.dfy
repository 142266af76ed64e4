/** How many turns of a session may be active at once. The lifecycle comment of
    src/agents/turnLifecycle.ts says one; a decision or an expiry opens its session under the turn, so a
    second turn may begin. */
module ActiveTurns {
  import opened Options
  import opened TurnMachine
  import opened TurnProofs
  import opened GateProofs

  predicate IsActive(st: State, t: Id, s: Id) {
    t in st.turns && st.turns[t].session == s && !IsTerminal(st.turns[t].status)
  }

  ghost predicate NoneActive(st: State, s: Id) {
    forall t <- st.turns :: !IsActive(st, t, s)
  }

  ghost predicate AtMostOne(st: State, s: Id) {
    forall t <- st.turns, u <- st.turns :: IsActive(st, t, s) && IsActive(st, u, s) ==> t == u
  }

  /** The action begins a turn of the session. */
  predicate Begins(st: State, x: Action, s: Id) {
    x.DoBegin? && x.s == s && x.t !in st.turns && BeginRefused(st, s, x.enabled, x.withinLimits).None?
  }

  /** Turns come from beginTurn only. */
  lemma StepKeys(st: State, x: Action, t: Id)
    requires t in Step(st, x).turns && t !in st.turns
    ensures x.DoBegin? && x.t == t && Begins(st, x, x.s) && Step(st, x).turns[t] == Turn(x.s, Running, None)
  {
    if !TouchesTurns(x) {
      StepLeavesTurns(st, x);
    } else if x.DoGateWake? {
      WakeTurns(st, x.g);
    }
  }

  /** What is active after a step was active before it, or has just begun. */
  lemma StepActive(st: State, x: Action, t: Id, s: Id)
    ensures IsActive(Step(st, x), t, s) ==> IsActive(st, t, s) || (Begins(st, x, s) && t == x.t)
    ensures Begins(st, x, s) ==> IsActive(Step(st, x), x.t, s) && (IsActive(st, t, s) ==> IsActive(Step(st, x), t, s))
  {
    if t in st.turns {
      StepTurn(st, x, t);
    } else if t in Step(st, x).turns {
      StepKeys(st, x, t);
    }
  }

  /** A begun turn is the only active one exactly when none was active before; no other step adds one. */
  lemma StepKeepsOne(st: State, x: Action, s: Id)
    requires AtMostOne(st, s)
    ensures AtMostOne(Step(st, x), s) <==> (Begins(st, x, s) ==> NoneActive(st, s))
  {
    var st' := Step(st, x);
    forall t, u | IsActive(st', t, s) && IsActive(st', u, s) && (Begins(st, x, s) ==> NoneActive(st, s))
      ensures t == u
    {
      StepActive(st, x, t, s);
      StepActive(st, x, u, s);
    }
    if Begins(st, x, s) && !NoneActive(st, s) {
      var t :| t in st.turns && IsActive(st, t, s);
      StepActive(st, x, t, s);
    }
  }

  lemma {:induction false} RunSnoc(st: State, xs: seq<Action>, n: nat)
    requires n < |xs|
    ensures Run(st, xs[..n + 1]) == Step(Run(st, xs[..n]), xs[n])
    decreases n
  {
    if n > 0 {
      assert xs[..n + 1][1..] == xs[1..][..n] && xs[..n][1..] == xs[1..][..n - 1];
      RunSnoc(Step(st, xs[0]), xs[1..], n - 1);
    } else {
      assert xs[..1][1..] == [] && xs[..0] == [];
    }
  }

  /** Every turn of the session that the run begins finds none running or waiting there. */
  ghost predicate BeginsAlone(xs: seq<Action>, s: Id) {
    forall i :: 0 <= i < |xs| && Begins(Run(INIT, xs[..i]), xs[i], s) ==> NoneActive(Run(INIT, xs[..i]), s)
  }

  lemma {:induction false} OneAfter(xs: seq<Action>, s: Id, n: nat)
    requires n <= |xs| && BeginsAlone(xs, s)
    ensures AtMostOne(Run(INIT, xs[..n]), s)
    decreases n
  {
    if n > 0 {
      OneAfter(xs, s, n - 1);
      RunSnoc(INIT, xs, n - 1);
      StepKeepsOne(Run(INIT, xs[..n - 1]), xs[n - 1], s);
    }
  }

  /** A session has at most one active turn throughout a run exactly when each of its turns begins while
      none is running or waiting; the status of the session does not tell. */
  lemma OneActiveIff(xs: seq<Action>, s: Id)
    ensures (forall n :: 0 <= n <= |xs| ==> AtMostOne(Run(INIT, xs[..n]), s)) <==> BeginsAlone(xs, s)
  {
    if BeginsAlone(xs, s) {
      forall n | 0 <= n <= |xs| ensures AtMostOne(Run(INIT, xs[..n]), s) {
        OneAfter(xs, s, n);
      }
    } else {
      var i :| 0 <= i < |xs| && Begins(Run(INIT, xs[..i]), xs[i], s) && !NoneActive(Run(INIT, xs[..i]), s);
      RunSnoc(INIT, xs, i);
      if AtMostOne(Run(INIT, xs[..i]), s) {
        StepKeepsOne(Run(INIT, xs[..i]), xs[i], s);
      }
    }
  }

  // ---------- sessions that are open while a turn is active ----------

  /** The statuses in which a session refuses another turn. */
  predicate IsBusy(st: State, s: Id) {
    s in st.sessions && (st.sessions[s] == SRunning || st.sessions[s] == SWaiting)
  }

  ghost predicate HasDue(st: State, s: Id) {
    exists i: nat :: i in Due(st.approvals, st.now) && st.approvals[i].session == s
  }

  /** The causes: a decision of the session, an expiry or a closing of one of its approvals, the end of
      one of its turns, and a restart. */
  ghost predicate Opens(st: State, x: Action, s: Id) {
    match x
    case DoDecide(d, _, _, _) => d == s || HasDue(st, s)
    case DoExpire => HasDue(st, s)
    case DoGateWake(g) => HasDue(st, s) || (Wakeable(st, g) && OfSession(st, st.gates[g].stage.approval, s))
    case DoClose(a) => OfSession(st, a, s)
    case DoFinish(t, _) => t in st.turns && st.turns[t].session == s && !IsTerminal(st.turns[t].status)
    case DoRestart => true
    case _ => false
  }

  predicate OfSession(st: State, a: nat, s: Id) {
    a < |st.approvals| && st.approvals[a].session == s
  }

  lemma ExpireOpens(st: State, s: Id)
    requires IsBusy(st, s) && !IsBusy(ExpireDue(st), s)
    ensures HasDue(st, s)
  {
  }

  lemma CloseOpens(st: State, a: nat, s: Id)
    requires IsBusy(st, s) && !IsBusy(Close(st, a), s)
    ensures OfSession(st, a, s)
  {
  }

  lemma DecideOpens(st: State, x: Action, s: Id)
    requires x.DoDecide? && IsBusy(st, s) && !IsBusy(Step(st, x), s)
    ensures x.s == s || HasDue(st, s)
  {
    var p := FirstPending(st.approvals, x.s);
    if p.Some? && st.approvals[p.value].expiresAt <= st.now && x.permitted && x.s in st.sessions {
      ExpireOpens(st, s);
    }
  }

  lemma WakeOpens(st: State, g: Id, s: Id)
    requires IsBusy(st, s) && !IsBusy(GateWake(st, g), s)
    ensures Opens(st, DoGateWake(g), s)
  {
    var t, o, a := st.gates[g].turn, st.broker.outcomes[g], st.gates[g].stage.approval;
    TablesOpen(st, t, o, a, s);
  }

  lemma TablesOpen(st: State, t: Id, o: Outcome, a: nat, s: Id)
    requires IsBusy(st, s) && !IsBusy(WakeTables(st, t, o, a), s)
    ensures HasDue(st, s) || OfSession(st, a, s)
  {
    match o
    case Aborted => CloseOpens(st, a, s);
    case Decided(status) => if status == Expired { ExpireOpens(st, s); }
  }

  /** No other step keeps a session from being busy. */
  lemma StepOpens(st: State, x: Action, s: Id)
    requires IsBusy(st, s) && !IsBusy(Step(st, x), s)
    ensures Opens(st, x, s)
  {
    match x
    case DoDecide(_, _, _, _) => DecideOpens(st, x, s);
    case DoExpire => ExpireOpens(st, s);
    case DoGateWake(g) => WakeOpens(st, g, s);
    case DoClose(a) => CloseOpens(st, a, s);
    case _ =>
  }

  /** A turn that begins makes its session busy. */
  lemma BeginsBusy(st: State, x: Action, s: Id)
    requires Begins(st, x, s)
    ensures IsBusy(Step(st, x), s)
  {
  }

  /** After n steps the turn is active and its session is not busy. */
  ghost predicate Under(xs: seq<Action>, s: Id, t: Id, n: nat) {
    n <= |xs| && IsActive(Run(INIT, xs[..n]), t, s) && !IsBusy(Run(INIT, xs[..n]), s)
  }

  /** Step i opens the session under the turn. */
  ghost predicate OpenedBy(xs: seq<Action>, s: Id, t: Id, i: nat) {
    && i < |xs| && IsActive(Run(INIT, xs[..i]), t, s) && IsBusy(Run(INIT, xs[..i]), s)
    && Opens(Run(INIT, xs[..i]), xs[i], s)
    && !xs[i].DoRestart? && !(xs[i].DoFinish? && xs[i].t == t)
  }

  /** A step that leaves the turn active and the session not busy. */
  lemma StepUnder(st: State, x: Action, st': State, s: Id, t: Id)
    requires st' == Step(st, x) && IsActive(st', t, s) && !IsBusy(st', s)
    ensures IsActive(st, t, s)
    ensures IsBusy(st, s) ==> Opens(st, x, s) && !x.DoRestart? && !(x.DoFinish? && x.t == t)
  {
    StepActive(st, x, t, s);
    if Begins(st, x, s) { BeginsBusy(st, x, s); }
    if IsBusy(st, s) {
      StepOpens(st, x, s);
      StaysActive(st, x, t, s);
    }
  }

  lemma StaysActive(st: State, x: Action, t: Id, s: Id)
    requires IsActive(Step(st, x), t, s) && Opens(st, x, s)
    ensures !x.DoRestart? && (x.DoFinish? && x.t == t ==> Step(st, x) == st)
  {
  }

  lemma UnderBefore(xs: seq<Action>, s: Id, t: Id, n: nat)
    requires Under(xs, s, t, n)
    ensures n > 0 && (Under(xs, s, t, n - 1) || OpenedBy(xs, s, t, n - 1))
  {
    assert xs[..0] == [];
    RunSnoc(INIT, xs, n - 1);
    StepUnder(Run(INIT, xs[..n - 1]), xs[n - 1], Run(INIT, xs[..n]), s, t);
  }

  /** A session that is not busy has an active turn only since some step opened it under the turn: a
      decision, an expiry or a closing of one of its approvals, or the end of another of its turns. */
  lemma {:induction false} OpenedUnder(xs: seq<Action>, s: Id, t: Id, n: nat) returns (i: nat)
    requires Under(xs, s, t, n)
    ensures i < n && OpenedBy(xs, s, t, i)
    ensures forall k :: i < k <= n ==> Under(xs, s, t, k)
    decreases n
  {
    UnderBefore(xs, s, t, n);
    if Under(xs, s, t, n - 1) {
      i := OpenedUnder(xs, s, t, n - 1);
    } else {
      i := n - 1;
    }
  }

  // ---------- runs with two active turns ----------

  const AGAIN := DoBegin(0, 1, "more", None, true, true)
  const APPROVES := DoDecide(0, true, true, true)

  /** Decided while the parked call waits for the decision. */
  const WHILE_WAITING := [DoGatePark(0), DoGateListen(0, false), APPROVES, AGAIN]

  /** Decided after the call was raised, before it would be parked; then it is not. */
  const BEFORE_PARKING := [APPROVES, DoGatePark(0), AGAIN]

  const RAISES := [OpenSession(0), DoBegin(0, 0, "hi", None, true, true), DoGateOpen(0, CALL)]

  lemma {:induction false} RunAppend(st: State, xs: seq<Action>, ys: seq<Action>)
    ensures Run(st, xs + ys) == Run(Run(st, xs), ys)
    ensures DecidesApart(st, xs + ys) <==> DecidesApart(st, xs) && DecidesApart(Run(st, xs), ys)
    decreases |xs|
  {
    if xs == [] {
      assert xs + ys == ys;
    } else {
      assert (xs + ys)[1..] == xs[1..] + ys;
      RunAppend(Step(st, xs[0]), xs[1..], ys);
    }
  }

  lemma Cons(st: State, x: Action, xs: seq<Action>)
    ensures Run(st, [x] + xs) == Run(Step(st, x), xs)
    ensures DecidesApart(st, [x] + xs) <==> (x.DoDecide? ==> NoneParked(st, x.s)) && DecidesApart(Step(st, x), xs)
  {
    assert ([x] + xs)[1..] == xs;
  }

  lemma Raised()
    ensures Run(INIT, RAISES) == BUSY && DecidesApart(INIT, RAISES)
  {
    var a, b, c := OpenSession(0), DoBegin(0, 0, "hi", None, true, true), DoGateOpen(0, CALL);
    assert RAISES == [a] + ([b] + ([c] + []));
    ExampleOpens();
    Cons(INIT, a, [b] + ([c] + []));
    Cons(Step(INIT, a), b, [c] + []);
    Cons(Step(Step(INIT, a), b), c, []);
  }

  /** Two active turns of one session. */
  ghost predicate HasTwo(st: State) {
    IsActive(st, 0, 0) && IsActive(st, 1, 0)
  }

  lemma SecondBegins(st: State)
    requires IsActive(st, 0, 0) && 1 !in st.turns && 0 in st.sessions && st.sessions[0] == SOpen
    ensures HasTwo(Step(st, AGAIN))
  {
  }

  const LISTENING :=
    PARKED.(gates := map[0 := Gate(0, 0, "tool", 0, Listening(0))], broker := Broker(map[0 := 0], map[]))

  lemma DecidedListening()
    ensures var st := Step(LISTENING, APPROVES);
            NoneParked(LISTENING, 0) && IsActive(st, 0, 0) && 1 !in st.turns &&
            0 in st.sessions && st.sessions[0] == SOpen
  {
    assert FirstPending([ROW], 0) == Some(0);
  }

  lemma WhileWaiting()
    ensures HasTwo(Run(BUSY, WHILE_WAITING)) && DecidesApart(BUSY, WHILE_WAITING)
  {
    ExampleParks();
    assert Step(PARKED, DoGateListen(0, false)) == LISTENING;
    DecidedListening();
    SecondBegins(Step(LISTENING, APPROVES));
    assert WHILE_WAITING == [DoGatePark(0)] + ([DoGateListen(0, false)] + ([APPROVES] + ([AGAIN] + [])));
    Cons(BUSY, DoGatePark(0), [DoGateListen(0, false)] + ([APPROVES] + ([AGAIN] + [])));
    Cons(PARKED, DoGateListen(0, false), [APPROVES] + ([AGAIN] + []));
    Cons(LISTENING, APPROVES, [AGAIN] + []);
    Cons(Step(LISTENING, APPROVES), AGAIN, []);
  }

  const UNPARKED := BUSY.(approvals := [APPROVED], executed := {(0, 0)}, sessions := map[0 := SOpen])

  lemma DecidedUnparked()
    ensures Step(BUSY, APPROVES) == UNPARKED && NoneParked(BUSY, 0)
  {
    assert FirstPending([ROW], 0) == Some(0);
    assert [ROW][0 := APPROVED] == [APPROVED];
    SettleNobody({0}, Decided(Approved));
  }

  lemma BeforeParking()
    ensures HasTwo(Run(BUSY, BEFORE_PARKING)) && DecidesApart(BUSY, BEFORE_PARKING)
  {
    DecidedUnparked();
    var parked := Step(UNPARKED, DoGatePark(0));
    assert parked.turns == UNPARKED.turns && parked.sessions == UNPARKED.sessions;
    SecondBegins(parked);
    assert BEFORE_PARKING == [APPROVES] + ([DoGatePark(0)] + ([AGAIN] + []));
    Cons(BUSY, APPROVES, [DoGatePark(0)] + ([AGAIN] + []));
    Cons(UNPARKED, DoGatePark(0), [AGAIN] + []);
    Cons(parked, AGAIN, []);
  }

  /** Two runs that the program can make, with two active turns in one session: a decision opens it while
      its turn waits for the decision, or before its turn is parked, so that it runs on. */
  lemma TwoActive()
    ensures HasTwo(Run(INIT, RAISES + WHILE_WAITING)) && DecidesApart(INIT, RAISES + WHILE_WAITING)
    ensures HasTwo(Run(INIT, RAISES + BEFORE_PARKING)) && DecidesApart(INIT, RAISES + BEFORE_PARKING)
  {
    Raised();
    RunAppend(INIT, RAISES, WHILE_WAITING);
    RunAppend(INIT, RAISES, BEFORE_PARKING);
    WhileWaiting();
    BeforeParking();
  }
}
