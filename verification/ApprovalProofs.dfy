/** What every run of the turn machine keeps of approvals: at most one is pending per session, a
    decision is final, and once a (session, payload) is approved the answer to the same request is
    that approval for ever. */
module ApprovalProofs {
  import opened Options
  import opened TurnMachine

  // ---------- the invariant ----------

  /** A pending approval is the newest of its session. */
  ghost predicate PendingIsLast(a: seq<Approval>) {
    forall i, j :: 0 <= i < j < |a| && a[i].session == a[j].session ==> a[i].status != Pending
  }

  /** An approved approval is the newest of its session and payload. */
  ghost predicate ApprovedIsLast(a: seq<Approval>) {
    forall i, j :: 0 <= i < j < |a| && a[i].session == a[j].session && a[i].hash == a[j].hash ==>
      a[i].status != Approved
  }

  ghost predicate HasApproved(a: seq<Approval>, s: Id, h: Id) {
    exists i :: 0 <= i < |a| && a[i].status == Approved && a[i].session == s && a[i].hash == h
  }

  /** The executed payloads are those with an approved approval. */
  ghost predicate ExecutedMatches(a: seq<Approval>, executed: set<(Id, Id)>) {
    forall s: Id, h: Id :: (s, h) in executed <==> HasApproved(a, s, h)
  }

  /** Nothing was approved at or after its deadline. */
  ghost predicate ApprovedInTime(a: seq<Approval>) {
    forall i :: 0 <= i < |a| && a[i].status == Approved ==>
      a[i].decidedAt.Some? && a[i].decidedAt.value < a[i].expiresAt
  }

  ghost predicate ApprovalsOk(a: seq<Approval>, executed: set<(Id, Id)>) {
    PendingIsLast(a) && ApprovedIsLast(a) && ExecutedMatches(a, executed) && ApprovedInTime(a)
  }

  // ---------- what a step may do to an approval ----------

  /** The same request, whatever its status. */
  predicate SameRequest(r: Approval, q: Approval) {
    r.session == q.session && r.turn == q.turn && r.tool == q.tool && r.hash == q.hash && r.expiresAt == q.expiresAt
  }

  /** Rows are only added, their requests never change, and a decided row does not change at all. */
  ghost predicate Later(a: seq<Approval>, b: seq<Approval>) {
    && |a| <= |b|
    && (forall i :: 0 <= i < |a| ==> SameRequest(a[i], b[i]) && (a[i].status != Pending ==> b[i] == a[i]))
  }

  lemma LaterTrans(a: seq<Approval>, b: seq<Approval>, c: seq<Approval>)
    requires Later(a, b) && Later(b, c)
    ensures Later(a, c)
  {
  }

  lemma ExpireSetOk(a: seq<Approval>, executed: set<(Id, Id)>, s: set<nat>, at: Option<int>)
    requires forall i <- s :: IsPending(a, i)
    ensures Later(a, ExpireSet(a, s, at))
    ensures ApprovalsOk(a, executed) ==> ApprovalsOk(ExpireSet(a, s, at), executed)
  {
    var b := ExpireSet(a, s, at);
    forall k: Id, h: Id ensures HasApproved(a, k, h) <==> HasApproved(b, k, h) {
      if HasApproved(a, k, h) {
        var i :| 0 <= i < |a| && a[i].status == Approved && a[i].session == k && a[i].hash == h;
        assert b[i] == a[i];
      }
      if HasApproved(b, k, h) {
        var i :| 0 <= i < |b| && b[i].status == Approved && b[i].session == k && b[i].hash == h;
        assert b[i] == a[i];
      }
    }
  }

  lemma DecideRowOk(a: seq<Approval>, executed: set<(Id, Id)>, i: nat, approve: bool, now: int)
    requires IsPending(a, i) && a[i].expiresAt > now
    ensures var b := a[i := a[i].(status := if approve then Approved else Denied, decidedAt := Some(now))];
            var e := if approve then executed + {(a[i].session, a[i].hash)} else executed;
            Later(a, b) && (ApprovalsOk(a, executed) ==> ApprovalsOk(b, e))
  {
    var b := a[i := a[i].(status := if approve then Approved else Denied, decidedAt := Some(now))];
    forall k: Id, h: Id
      ensures HasApproved(b, k, h) <==> HasApproved(a, k, h) || (approve && k == a[i].session && h == a[i].hash)
    {
      if HasApproved(a, k, h) {
        var j :| 0 <= j < |a| && a[j].status == Approved && a[j].session == k && a[j].hash == h;
        assert b[j] == a[j];
      }
      if approve && k == a[i].session && h == a[i].hash {
        assert b[i].status == Approved;
      }
      if HasApproved(b, k, h) {
        var j :| 0 <= j < |b| && b[j].status == Approved && b[j].session == k && b[j].hash == h;
        assert j == i || b[j] == a[j];
      }
    }
  }

  lemma InsertOk(a: seq<Approval>, executed: set<(Id, Id)>, r: Approval)
    requires r.status == Pending && PendingOf(a, r.session) == {} && (r.session, r.hash) !in executed
    requires ApprovalsOk(a, executed)
    ensures ApprovalsOk(a + [r], executed)
  {
    var b := a + [r];
    assert !HasApproved(a, r.session, r.hash);
    forall k: Id, h: Id ensures HasApproved(b, k, h) <==> HasApproved(a, k, h) {
      if HasApproved(a, k, h) {
        var i :| 0 <= i < |a| && a[i].status == Approved && a[i].session == k && a[i].hash == h;
        assert b[i] == a[i];
      }
    }
    forall i | 0 <= i < |a| && a[i].session == r.session ensures a[i].status != Pending {
      assert a[i].status == Pending ==> i in PendingOf(a, r.session);
    }
    forall i, j | 0 <= i < j < |b| && b[i].session == b[j].session && b[i].hash == b[j].hash
      ensures b[i].status != Approved
    {
      assert j == |a| && a[i].status == Approved ==> HasApproved(a, r.session, r.hash);
    }
  }

  /** Latest finds a row of the key, and none newer exists; it finds one when there is one. */
  lemma {:induction false} LatestIsNewest(a: seq<Approval>, s: Id, h: Id)
    ensures match Latest(a, s, h)
            case Some(n) => n < |a| && a[n].session == s && a[n].hash == h
                            && forall i :: n < i < |a| ==> !(a[i].session == s && a[i].hash == h)
            case None => forall i :: 0 <= i < |a| ==> !(a[i].session == s && a[i].hash == h)
  {
    if a != [] {
      LatestIsNewest(a[..|a| - 1], s, h);
      assert forall i :: 0 <= i < |a| - 1 ==> a[..|a| - 1][i] == a[i];
    }
  }

  /** In a state that satisfies the invariant, an approved row is the latest of its key. */
  lemma ApprovedIsLatest(a: seq<Approval>, executed: set<(Id, Id)>, i: nat)
    requires ApprovalsOk(a, executed) && i < |a| && a[i].status == Approved
    ensures Latest(a, a[i].session, a[i].hash) == Some(i)
    ensures (a[i].session, a[i].hash) in executed
  {
    LatestIsNewest(a, a[i].session, a[i].hash);
    assert HasApproved(a, a[i].session, a[i].hash);
  }

  // ---------- every action keeps it ----------

  ghost predicate Keeps(st: State, st': State) {
    Later(st.approvals, st'.approvals) &&
    (ApprovalsOk(st.approvals, st.executed) ==> ApprovalsOk(st'.approvals, st'.executed))
  }

  lemma KeepsTrans(st: State, st1: State, st2: State)
    requires Keeps(st, st1) && Keeps(st1, st2)
    ensures Keeps(st, st2)
  {
    LaterTrans(st.approvals, st1.approvals, st2.approvals);
  }

  lemma ExpireDueOk(st: State)
    ensures Keeps(st, ExpireDue(st))
  {
    ExpireSetOk(st.approvals, st.executed, Due(st.approvals, st.now), Some(st.now));
  }

  lemma CloseOk(st: State, a: nat)
    ensures Keeps(st, CloseOne(st, a)) && Keeps(st, Close(st, a))
  {
    if IsPending(st.approvals, a) {
      ExpireSetOk(st.approvals, st.executed, {a}, Some(st.now));
    }
  }

  lemma FinishOk(st: State, t: Id, e: Ending)
    requires IsTerminal(e.status)
    ensures Keeps(st, Finish(st, t, e))
  {
    ExpireSetOk(st.approvals, st.executed, PendingOfTurn(st.approvals, t), Some(st.now));
  }

  lemma DecideOneOk(st: State, i: nat, approve: bool)
    requires IsPending(st.approvals, i) && st.now < st.approvals[i].expiresAt
    ensures Keeps(st, DecideOne(st, i, approve))
  {
    CloseOk(st, i);
    DecideRowOk(st.approvals, st.executed, i, approve, st.now);
  }

  lemma DecideOk(st: State, s: Id, approve: bool, permitted: bool, enabled: bool)
    ensures Keeps(st, Decide(st, s, approve, permitted, enabled))
  {
    ExpireDueOk(st);
    var p := FirstPending(st.approvals, s);
    if p.Some? && st.now < st.approvals[p.value].expiresAt {
      DecideOneOk(st, p.value, approve);
    }
  }

  lemma AnswerLeaves(st: State, c: Call)
    ensures Answer(st, c).0.gates == st.gates && Answer(st, c).0.broker == st.broker
    ensures Answer(st, c).0.turns == st.turns && Answer(st, c).0.now == st.now
    ensures Answer(st, c).0.approvals == st.approvals || Answer(st, c).0.approvals == st.approvals + [Prompt(c, st.now)]
  {
  }

  lemma AnswerOk(st: State, c: Call)
    ensures Keeps(st, Answer(st, c).0)
  {
    var a, e := st.approvals, st.executed;
    LatestIsNewest(a, c.session, c.hash);
    if ApprovalsOk(a, e) && PendingOf(a, c.session) == {} && (c.session, c.hash) !in e {
      InsertOk(a, e, Prompt(c, st.now));
    }
    assert ApprovalsOk(a, e) && (c.session, c.hash) in e ==> HasApproved(a, c.session, c.hash);
  }

  lemma RestartOk(st: State)
    ensures Keeps(st, Restart(st))
  {
    ExpireSetOk(st.approvals, st.executed, AllPending(st.approvals), None);
  }

  lemma GateOpenOk(st: State, g: Id, c: Call)
    ensures Keeps(st, GateOpen(st, g, c))
  {
    AnswerOk(st, c);
  }

  lemma GateWakeOk(st: State, g: Id)
    ensures Keeps(st, GateWake(st, g))
  {
    if Wakeable(st, g) {
      TablesOk(st, st.gates[g].turn, st.broker.outcomes[g], st.gates[g].stage.approval);
    }
  }

  lemma TablesOk(st: State, t: Id, o: Outcome, a: nat)
    ensures Keeps(st, WakeTables(st, t, o, a))
  {
    match o
    case Aborted => CloseOk(st, a);
    case Decided(s) =>
      if s == Expired {
        ExpireDueOk(st);
      }
  }

  /** The other actions do not touch an approval. */
  predicate TouchesApprovals(x: Action) {
    x.DoAnswer? || x.DoGateOpen? || x.DoDecide? || x.DoExpire? || x.DoFinish? || x.DoClose? || x.DoRestart? ||
      x.DoGateWake?
  }

  lemma StepLeaves(st: State, x: Action)
    requires !TouchesApprovals(x)
    ensures Step(st, x).approvals == st.approvals && Step(st, x).executed == st.executed
  {
  }

  lemma StepOk(st: State, x: Action)
    ensures Keeps(st, Step(st, x))
  {
    match x
    case DoAnswer(c) => AnswerOk(st, c);
    case DoGateOpen(g, c) => GateOpenOk(st, g, c);
    case DoDecide(s, approve, permitted, enabled) => DecideOk(st, s, approve, permitted, enabled);
    case DoExpire => ExpireDueOk(st);
    case DoFinish(t, e) =>
      if IsTerminal(e.status) {
        FinishOk(st, t, e);
      }
    case DoClose(a) => CloseOk(st, a);
    case DoRestart => RestartOk(st);
    case DoGateWake(g) => GateWakeOk(st, g);
    case _ => StepLeaves(st, x);
  }

  lemma {:induction false} RunOk(st: State, xs: seq<Action>)
    ensures Keeps(st, Run(st, xs))
    decreases |xs|
  {
    if xs != [] {
      StepOk(st, xs[0]);
      RunOk(Step(st, xs[0]), xs[1..]);
      KeepsTrans(st, Step(st, xs[0]), Run(st, xs));
    }
  }

  // ---------- the theorems ----------

  /** In every reachable state a session has at most one pending approval, and it is the session's newest. */
  lemma OnePending(xs: seq<Action>, i: nat, j: nat)
    ensures var a := Run(INIT, xs).approvals;
            i < |a| && j < |a| && a[i].session == a[j].session && a[i].status == Pending ==> j <= i
  {
    RunOk(INIT, xs);
  }

  /** A decided approval never changes again, and no request is ever rewritten. */
  lemma DecisionFinal(st: State, xs: seq<Action>, i: nat)
    requires i < |st.approvals|
    ensures i < |Run(st, xs).approvals| && SameRequest(st.approvals[i], Run(st, xs).approvals[i])
    ensures st.approvals[i].status != Pending ==> Run(st, xs).approvals[i] == st.approvals[i]
  {
    RunOk(st, xs);
  }

  /** Approve once: after an approval, however the run goes on, the same session and payload is
      answered with that very approval, whatever the tool, and no new prompt is raised. */
  lemma ApproveOnce(before: seq<Action>, after: seq<Action>, i: nat, c: Call)
    requires i < |Run(INIT, before).approvals| && Run(INIT, before).approvals[i].status == Approved
    requires c.session == Run(INIT, before).approvals[i].session && c.hash == Run(INIT, before).approvals[i].hash
    ensures var row := Run(INIT, before).approvals[i];
            var st := Run(Run(INIT, before), after);
            var (st', answer) := Answer(st, c);
            && |st.approvals| == |st'.approvals| > i
            && st.approvals[i] == st'.approvals[i] == row
            && Latest(st.approvals, c.session, c.hash) == Some(i)
            && answer == if Refused(st, c).Some? then Err(Refused(st, c).value) else Ok(i)
  {
    RunOk(INIT, before);
    RunOk(Run(INIT, before), after);
    var st := Run(Run(INIT, before), after);
    ApprovedIsLatest(st.approvals, st.executed, i);
  }

  /** Nothing stands for a call yet: no approval of its payload, and nothing pending in its session. */
  ghost predicate NothingStands(st: State, c: Call) {
    !HasApproved(st.approvals, c.session, c.hash) && PendingOf(st.approvals, c.session) == {}
  }

  lemma AnswerPrompts(st: State, c: Call)
    requires ApprovalsOk(st.approvals, st.executed)
    ensures var (st', answer) := Answer(st, c);
            if Refused(st, c).None? && NothingStands(st, c)
            then answer == Ok(|st.approvals|) && st'.approvals == st.approvals + [Prompt(c, st.now)]
            else st'.approvals == st.approvals
  {
    assert (c.session, c.hash) in st.executed <==> HasApproved(st.approvals, c.session, c.hash);
    LatestIsNewest(st.approvals, c.session, c.hash);
    var p := FirstPending(st.approvals, c.session);
    assert p.Some? ==> p.value in PendingOf(st.approvals, c.session);
  }

  /** A call raises a new prompt exactly when it is not refused and nothing stands for it yet. */
  lemma PromptIff(xs: seq<Action>, c: Call)
    ensures var st := Run(INIT, xs);
            var (st', answer) := Answer(st, c);
            if Refused(st, c).None? && NothingStands(st, c)
            then answer == Ok(|st.approvals|) && st'.approvals == st.approvals + [Prompt(c, st.now)]
            else st'.approvals == st.approvals
  {
    RunOk(INIT, xs);
    AnswerPrompts(Run(INIT, xs), c);
  }

  /** A row of a call's own session and payload that is approved or still pending. */
  predicate StandsFor(row: Approval, c: Call) {
    row.session == c.session && row.hash == c.hash && (row.status == Approved || row.status == Pending)
  }

  /** An answered request names such a row. */
  lemma AnswerNamesRequest(xs: seq<Action>, c: Call)
    ensures var (st', answer) := Answer(Run(INIT, xs), c);
            answer.Ok? ==> answer.value < |st'.approvals| && StandsFor(st'.approvals[answer.value], c)
  {
    RunOk(INIT, xs);
    AnswerNames(Run(INIT, xs), c);
  }

  lemma AnswerNames(st: State, c: Call)
    requires ApprovalsOk(st.approvals, st.executed)
    ensures var (st', answer) := Answer(st, c);
            answer.Ok? ==> answer.value < |st'.approvals| && StandsFor(st'.approvals[answer.value], c)
  {
    LatestIsNewest(st.approvals, c.session, c.hash);
    if (c.session, c.hash) in st.executed {
      assert HasApproved(st.approvals, c.session, c.hash);
      var i :| 0 <= i < |st.approvals| && st.approvals[i].status == Approved
               && st.approvals[i].session == c.session && st.approvals[i].hash == c.hash;
      ApprovedIsLatest(st.approvals, st.executed, i);
    }
  }
}
