/** The client side of an approval: `gateOne` of src/agents/sessions.ts waiting on the broker of
    src/agents/approvalBroker.ts, in any run of the turn machine. */
module GateProofs {
  import opened Options
  import opened TurnMachine
  import opened ApprovalProofs
  import opened TurnProofs

  // ---------- the invariant of tool calls and waiters ----------

  /** A decision a waiter was told is the one stored. */
  predicate ToldTruly(o: Outcome, row: Approval) {
    o.Decided? && o.status != Expired ==> o.status != Pending && row.status == o.status
  }

  /** A call stands for the approval it names. */
  predicate Names(a: seq<Approval>, gate: Gate, k: nat) {
    k < |a| && a[k].session == gate.session && a[k].hash == gate.hash
  }

  /** A call that listens either waits, or was told; a decision it was told is stored. */
  predicate ListensOk(a: seq<Approval>, b: Broker, g: Id, k: nat) {
    if g in b.waiting then b.waiting[g] == k && g !in b.outcomes
    else g in b.outcomes && k < |a| && ToldTruly(b.outcomes[g], a[k])
  }

  ghost predicate GateOk(a: seq<Approval>, b: Broker, g: Id, gate: Gate) {
    match gate.stage
    case Finished(allowed) => g !in b.waiting && (allowed ==> HasApproved(a, gate.session, gate.hash))
    case Listening(k) => Names(a, gate, k) && ListensOk(a, b, g, k)
    case Requested(k) => Names(a, gate, k) && g !in b.waiting
    case Parked(k) => Names(a, gate, k) && g !in b.waiting
    case Returning(k) => Names(a, gate, k) && g !in b.waiting
  }

  ghost predicate GatesOk(st: State) {
    && (forall g <- st.gates :: GateOk(st.approvals, st.broker, g, st.gates[g]))
    && (forall w <- st.broker.waiting :: w in st.gates && w !in st.broker.outcomes)
  }

  /** The broker woke exactly the waiters on some approvals, with the outcome now stored for them. */
  ghost predicate Woke(b: Broker, b': Broker, a: seq<Approval>, s: set<nat>, o: Outcome) {
    b' == SettleAll(b, s, o) && o.Decided? && forall i <- s :: i < |a| && a[i].status == o.status && o.status != Pending
  }

  lemma HasApprovedLater(a: seq<Approval>, b: seq<Approval>, s: Id, h: Id)
    requires Later(a, b) && HasApproved(a, s, h)
    ensures HasApproved(b, s, h)
  {
    var i :| 0 <= i < |a| && a[i].status == Approved && a[i].session == s && a[i].hash == h;
    assert b[i] == a[i];
  }

  /** Deciding approvals and waking their waiters keeps the invariant. */
  lemma WokeOk(st: State, st': State, s: set<nat>, o: Outcome)
    requires GatesOk(st) && Later(st.approvals, st'.approvals) && st'.gates == st.gates
    requires Woke(st.broker, st'.broker, st'.approvals, s, o)
    ensures GatesOk(st')
  {
    forall g <- st'.gates ensures GateOk(st'.approvals, st'.broker, g, st'.gates[g]) {
      assert GateOk(st.approvals, st.broker, g, st.gates[g]);
      if st.gates[g].stage == Finished(true) {
        HasApprovedLater(st.approvals, st'.approvals, st.gates[g].session, st.gates[g].hash);
      }
    }
  }

  /** Moving one tool call that waits for nothing to another stage. */
  lemma SetStageOk(st: State, g: Id, gate: Gate)
    requires GatesOk(st) && g !in st.broker.waiting && GateOk(st.approvals, st.broker, g, gate)
    ensures GatesOk(st.(gates := st.gates[g := gate]))
  {
  }

  lemma ExpireDueGates(st: State)
    requires GatesOk(st)
    ensures GatesOk(ExpireDue(st))
  {
    ExpireDueOk(st);
    WokeOk(st, ExpireDue(st), Due(st.approvals, st.now), Decided(Expired));
  }

  lemma CloseGates(st: State, a: nat)
    requires GatesOk(st)
    ensures GatesOk(CloseOne(st, a)) && GatesOk(Close(st, a))
  {
    CloseOk(st, a);
    if IsPending(st.approvals, a) {
      WokeOk(st, CloseOne(st, a), {a}, Decided(Expired));
      WokeOk(st, Close(st, a), {a}, Decided(Expired));
    }
  }

  lemma FinishGates(st: State, t: Id, e: Ending)
    requires GatesOk(st) && IsTerminal(e.status)
    ensures GatesOk(Finish(st, t, e))
  {
    FinishOk(st, t, e);
    if Finish(st, t, e) != st {
      WokeOk(st, Finish(st, t, e), PendingOfTurn(st.approvals, t), Decided(Expired));
    }
  }

  lemma DecideGates(st: State, s: Id, approve: bool, permitted: bool, enabled: bool)
    requires GatesOk(st)
    ensures GatesOk(Decide(st, s, approve, permitted, enabled))
  {
    ExpireDueGates(st);
    var p := FirstPending(st.approvals, s);
    if p.Some? && st.now < st.approvals[p.value].expiresAt {
      CloseGates(st, p.value);
      DecideOneOk(st, p.value, approve);
      if !TurnOver(st, p.value) {
        WokeOk(st, DecideOne(st, p.value, approve), {p.value}, Decided(if approve then Approved else Denied));
      }
    }
  }

  lemma AnswerGates(st: State, c: Call)
    requires GatesOk(st)
    ensures GatesOk(Answer(st, c).0)
  {
    AnswerOk(st, c);
    SettleNone(st.broker, Decided(Expired));
    AnswerLeaves(st, c);
    WokeOk(st, Answer(st, c).0, {}, Decided(Expired));
  }

  lemma AnswerNamesCall(st: State, c: Call)
    ensures var (st', r) := Answer(st, c);
            r.Ok? ==>
              r.value < |st'.approvals| && st'.approvals[r.value].session == c.session &&
              st'.approvals[r.value].hash == c.hash
  {
    LatestIsNewest(st.approvals, c.session, c.hash);
  }

  lemma SettleNone(b: Broker, o: Outcome)
    ensures SettleAll(b, {}, o) == b
  {
  }

  lemma GateOpenGates(st: State, g: Id, c: Call)
    requires GatesOk(st)
    ensures GatesOk(GateOpen(st, g, c))
  {
    if g !in st.gates && c.turn.Some? {
      AnswerGates(st, c);
      AnswerLeaves(st, c);
      AnswerNamesCall(st, c);
      var (st1, r) := Answer(st, c);
      if r.Ok? {
        var stage := if st1.approvals[r.value].status == Approved then Finished(true) else Requested(r.value);
        SetStageOk(st1, g, Gate(c.session, c.turn.value, c.tool, c.hash, stage));
      }
    }
  }

  lemma GateParkGates(st: State, g: Id)
    requires GatesOk(st)
    ensures GatesOk(GatePark(st, g))
  {
    if g in st.gates && st.gates[g].stage.Requested? {
      assert GateOk(st.approvals, st.broker, g, st.gates[g]);
      var a := st.gates[g].stage.approval;
      assert st.approvals[a].status == Approved ==> HasApproved(st.approvals, st.gates[g].session, st.gates[g].hash);
    }
  }

  lemma GateWakeGates(st: State, g: Id)
    requires GatesOk(st)
    ensures GatesOk(GateWake(st, g))
  {
    if Wakeable(st, g) {
      var gate, o := st.gates[g], st.broker.outcomes[g];
      var a := gate.stage.approval;
      assert GateOk(st.approvals, st.broker, g, gate);
      TablesGates(st, gate.turn, o, a);
      TablesWake(st, gate.turn, o, a);
      var st' := WakeTables(st, gate.turn, o, a);
      StageOk(st.approvals, st'.approvals, st'.broker, g, gate, o, a);
      SetStageOk(st', g, gate.(stage := WakeStage(o, a)));
    }
  }

  lemma TablesGates(st: State, t: Id, o: Outcome, a: nat)
    requires GatesOk(st)
    ensures GatesOk(WakeTables(st, t, o, a))
  {
    match o
    case Aborted => CloseGates(st, a);
    case Decided(s) =>
      if s == Expired {
        ExpireDueGates(st);
      } else {
        assert Resume(st, t).approvals == st.approvals && Resume(st, t).broker == st.broker;
      }
  }

  /** The tables a waking call leaves; a waiter that is gone stays gone. */
  lemma TablesWake(st: State, t: Id, o: Outcome, a: nat)
    ensures var st' := WakeTables(st, t, o, a);
            Later(st.approvals, st'.approvals) && forall w :: w in st'.broker.waiting ==> w in st.broker.waiting
  {
    TablesOk(st, t, o, a);
  }

  lemma StageOk(rows: seq<Approval>, rows': seq<Approval>, b: Broker, g: Id, gate: Gate, o: Outcome, a: nat)
    requires Later(rows, rows') && Names(rows, gate, a) && ToldTruly(o, rows[a]) && g !in b.waiting
    ensures GateOk(rows', b, g, gate.(stage := WakeStage(o, a)))
  {
    if o == Decided(Approved) {
      assert HasApproved(rows, gate.session, gate.hash);
      HasApprovedLater(rows, rows', gate.session, gate.hash);
    }
  }

  /** The steps of a tool call and of its waiter. */
  predicate OfGate(x: Action) {
    x.DoGateOpen? || x.DoGatePark? || x.DoGateListen? || x.DoGateWake? || x.DoGateReturn? || x.DoGateAbort? ||
      x.DoGateTimer?
  }

  lemma GateStepGates(st: State, x: Action)
    requires GatesOk(st) && OfGate(x)
    ensures GatesOk(Step(st, x))
  {
    match x
    case DoGateOpen(g, c) => GateOpenGates(st, g, c);
    case DoGatePark(g) => GateParkGates(st, g);
    case DoGateWake(g) => GateWakeGates(st, g);
    case DoGateReturn(g) => GateReturnGates(st, g);
    case DoGateListen(g, stopped) => ListenGates(st, g, stopped);
    case DoGateAbort(g) => AbortGates(st, g);
    case DoGateTimer(g) => TimerGates(st, g);
  }

  lemma StepGates(st: State, x: Action)
    requires GatesOk(st)
    ensures GatesOk(Step(st, x))
  {
    if OfGate(x) {
      GateStepGates(st, x);
    } else {
      match x
      case DoAnswer(c) => AnswerGates(st, c);
      case DoDecide(s, approve, permitted, enabled) => DecideGates(st, s, approve, permitted, enabled);
      case DoExpire => ExpireDueGates(st);
      case DoFinish(t, e) => if IsTerminal(e.status) { FinishGates(st, t, e); }
      case DoClose(a) => CloseGates(st, a);
      case DoRestart =>
      case _ => SmallStepGates(st, x);
    }
  }

  lemma ListenGates(st: State, g: Id, stopped: bool)
    requires GatesOk(st)
    ensures GatesOk(GateListen(st, g, stopped))
  {
    var st' := GateListen(st, g, stopped);
    assert g in st.gates ==> GateOk(st.approvals, st.broker, g, st.gates[g]);
    forall h <- st'.gates | h != g ensures GateOk(st'.approvals, st'.broker, h, st'.gates[h]) {
      assert GateOk(st.approvals, st.broker, h, st.gates[h]);
    }
  }

  /** A waiter leaves with an outcome that claims no decision. */
  lemma LeaveGates(st: State, w: Id, o: Outcome)
    requires GatesOk(st) && w in st.broker.waiting && (o == Aborted || o == Decided(Expired))
    ensures GatesOk(st.(broker := Resolve(st.broker, w, o)))
  {
    var st' := st.(broker := Resolve(st.broker, w, o));
    forall h <- st'.gates ensures GateOk(st'.approvals, st'.broker, h, st'.gates[h]) {
      assert GateOk(st.approvals, st.broker, h, st.gates[h]);
    }
  }

  lemma AbortGates(st: State, g: Id)
    requires GatesOk(st)
    ensures GatesOk(GateAbort(st, g))
  {
    if g in st.broker.waiting {
      LeaveGates(st, g, Aborted);
    }
  }

  lemma TimerGates(st: State, g: Id)
    requires GatesOk(st)
    ensures GatesOk(GateTimer(st, g))
  {
    if g in st.broker.waiting {
      LeaveGates(st, g, Decided(Expired));
    }
  }

  lemma GateReturnGates(st: State, g: Id)
    requires GatesOk(st)
    ensures GatesOk(GateReturn(st, g))
  {
    if g in st.gates && st.gates[g].stage.Returning? {
      assert GateOk(st.approvals, st.broker, g, st.gates[g]);
      SetStageOk(st, g, st.gates[g].(stage := Finished(false)));
    }
  }

  lemma SmallStepGates(st: State, x: Action)
    requires GatesOk(st)
    requires x.OpenSession? || x.DoBegin? || x.DoWait? || x.DoResume? || x.DoReply? || x.Tick?
    ensures GatesOk(Step(st, x))
  {
    assert Step(st, x).gates == st.gates && Step(st, x).approvals == st.approvals && Step(st, x).broker == st.broker;
  }

  lemma {:induction false} RunGates(st: State, xs: seq<Action>)
    requires GatesOk(st)
    ensures GatesOk(Run(st, xs))
    decreases |xs|
  {
    if xs != [] {
      StepGates(st, xs[0]);
      RunGates(Step(st, xs[0]), xs[1..]);
    }
  }

  /** End to end: in every reachable state a call that was let through has an approval for its session
      and payload, approved before its deadline. */
  lemma AllowedMeansApproved(xs: seq<Action>, g: Id)
    requires g in Run(INIT, xs).gates && Run(INIT, xs).gates[g].stage == Finished(true)
    ensures var st := Run(INIT, xs);
            exists i :: 0 <= i < |st.approvals| && st.approvals[i].status == Approved
                        && st.approvals[i].session == st.gates[g].session && st.approvals[i].hash == st.gates[g].hash
                        && st.approvals[i].decidedAt.Some? &&
                           st.approvals[i].decidedAt.value < st.approvals[i].expiresAt
  {
    var st := Run(INIT, xs);
    RunGates(INIT, xs);
    RunOk(INIT, xs);
    assert GateOk(st.approvals, st.broker, g, st.gates[g]);
    var i :| 0 <= i < |st.approvals| && st.approvals[i].status == Approved
             && st.approvals[i].session == st.gates[g].session && st.approvals[i].hash == st.gates[g].hash;
    assert st.approvals[i].decidedAt.value < st.approvals[i].expiresAt;
  }

  // ---------- what one waiter is told ----------

  /** An outcome agrees with a row: the same decision; "expired" also when the deadline has passed unrecorded. */
  predicate Agrees(o: Outcome, row: Approval, now: int) {
    match o
    case Aborted => true
    case Decided(s) => s == row.status != Pending || (s == Expired && row.status == Pending && row.expiresAt <= now)
  }

  /** A waiter that registered while its approval was open, at any later time. */
  ghost predicate Follows(st: State, w: Id, a: nat) {
    && a < |st.approvals|
    && (if w in st.broker.waiting
        then st.broker.waiting[w] == a && w !in st.broker.outcomes && st.approvals[a].status == Pending
        else w in st.broker.outcomes && Agrees(st.broker.outcomes[w], st.approvals[a], st.now))
  }

  /** A waiter that registered after its approval was decided, at any later time. */
  ghost predicate TooLate(st: State, w: Id, a: nat) {
    && a < |st.approvals| && st.approvals[a].status != Pending
    && (if w in st.broker.waiting then st.broker.waiting[w] == a && w !in st.broker.outcomes
        else w in st.broker.outcomes
             && (st.broker.outcomes[w] == Aborted ||
                 (st.broker.outcomes[w] == Decided(Expired) && st.approvals[a].expiresAt <= st.now)))
  }

  /** What an action does to the approvals and the broker: it decides some open approvals alike and
      wakes exactly their waiters, or it lets one waiter in or out, or it leaves the broker alone. */
  ghost predicate Wakes(st: State, st': State, s: set<nat>, o: Outcome) {
    && Later(st.approvals, st'.approvals) && st.now <= st'.now
    && Woke(st.broker, st'.broker, st'.approvals, s, o)
    && (forall i <- s :: IsPending(st.approvals, i) && (o == Decided(Expired) || st.now < st.approvals[i].expiresAt))
    && (forall i :: IsPending(st.approvals, i) && st'.approvals[i].status != Pending ==> i in s)
  }

  predicate Resolved(b: Broker, w: Id) { w in b.outcomes && w !in b.waiting }

  /** A waiter that was told is not told again. */
  predicate StaysResolved(b: Broker, b': Broker, w: Id)
    requires w in b.outcomes
  {
    Resolved(b', w) && b'.outcomes[w] == b.outcomes[w]
  }

  lemma WakesFollows(st: State, st': State, s: set<nat>, o: Outcome, w: Id, a: nat)
    requires Wakes(st, st', s, o)
    ensures Follows(st, w, a) ==> Follows(st', w, a)
    ensures TooLate(st, w, a) ==> TooLate(st', w, a)
    ensures Resolved(st.broker, w) ==> StaysResolved(st.broker, st'.broker, w)
  {
  }

  /** The broker lets one waiter in or out, and nothing else happens. */
  lemma OneWaiter(st: State, x: Action, w: Id, a: nat)
    requires x.DoGateListen? || x.DoGateAbort? || x.DoGateTimer?
    ensures Follows(st, w, a) ==> Follows(Step(st, x), w, a)
    ensures TooLate(st, w, a) ==> TooLate(Step(st, x), w, a)
    ensures Resolved(st.broker, w) ==> StaysResolved(st.broker, Step(st, x).broker, w)
  {
    match x
    case DoGateListen(g, stopped) => ListenWaiter(st, g, stopped, w, a);
    case DoGateAbort(g) => LeaveWaiter(st, g, Aborted, w, a);
    case DoGateTimer(g) =>
      if g in st.broker.waiting && st.broker.waiting[g] < |st.approvals| &&
         st.approvals[st.broker.waiting[g]].expiresAt <= st.now
      {
        LeaveWaiter(st, g, Decided(Expired), w, a);
      }
  }

  lemma ListenWaiter(st: State, g: Id, stopped: bool, w: Id, a: nat)
    ensures Follows(st, w, a) ==> Follows(GateListen(st, g, stopped), w, a)
    ensures TooLate(st, w, a) ==> TooLate(GateListen(st, g, stopped), w, a)
    ensures Resolved(st.broker, w) ==> StaysResolved(st.broker, GateListen(st, g, stopped).broker, w)
  {
    var b := GateListen(st, g, stopped).broker;
    assert g != w ==> (w in b.waiting <==> w in st.broker.waiting) && (w in b.outcomes <==> w in st.broker.outcomes);
  }

  lemma LeaveWaiter(st: State, g: Id, o: Outcome, w: Id, a: nat)
    requires g in st.broker.waiting ==>
               o == Aborted || (o == Decided(Expired) && st.broker.waiting[g] < |st.approvals| &&
                                st.approvals[st.broker.waiting[g]].expiresAt <= st.now)
    ensures var st' := if g in st.broker.waiting then st.(broker := Resolve(st.broker, g, o)) else st;
            && (Follows(st, w, a) ==> Follows(st', w, a))
            && (TooLate(st, w, a) ==> TooLate(st', w, a))
            && (Resolved(st.broker, w) ==> StaysResolved(st.broker, st'.broker, w))
  {
  }

  /** The approvals that a waking call expires. */
  function Expiring(st: State, o: Outcome, a: nat): set<nat> {
    match o
    case Aborted => if IsPending(st.approvals, a) then {a} else {}
    case Decided(s) => if s == Expired then Due(st.approvals, st.now) else {}
  }

  /** The approvals an action decides, and how. */
  function Touched(st: State, x: Action): (set<nat>, Outcome) {
    match x
    case DoExpire => (Due(st.approvals, st.now), Decided(Expired))
    case DoFinish(t, e) =>
      (if IsTerminal(e.status) && t in st.turns && !IsTerminal(st.turns[t].status)
       then PendingOfTurn(st.approvals, t) else {}, Decided(Expired))
    case DoClose(a) => (if IsPending(st.approvals, a) then {a} else {}, Decided(Expired))
    case DoGateWake(g) =>
      (if Wakeable(st, g) then Expiring(st, st.broker.outcomes[g], st.gates[g].stage.approval)
       else {}, Decided(Expired))
    case DoDecide(s, approve, permitted, enabled) =>
      var p := FirstPending(st.approvals, s);
      if s !in st.sessions || !permitted || p.None? then ({}, Decided(Expired))
      else if st.approvals[p.value].expiresAt <= st.now then (Due(st.approvals, st.now), Decided(Expired))
      else if approve && !enabled then ({}, Decided(Expired))
      else ({p.value}, Decided(if TurnOver(st, p.value) then Expired else if approve then Approved else Denied))
    case _ => ({}, Decided(Expired))
  }

  lemma DecideOneWakes(st: State, a: nat, approve: bool)
    requires IsPending(st.approvals, a) && st.now < st.approvals[a].expiresAt
    ensures Wakes(st, DecideOne(st, a, approve), {a},
                  Decided(if TurnOver(st, a) then Expired else if approve then Approved else Denied))
  {
    DecideOneOk(st, a, approve);
  }

  lemma DecideWakes(st: State, x: Action)
    requires x.DoDecide?
    ensures Wakes(st, Step(st, x), Touched(st, x).0, Touched(st, x).1)
  {
    var p := FirstPending(st.approvals, x.s);
    if x.s !in st.sessions || !x.permitted || p.None? {
      StandStill(st, st);
    } else if st.approvals[p.value].expiresAt <= st.now {
      ExpireDueWakes(st);
    } else if x.approve && !x.enabled {
      StandStill(st, st);
    } else {
      DecideOneWakes(st, p.value, x.approve);
    }
  }

  lemma ExpireDueWakes(st: State)
    ensures Wakes(st, ExpireDue(st), Due(st.approvals, st.now), Decided(Expired))
  {
    ExpireDueOk(st);
  }

  lemma CloseWakes(st: State, a: nat)
    ensures Wakes(st, Close(st, a), if IsPending(st.approvals, a) then {a} else {}, Decided(Expired))
  {
    CloseOk(st, a);
    SettleNone(st.broker, Decided(Expired));
  }

  /** Wakes is about the approvals, the broker and the clock only. */
  lemma WakesSame(st: State, st1: State, st2: State, s: set<nat>, o: Outcome)
    requires Wakes(st, st1, s, o)
    requires st2.approvals == st1.approvals && st2.broker == st1.broker && st2.now == st1.now
    ensures Wakes(st, st2, s, o)
  {
  }

  lemma StandStill(st: State, st': State)
    requires st'.approvals == st.approvals && st'.broker == st.broker && st.now <= st'.now
    ensures Wakes(st, st', {}, Decided(Expired))
  {
    SettleNone(st.broker, Decided(Expired));
  }

  lemma TablesWakes(st: State, t: Id, o: Outcome, a: nat)
    ensures Wakes(st, WakeTables(st, t, o, a), Expiring(st, o, a), Decided(Expired))
  {
    match o
    case Aborted => CloseWakes(st, a);
    case Decided(s) =>
      if s == Expired { ExpireDueWakes(st); } else { StandStill(st, Resume(st, t)); }
  }

  lemma GateWakeWakes(st: State, g: Id)
    ensures Wakes(st, GateWake(st, g), Touched(st, DoGateWake(g)).0, Decided(Expired))
  {
    if Wakeable(st, g) {
      var t, o, a := st.gates[g].turn, st.broker.outcomes[g], st.gates[g].stage.approval;
      TablesWakes(st, t, o, a);
      WakesSame(st, WakeTables(st, t, o, a), GateWake(st, g), Expiring(st, o, a), Decided(Expired));
    } else {
      StandStill(st, st);
    }
  }

  lemma AnswerWakes(st: State, c: Call)
    ensures Wakes(st, Answer(st, c).0, {}, Decided(Expired))
  {
    AnswerLeaves(st, c);
    AnswerOk(st, c);
    SettleNone(st.broker, Decided(Expired));
  }

  lemma GateOpenWakes(st: State, g: Id, c: Call)
    ensures Wakes(st, GateOpen(st, g, c), {}, Decided(Expired))
  {
    if g in st.gates || c.turn.None? {
      StandStill(st, GateOpen(st, g, c));
    } else {
      AnswerWakes(st, c);
      WakesSame(st, Answer(st, c).0, GateOpen(st, g, c), {}, Decided(Expired));
    }
  }

  lemma FinishWakes(st: State, t: Id, e: Ending)
    requires IsTerminal(e.status)
    ensures Wakes(st, Finish(st, t, e), Touched(st, DoFinish(t, e)).0, Decided(Expired))
  {
    FinishOk(st, t, e);
    SettleNone(st.broker, Decided(Expired));
  }

  lemma OtherWakes(st: State, x: Action)
    requires !x.DoDecide? && !x.DoGateWake? && !x.DoAnswer? && !x.DoGateOpen? && !x.DoRestart?
    requires !x.DoGateListen? && !x.DoGateAbort? && !x.DoGateTimer?
    ensures Wakes(st, Step(st, x), Touched(st, x).0, Touched(st, x).1)
  {
    match x
    case DoExpire => ExpireDueWakes(st);
    case DoClose(a) => CloseWakes(st, a);
    case DoFinish(t, e) =>
      if IsTerminal(e.status) {
        FinishWakes(st, t, e);
      } else {
        StandStill(st, Step(st, x));
      }
    case _ => StandStill(st, Step(st, x));
  }

  lemma StepWakes(st: State, x: Action)
    requires !x.DoRestart? && !x.DoGateListen? && !x.DoGateAbort? && !x.DoGateTimer?
    ensures Wakes(st, Step(st, x), Touched(st, x).0, Touched(st, x).1)
  {
    if x.DoDecide? {
      DecideWakes(st, x);
    } else if x.DoGateWake? {
      GateWakeWakes(st, x.g);
    } else if x.DoAnswer? {
      AnswerWakes(st, x.c);
    } else if x.DoGateOpen? {
      GateOpenWakes(st, x.g, x.c);
    } else {
      OtherWakes(st, x);
    }
  }

  lemma StepWaiter(st: State, x: Action, w: Id, a: nat)
    requires !x.DoRestart?
    ensures Follows(st, w, a) ==> Follows(Step(st, x), w, a)
    ensures TooLate(st, w, a) ==> TooLate(Step(st, x), w, a)
    ensures Resolved(st.broker, w) ==> StaysResolved(st.broker, Step(st, x).broker, w)
  {
    if x.DoGateListen? || x.DoGateAbort? || x.DoGateTimer? {
      OneWaiter(st, x, w, a);
    } else {
      StepWakes(st, x);
      WakesFollows(st, Step(st, x), Touched(st, x).0, Touched(st, x).1, w, a);
    }
  }

  /** Waiters live as long as the host process. */
  predicate NoRestart(xs: seq<Action>) {
    forall x <- xs :: !x.DoRestart?
  }

  lemma {:induction false} RunWaiter(st: State, xs: seq<Action>, w: Id, a: nat)
    requires NoRestart(xs)
    ensures Follows(st, w, a) ==> Follows(Run(st, xs), w, a)
    ensures TooLate(st, w, a) ==> TooLate(Run(st, xs), w, a)
    ensures Resolved(st.broker, w) ==> StaysResolved(st.broker, Run(st, xs).broker, w)
    decreases |xs|
  {
    if xs != [] {
      assert xs[0] in xs;
      StepWaiter(st, xs[0], w, a);
      assert forall x <- xs[1..] :: x in xs;
      RunWaiter(Step(st, xs[0]), xs[1..], w, a);
    }
  }

  /** A waiter is resolved once: what it was told never changes, and it never waits again. */
  lemma ResolvedOnce(before: seq<Action>, after: seq<Action>, w: Id)
    requires NoRestart(after) && w in Run(INIT, before).broker.outcomes
    ensures var st := Run(Run(INIT, before), after);
            w !in st.broker.waiting && w in st.broker.outcomes &&
              st.broker.outcomes[w] == Run(INIT, before).broker.outcomes[w]
  {
    RunGates(INIT, before);
    RunWaiter(Run(INIT, before), after, w, 0);
  }

  /** A waiter on an open approval is told the stored decision (once what is due has expired), or
      that it was stopped. A waiter that registered after the decision misses it: it is only ever
      told "expired", after the deadline, or "aborted". So what a waiter hears, when it was not
      stopped, is what is stored exactly when the approval was still open at registration, or had
      expired before it. */
  lemma WaiterHearsStored(before: seq<Action>, after: seq<Action>, w: Id)
    requires NoRestart(after) && w in Run(INIT, before).broker.waiting
    ensures var st := Run(INIT, before);
            var st' := Run(st, after);
            var a := st.broker.waiting[w];
            && a < |st.approvals| && a < |st'.approvals|
            && (w in st'.broker.outcomes <==> w !in st'.broker.waiting)
            && (w in st'.broker.outcomes && st'.broker.outcomes[w] != Aborted ==>
                  (st'.broker.outcomes[w] == Decided(ExpireDue(st').approvals[a].status)
                   <==> st.approvals[a].status == Pending || st.approvals[a].status == Expired))
  {
    var st := Run(INIT, before);
    var a := st.broker.waiting[w];
    RunGates(INIT, before);
    assert GateOk(st.approvals, st.broker, w, st.gates[w]);
    RunWaiter(st, after, w, a);
    RunOk(st, after);
    var st' := Run(st, after);
    RunGates(INIT, before);
    if st.approvals[a].status == Pending {
      assert Follows(st, w, a) && Follows(st', w, a);
    } else {
      assert TooLate(st, w, a) && TooLate(st', w, a);
    }
  }

  // ---------- decisions that do not fall between parking and registering ----------

  ghost predicate NoneParked(st: State, s: Id) {
    forall g <- st.gates :: st.gates[g].stage.Parked? ==> st.gates[g].session != s
  }

  /** No decision of a session falls between the parking of a call of that session and the call's
      registering with the broker. A decision waits for a readdir first, and a parked call registers
      before anything is read, so every run of the program is like this. */
  ghost predicate DecidesApart(st: State, xs: seq<Action>)
    decreases |xs|
  {
    xs != [] ==> (xs[0].DoDecide? ==> NoneParked(st, xs[0].s)) && DecidesApart(Step(st, xs[0]), xs[1..])
  }

  predicate OpenOrExpired(a: seq<Approval>, k: nat) {
    k < |a| && (a[k].status == Pending || a[k].status == Expired)
  }

  ghost predicate ParkedOpen(a: seq<Approval>, gates: map<Id, Gate>) {
    forall g <- gates :: gates[g].stage.Parked? ==> OpenOrExpired(a, gates[g].stage.approval)
  }

  /** Nobody waits, or is about to, for a decision that has been made. */
  ghost predicate NothingMissed(st: State) {
    ParkedOpen(st.approvals, st.gates) &&
    forall w <- st.broker.waiting :: OpenOrExpired(st.approvals, st.broker.waiting[w])
  }

  /** The steps of a tool call. */
  predicate MovesGate(x: Action) {
    x.DoGateOpen? || x.DoGatePark? || x.DoGateListen? || x.DoGateWake? || x.DoGateReturn?
  }

  lemma OtherGates(st: State, x: Action)
    requires !MovesGate(x)
    ensures Step(st, x).gates == if x.DoRestart? then map[] else st.gates
  {
    match x
    case DoAnswer(c) => AnswerLeaves(st, c);
    case DoDecide(s, approve, permitted, enabled) => DecideAside(st, s, approve, permitted, enabled);
    case DoClose(k) => CloseAside(st, k);
    case DoExpire => ExpireDueAside(st);
    case _ =>
  }

  /** A call is parked by its parking only, on an approval that is open. */
  lemma StepParked(st: State, x: Action, g: Id)
    requires GatesOk(st) && g in Step(st, x).gates && Step(st, x).gates[g].stage.Parked?
    ensures (g in st.gates && st.gates[g] == Step(st, x).gates[g]) ||
            (x.DoGatePark? && Step(st, x).approvals == st.approvals &&
             OpenOrExpired(st.approvals, Step(st, x).gates[g].stage.approval))
  {
    if !MovesGate(x) {
      OtherGates(st, x);
    } else {
      match x
      case DoGatePark(h) => ParkParks(st, h, g);
      case DoGateWake(h) => WakeParks(st, h, g);
      case _ => OtherParks(st, x, g);
    }
  }

  lemma OtherParks(st: State, x: Action, g: Id)
    requires x.DoGateOpen? || x.DoGateListen? || x.DoGateReturn?
    requires g in Step(st, x).gates && Step(st, x).gates[g].stage.Parked?
    ensures g in st.gates && st.gates[g] == Step(st, x).gates[g]
  {
    if x.DoGateOpen? { AnswerLeaves(st, x.c); }
  }

  lemma ParkParks(st: State, h: Id, g: Id)
    requires GatesOk(st) && g in GatePark(st, h).gates && GatePark(st, h).gates[g].stage.Parked?
    ensures GatePark(st, h).approvals == st.approvals
    ensures (g in st.gates && st.gates[g] == GatePark(st, h).gates[g]) ||
            OpenOrExpired(st.approvals, GatePark(st, h).gates[g].stage.approval)
  {
    assert h in st.gates ==> GateOk(st.approvals, st.broker, h, st.gates[h]);
  }

  lemma WakeParks(st: State, h: Id, g: Id)
    requires g in GateWake(st, h).gates && GateWake(st, h).gates[g].stage.Parked?
    ensures g in st.gates && st.gates[g] == GateWake(st, h).gates[g]
  {
    if Wakeable(st, h) {
      var o, a := st.broker.outcomes[h], st.gates[h].stage.approval;
      assert !WakeStage(o, a).Parked?;
      assert GateWake(st, h).gates == st.gates[h := st.gates[h].(stage := WakeStage(o, a))];
    }
  }

  /** Approvals that someone waits for, or is about to, stay open or expire. */
  lemma WakesMissNothing(st: State, st': State, s: set<nat>, o: Outcome)
    requires GatesOk(st) && NothingMissed(st) && Wakes(st, st', s, o)
    requires o == Decided(Expired) ||
             forall g <- st.gates :: st.gates[g].stage.Parked? ==> st.gates[g].stage.approval !in s
    ensures ParkedOpen(st'.approvals, st.gates)
    ensures forall w <- st'.broker.waiting :: OpenOrExpired(st'.approvals, st'.broker.waiting[w])
  {
    forall k: nat | OpenOrExpired(st.approvals, k) && (o == Decided(Expired) || k !in s)
      ensures OpenOrExpired(st'.approvals, k)
    {
    }
  }

  lemma StepMissesNothing(st: State, x: Action)
    requires GatesOk(st) && NothingMissed(st) && (x.DoDecide? ==> NoneParked(st, x.s))
    ensures NothingMissed(Step(st, x))
  {
    var st' := Step(st, x);
    if x.DoRestart? {
    } else if x.DoGateListen? || x.DoGateAbort? || x.DoGateTimer? {
      WaiterMissesNothing(st, x);
    } else {
      StepWakes(st, x);
      if x.DoDecide? {
        DecideApart(st, x);
      }
      WakesMissNothing(st, st', Touched(st, x).0, Touched(st, x).1);
      forall g <- st'.gates | st'.gates[g].stage.Parked?
        ensures OpenOrExpired(st'.approvals, st'.gates[g].stage.approval)
      {
        StepParked(st, x, g);
      }
    }
  }

  lemma DecideApart(st: State, x: Action)
    requires GatesOk(st) && x.DoDecide? && NoneParked(st, x.s)
    ensures Touched(st, x).1 == Decided(Expired) ||
            forall g <- st.gates :: st.gates[g].stage.Parked? ==> st.gates[g].stage.approval !in Touched(st, x).0
  {
    forall g <- st.gates | st.gates[g].stage.Parked? ensures GateOk(st.approvals, st.broker, g, st.gates[g]) {}
  }

  lemma WaiterMissesNothing(st: State, x: Action)
    requires NothingMissed(st) && (x.DoGateListen? || x.DoGateAbort? || x.DoGateTimer?)
    ensures NothingMissed(Step(st, x))
  {
    match x
    case DoGateListen(g, stopped) =>
    case DoGateAbort(g) =>
    case DoGateTimer(g) =>
  }

  lemma {:induction false} RunMissesNothing(st: State, xs: seq<Action>)
    requires GatesOk(st) && NothingMissed(st) && DecidesApart(st, xs)
    ensures NothingMissed(Run(st, xs))
    decreases |xs|
  {
    if xs != [] {
      StepGates(st, xs[0]);
      StepMissesNothing(st, xs[0]);
      RunMissesNothing(Step(st, xs[0]), xs[1..]);
    }
  }

  /** Each waiter is told the stored outcome, or that it was stopped: whenever it registered, and
      whatever the run does from then on. */
  lemma WaiterToldStored(before: seq<Action>, after: seq<Action>, w: Id)
    requires DecidesApart(INIT, before) && NoRestart(after) && w in Run(INIT, before).broker.waiting
    ensures var a := Run(INIT, before).broker.waiting[w];
            var st := Run(Run(INIT, before), after);
            && a < |st.approvals|
            && (w in st.broker.outcomes <==> w !in st.broker.waiting)
            && (w in st.broker.outcomes ==>
                  st.broker.outcomes[w] == Aborted ||
                    st.broker.outcomes[w] == Decided(ExpireDue(st).approvals[a].status))
  {
    RunMissesNothing(INIT, before);
    WaiterHearsStored(before, after, w);
  }

  // ---------- why decisions must stay out of that gap ----------

  const CALL := Call(0, Some(0), "tool", 0, 10, true, true, true)
  const ROW := Approval(0, Some(0), "tool", 0, Pending, 10, None)
  const HI := [Message(0, 1, 0, User, "hi")]
  const BUSY := State(0, map[0 := SWaiting], map[0 := Turn(0, Running, None)], [ROW], {}, HI,
                      Broker(map[], map[]), map[0 := Gate(0, 0, "tool", 0, Requested(0))])

  const PARKED := BUSY.(turns := map[0 := Turn(0, Waiting, None)], gates := map[0 := Gate(0, 0, "tool", 0, Parked(0))])

  const APPROVED := ROW.(status := Approved, decidedAt := Some(0))
  const DECIDED := PARKED.(approvals := [APPROVED], executed := {(0, 0)}, sessions := map[0 := SOpen])

  lemma ExampleOpens()
    ensures Step(Step(Step(INIT, OpenSession(0)), DoBegin(0, 0, "hi", None, true, true)), DoGateOpen(0, CALL)) == BUSY
  {
    var s2 := Step(Step(INIT, OpenSession(0)), DoBegin(0, 0, "hi", None, true, true));
    assert s2 == State(0, map[0 := SRunning], map[0 := Turn(0, Running, None)], [], {}, HI, Broker(map[], map[]),
                       map[]);
  }

  lemma ExampleParks()
    ensures Step(BUSY, DoGatePark(0)) == PARKED
  {
  }

  lemma ExampleDecides()
    ensures Step(PARKED, DoDecide(0, true, true, true)) == DECIDED
  {
    assert FirstPending([ROW], 0) == Some(0);
    assert [ROW][0 := APPROVED] == [APPROVED];
    SettleNobody({0}, Decided(Approved));
  }

  lemma SettleNobody(s: set<nat>, o: Outcome)
    ensures SettleAll(Broker(map[], map[]), s, o) == Broker(map[], map[])
  {
  }

  lemma ExampleListens()
    ensures var st := Step(DECIDED, DoGateListen(0, false));
            && st.now == 0 && st.approvals == [APPROVED]
            && st.broker == Broker(map[0 := 0], map[]) && 0 in st.gates && st.gates[0].stage == Listening(0)
  {
  }

  lemma ExampleTimesOut(st: State)
    requires st.now == 0 && st.approvals == [APPROVED]
    requires st.broker == Broker(map[0 := 0], map[]) && 0 in st.gates && st.gates[0].stage == Listening(0)
    ensures var st' := Step(Step(st, Tick(10)), DoGateTimer(0));
            && st'.now == 10 && st'.approvals == st.approvals && st'.broker == Broker(map[], map[0 := Decided(Expired)])
            && 0 in st'.gates && st'.gates[0].stage == Listening(0)
  {
    assert Resolve(st.broker, 0, Decided(Expired)) == Broker(map[], map[0 := Decided(Expired)]);
  }

  lemma ExampleWakes(st: State)
    requires st.now == 10 && st.approvals == [APPROVED]
    requires st.broker == Broker(map[], map[0 := Decided(Expired)])
    requires 0 in st.gates && st.gates[0].stage == Listening(0)
    ensures var st' := Step(st, DoGateWake(0));
            st'.approvals == st.approvals && 0 in st'.gates && st'.gates[0].stage == Returning(0)
  {
    assert Due(st.approvals, 10) == {};
    assert ExpireDue(st).approvals == st.approvals;
  }

  lemma ExampleReturns(st: State)
    requires 0 in st.gates && st.gates[0].stage == Returning(0)
    ensures var st' := Step(st, DoGateReturn(0));
            st'.approvals == st.approvals && 0 in st'.gates && st'.gates[0].stage == Finished(false)
  {
  }

  /** Were a decision to fall into the gap, its call would be refused although it was approved. */
  lemma MissedDecision()
    ensures var s3 := Step(Step(Step(INIT, OpenSession(0)), DoBegin(0, 0, "hi", None, true, true)),
                           DoGateOpen(0, CALL));
            var s6 := Step(Step(Step(s3, DoGatePark(0)), DoDecide(0, true, true, true)), DoGateListen(0, false));
            var st := Step(Step(Step(Step(s6, Tick(10)), DoGateTimer(0)), DoGateWake(0)), DoGateReturn(0));
            |st.approvals| == 1 && st.approvals[0].status == Approved && 0 in st.gates &&
              st.gates[0].stage == Finished(false)
  {
    ExampleOpens();
    ExampleParks();
    ExampleDecides();
    ExampleListens();
    var s6 := Step(DECIDED, DoGateListen(0, false));
    ExampleTimesOut(s6);
    var s8 := Step(Step(s6, Tick(10)), DoGateTimer(0));
    ExampleWakes(s8);
    ExampleReturns(Step(s8, DoGateWake(0)));
  }
}
