/** What becomes of an ask-first tool call: when it is let through and when it is refused, in both
    directions, and what each of its steps does. */
module GateOutcomes {
  import opened Options
  import opened TurnMachine
  import opened ApprovalProofs
  import opened TurnProofs
  import opened GateProofs
  import opened ActiveTurns
  import opened TurnEffects

  predicate TurnRuns(st: State, gate: Gate) {
    gate.turn in st.turns && st.turns[gate.turn].status == Running
  }

  /** A call that asks where it stands. */
  predicate IsAt(st: State, g: Id, stage: Stage) {
    g in st.gates && st.gates[g].stage == stage
  }

  predicate FinishedAs(st: State, g: Id, allowed: bool) { IsAt(st, g, Finished(allowed)) }

  predicate IsFinished(st: State, g: Id) { g in st.gates && st.gates[g].stage.Finished? }

  /** The status of the approval that a call has asked for. */
  predicate Found(st: State, g: Id, status: ApprovalStatus) {
    g in st.gates && st.gates[g].stage.Requested? &&
    st.gates[g].stage.approval < |st.approvals| && st.approvals[st.gates[g].stage.approval].status == status
  }

  predicate WasTold(st: State, g: Id, o: Outcome) {
    g in st.gates && st.gates[g].stage.Listening? && g in st.broker.outcomes && st.broker.outcomes[g] == o
  }

  /** What lets a call through: its request finds an approved approval of its payload, it finds its own
      approved when it would park on a running turn, or it wakes having been told so. */
  ghost predicate LetsThrough(st: State, x: Action, g: Id) {
    match x
    case DoGateOpen(h, c) =>
      h == g && g !in st.gates && c.turn.Some? && Refused(st, c).None? && HasApproved(st.approvals, c.session, c.hash)
    case DoGatePark(h) => h == g && Found(st, g, Approved) && TurnRuns(st, st.gates[g])
    case DoGateWake(h) => h == g && WasTold(st, g, Decided(Approved))
    case _ => false
  }

  /** What refuses it: its turn is not running when it would park, or it finds its approval denied or
      expired; it wakes having been told that it was denied or stopped; or it comes back from the
      expiry that it was told of. */
  ghost predicate Refuses(st: State, x: Action, g: Id) {
    match x
    case DoGatePark(h) =>
      h == g && g in st.gates && st.gates[g].stage.Requested? &&
      (!TurnRuns(st, st.gates[g]) || Found(st, g, Denied) || Found(st, g, Expired))
    case DoGateWake(h) => h == g && (WasTold(st, g, Decided(Denied)) || WasTold(st, g, Aborted))
    case DoGateReturn(h) => h == g && g in st.gates && st.gates[g].stage.Returning?
    case _ => false
  }

  // ---------- one step ----------

  lemma OpenFinishes(st: State, h: Id, c: Call, g: Id)
    requires ApprovalsOk(st.approvals, st.executed) && !IsFinished(st, g)
    ensures FinishedAs(GateOpen(st, h, c), g, true) <==> LetsThrough(st, DoGateOpen(h, c), g)
    ensures !FinishedAs(GateOpen(st, h, c), g, false)
  {
    AnswerLeaves(st, c);
    AnswerPrompts(st, c);
    AnswerNames(st, c);
    if Refused(st, c).Some? {
    } else if HasApproved(st.approvals, c.session, c.hash) {
      var i :| 0 <= i < |st.approvals| && st.approvals[i].status == Approved
               && st.approvals[i].session == c.session && st.approvals[i].hash == c.hash;
      ApprovedIsLatest(st.approvals, st.executed, i);
    } else {
      NotApprovedAnswer(st, c);
    }
  }

  lemma NotApprovedAnswer(st: State, c: Call)
    requires ApprovalsOk(st.approvals, st.executed) && !HasApproved(st.approvals, c.session, c.hash)
    ensures var (st', r) := Answer(st, c);
            r.Ok? ==> r.value < |st'.approvals| && st'.approvals[r.value].status != Approved
  {
    AnswerPrompts(st, c);
    AnswerNames(st, c);
    AnswerLeaves(st, c);
    forall i | 0 <= i < |st.approvals| && st.approvals[i].session == c.session && st.approvals[i].hash == c.hash
      ensures st.approvals[i].status != Approved
    {
    }
  }

  lemma ParkFinishes(st: State, h: Id, g: Id)
    requires GatesOk(st) && !IsFinished(st, g)
    ensures FinishedAs(GatePark(st, h), g, true) <==> LetsThrough(st, DoGatePark(h), g)
    ensures FinishedAs(GatePark(st, h), g, false) <==> Refuses(st, DoGatePark(h), g)
  {
    if h in st.gates { assert GateOk(st.approvals, st.broker, h, st.gates[h]); }
  }

  lemma WakeFinishes(st: State, h: Id, g: Id)
    requires GatesOk(st) && !IsFinished(st, g)
    ensures FinishedAs(GateWake(st, h), g, true) <==> LetsThrough(st, DoGateWake(h), g)
    ensures FinishedAs(GateWake(st, h), g, false) <==> Refuses(st, DoGateWake(h), g)
  {
    if Wakeable(st, h) {
      assert GateOk(st.approvals, st.broker, h, st.gates[h]);
      var o, a := st.broker.outcomes[h], st.gates[h].stage.approval;
      assert GateWake(st, h).gates == st.gates[h := st.gates[h].(stage := WakeStage(o, a))];
    }
  }

  lemma ReturnFinishes(st: State, h: Id, g: Id)
    requires !IsFinished(st, g)
    ensures !FinishedAs(GateReturn(st, h), g, true)
    ensures FinishedAs(GateReturn(st, h), g, false) <==> Refuses(st, DoGateReturn(h), g)
  {
  }

  /** A call that is not finished is let through, or refused, by a step exactly when the step does one of
      these. */
  lemma StepFinishes(st: State, x: Action, g: Id)
    requires GatesOk(st) && ApprovalsOk(st.approvals, st.executed) && !IsFinished(st, g)
    ensures FinishedAs(Step(st, x), g, true) <==> LetsThrough(st, x, g)
    ensures FinishedAs(Step(st, x), g, false) <==> Refuses(st, x, g)
  {
    if !MovesGate(x) {
      OtherGates(st, x);
    } else {
      match x
      case DoGateOpen(h, c) => OpenFinishes(st, h, c, g);
      case DoGatePark(h) => ParkFinishes(st, h, g);
      case DoGateWake(h) => WakeFinishes(st, h, g);
      case DoGateReturn(h) => ReturnFinishes(st, h, g);
      case DoGateListen(_, _) => ListenStage(st, x, g);
    }
  }

  lemma ListenStage(st: State, x: Action, g: Id)
    requires x.DoGateListen? && !IsFinished(st, g)
    ensures !IsFinished(Step(st, x), g)
  {
  }

  /** A finished call stays as it is until the Host restarts. */
  lemma FinishedStays(st: State, x: Action, g: Id)
    requires IsFinished(st, g)
    ensures if x.DoRestart? then g !in Step(st, x).gates
            else g in Step(st, x).gates && Step(st, x).gates[g] == st.gates[g]
  {
    if !MovesGate(x) {
      OtherGates(st, x);
    } else if x.DoGateOpen? {
      AnswerLeaves(st, x.c);
    }
  }

  // ---------- every run ----------

  lemma RunBoth(xs: seq<Action>)
    ensures GatesOk(Run(INIT, xs)) && ApprovalsOk(Run(INIT, xs).approvals, Run(INIT, xs).executed)
  {
    RunGates(INIT, xs);
    RunOk(INIT, xs);
  }

  /** A call is finished only by such a step, and with what that step says: let through by one that lets
      it through, refused by one that refuses it. */
  lemma {:induction false} FinishedWhy(xs: seq<Action>, g: Id, n: nat, allowed: bool) returns (i: nat)
    requires n <= |xs| && FinishedAs(Run(INIT, xs[..n]), g, allowed)
    ensures i < n &&
            if allowed then LetsThrough(Run(INIT, xs[..i]), xs[i], g) else Refuses(Run(INIT, xs[..i]), xs[i], g)
    decreases n
  {
    assert xs[..0] == [];
    RunSnoc(INIT, xs, n - 1);
    RunBoth(xs[..n - 1]);
    var st := Run(INIT, xs[..n - 1]);
    if IsFinished(st, g) {
      FinishedStays(st, xs[n - 1], g);
      i := FinishedWhy(xs, g, n - 1, allowed);
    } else {
      i := n - 1;
      StepFinishes(st, xs[n - 1], g);
    }
  }

  /** A step that lets a call through, or refuses it, has the last word until a restart. */
  lemma {:induction false} FinishedLast(xs: seq<Action>, g: Id, n: nat, after: seq<Action>, allowed: bool)
    requires n < |xs| && !IsFinished(Run(INIT, xs[..n]), g) && NoRestart(after)
    requires if allowed then LetsThrough(Run(INIT, xs[..n]), xs[n], g) else Refuses(Run(INIT, xs[..n]), xs[n], g)
    ensures FinishedAs(Run(Run(INIT, xs[..n + 1]), after), g, allowed)
  {
    RunBoth(xs[..n]);
    StepFinishes(Run(INIT, xs[..n]), xs[n], g);
    RunSnoc(INIT, xs, n);
    FinishedThrough(Run(INIT, xs[..n + 1]), after, g);
  }

  lemma {:induction false} FinishedThrough(st: State, after: seq<Action>, g: Id)
    requires IsFinished(st, g) && NoRestart(after)
    ensures g in Run(st, after).gates && Run(st, after).gates[g] == st.gates[g]
    decreases |after|
  {
    if after != [] {
      assert after[0] in after && forall x <- after[1..] :: x in after;
      FinishedStays(st, after[0], g);
      FinishedThrough(Step(st, after[0]), after[1..], g);
    }
  }

  // ---------- told and finished agree ----------

  /** A call that was told something and is finished is let through exactly when it was told approved; one
      that comes back was told of an expiry; one that has not listened yet was told nothing. */
  predicate ToldStage(b: Broker, g: Id, stage: Stage) {
    match stage
    case Requested(_) => g !in b.outcomes
    case Parked(_) => g !in b.outcomes
    case Listening(_) => true
    case Returning(_) => g in b.outcomes && b.outcomes[g] == Decided(Expired)
    case Finished(allowed) => g in b.outcomes ==> (allowed <==> b.outcomes[g] == Decided(Approved))
  }

  ghost predicate ToldOk(st: State) {
    (forall w <- st.broker.outcomes :: w in st.gates) &&
    forall g <- st.gates :: ToldStage(st.broker, g, st.gates[g].stage)
  }

  /** Only a listening call is told something. */
  lemma StepTells(st: State, x: Action, g: Id)
    requires GatesOk(st) && !x.DoRestart? && g in Step(st, x).broker.outcomes
    ensures g in st.gates
    ensures (g in st.broker.outcomes && Step(st, x).broker.outcomes[g] == st.broker.outcomes[g]) ||
            st.gates[g].stage.Listening? || (x.DoGateListen? && x.g == g && st.gates[g].stage.Parked?) ||
              g in st.broker.outcomes
    requires forall w <- st.broker.outcomes :: w in st.gates
  {
    if g in st.broker.waiting { assert GateOk(st.approvals, st.broker, g, st.gates[g]); }
    if x.DoGateListen? || x.DoGateAbort? || x.DoGateTimer? {
    } else {
      StepWakes(st, x);
    }
  }

  /** What was told does not change for a call that is no longer waiting. */
  lemma StepKeepsTold(st: State, x: Action, g: Id)
    requires !x.DoRestart? && Resolved(st.broker, g)
    ensures StaysResolved(st.broker, Step(st, x).broker, g)
  {
    StepWaiter(st, x, g, 0);
  }

  lemma ToldAt(st: State, x: Action, g: Id)
    requires GatesOk(st) && ApprovalsOk(st.approvals, st.executed) && ToldOk(st) && !x.DoRestart? &&
             g in Step(st, x).gates
    ensures ToldStage(Step(st, x).broker, g, Step(st, x).gates[g].stage)
  {
    var st' := Step(st, x);
    if g in st'.broker.outcomes { StepTells(st, x, g); }
    if g in st.gates {
      assert GateOk(st.approvals, st.broker, g, st.gates[g]) && ToldStage(st.broker, g, st.gates[g].stage);
      if g in st.broker.outcomes && g !in st.broker.waiting { StepKeepsTold(st, x, g); }
      if IsFinished(st, g) { FinishedStays(st, x, g); } else { StepFinishes(st, x, g); }
    } else {
      StepFinishes(st, x, g);
    }
    StageMoves(st, x, g);
  }

  /** How the stage of a call moves on. */
  ghost predicate MovesOn(st: State, st': State, g: Id)
    requires g in st'.gates
  {
    var now := st'.gates[g].stage;
    && (g in st.gates ==>
          (now.Requested? || now.Parked? ==> st.gates[g].stage.Requested? || st.gates[g].stage == now) &&
          (now.Returning? ==> st.gates[g].stage == now || WasTold(st, g, Decided(Expired))))
    && (g !in st.gates ==> !now.Returning? && g !in st'.broker.outcomes)
  }

  lemma OpenMoves(st: State, h: Id, c: Call, g: Id)
    requires (forall w <- st.broker.outcomes :: w in st.gates) && g in GateOpen(st, h, c).gates
    ensures MovesOn(st, GateOpen(st, h, c), g)
  {
    AnswerLeaves(st, c);
  }

  lemma WakeMoves(st: State, h: Id, g: Id)
    requires g in GateWake(st, h).gates
    ensures g in st.gates && MovesOn(st, GateWake(st, h), g)
  {
    if Wakeable(st, h) {
      var o, a := st.broker.outcomes[h], st.gates[h].stage.approval;
      assert GateWake(st, h).gates == st.gates[h := st.gates[h].(stage := WakeStage(o, a))];
    }
  }

  lemma StageMoves(st: State, x: Action, g: Id)
    requires (forall w <- st.broker.outcomes :: w in st.gates) && !x.DoRestart? && g in Step(st, x).gates
    ensures MovesOn(st, Step(st, x), g)
  {
    if !MovesGate(x) {
      OtherGates(st, x);
    } else if x.DoGateOpen? {
      OpenMoves(st, x.g, x.c, g);
    } else if x.DoGateWake? {
      WakeMoves(st, x.g, g);
    }
  }

  lemma {:induction false} RunTold(st: State, xs: seq<Action>)
    requires GatesOk(st) && ApprovalsOk(st.approvals, st.executed) && ToldOk(st)
    ensures ToldOk(Run(st, xs))
    decreases |xs|
  {
    if xs != [] {
      StepToldOk(st, xs[0]);
      StepGates(st, xs[0]);
      StepOk(st, xs[0]);
      RunTold(Step(st, xs[0]), xs[1..]);
    }
  }

  lemma StepToldOk(st: State, x: Action)
    requires GatesOk(st) && ApprovalsOk(st.approvals, st.executed) && ToldOk(st)
    ensures ToldOk(Step(st, x))
  {
    if !x.DoRestart? {
      var st' := Step(st, x);
      forall w <- st'.broker.outcomes ensures w in st'.gates {
        StepTells(st, x, w);
        GatesStay(st, x, w);
      }
      forall g <- st'.gates ensures ToldStage(st'.broker, g, st'.gates[g].stage) { ToldAt(st, x, g); }
    }
  }

  lemma GatesStay(st: State, x: Action, g: Id)
    requires g in st.gates && !x.DoRestart?
    ensures g in Step(st, x).gates
  {
    if !MovesGate(x) { OtherGates(st, x); } else if x.DoGateOpen? { AnswerLeaves(st, x.c); }
  }

  /** In every run a call that was told of its approval, and has woken, was let through; and no other call
      that was told anything was. */
  lemma ToldApprovedPasses(xs: seq<Action>, g: Id)
    requires IsFinished(Run(INIT, xs), g) && g in Run(INIT, xs).broker.outcomes
    ensures FinishedAs(Run(INIT, xs), g, true) <==> Run(INIT, xs).broker.outcomes[g] == Decided(Approved)
  {
    RunTold(INIT, xs);
  }

  // ---------- the other steps of a call ----------

  /** A new call asks for its approval: it is let through when that is approved already, has asked
      otherwise, and is not there when it was refused. */
  lemma OpenMeans(st: State, g: Id, c: Call, next: State, answer: Result<nat, Refusal>)
    requires ApprovalsOk(st.approvals, st.executed) && g !in st.gates && c.turn.Some? && Answer(st, c) == (next, answer)
    ensures var st' := Step(st, DoGateOpen(g, c));
            match answer
            case Err(_) => st' == next && g !in st'.gates
            case Ok(a) =>
              st'.(gates := next.gates) == next && a < |next.approvals| &&
              st'.gates == st.gates[g := Gate(c.session, c.turn.value, c.tool, c.hash,
                                              if next.approvals[a].status == Approved then Finished(true)
                                              else Requested(a))]
  {
    AnswerLeaves(st, c);
    AnswerNames(st, c);
  }

  /** A call whose approval is open parks a running turn and its session. */
  lemma ParkMeans(st: State, g: Id, st': State)
    requires Found(st, g, Pending) && TurnRuns(st, st.gates[g]) && st.turns[st.gates[g].turn].session in st.sessions
    requires st' == Step(st, DoGatePark(g))
    ensures var t := st.gates[g].turn;
            && IsAt(st', g, Parked(st.gates[g].stage.approval))
            && st'.turns == st.turns[t := st.turns[t].(status := Waiting)]
            && st'.sessions == st.sessions[st.turns[t].session := SWaiting]
            && st'.approvals == st.approvals && st'.broker == st.broker
  {
  }

  /** A parked call waits with the broker, or is told at once that it was stopped; a waiting one can be
      stopped, and its timer tells it of the expiry exactly from the deadline on. */
  lemma ListenMeans(st: State, g: Id, a: nat, stopped: bool, st': State)
    requires IsAt(st, g, Parked(a)) && g !in st.broker.waiting && g !in st.broker.outcomes
    requires st' == Step(st, DoGateListen(g, stopped))
    ensures IsAt(st', g, Listening(a)) && st'.approvals == st.approvals && st'.turns == st.turns
    ensures if stopped then g !in st'.broker.waiting && g in st'.broker.outcomes && st'.broker.outcomes[g] == Aborted
            else g in st'.broker.waiting && st'.broker.waiting[g] == a && g !in st'.broker.outcomes
  {
  }

  lemma StopAndTimerMean(st: State, g: Id)
    requires g in st.broker.waiting && st.broker.waiting[g] < |st.approvals|
    ensures var b := Step(st, DoGateAbort(g)).broker;
            g !in b.waiting && g in b.outcomes && b.outcomes[g] == Aborted
    ensures var b := Step(st, DoGateTimer(g)).broker;
            if st.approvals[st.broker.waiting[g]].expiresAt <= st.now
            then g !in b.waiting && g in b.outcomes && b.outcomes[g] == Decided(Expired)
            else b == st.broker
  {
  }

  lemma TablesMean(st: State, t: Id, o: Outcome, a: nat)
    ensures WakeTables(st, t, o, a) ==
            if o == Aborted then Step(st, DoClose(a))
            else if o == Decided(Expired) then Step(st, DoExpire)
            else Step(st, DoResume(t))
  {
  }

  /** A call that wakes with a decision, or comes back from an expiry, resumes its turn; one that was told of
      an expiry first expires what is due; one that was stopped closes its approval. */
  lemma WakeMeans(st: State, g: Id, o: Outcome, next: State)
    requires WasTold(st, g, o)
    requires var a, t := st.gates[g].stage.approval, st.gates[g].turn;
             next == if o == Aborted then Step(st, DoClose(a))
                     else if o == Decided(Expired) then Step(st, DoExpire)
                     else Step(st, DoResume(t))
    ensures var a := st.gates[g].stage.approval;
            var stage := if o == Decided(Expired) then Returning(a) else Finished(o == Decided(Approved));
            Step(st, DoGateWake(g)) == next.(gates := st.gates[g := st.gates[g].(stage := stage)])
  {
    TablesMean(st, st.gates[g].turn, o, st.gates[g].stage.approval);
  }

  lemma ReturnMeans(st: State, g: Id, st': State)
    requires g in st.gates && st.gates[g].stage.Returning? && st' == Step(st, DoGateReturn(g))
    ensures st' == Step(st, DoResume(st.gates[g].turn)).(gates := st'.gates) && FinishedAs(st', g, false)
  {
  }
}
