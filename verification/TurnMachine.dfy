/** Turns, sessions, approvals, their waiters and the transcript, as one state machine
    (src/agents/turnLifecycle.ts, service.ts, store.ts, approvalBroker.ts, and `gateOne` of
    sessions.ts). Every synchronous database section is one action; a run is any list of actions,
    so it interleaves turns, decisions, deadlines, tool calls and host restarts arbitrarily.

    Ids are numbers. An approval and a message are known by their position in insertion order, so
    "the newest" is the last one; a payload is known by its canonical text's hash. */
module TurnMachine {
  import opened Options

  type Id = nat

  datatype TurnStatus = Running | Waiting | Succeeded | Failed | Cancelled
  datatype SessionStatus = SOpen | SRunning | SWaiting | SHeld | SClosed
  datatype ApprovalStatus = Pending | Approved | Denied | Expired
  datatype Outcome = Decided(status: ApprovalStatus) | Aborted

  datatype Turn = Turn(session: Id, status: TurnStatus, errorCode: Option<string>)

  datatype Approval = Approval(session: Id, turn: Option<Id>, tool: string, hash: Id,
                               status: ApprovalStatus, expiresAt: int, decidedAt: Option<int>)

  datatype Role = User | Assistant
  datatype Message = Message(session: Id, number: nat, turn: Id, role: Role, text: string)

  /** The broker: who waits on which approval, and what each resolved waiter was told. */
  datatype Broker = Broker(waiting: map<Id, nat>, outcomes: map<Id, Outcome>)

  /** Where one ask-first tool call stands. */
  datatype Stage =
    | Requested(approval: nat)   // the approval was raised or found, not yet parked
    | Parked(approval: nat)      // the turn is waiting, the broker does not know yet
    | Listening(approval: nat)   // the broker was asked to wake this call
    | Returning(approval: nat)   // woken by the deadline, the turn not yet resumed
    | Finished(allowed: bool)

  datatype Gate = Gate(session: Id, turn: Id, tool: string, hash: Id, stage: Stage)

  datatype State = State(now: int, sessions: map<Id, SessionStatus>, turns: map<Id, Turn>,
                         approvals: seq<Approval>, executed: set<(Id, Id)>, messages: seq<Message>,
                         broker: Broker, gates: map<Id, Gate>)

  const HOST_RESTARTED := "agent.host_restarted"
  const UNDELIVERED := "agent.reply_undelivered"

  predicate IsTerminal(s: TurnStatus) { s != Running && s != Waiting }

  // ---------- the broker ----------

  /** Every waiter on one of these approvals is told the outcome and forgotten. */
  function SettleAll(b: Broker, s: set<nat>, o: Outcome): Broker {
    Broker(map w | w in b.waiting && b.waiting[w] !in s :: b.waiting[w],
           map w | w in b.outcomes.Keys + b.waiting.Keys && (w in b.outcomes || b.waiting[w] in s) ::
             if w in b.waiting && b.waiting[w] in s then o else b.outcomes[w])
  }

  function Except(waiting: map<Id, nat>, w: Id): map<Id, nat> {
    map x | x in waiting && x != w :: waiting[x]
  }

  /** One waiter is told an outcome. */
  function Resolve(b: Broker, w: Id, o: Outcome): Broker
    requires w in b.waiting
  {
    Broker(Except(b.waiting, w), b.outcomes[w := o])
  }

  // ---------- tables ----------

  function SetSession(m: map<Id, SessionStatus>, s: Id, status: SessionStatus): map<Id, SessionStatus> {
    if s in m then m[s := status] else m
  }

  function IsPending(a: seq<Approval>, i: int): bool {
    0 <= i < |a| && a[i].status == Pending
  }

  function Due(a: seq<Approval>, now: int): set<nat> {
    set i: nat | i < |a| && a[i].status == Pending && a[i].expiresAt <= now
  }

  function PendingOfTurn(a: seq<Approval>, t: Id): set<nat> {
    set i: nat | i < |a| && a[i].status == Pending && a[i].turn == Some(t)
  }

  function AllPending(a: seq<Approval>): set<nat> {
    set i: nat | i < |a| && a[i].status == Pending
  }

  function PendingOf(a: seq<Approval>, s: Id): set<nat> {
    set i: nat | i < |a| && a[i].status == Pending && a[i].session == s
  }

  /** `UPDATE ... SET status = 'expired'` on a set of approvals. */
  function ExpireSet(a: seq<Approval>, s: set<nat>, at: Option<int>): seq<Approval> {
    seq(|a|, i requires 0 <= i < |a| => if i in s then a[i].(status := Expired, decidedAt := at) else a[i])
  }

  /** Sessions still waiting on one of these approvals are opened. */
  function OpenWaiting(m: map<Id, SessionStatus>, a: seq<Approval>, s: set<nat>): map<Id, SessionStatus> {
    map x | x in m ::
      if m[x] == SWaiting && (exists i: nat :: i in s && i < |a| && a[i].session == x) then SOpen else m[x]
  }

  /** The newest approval of a session for a payload (ORDER BY created_at DESC LIMIT 1). */
  function Latest(a: seq<Approval>, s: Id, h: Id): Option<nat> {
    if a == [] then None
    else
      var n := |a| - 1;
      if a[n].session == s && a[n].hash == h then Some(n) else Latest(a[..n], s, h)
  }

  function CountOf(ms: seq<Message>, s: Id): nat {
    if ms == [] then 0 else CountOf(ms[..|ms| - 1], s) + if ms[|ms| - 1].session == s then 1 else 0
  }

  /** COALESCE(MAX(seq), 0) over a session's messages. */
  function MaxNumber(ms: seq<Message>, s: Id): nat {
    if ms == [] then 0
    else
      var m, rest := ms[|ms| - 1], MaxNumber(ms[..|ms| - 1], s);
      if m.session == s && m.number > rest then m.number else rest
  }

  function Append(ms: seq<Message>, s: Id, t: Id, role: Role, text: string): seq<Message> {
    ms + [Message(s, MaxNumber(ms, s) + 1, t, role, text)]
  }

  /** The first user message of a turn in a session. */
  function UserMessage(ms: seq<Message>, s: Id, t: Id): Option<nat> {
    if ms == [] then None
    else
      var n := |ms| - 1;
      match UserMessage(ms[..n], s, t)
      case Some(i) => Some(i)
      case None => if ms[n].session == s && ms[n].turn == t && ms[n].role == User then Some(n) else None
  }

  // ---------- lifecycle sections ----------

  function ExpireDue(st: State): State {
    var due := Due(st.approvals, st.now);
    st.(approvals := ExpireSet(st.approvals, due, Some(st.now)),
        sessions := OpenWaiting(st.sessions, st.approvals, due),
        broker := SettleAll(st.broker, due, Decided(Expired)))
  }

  function Wait(st: State, t: Id, a: nat): State {
    if WaitAnswerOf(st, t, a) == NowWaiting then
      st.(turns := st.turns[t := st.turns[t].(status := Waiting)],
          sessions := SetSession(st.sessions, st.turns[t].session, SWaiting))
    else st
  }

  /** What waiting answers: parked, the decision that is there already, or that the turn is not running. */
  datatype WaitAnswer = NowWaiting | AlreadyDecided(status: ApprovalStatus) | Inactive

  function WaitAnswerOf(st: State, t: Id, a: nat): WaitAnswer {
    if t !in st.turns || st.turns[t].status != Running then Inactive
    else if a < |st.approvals| && st.approvals[a].status != Pending then AlreadyDecided(st.approvals[a].status)
    else NowWaiting
  }

  function Resume(st: State, t: Id): State {
    if t in st.turns && st.turns[t].status == Waiting then
      st.(turns := st.turns[t := st.turns[t].(status := Running)],
          sessions := SetSession(st.sessions, st.turns[t].session, SRunning))
    else st
  }

  datatype Ending = Ending(status: TurnStatus, errorCode: Option<string>, reply: string, sessionStatus: SessionStatus)

  function Finish(st: State, t: Id, e: Ending): State
    requires IsTerminal(e.status)
  {
    if t !in st.turns || IsTerminal(st.turns[t].status) then st
    else
      var turn := st.turns[t];
      var closed := PendingOfTurn(st.approvals, t);
      st.(messages := if e.reply == "" then st.messages else Append(st.messages, turn.session, t, Assistant, e.reply),
          turns := st.turns[t := turn.(status := e.status, errorCode := e.errorCode)],
          approvals := ExpireSet(st.approvals, closed, Some(st.now)),
          sessions := SetSession(st.sessions, turn.session, e.sessionStatus),
          broker := SettleAll(st.broker, closed, Decided(Expired)))
  }

  /** TurnLifecycle.closeApproval. */
  function CloseOne(st: State, a: nat): State {
    if IsPending(st.approvals, a) then
      st.(approvals := ExpireSet(st.approvals, {a}, Some(st.now)),
          broker := SettleAll(st.broker, {a}, Decided(Expired)))
    else st
  }

  /** AgentService.closeApproval: also opens the session when it still waits. */
  function Close(st: State, a: nat): State {
    if a >= |st.approvals| then st
    else
      var s := st.approvals[a].session;
      var st' := CloseOne(st, a);
      if s in st'.sessions && st'.sessions[s] == SWaiting then st'.(sessions := st'.sessions[s := SOpen]) else st'
  }

  function TurnOver(st: State, a: nat): bool
    requires a < |st.approvals|
  {
    st.approvals[a].turn.Some? && st.approvals[a].turn.value in st.turns &&
      IsTerminal(st.turns[st.approvals[a].turn.value].status)
  }

  /** TurnLifecycle.decide on a pending approval. */
  function DecideOne(st: State, a: nat, approve: bool): State
    requires IsPending(st.approvals, a)
  {
    if TurnOver(st, a) then CloseOne(st, a)
    else
      var status := if approve then Approved else Denied;
      var row := st.approvals[a];
      st.(approvals := st.approvals[a := row.(status := status, decidedAt := Some(st.now))],
          executed := if approve then st.executed + {(row.session, row.hash)} else st.executed,
          sessions := SetSession(st.sessions, row.session, SOpen),
          broker := SettleAll(st.broker, {a}, Decided(status)))
  }

  /** AgentService.decideApproval; `permitted` says that the actor may approve, `enabled` that the agent is. */
  function Decide(st: State, s: Id, approve: bool, permitted: bool, enabled: bool): State {
    var pending := FirstPending(st.approvals, s);
    if s !in st.sessions || !permitted || pending.None? then st
    else if st.approvals[pending.value].expiresAt <= st.now then ExpireDue(st)
    else if approve && !enabled then st
    else DecideOne(st, pending.value, approve)
  }

  datatype DecideError = SessionNotFound | Forbidden | NotPending | DeadlinePassed | AgentDisabled

  /** What it answers: the approval that was decided, or why none was. */
  function DecideAnswer(st: State, s: Id, approve: bool, permitted: bool, enabled: bool): Result<nat, DecideError> {
    var pending := FirstPending(st.approvals, s);
    if s !in st.sessions then Err(SessionNotFound)
    else if !permitted then Err(Forbidden)
    else if pending.None? then Err(NotPending)
    else if st.approvals[pending.value].expiresAt <= st.now then Err(DeadlinePassed)
    else if approve && !enabled then Err(AgentDisabled)
    else if TurnOver(st, pending.value) then Err(NotPending)
    else Ok(pending.value)
  }

  /** getPendingApproval: some pending approval of the session. */
  function FirstPending(a: seq<Approval>, s: Id): (r: Option<nat>)
    ensures r.Some? ==> IsPending(a, r.value) && a[r.value].session == s
    ensures r.None? ==> PendingOf(a, s) == {}
  {
    if a == [] then None
    else
      var n := |a| - 1;
      if a[n].status == Pending && a[n].session == s then Some(n)
      else
        var r := FirstPending(a[..n], s);
        assert r.None? ==> forall i: nat :: i in PendingOf(a, s) ==> i in PendingOf(a[..n], s);
        r
  }

  /** A request for an approval; the flags say that the agent is enabled, that it is granted the tool
      and that the tool is one to ask for. */
  datatype Call = Call(session: Id, turn: Option<Id>, tool: string, hash: Id, timeout: int,
                       enabled: bool, granted: bool, askFirst: bool)

  datatype Refusal = NotFound | Disabled | NotGranted | NotRequired | Busy

  /** The checks of AgentService.requestApproval before any row is looked at. */
  function Refused(st: State, c: Call): Option<Refusal> {
    if c.session !in st.sessions then Some(NotFound)
    else if !c.enabled then Some(Disabled)
    else if !c.granted then Some(NotGranted)
    else if !c.askFirst then Some(NotRequired)
    else None
  }

  /** AgentService.requestApproval when nothing happens at its inner await: what is due expires, then the
      call is answered. In a run the two are separate actions. */
  function Request(st: State, c: Call): (State, Result<nat, Refusal>) {
    Answer(ExpireDue(st), c)
  }

  /** Its second part: the answer, and the state after it. */
  function Answer(st: State, c: Call): (State, Result<nat, Refusal>) {
    var refused := Refused(st, c);
    if refused.Some? then (st, Err(refused.value))
    else
      var prior := if (c.session, c.hash) in st.executed then Latest(st.approvals, c.session, c.hash) else None;
      if prior.Some? then (st, Ok(prior.value))
      else
        var existing := FirstPending(st.approvals, c.session);
        if existing.Some? then
          if st.approvals[existing.value].tool != c.tool || st.approvals[existing.value].hash != c.hash
          then (st, Err(Busy))
          else (st, Ok(existing.value))
        else
          (st.(approvals := st.approvals + [Prompt(c, st.now)],
               sessions := SetSession(st.sessions, c.session, SWaiting)),
           Ok(|st.approvals|))
  }

  /** The approval a call raises. */
  function Prompt(c: Call, now: int): Approval {
    Approval(c.session, c.turn, c.tool, c.hash, Pending, now + c.timeout, None)
  }

  datatype BeginError = NoSession | TurnsDisabled | SessionBusy | LimitReached

  /** Why AgentService.beginTurn refuses, if it does; the flags say that the agent is enabled and that the
      session is within its limits. */
  function BeginRefused(st: State, s: Id, enabled: bool, withinLimits: bool): Option<BeginError> {
    if s !in st.sessions then Some(NoSession)
    else if !enabled then Some(TurnsDisabled)
    else if st.sessions[s] == SRunning || st.sessions[s] == SWaiting then Some(SessionBusy)
    else if !withinLimits then Some(LimitReached)
    else None
  }

  /** AgentService.beginTurn; turn ids are fresh. */
  function Begin(st: State, s: Id, t: Id, text: string, resume: Option<Id>, enabled: bool, withinLimits: bool): State {
    if BeginRefused(st, s, enabled, withinLimits).Some? || t in st.turns then st
    else
      var retried := if resume.Some? then UserMessage(st.messages, s, resume.value) else None;
      st.(turns := st.turns[t := Turn(s, Running, None)],
          messages := MoveOrAppend(st.messages, retried, s, t, text),
          sessions := st.sessions[s := SRunning])
  }

  function MoveOrAppend(ms: seq<Message>, retried: Option<nat>, s: Id, t: Id, text: string): seq<Message> {
    if retried.Some? && retried.value < |ms| then ms[retried.value := ms[retried.value].(turn := t)]
    else Append(ms, s, t, User, text)
  }

  function FailActive(m: map<Id, Turn>): map<Id, Turn> {
    map t | t in m ::
      if IsTerminal(m[t].status) then m[t] else m[t].(status := Failed, errorCode := Some(HOST_RESTARTED))
  }

  function OpenActive(m: map<Id, SessionStatus>): map<Id, SessionStatus> {
    map s | s in m :: if m[s] == SRunning || m[s] == SWaiting then SOpen else m[s]
  }

  /** The host restarts: turns fail, sessions open, approvals expire; waiters and tool calls die with the process. */
  function Restart(st: State): State {
    st.(turns := FailActive(st.turns), sessions := OpenActive(st.sessions),
        approvals := ExpireSet(st.approvals, AllPending(st.approvals), None),
        broker := Broker(map[], map[]), gates := map[])
  }

  function ReplyTurn(turn: Turn, delivered: bool): Turn {
    if delivered then
      if turn.status == Failed && turn.errorCode == Some(UNDELIVERED)
      then turn.(status := Succeeded, errorCode := None) else turn
    else if turn.status == Succeeded then turn.(status := Failed, errorCode := Some(UNDELIVERED))
    else turn
  }

  function ReplyDelivery(st: State, t: Id, delivered: bool): State {
    if t in st.turns then st.(turns := st.turns[t := ReplyTurn(st.turns[t], delivered)]) else st
  }

  // ---------- one ask-first tool call (gateOne) ----------

  function SetStage(st: State, g: Id, stage: Stage): State
    requires g in st.gates
  {
    st.(gates := st.gates[g := st.gates[g].(stage := stage)])
  }

  /** The answer to the call's request: an approved approval lets it through at once. */
  function GateOpen(st: State, g: Id, c: Call): State {
    if g in st.gates || c.turn.None? then st
    else
      var (st1, r) := Answer(st, c);
      match r
      case Err(_) => st1
      case Ok(a) =>
        var stage :=
          if a < |st1.approvals| && st1.approvals[a].status == Approved then Finished(true) else Requested(a);
        st1.(gates := st1.gates[g := Gate(c.session, c.turn.value, c.tool, c.hash, stage)])
  }

  /** waitOnApproval: park the turn, unless the decision is in already or the turn is over. */
  function GatePark(st: State, g: Id): State {
    if g !in st.gates || !st.gates[g].stage.Requested? then st
    else
      var t, a := st.gates[g].turn, st.gates[g].stage.approval;
      match WaitAnswerOf(st, t, a)
      case Inactive => SetStage(st, g, Finished(false))
      case AlreadyDecided(status) => SetStage(st, g, Finished(status == Approved))
      case NowWaiting => SetStage(Wait(st, t, a), g, Parked(a))
  }

  /** ApprovalBroker.wait: register, unless the turn was stopped before. */
  function GateListen(st: State, g: Id, stopped: bool): State {
    if g !in st.gates || !st.gates[g].stage.Parked? || g in st.broker.waiting || g in st.broker.outcomes then st
    else
      var a := st.gates[g].stage.approval;
      SetStage(st, g, Listening(a)).(broker :=
        if stopped then st.broker.(outcomes := st.broker.outcomes[g := Aborted])
        else st.broker.(waiting := st.broker.waiting[g := a]))
  }

  /** The turn of a waiting call is stopped. */
  function GateAbort(st: State, g: Id): State {
    if g in st.broker.waiting then st.(broker := Resolve(st.broker, g, Aborted)) else st
  }

  /** The waiter's own timer: nothing before the deadline, "expired" after it. */
  function GateTimer(st: State, g: Id): State {
    if g in st.broker.waiting && st.broker.waiting[g] < |st.approvals| &&
       st.approvals[st.broker.waiting[g]].expiresAt <= st.now
    then st.(broker := Resolve(st.broker, g, Decided(Expired)))
    else st
  }

  predicate Wakeable(st: State, g: Id) {
    g in st.gates && st.gates[g].stage.Listening? && g in st.broker.outcomes
  }

  /** What the awaited outcome does to the tables: close a stopped call's approval, expire what is due, or
      resume the turn. */
  function WakeTables(st: State, t: Id, o: Outcome, a: nat): (st': State)
    ensures st'.gates == st.gates
  {
    match o
    case Aborted => Close(st, a)
    case Decided(s) => if s == Expired then ExpireDue(st) else Resume(st, t)
  }

  function WakeStage(o: Outcome, a: nat): Stage {
    match o
    case Aborted => Finished(false)
    case Decided(s) => if s == Expired then Returning(a) else Finished(s == Approved)
  }

  /** The awaited outcome arrives. */
  function GateWake(st: State, g: Id): State {
    if !Wakeable(st, g) then st
    else
      var o, a := st.broker.outcomes[g], st.gates[g].stage.approval;
      SetStage(WakeTables(st, st.gates[g].turn, o, a), g, WakeStage(o, a))
  }

  function GateReturn(st: State, g: Id): State {
    if g in st.gates && st.gates[g].stage.Returning?
    then SetStage(Resume(st, st.gates[g].turn), g, Finished(false))
    else st
  }

  // ---------- runs ----------

  datatype Action =
    | OpenSession(s: Id)
    | DoBegin(s: Id, t: Id, text: string, resume: Option<Id>, enabled: bool, withinLimits: bool)
    | DoAnswer(c: Call)
    | DoWait(t: Id, a: nat)
    | DoResume(t: Id)
    | DoDecide(s: Id, approve: bool, permitted: bool, enabled: bool)
    | DoExpire
    | DoFinish(t: Id, e: Ending)
    | DoClose(a: nat)
    | DoRestart
    | DoReply(t: Id, delivered: bool)
    | DoGateOpen(g: Id, c: Call)
    | DoGatePark(g: Id)
    | DoGateListen(g: Id, stopped: bool)
    | DoGateAbort(g: Id)
    | DoGateTimer(g: Id)
    | DoGateWake(g: Id)
    | DoGateReturn(g: Id)
    | Tick(now: int)

  function Step(st: State, x: Action): State {
    match x
    case OpenSession(s) => if s in st.sessions then st else st.(sessions := st.sessions[s := SOpen])
    case DoBegin(s, t, text, resume, enabled, withinLimits) => Begin(st, s, t, text, resume, enabled, withinLimits)
    case DoAnswer(c) => Answer(st, c).0
    case DoWait(t, a) => Wait(st, t, a)
    case DoResume(t) => Resume(st, t)
    case DoDecide(s, approve, permitted, enabled) => Decide(st, s, approve, permitted, enabled)
    case DoExpire => ExpireDue(st)
    case DoFinish(t, e) => if IsTerminal(e.status) then Finish(st, t, e) else st
    case DoClose(a) => Close(st, a)
    case DoRestart => Restart(st)
    case DoReply(t, delivered) => ReplyDelivery(st, t, delivered)
    case DoGateOpen(g, c) => GateOpen(st, g, c)
    case DoGatePark(g) => GatePark(st, g)
    case DoGateListen(g, stopped) => GateListen(st, g, stopped)
    case DoGateAbort(g) => GateAbort(st, g)
    case DoGateTimer(g) => GateTimer(st, g)
    case DoGateWake(g) => GateWake(st, g)
    case DoGateReturn(g) => GateReturn(st, g)
    case Tick(now) => if now < st.now then st else st.(now := now)
  }

  function Run(st: State, xs: seq<Action>): State
    decreases |xs|
  {
    if xs == [] then st else Run(Step(st, xs[0]), xs[1..])
  }

  const INIT := State(0, map[], map[], [], {}, [], Broker(map[], map[]), map[])
}
