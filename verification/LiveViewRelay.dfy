/** Input batches of the live view relay (src/browser/agentBrowserLiveViewRelay.ts): sent at once,
    queued while the stream is being moved, or refused, while a retarget loop or a nudge runs, the
    socket is replaced, and the relay closes or loses its upstream at any point.

    What the browser tool and the sockets answer is a parameter of the action that receives it. */
module LiveViewRelay {
  import opened Options

  type Id = nat
  type Event = nat

  datatype Batch = Batch(id: Id, events: seq<Event>, at: int)

  datatype Rejection = Closed | NotArray | BatchTooLarge | InvalidEvent | RateLimited | UpstreamUnavailable
  datatype Answer = Accepted(count: nat) | Rejected(reason: Rejection)

  /** The upstream socket: none, one that is OPEN, or one that is no longer. */
  datatype Socket = NoSocket | OpenSocket | StaleSocket

  /** The one asynchronous activity that may own the stream. */
  datatype Runner = Idle | Nudging | Looping

  const MAX_QUEUED_BATCHES := 16
  const WINDOW_MS := 1000

  datatype Limits = Limits(maxBatch: nat, maxPerSecond: nat)

  /** What became of the batches: every answer given, every event sent upstream, and as history the
      ids ever submitted and the accepted batches in the order they were accepted. */
  datatype Log = Log(answers: map<Id, Answer>, stream: seq<Event>, seen: set<Id>, accepted: seq<Batch>)

  /** The closure's variables; `windowFrom` is how many batches were accepted before the current rate window. */
  datatype State = State(
    closed: bool, running: bool, retargeting: bool, desired: Option<Id>, socket: Socket, queued: seq<Batch>,
    windowStart: int, windowCount: nat, runner: Runner, log: Log, windowFrom: nat)

  function Init(at: int): State {
    State(false, false, false, None, OpenSocket, [], at, 0, Idle, Log(map[], [], {}, []), 0)
  }

  // ---------- the sections between awaits ----------

  /** Answer a batch that was not accepted. */
  function RefuseLog(g: Log, id: Id, reason: Rejection): Log {
    g.(answers := g.answers[id := Rejected(reason)], seen := g.seen + {id})
  }

  /** Answer an accepted batch: send its events and say so, or give it up. */
  function AnswerLog(g: Log, b: Batch, sent: bool, reason: Rejection): Log {
    if sent then g.(stream := g.stream + b.events, answers := g.answers[b.id := Accepted(|b.events|)])
    else g.(answers := g.answers[b.id := Rejected(reason)])
  }

  function AnswerAll(g: Log, q: seq<Batch>, sent: bool, reason: Rejection): Log
    decreases |q|
  {
    if q == [] then g else AnswerAll(AnswerLog(g, q[0], sent, reason), q[1..], sent, reason)
  }

  function AcceptLog(g: Log, b: Batch): Log {
    g.(seen := g.seen + {b.id}, accepted := g.accepted + [b])
  }

  function Refuse(st: State, id: Id, reason: Rejection): State {
    st.(log := RefuseLog(st.log, id, reason))
  }

  function Roll(st: State, at: int): State {
    if at - st.windowStart >= WINDOW_MS || at < st.windowStart
    then st.(windowStart := at, windowCount := 0, windowFrom := |st.log.accepted|)
    else st
  }

  function Accept(st: State, b: Batch): State {
    st.(windowCount := st.windowCount + |b.events|, log := AcceptLog(st.log, b))
  }

  function SendInput(l: Limits, st: State, b: Batch, isArray: bool, valid: bool): State {
    if b.id in st.log.seen then st
    else if st.closed then Refuse(st, b.id, Closed)
    else if !isArray then Refuse(st, b.id, NotArray)
    else if |b.events| > l.maxBatch then Refuse(st, b.id, BatchTooLarge)
    else if !valid then Refuse(st, b.id, InvalidEvent)
    else Admit(l, Roll(st, b.at), b)
  }

  /** The second half of sendInput, once the rate window is current. */
  function Admit(l: Limits, st: State, b: Batch): State {
    if st.windowCount + |b.events| > l.maxPerSecond then Refuse(st, b.id, RateLimited)
    else if st.retargeting then
      if |st.queued| >= MAX_QUEUED_BATCHES then Refuse(st, b.id, UpstreamUnavailable)
      else Accept(st, b).(queued := st.queued + [b])
    else if st.socket != OpenSocket then Refuse(st, b.id, UpstreamUnavailable)
    else Accept(st, b).(log := AnswerLog(AcceptLog(st.log, b), b, true, UpstreamUnavailable))
  }

  function FlushQueued(st: State): State {
    st.(queued := [], log := AnswerAll(st.log, st.queued, st.socket == OpenSocket, UpstreamUnavailable))
  }

  function Finish(st: State): State {
    if st.closed then st
    else st.(closed := true, socket := NoSocket, queued := [], log := AnswerAll(st.log, st.queued, false, Closed),
             desired := None)
  }

  /** The head of the retarget loop; `work` tells whether the wanted tab is another one that still exists. */
  function LoopHead(st: State, work: bool): State {
    if st.desired.None? || st.closed then LoopEnd(st)
    else if work then st.(desired := None, runner := Looping, running := true, retargeting := true)
    else LoopEnd(st.(desired := None))
  }

  function Still(st: State): State {
    st.(running := false, retargeting := false, runner := Idle)
  }

  function LoopEnd(st: State): State {
    if st.closed then Still(st) else FlushQueued(Still(st))
  }

  /** An attempt to move to a tab has ended, with success or for good. */
  function LoopResume(st: State, ok: bool, work: bool): State {
    if st.closed then LoopEnd(st)
    else if !ok then LoopEnd(Finish(st))
    else LoopHead(st, work)
  }

  function Want(st: State, target: Id, work: bool): State {
    var st1 := st.(desired := Some(target));
    if st1.running then st1 else LoopHead(st1, work)
  }

  function NudgeStart(st: State): State {
    if st.closed || st.running then st else st.(running := true, retargeting := true, runner := Nudging)
  }

  function NudgeEnd(st: State, ok: bool, work: bool): State {
    var st1 := Still(st);
    if st1.closed then st1
    else if !ok then Finish(st1)
    else
      var st2 := FlushQueued(st1);
      if st2.desired.Some? then LoopHead(st2, work) else st2
  }

  // ---------- runs ----------

  datatype Action =
    | Send(b: Batch, isArray: bool, valid: bool)
    | Close
    | SocketDies
    | Reconnect(open: bool)
    | DropSocket
    | WantTab(target: Id, work: bool)
    | ForgetTab
    | StartNudge
    | EndNudge(ok: bool, work: bool)
    | ResumeLoop(ok: bool, work: bool)

  function Step(l: Limits, st: State, x: Action): State {
    match x
    case Send(b, isArray, valid) => SendInput(l, st, b, isArray, valid)
    case Close => Finish(st)
    case SocketDies => if st.socket == OpenSocket then st.(socket := StaleSocket) else st
    case DropSocket => if st.runner == Idle then st else st.(socket := NoSocket)
    case Reconnect(open) =>
      if st.runner == Idle || st.closed then st else st.(socket := if open then OpenSocket else StaleSocket)
    case WantTab(target, work) => Want(st, target, work)
    case ForgetTab => st.(desired := None)
    case StartNudge => NudgeStart(st)
    case EndNudge(ok, work) => if st.runner == Nudging then NudgeEnd(st, ok, work) else st
    case ResumeLoop(ok, work) => if st.runner == Looping then LoopResume(st, ok, work) else st
  }

  function Run(l: Limits, st: State, xs: seq<Action>): State
    decreases |xs|
  {
    if xs == [] then st else Run(l, Step(l, st, xs[0]), xs[1..])
  }

  // ---------- the invariant ----------

  /** The events of the batches answered ok, in the order of the list. */
  function Sent(bs: seq<Batch>, answers: map<Id, Answer>): seq<Event> {
    if bs == [] then []
    else
      var b := bs[|bs| - 1];
      Sent(bs[..|bs| - 1], answers) + if b.id in answers && answers[b.id].Accepted? then b.events else []
  }

  function Total(bs: seq<Batch>): nat {
    if bs == [] then 0 else Total(bs[..|bs| - 1]) + |bs[|bs| - 1].events|
  }

  ghost predicate DistinctIds(bs: seq<Batch>) {
    forall i, j :: 0 <= i < j < |bs| ==> bs[i].id != bs[j].id
  }

  function Ids(bs: seq<Batch>): set<Id> {
    set b <- bs :: b.id
  }

  /** An ok answer goes to an accepted batch and counts its events. */
  ghost predicate OkCounts(g: Log) {
    && (forall id <- g.answers :: g.answers[id].Accepted? ==> id in Ids(g.accepted))
    && (forall b <- g.accepted :: b.id in g.answers && g.answers[b.id].Accepted? ==>
        g.answers[b.id].count == |b.events|)
  }

  /** The flags agree with who owns the stream; batches wait only while it is being moved and the relay is open. */
  predicate FlagsOk(st: State) {
    && st.running == st.retargeting == (st.runner != Idle)
    && |st.queued| <= MAX_QUEUED_BATCHES
    && (st.queued != [] ==> st.retargeting && !st.closed)
  }

  /** With q still to be answered: q is the end of the order of acceptance, it has no answers, whatever
      else was submitted has one, and the stream holds exactly the batches answered ok, in that order. */
  ghost predicate OrderOk(g: Log, done: seq<Batch>, q: seq<Batch>) {
    && g.accepted == done + q && DistinctIds(g.accepted)
    && Waiting(g, Ids(q))
    && OkCounts(g)
    && g.stream == Sent(done, g.answers)
  }

  /** Just these ids were submitted and not answered yet. */
  ghost predicate Waiting(g: Log, ids: set<Id>) {
    ids !! g.answers.Keys && g.seen == g.answers.Keys + ids && Ids(g.accepted) <= g.seen
  }

  /** The window's count is what was accepted in it. */
  predicate WindowOk(l: Limits, accepted: seq<Batch>, from: nat, start: int, count: nat) {
    && from <= |accepted|
    && count == Total(accepted[from..])
    && count <= l.maxPerSecond
    && forall i :: from <= i < |accepted| ==> start <= accepted[i].at < start + WINDOW_MS
  }

  /** The accepted batches before those that wait. */
  function Done(st: State): seq<Batch> {
    if |st.queued| <= |st.log.accepted| then st.log.accepted[..|st.log.accepted| - |st.queued|] else []
  }

  ghost predicate LogOk(l: Limits, st: State) {
    OrderOk(st.log, Done(st), st.queued) && WindowOk(l, st.log.accepted, st.windowFrom, st.windowStart, st.windowCount)
  }

  ghost predicate Inv(l: Limits, st: State) {
    LogOk(l, st) && FlagsOk(st)
  }

  // ---------- answering the queue ----------

  lemma {:induction false} SentFrame(bs: seq<Batch>, answers: map<Id, Answer>, id: Id, a: Answer)
    requires id !in Ids(bs)
    ensures Sent(bs, answers[id := a]) == Sent(bs, answers)
  {
    if bs != [] {
      var n := |bs| - 1;
      assert bs[n] in bs && bs[n].id in Ids(bs);
      assert forall b <- bs[..n] :: b in bs;
      SentFrame(bs[..n], answers, id, a);
    }
  }

  lemma IdsSplit(bs: seq<Batch>, b: Batch)
    ensures Ids([b] + bs) == {b.id} + Ids(bs) && Ids(bs + [b]) == {b.id} + Ids(bs)
  {
    assert forall x :: x in [b] + bs <==> x == b || x in bs;
    assert forall x :: x in bs + [b] <==> x == b || x in bs;
  }

  /** A batch's id is not that of a batch before or after it. */
  lemma IdApart(done: seq<Batch>, b: Batch, q: seq<Batch>)
    requires DistinctIds(done + ([b] + q))
    ensures b.id !in Ids(done) && b.id !in Ids(q)
    ensures forall x <- done + ([b] + q) :: x.id == b.id ==> x == b
  {
    var all := done + ([b] + q);
    assert all[|done|] == b;
    forall x <- all | x.id == b.id ensures x == b {
      var i :| 0 <= i < |all| && all[i] == x;
    }
    forall x <- done ensures x.id != b.id {
      var i :| 0 <= i < |done| && done[i] == x;
      assert all[i] == x;
    }
    forall x <- q ensures x.id != b.id {
      var i :| 0 <= i < |q| && q[i] == x;
      assert all[|done| + 1 + i] == x;
    }
  }

  lemma AnswerCounts(g: Log, b: Batch, sent: bool, reason: Rejection)
    requires OkCounts(g) && b in g.accepted && forall x <- g.accepted :: x.id == b.id ==> x == b
    ensures OkCounts(AnswerLog(g, b, sent, reason))
  {
    assert b.id in Ids(g.accepted);
  }

  lemma AnswerStream(g: Log, done: seq<Batch>, b: Batch, sent: bool, reason: Rejection)
    requires g.stream == Sent(done, g.answers) && b.id !in Ids(done)
    ensures AnswerLog(g, b, sent, reason).stream == Sent(done + [b], AnswerLog(g, b, sent, reason).answers)
  {
    SentFrame(done, g.answers, b.id, AnswerLog(g, b, sent, reason).answers[b.id]);
    assert (done + [b])[..|done|] == done;
    assert g.stream + [] == g.stream;
  }

  lemma AnswerWaiting(g: Log, b: Batch, ids: set<Id>, sent: bool, reason: Rejection)
    requires Waiting(g, {b.id} + ids) && b.id !in ids
    ensures Waiting(AnswerLog(g, b, sent, reason), ids)
  {
    assert AnswerLog(g, b, sent, reason).answers.Keys == g.answers.Keys + {b.id};
  }

  lemma AnswerFirst(g: Log, done: seq<Batch>, b: Batch, q: seq<Batch>, sent: bool, reason: Rejection)
    requires OrderOk(g, done, [b] + q)
    ensures OrderOk(AnswerLog(g, b, sent, reason), done + [b], q)
  {
    IdsSplit(q, b);
    IdApart(done, b, q);
    assert g.accepted[|done|] == b;
    AnswerWaiting(g, b, Ids(q), sent, reason);
    AnswerCounts(g, b, sent, reason);
    AnswerStream(g, done, b, sent, reason);
    assert done + ([b] + q) == done + [b] + q;
  }

  lemma {:induction false} AnswerAllOk(g: Log, done: seq<Batch>, q: seq<Batch>, sent: bool, reason: Rejection)
    requires OrderOk(g, done, q)
    ensures OrderOk(AnswerAll(g, q, sent, reason), done + q, [])
    ensures AnswerAll(g, q, sent, reason).accepted == g.accepted && AnswerAll(g, q, sent, reason).seen == g.seen
    decreases |q|
  {
    if q == [] {
      assert done + [] == done;
    } else {
      assert q == [q[0]] + q[1..];
      AnswerFirst(g, done, q[0], q[1..], sent, reason);
      AnswerAllOk(AnswerLog(g, q[0], sent, reason), done + [q[0]], q[1..], sent, reason);
      assert done + [q[0]] + q[1..] == done + q;
    }
  }

  lemma FlushOk(l: Limits, st: State)
    requires LogOk(l, st)
    ensures LogOk(l, FlushQueued(st))
  {
    AnswerAllOk(st.log, Done(st), st.queued, st.socket == OpenSocket, UpstreamUnavailable);
    assert Done(FlushQueued(st)) == st.log.accepted;
  }

  lemma FinishOk(l: Limits, st: State)
    requires LogOk(l, st) && (st.closed ==> st.queued == [])
    ensures LogOk(l, Finish(st)) && Finish(st).closed && Finish(st).queued == []
  {
    if !st.closed {
      AnswerAllOk(st.log, Done(st), st.queued, false, Closed);
      assert Done(Finish(st)) == st.log.accepted;
    }
  }

  lemma LoopEndOk(l: Limits, st: State)
    requires LogOk(l, st) && (st.closed ==> st.queued == [])
    ensures Inv(l, LoopEnd(st))
  {
    if !st.closed {
      FlushOk(l, Still(st));
    }
  }

  lemma LoopHeadOk(l: Limits, st: State, work: bool)
    requires LogOk(l, st) && (st.closed ==> st.queued == []) && |st.queued| <= MAX_QUEUED_BATCHES
    ensures Inv(l, LoopHead(st, work))
  {
    if st.desired.None? || st.closed {
      LoopEndOk(l, st);
    } else if !work {
      LoopEndOk(l, st.(desired := None));
    } else {
      LoopBeginsOk(l, st, LoopHead(st, work));
    }
  }

  lemma LoopBeginsOk(l: Limits, st: State, st': State)
    requires LogOk(l, st) && !st.closed && |st.queued| <= MAX_QUEUED_BATCHES
    requires st' == st.(desired := None, runner := Looping, running := true, retargeting := true)
    ensures Inv(l, st')
  {
    assert Done(st') == Done(st);
  }

  // ---------- every action keeps it ----------

  lemma RefuseOrder(g: Log, done: seq<Batch>, q: seq<Batch>, id: Id, reason: Rejection)
    requires OrderOk(g, done, q) && id !in g.seen
    ensures OrderOk(RefuseLog(g, id, reason), done, q)
  {
    assert forall b <- done :: b in g.accepted;
    assert forall b <- g.accepted :: b.id in Ids(g.accepted);
    SentFrame(done, g.answers, id, Rejected(reason));
  }

  lemma RefuseOk(l: Limits, st: State, id: Id, reason: Rejection)
    requires Inv(l, st) && id !in st.log.seen
    ensures Inv(l, Refuse(st, id, reason))
  {
    RefuseOrder(st.log, Done(st), st.queued, id, reason);
  }

  lemma RollOk(l: Limits, st: State, at: int)
    requires Inv(l, st)
    ensures Inv(l, Roll(st, at)) && Roll(st, at).windowStart <= at < Roll(st, at).windowStart + WINDOW_MS
  {
    var st' := Roll(st, at);
    assert st'.log == st.log && st'.queued == st.queued && Done(st') == Done(st);
    assert st.log.accepted[|st.log.accepted|..] == [];
  }

  /** Accepting a batch puts it last in the order, still to be answered. */
  lemma AcceptOrder(g: Log, done: seq<Batch>, q: seq<Batch>, b: Batch)
    requires OrderOk(g, done, q) && b.id !in g.seen
    ensures OrderOk(AcceptLog(g, b), done, q + [b])
  {
    IdsSplit(q, b);
    IdsSplit(g.accepted, b);
    assert done + (q + [b]) == g.accepted + [b];
    assert forall x <- g.accepted :: x.id in Ids(g.accepted);
  }

  lemma TotalAppend(w: seq<Batch>, b: Batch)
    ensures Total(w + [b]) == Total(w) + |b.events|
  {
    assert (w + [b])[..|w|] == w;
  }

  lemma AcceptWindow(l: Limits, accepted: seq<Batch>, from: nat, start: int, count: nat, b: Batch)
    requires WindowOk(l, accepted, from, start, count)
    requires count + |b.events| <= l.maxPerSecond && start <= b.at < start + WINDOW_MS
    ensures WindowOk(l, accepted + [b], from, start, count + |b.events|)
  {
    TotalAppend(accepted[from..], b);
    assert (accepted + [b])[from..] == accepted[from..] + [b];
  }

  lemma LogOkFrom(l: Limits, st: State, done: seq<Batch>)
    requires OrderOk(st.log, done, st.queued)
    requires WindowOk(l, st.log.accepted, st.windowFrom, st.windowStart, st.windowCount)
    ensures LogOk(l, st)
  {
    assert Done(st) == done;
  }

  lemma QueueOk(l: Limits, st: State, b: Batch)
    requires LogOk(l, st) && b.id !in st.log.seen && st.windowStart <= b.at < st.windowStart + WINDOW_MS
    requires st.windowCount + |b.events| <= l.maxPerSecond
    ensures LogOk(l, Accept(st, b).(queued := st.queued + [b]))
  {
    AcceptWindow(l, st.log.accepted, st.windowFrom, st.windowStart, st.windowCount, b);
    AcceptOrder(st.log, Done(st), st.queued, b);
    LogOkFrom(l, Accept(st, b).(queued := st.queued + [b]), Done(st));
  }

  lemma DirectOrder(g: Log, done: seq<Batch>, none: seq<Batch>, b: Batch)
    requires OrderOk(g, done, none) && none == [] && b.id !in g.seen
    ensures OrderOk(AnswerLog(AcceptLog(g, b), b, true, UpstreamUnavailable), done + [b], none)
  {
    AcceptOrder(g, done, none, b);
    assert none + [b] == [b] + none;
    AnswerFirst(AcceptLog(g, b), done, b, none, true, UpstreamUnavailable);
  }

  lemma DirectOk(l: Limits, st: State, st': State, b: Batch)
    requires LogOk(l, st) && b.id !in st.log.seen && st.windowStart <= b.at < st.windowStart + WINDOW_MS
    requires st.windowCount + |b.events| <= l.maxPerSecond && st.queued == []
    requires st' == Accept(st, b).(log := AnswerLog(AcceptLog(st.log, b), b, true, UpstreamUnavailable))
    ensures LogOk(l, st')
  {
    DirectWindow(l, st, st', b);
    DirectOrder(st.log, Done(st), st.queued, b);
    assert st'.queued == st.queued && st'.log == AnswerLog(AcceptLog(st.log, b), b, true, UpstreamUnavailable);
    LogOkFrom(l, st', Done(st) + [b]);
  }

  lemma DirectWindow(l: Limits, st: State, st': State, b: Batch)
    requires WindowOk(l, st.log.accepted, st.windowFrom, st.windowStart, st.windowCount)
    requires st.windowStart <= b.at < st.windowStart + WINDOW_MS && st.windowCount + |b.events| <= l.maxPerSecond
    requires st' == Accept(st, b).(log := AnswerLog(AcceptLog(st.log, b), b, true, UpstreamUnavailable))
    ensures WindowOk(l, st'.log.accepted, st'.windowFrom, st'.windowStart, st'.windowCount)
  {
    AcceptWindow(l, st.log.accepted, st.windowFrom, st.windowStart, st.windowCount, b);
  }

  lemma AdmitRefuses(l: Limits, st: State, b: Batch)
    requires Inv(l, st) && b.id !in st.log.seen
    ensures Admit(l, st, b).log.accepted == st.log.accepted ==> Inv(l, Admit(l, st, b))
  {
    RefuseOk(l, st, b.id, if st.windowCount + |b.events| > l.maxPerSecond then RateLimited else UpstreamUnavailable);
  }

  lemma AdmitOk(l: Limits, st: State, b: Batch)
    requires Inv(l, st) && b.id !in st.log.seen && !st.closed && st.windowStart <= b.at < st.windowStart + WINDOW_MS
    ensures Inv(l, Admit(l, st, b))
  {
    var st' := Admit(l, st, b);
    AdmitRefuses(l, st, b);
    if st'.log.accepted != st.log.accepted {
      if st.retargeting {
        QueueOk(l, st, b);
        assert st' == Accept(st, b).(queued := st.queued + [b]);
      } else {
        DirectOk(l, st, st', b);
      }
      assert FlagsOk(st');
    }
  }

  lemma SendOk(l: Limits, st: State, b: Batch, isArray: bool, valid: bool)
    requires Inv(l, st)
    ensures Inv(l, SendInput(l, st, b, isArray, valid))
  {
    if b.id !in st.log.seen {
      if st.closed || !isArray || |b.events| > l.maxBatch || !valid {
        RefuseOk(l, st, b.id, if st.closed then Closed else if !isArray then NotArray
                              else if |b.events| > l.maxBatch then BatchTooLarge else InvalidEvent);
      } else {
        RollOk(l, st, b.at);
        AdmitOk(l, Roll(st, b.at), b);
      }
    }
  }

  lemma NudgeEndOk(l: Limits, st: State, ok: bool, work: bool)
    requires Inv(l, st)
    ensures Inv(l, NudgeEnd(st, ok, work))
  {
    if !st.closed {
      FinishOk(l, Still(st));
      FlushOk(l, Still(st));
      LoopHeadOk(l, FlushQueued(Still(st)), work);
    }
  }

  lemma ResumeOk(l: Limits, st: State, ok: bool, work: bool)
    requires Inv(l, st)
    ensures Inv(l, LoopResume(st, ok, work))
  {
    if st.closed {
      LoopEndOk(l, st);
    } else if !ok {
      FinishOk(l, st);
      LoopEndOk(l, Finish(st));
    } else {
      LoopHeadOk(l, st, work);
    }
  }

  lemma CloseOk(l: Limits, st: State)
    requires Inv(l, st)
    ensures Inv(l, Finish(st))
  {
    FinishOk(l, st);
  }

  lemma WantOk(l: Limits, st: State, target: Id, work: bool)
    requires Inv(l, st)
    ensures Inv(l, Want(st, target, work))
  {
    LoopHeadOk(l, st.(desired := Some(target)), work);
  }

  lemma StepOk(l: Limits, st: State, x: Action)
    requires Inv(l, st)
    ensures Inv(l, Step(l, st, x))
  {
    if Answerless(x) {
      SocketOk(l, st, x, Step(l, st, x));
    } else {
      match x
      case Send(b, isArray, valid) => SendOk(l, st, b, isArray, valid);
      case Close => CloseOk(l, st);
      case WantTab(target, work) => WantOk(l, st, target, work);
      case EndNudge(ok, work) => if st.runner == Nudging { NudgeEndOk(l, st, ok, work); }
      case ResumeLoop(ok, work) => if st.runner == Looping { ResumeOk(l, st, ok, work); }
    }
  }

  /** The steps that answer nothing. */
  predicate Answerless(x: Action) {
    x.SocketDies? || x.DropSocket? || x.Reconnect? || x.ForgetTab? || x.StartNudge?
  }

  lemma NothingAnswered(l: Limits, st: State, x: Action, st': State)
    requires Answerless(x) && st' == Step(l, st, x)
    ensures st'.log == st.log && st'.queued == st.queued && st'.windowFrom == st.windowFrom
    ensures st'.windowStart == st.windowStart && st'.windowCount == st.windowCount
    ensures FlagsOk(st) ==> FlagsOk(st')
  {
  }

  lemma SocketOk(l: Limits, st: State, x: Action, st': State)
    requires Inv(l, st) && Answerless(x) && st' == Step(l, st, x)
    ensures Inv(l, st')
  {
    NothingAnswered(l, st, x, st');
    assert Done(st') == Done(st);
  }

  lemma {:induction false} RunOk(l: Limits, st: State, xs: seq<Action>)
    requires Inv(l, st)
    ensures Inv(l, Run(l, st, xs))
    decreases |xs|
  {
    if xs != [] {
      StepOk(l, st, xs[0]);
      RunOk(l, Step(l, st, xs[0]), xs[1..]);
    }
  }

  lemma InitOk(l: Limits, at: int)
    ensures Inv(l, Init(at))
  {
  }

  // ---------- the theorems ----------

  /** In every reachable state at most 16 batches wait; if any waits, the stream is being moved and the
      relay is open; and each submitted batch has one answer or waits, never both. */
  lemma QueueInEveryRun(l: Limits, at: int, xs: seq<Action>)
    ensures var st := Run(l, Init(at), xs);
            && |st.queued| <= 16
            && (st.queued != [] ==> st.retargeting && !st.closed && st.runner != Idle)
            && st.log.seen == st.log.answers.Keys + Ids(st.queued)
            && st.log.answers.Keys !! Ids(st.queued)
            && DistinctIds(st.queued)
  {
    InitOk(l, at);
    RunOk(l, Init(at), xs);
    var st := Run(l, Init(at), xs);
    DistinctSuffix(Done(st), st.queued);
  }

  lemma DistinctSuffix(done: seq<Batch>, q: seq<Batch>)
    requires DistinctIds(done + q)
    ensures DistinctIds(q)
  {
    assert forall i :: 0 <= i < |q| ==> q[i] == (done + q)[|done| + i];
  }

  /** When nothing is moving the stream, every batch ever submitted has been answered. */
  lemma QuietMeansAnswered(l: Limits, at: int, xs: seq<Action>)
    requires Run(l, Init(at), xs).runner == Idle || Run(l, Init(at), xs).closed
    ensures Run(l, Init(at), xs).log.seen == Run(l, Init(at), xs).log.answers.Keys
  {
    QueueInEveryRun(l, at, xs);
  }

  /** The stream is, in every reachable state, exactly the events of the batches answered ok, in the
      order in which they were accepted: no direct send overtakes a queued one. An ok answer counts
      the events of its batch. */
  lemma StreamInAcceptanceOrder(l: Limits, at: int, xs: seq<Action>)
    ensures var g := Run(l, Init(at), xs).log;
            g.stream == Sent(g.accepted, g.answers) && DistinctIds(g.accepted) && OkCounts(g)
  {
    InitOk(l, at);
    RunOk(l, Init(at), xs);
    var st := Run(l, Init(at), xs);
    SentSkips(Done(st), st.queued, st.log.answers);
  }

  /** Batches without an answer add nothing to what was sent. */
  lemma {:induction false} SentSkips(done: seq<Batch>, q: seq<Batch>, answers: map<Id, Answer>)
    requires Ids(q) !! answers.Keys
    ensures Sent(done + q, answers) == Sent(done, answers)
  {
    if q == [] {
      assert done + q == done;
    } else {
      var n := |q| - 1;
      assert forall b <- q[..n] :: b in q;
      assert q[n] in q && q[n].id in Ids(q);
      SentSkips(done, q[..n], answers);
      assert (done + q)[..|done + q| - 1] == done + q[..n];
    }
  }

  // ---------- what becomes of a batch ----------

  /** The events of some batches, in order. */
  function Events(q: seq<Batch>): seq<Event> {
    if q == [] then [] else q[0].events + Events(q[1..])
  }

  /** All of q were sent, in order, and answered so; or all were given up for one reason. */
  ghost predicate AllSent(g: Log, q: seq<Batch>, h: Log) {
    h.stream == g.stream + Events(q) && forall b <- q :: b.id in h.answers && h.answers[b.id] == Accepted(|b.events|)
  }

  ghost predicate AllGivenUp(g: Log, q: seq<Batch>, reason: Rejection, h: Log) {
    h.stream == g.stream && forall b <- q :: b.id in h.answers && h.answers[b.id] == Rejected(reason)
  }

  lemma RestApart(q: seq<Batch>)
    requires DistinctIds(q) && q != []
    ensures DistinctIds(q[1..]) && q[0].id !in Ids(q[1..]) && Ids(q) == {q[0].id} + Ids(q[1..])
  {
    forall c <- q[1..] ensures c.id != q[0].id {
      var i :| 0 <= i < |q[1..]| && q[1..][i] == c;
      assert q[i + 1] == c;
    }
    assert q == [q[0]] + q[1..];
  }

  /** Answering one batch after another keeps the other answers. */
  lemma {:induction false} AnswerAllMeans(g: Log, q: seq<Batch>, sent: bool, reason: Rejection)
    requires DistinctIds(q)
    ensures var h := AnswerAll(g, q, sent, reason);
            && (if sent then AllSent(g, q, h) else AllGivenUp(g, q, reason, h))
            && (forall id :: id in g.answers && id !in Ids(q) ==> id in h.answers && h.answers[id] == g.answers[id])
    decreases |q|
  {
    if q != [] {
      RestApart(q);
      var b, rest := q[0], q[1..];
      assert q == [b] + rest;
      var g' := AnswerLog(g, b, sent, reason);
      var h := AnswerAll(g', rest, sent, reason);
      AnswerAllMeans(g', rest, sent, reason);
      assert h.answers[b.id] == g'.answers[b.id];
      OneMoreAnswered(g, b, rest, sent, reason, h);
    }
  }

  lemma OneMoreAnswered(g: Log, b: Batch, rest: seq<Batch>, sent: bool, reason: Rejection, h: Log)
    requires var g' := AnswerLog(g, b, sent, reason);
             b.id in h.answers && h.answers[b.id] == g'.answers[b.id] &&
             if sent then AllSent(g', rest, h) else AllGivenUp(g', rest, reason, h)
    ensures if sent then AllSent(g, [b] + rest, h) else AllGivenUp(g, [b] + rest, reason, h)
  {
    assert ([b] + rest)[1..] == rest;
    assert g.stream + (b.events + Events(rest)) == g.stream + b.events + Events(rest);
  }

  /** What a step does to the batches that wait. They go on waiting, behind them perhaps one more; or none
      waits any more: the relay has closed and each is told so, or the socket is open and each was sent,
      or it is not and each was given up. */
  ghost predicate QueueFate(st: State, st': State) {
    || st.queued == []
    || (st.queued <= st'.queued && |st'.queued| <= |st.queued| + 1 && st'.log.stream == st.log.stream)
    || (st'.queued == [] &&
        if st'.closed then AllGivenUp(st.log, st.queued, Closed, st'.log)
        else if st'.socket == OpenSocket then AllSent(st.log, st.queued, st'.log)
        else AllGivenUp(st.log, st.queued, UpstreamUnavailable, st'.log))
  }

  lemma FlushFate(st: State)
    requires DistinctIds(st.queued) && !st.closed
    ensures QueueFate(st, FlushQueued(st))
  {
    AnswerAllMeans(st.log, st.queued, st.socket == OpenSocket, UpstreamUnavailable);
  }

  lemma FinishFate(st: State)
    requires DistinctIds(st.queued) && !st.closed
    ensures QueueFate(st, Finish(st)) && Finish(st).closed
  {
    AnswerAllMeans(st.log, st.queued, false, Closed);
  }

  lemma LoopEndFate(st: State)
    requires DistinctIds(st.queued) && (st.closed ==> st.queued == [])
    ensures QueueFate(st, LoopEnd(st))
  {
    if !st.closed { FlushFate(Still(st)); }
  }

  lemma LoopHeadFate(st: State, work: bool)
    requires DistinctIds(st.queued) && (st.closed ==> st.queued == [])
    ensures QueueFate(st, LoopHead(st, work))
  {
    LoopEndFate(st);
    LoopEndFate(st.(desired := None));
  }

  /** A loop that begins on an empty queue does nothing to it. */
  lemma LoopHeadIdle(st: State, work: bool)
    requires st.queued == []
    ensures var st' := LoopHead(st, work);
            st'.queued == [] && st'.log == st.log && st'.socket == st.socket && st'.closed == st.closed
  {
  }

  lemma NudgeEndFate(st: State, ok: bool, work: bool)
    requires DistinctIds(st.queued) && (st.closed ==> st.queued == [])
    ensures QueueFate(st, NudgeEnd(st, ok, work))
  {
    if !st.closed {
      FinishFate(Still(st));
      FlushFate(Still(st));
      LoopHeadIdle(FlushQueued(Still(st)), work);
    }
  }

  lemma ResumeFate(st: State, ok: bool, work: bool)
    requires DistinctIds(st.queued) && (st.closed ==> st.queued == [])
    ensures QueueFate(st, LoopResume(st, ok, work))
  {
    if st.closed {
      LoopEndFate(st);
    } else if !ok {
      FinishFate(st);
    } else {
      LoopHeadFate(st, work);
    }
  }

  lemma StepFate(l: Limits, st: State, x: Action)
    requires DistinctIds(st.queued) && (st.closed ==> st.queued == []) && (st.queued != [] ==> st.retargeting)
    ensures QueueFate(st, Step(l, st, x))
  {
    match x
    case Close => if !st.closed { FinishFate(st); }
    case WantTab(target, work) => LoopHeadFate(st.(desired := Some(target)), work);
    case EndNudge(ok, work) => NudgeEndFate(st, ok, work);
    case ResumeLoop(ok, work) => ResumeFate(st, ok, work);
    case Send(_, _, _) => SendFate(l, st, x);
    case _ => NothingAnswered(l, st, x, Step(l, st, x));
  }

  lemma SendFate(l: Limits, st: State, x: Action)
    requires x.Send? && (st.queued != [] ==> st.retargeting)
    ensures QueueFate(st, Step(l, st, x))
  {
  }

  /** In every run, whatever happens to the batches that wait is one of these; and when nothing moves the
      stream any more none waits. So batches that waited for a retarget or a nudge that leaves the relay
      open are sent, in the order of the queue, exactly when the socket is open then. */
  lemma QueueIsFlushed(l: Limits, at: int, xs: seq<Action>, x: Action)
    ensures var st := Run(l, Init(at), xs);
            QueueFate(st, Step(l, st, x)) && (Step(l, st, x).runner == Idle ==> Step(l, st, x).queued == [])
  {
    InitOk(l, at);
    RunOk(l, Init(at), xs);
    QueueInEveryRun(l, at, xs);
    StepFate(l, Run(l, Init(at), xs), x);
    StepOk(l, Run(l, Init(at), xs), x);
  }

  /** The events of the window that a batch arriving at `at` belongs to. */
  function InWindow(st: State, at: int): nat {
    if at - st.windowStart >= 1000 || at < st.windowStart then 0 else st.windowCount
  }

  /** The first check that a batch fails, in the order of the source; none when it is sent or waits. At
      most 16 batches wait. */
  function FirstFailing(l: Limits, st: State, b: Batch, isArray: bool, valid: bool): Option<Rejection> {
    if st.closed then Some(Closed)
    else if !isArray then Some(NotArray)
    else if |b.events| > l.maxBatch then Some(BatchTooLarge)
    else if !valid then Some(InvalidEvent)
    else if InWindow(st, b.at) + |b.events| > l.maxPerSecond then Some(RateLimited)
    else if if st.retargeting then |st.queued| >= 16 else st.socket != OpenSocket then Some(UpstreamUnavailable)
    else None
  }

  /** A batch is answered with the first check that it fails. One that fails none waits behind the others
      while the stream is being moved; else it is sent at once and answered with its number of events. */
  lemma SendMeans(l: Limits, st: State, b: Batch, isArray: bool, valid: bool)
    requires b.id !in st.log.seen
    ensures var st' := Step(l, st, Send(b, isArray, valid));
            match FirstFailing(l, st, b, isArray, valid)
            case Some(reason) =>
              st'.queued == st.queued && st'.log.stream == st.log.stream &&
              st'.log.answers == st.log.answers[b.id := Rejected(reason)]
            case None =>
              if st.retargeting
              then st'.queued == st.queued + [b] && st'.log.stream == st.log.stream && st'.log.answers == st.log.answers
              else st'.queued == st.queued && st'.log.stream == st.log.stream + b.events &&
                   st'.log.answers == st.log.answers[b.id := Accepted(|b.events|)]
  {
  }

  /** A batch that gets as far as the rate check starts a new window at its own time when the last one is
      over, 1000 ms on or with a clock that ran back; only one that fails no check is counted in it. */
  lemma WindowMeans(l: Limits, st: State, b: Batch, isArray: bool, valid: bool)
    requires b.id !in st.log.seen
    ensures var st', failing := Step(l, st, Send(b, isArray, valid)), FirstFailing(l, st, b, isArray, valid);
            if failing in {Some(Closed), Some(NotArray), Some(BatchTooLarge), Some(InvalidEvent)}
            then st'.windowStart == st.windowStart && st'.windowCount == st.windowCount
            else st'.windowStart == (if st.windowStart <= b.at < st.windowStart + 1000 then st.windowStart else b.at) &&
                 st'.windowCount == InWindow(st, b.at) + if failing == None then |b.events| else 0
  {
  }

  /** A wanted tab that is another one that still exists is retargeted to at once, unless something owns
      the stream already, which then goes on to it; a nudge starts on a stream that nothing owns. */
  lemma WantMeans(l: Limits, st: State, target: Id, work: bool)
    requires FlagsOk(st) && !st.closed
    ensures var st' := Step(l, st, WantTab(target, work));
            if st.runner != Idle then st' == st.(desired := Some(target))
            else st'.runner == (if work then Looping else Idle) && st'.desired == None && st'.retargeting == work
    ensures st.runner == Idle ==>
            Step(l, st, StartNudge) == st.(running := true, retargeting := true, runner := Nudging)
  {
  }

  /** When a nudge or a move to a tab has gone well the stream is at rest, unless a tab is wanted that is
      another one and still exists; when it has failed for good the relay closes. */
  lemma NudgeEndMeans(l: Limits, st: State, ok: bool, work: bool)
    requires FlagsOk(st) && !st.closed && st.runner == Nudging
    ensures var st' := Step(l, st, EndNudge(ok, work));
            if ok then st'.runner == (if st.desired.Some? && work then Looping else Idle) && st'.desired == None &&
              !st'.closed
            else st'.closed && st'.runner == Idle
  {
  }

  lemma ResumeMeans(l: Limits, st: State, ok: bool, work: bool)
    requires FlagsOk(st) && !st.closed && st.runner == Looping
    ensures var st' := Step(l, st, ResumeLoop(ok, work));
            if ok then st'.runner == (if st.desired.Some? && work then Looping else Idle) && st'.desired == None &&
              !st'.closed
            else st'.closed && st'.runner == Idle
  {
  }

  /** Within the current window, every batch accepted since it began lies in it, and together they stay
      within the limit. */
  lemma WithinRate(l: Limits, at: int, xs: seq<Action>)
    ensures var st := Run(l, Init(at), xs);
            && st.windowFrom <= |st.log.accepted|
            && Total(st.log.accepted[st.windowFrom..]) == st.windowCount <= l.maxPerSecond
            && forall i :: st.windowFrom <= i < |st.log.accepted| ==>
                 st.windowStart <= st.log.accepted[i].at < st.windowStart + WINDOW_MS
  {
    InitOk(l, at);
    RunOk(l, Init(at), xs);
  }

  /** Answers are only added; sent events and the order of acceptance are only extended. */
  ghost predicate Grows(g: Log, h: Log) {
    && (forall id <- g.answers :: id in h.answers && h.answers[id] == g.answers[id])
    && g.stream <= h.stream && g.accepted <= h.accepted && g.seen <= h.seen
  }

  lemma GrowsTrans(a: Log, b: Log, c: Log)
    requires Grows(a, b) && Grows(b, c)
    ensures Grows(a, c)
  {
  }

  lemma {:induction false} AnswerAllGrows(g: Log, done: seq<Batch>, q: seq<Batch>, sent: bool, reason: Rejection)
    requires OrderOk(g, done, q)
    ensures Grows(g, AnswerAll(g, q, sent, reason))
    decreases |q|
  {
    if q != [] {
      assert q == [q[0]] + q[1..];
      IdsSplit(q[1..], q[0]);
      AnswerFirst(g, done, q[0], q[1..], sent, reason);
      AnswerAllGrows(AnswerLog(g, q[0], sent, reason), done + [q[0]], q[1..], sent, reason);
      GrowsTrans(g, AnswerLog(g, q[0], sent, reason), AnswerAll(g, q, sent, reason));
    }
  }

  lemma FlushGrows(l: Limits, st: State)
    requires LogOk(l, st)
    ensures Grows(st.log, FlushQueued(st).log) && Grows(st.log, Finish(st).log)
  {
    AnswerAllGrows(st.log, Done(st), st.queued, st.socket == OpenSocket, UpstreamUnavailable);
    AnswerAllGrows(st.log, Done(st), st.queued, false, Closed);
  }

  lemma LoopGrows(l: Limits, st: State, work: bool)
    requires LogOk(l, st)
    ensures Grows(st.log, LoopEnd(st).log) && Grows(st.log, LoopHead(st, work).log)
  {
    FlushGrows(l, Still(st));
    FlushGrows(l, Still(st.(desired := None)));
  }

  lemma FreshGrows(g: Log, b: Batch, reason: Rejection)
    requires g.answers.Keys <= g.seen && b.id !in g.seen
    ensures Grows(g, RefuseLog(g, b.id, reason)) && Grows(g, AcceptLog(g, b)) &&
            Grows(g, AnswerLog(AcceptLog(g, b), b, true, reason))
  {
  }

  lemma SendGrows(l: Limits, st: State, b: Batch, isArray: bool, valid: bool)
    requires Inv(l, st)
    ensures Grows(st.log, SendInput(l, st, b, isArray, valid).log)
  {
    if b.id !in st.log.seen {
      if st.closed || !isArray || |b.events| > l.maxBatch || !valid {
        RefusalGrows(st.log, b);
      } else {
        AdmitGrows(l, Roll(st, b.at), b);
      }
    }
  }

  lemma RefusalGrows(g: Log, b: Batch)
    requires g.answers.Keys <= g.seen && b.id !in g.seen
    ensures forall reason :: Grows(g, RefuseLog(g, b.id, reason))
  {
    forall reason ensures Grows(g, RefuseLog(g, b.id, reason)) {
      FreshGrows(g, b, reason);
    }
  }

  lemma AdmitGrows(l: Limits, st: State, b: Batch)
    requires st.log.answers.Keys <= st.log.seen && b.id !in st.log.seen
    ensures Grows(st.log, Admit(l, st, b).log)
  {
    FreshGrows(st.log, b, if st.windowCount + |b.events| > l.maxPerSecond then RateLimited else UpstreamUnavailable);
  }

  lemma NudgeEndGrows(l: Limits, st: State, ok: bool, work: bool)
    requires Inv(l, st)
    ensures Grows(st.log, NudgeEnd(st, ok, work).log)
  {
    FlushGrows(l, Still(st));
    FlushOk(l, Still(st));
    LoopGrows(l, FlushQueued(Still(st)), work);
    GrowsTrans(st.log, FlushQueued(Still(st)).log, LoopHead(FlushQueued(Still(st)), work).log);
  }

  lemma ResumeGrows(l: Limits, st: State, ok: bool, work: bool)
    requires Inv(l, st)
    ensures Grows(st.log, LoopResume(st, ok, work).log)
  {
    FlushGrows(l, st);
    FinishOk(l, st);
    LoopGrows(l, st, work);
    LoopGrows(l, Finish(st), work);
    GrowsTrans(st.log, Finish(st).log, LoopEnd(Finish(st)).log);
  }

  lemma StepGrows(l: Limits, st: State, x: Action)
    requires Inv(l, st)
    ensures Grows(st.log, Step(l, st, x).log)
  {
    match x
    case Send(b, isArray, valid) => SendGrows(l, st, b, isArray, valid);
    case Close => FlushGrows(l, st);
    case WantTab(target, work) =>
      if !st.running {
        LoopGrows(l, st.(desired := Some(target)), work);
      }
    case EndNudge(ok, work) => NudgeEndGrows(l, st, ok, work);
    case ResumeLoop(ok, work) => ResumeGrows(l, st, ok, work);
    case _ => NothingAnswered(l, st, x, Step(l, st, x));
  }

  /** A batch is answered once: its answer never changes, and what was sent or accepted stays. */
  lemma {:induction false} RunGrows(l: Limits, st: State, xs: seq<Action>)
    requires Inv(l, st)
    ensures Grows(st.log, Run(l, st, xs).log)
    decreases |xs|
  {
    if xs != [] {
      StepGrows(l, st, xs[0]);
      StepOk(l, st, xs[0]);
      RunGrows(l, Step(l, st, xs[0]), xs[1..]);
      GrowsTrans(st.log, Step(l, st, xs[0]).log, Run(l, st, xs).log);
    }
  }

  lemma AnsweredOnce(l: Limits, at: int, before: seq<Action>, after: seq<Action>, id: Id)
    requires id in Run(l, Init(at), before).log.answers
    ensures var st := Run(l, Init(at), before);
            id in Run(l, st, after).log.answers && Run(l, st, after).log.answers[id] == st.log.answers[id]
  {
    InitOk(l, at);
    RunOk(l, Init(at), before);
    RunGrows(l, Run(l, Init(at), before), after);
  }

  // ---------- the code ----------

  class Relay {
    const limits: Limits
    var closed: bool
    var running: bool
    var retargeting: bool
    var desired: Option<Id>
    var socket: Socket
    var queued: seq<Batch>
    var windowStart: int
    var windowCount: nat
    var answers: map<Id, Answer>
    var stream: seq<Event>
    ghost var runner: Runner
    ghost var seen: set<Id>
    ghost var accepted: seq<Batch>
    ghost var windowFrom: nat

    ghost function View(): State
      reads this
    {
      State(closed, running, retargeting, desired, socket, queued, windowStart, windowCount, runner,
            Log(answers, stream, seen, accepted), windowFrom)
    }

    constructor (limits: Limits, at: int)
      ensures this.limits == limits && View() == Init(at)
    {
      this.limits := limits;
      closed, running, retargeting, desired, socket, queued := false, false, false, None, OpenSocket, [];
      windowStart, windowCount, answers, stream := at, 0, map[], [];
      runner, seen, accepted, windowFrom := Idle, {}, [], 0;
    }

    method Reject(id: Id, reason: Rejection)
      modifies this`answers, this`seen
      ensures View() == Refuse(old(View()), id, reason)
    {
      answers := answers[id := Rejected(reason)];
      seen := seen + {id};
    }

    method Submit(b: Batch, isArray: bool, valid: bool)
      requires b.id !in View().log.seen
      modifies this
      ensures View() == SendInput(limits, old(View()), b, isArray, valid)
    {
      if closed { Reject(b.id, Closed); return; }
      if !isArray { Reject(b.id, NotArray); return; }
      if |b.events| > limits.maxBatch { Reject(b.id, BatchTooLarge); return; }
      if !valid { Reject(b.id, InvalidEvent); return; }
      if b.at - windowStart >= WINDOW_MS || b.at < windowStart {
        windowStart := b.at;
        windowCount := 0;
        windowFrom := |accepted|;
      }
      SubmitCurrent(b);
    }

    method SubmitCurrent(b: Batch)
      requires b.id !in View().log.seen
      modifies this
      ensures View() == Admit(limits, old(View()), b)
    {
      if windowCount + |b.events| > limits.maxPerSecond { Reject(b.id, RateLimited); return; }
      if retargeting {
        if |queued| >= MAX_QUEUED_BATCHES { Reject(b.id, UpstreamUnavailable); return; }
        windowCount := windowCount + |b.events|;
        seen, accepted := seen + {b.id}, accepted + [b];
        queued := queued + [b];
        return;
      }
      if socket != OpenSocket { Reject(b.id, UpstreamUnavailable); return; }
      SendNow(b);
    }

    method SendNow(b: Batch)
      modifies this`windowCount, this`seen, this`accepted, this`stream, this`answers
      ensures View() ==
              Accept(old(View()), b).(log := AnswerLog(AcceptLog(old(View()).log, b), b, true, UpstreamUnavailable))
    {
      windowCount := windowCount + |b.events|;
      seen, accepted := seen + {b.id}, accepted + [b];
      SendEvents(b);
      answers := answers[b.id := Accepted(|b.events|)];
    }

    /** ws.send, event by event. */
    method SendEvents(b: Batch)
      modifies this`stream
      ensures stream == old(stream) + b.events
    {
      for k := 0 to |b.events|
        invariant stream == old(stream) + b.events[..k]
      {
        stream := stream + [b.events[k]];
        assert b.events[..k + 1] == b.events[..k] + [b.events[k]];
      }
      assert b.events[..|b.events|] == b.events;
    }

    method Flush()
      modifies this`queued, this`answers, this`stream
      ensures View() == FlushQueued(old(View()))
    {
      var batches := queued;
      queued := [];
      ghost var sent := socket == OpenSocket;
      ghost var all := AnswerAll(old(View()).log, batches, sent, UpstreamUnavailable);
      assert batches[0..] == batches;
      for k := 0 to |batches|
        invariant View() == old(View()).(queued := [], log := View().log)
        invariant AnswerAll(View().log, batches[k..], sent, UpstreamUnavailable) == all
      {
        assert batches[k..][1..] == batches[k + 1..];
        if socket != OpenSocket {
          answers := answers[batches[k].id := Rejected(UpstreamUnavailable)];
          continue;
        }
        SendEvents(batches[k]);
        answers := answers[batches[k].id := Accepted(|batches[k].events|)];
      }
    }

    /** The waiting batches of a relay that closes. */
    method GiveUp(batches: seq<Batch>)
      modifies this`answers
      ensures View() == old(View()).(log := AnswerAll(old(View()).log, batches, false, Closed))
    {
      ghost var all := AnswerAll(View().log, batches, false, Closed);
      assert batches[0..] == batches;
      for k := 0 to |batches|
        invariant AnswerAll(View().log, batches[k..], false, Closed) == all
      {
        assert batches[k..][1..] == batches[k + 1..];
        answers := answers[batches[k].id := Rejected(Closed)];
      }
    }

    method Terminate()
      modifies this`closed, this`socket, this`queued, this`answers, this`desired
      ensures View() == Finish(old(View()))
    {
      if closed { return; }
      closed := true;
      socket := NoSocket;
      var batches := queued;
      queued := [];
      GiveUp(batches);
      desired := None;
    }

    method BeginLoop(work: bool)
      modifies this
      ensures View() == LoopHead(old(View()), work)
    {
      running := true;
      retargeting := true;
      if desired.Some? && !closed {
        desired := None;
        if work {
          runner := Looping;
          return;
        }
      }
      EndLoop();
    }

    method EndLoop()
      modifies this
      ensures View() == LoopEnd(old(View()))
    {
      running := false;
      retargeting := false;
      runner := Idle;
      if !closed { Flush(); }
    }

    method AttemptEnded(ok: bool, work: bool)
      modifies this
      ensures View() == LoopResume(old(View()), ok, work)
    {
      if closed { EndLoop(); return; }
      if !ok {
        Terminate();
        EndLoop();
        return;
      }
      BeginLoop(work);
    }

    method WantTarget(target: Id, work: bool)
      modifies this
      ensures View() == Want(old(View()), target, work)
    {
      desired := Some(target);
      if !running { BeginLoop(work); }
    }

    method NudgeEnded(ok: bool, work: bool)
      modifies this
      ensures View() == NudgeEnd(old(View()), ok, work)
    {
      running := false;
      retargeting := false;
      runner := Idle;
      if closed { return; }
      if !ok { Terminate(); return; }
      Flush();
      if desired.Some? { BeginLoop(work); }
    }
  }
}
