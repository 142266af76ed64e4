/** Getting a reply to a person: the delivery rows of src/agents/store.ts, which attempts may claim them
    (src/agents/ledgers.ts), and what an attempt makes of its outcome
    (src/agents/communications/delivery.ts). Any number of attempts overlap, and the Host may stop
    at any time. */
module Deliveries {
  import opened Options

  type Id = string

  datatype Status = Pending | Sending | Delivered | Failed | Unknown

  datatype Row = Row(status: Status, attempts: nat, retryable: bool, nextAttemptAt: Option<int>)

  /** The part of a turn's status that a delivery moves: succeeded, failed with agent.reply_undelivered,
      or any other end, which it leaves alone. */
  datatype Mark = Succeeded | Undelivered | Other

  datatype Claim = First | Retry | Manual

  datatype SendError = ChannelError(outcomeUnknown: bool, retryable: bool) | OtherError

  /** A send that is under way: the attempt it was claimed as, and whether a retry may follow by itself. */
  datatype Flight = Flight(attempts: nat, automatic: bool)

  /** A reply, the sends under way for it, and the attempts that a send was begun for, each under its
      own operation key `agent-reply:<session>:<turn>:<attempts>`. */
  datatype Reply = Reply(row: Option<Row>, mark: Mark, flights: seq<Flight>, begun: seq<nat>)

  const FRESH := Reply(None, Other, [], [])

  type State = map<Id, Reply>

  const INIT: State := map[]

  function At(s: State, t: Id): Reply { if t in s then s[t] else FRESH }

  const RETRY_BACKOFF_MS := [5000, 30000, 120000]

  datatype Move =
    | Create(mark: Mark)
    | Begin(kind: Claim, now: int)
    | Fail(i: nat, error: SendError, now: int)
    | Arrive(i: nat)
    | MarkDelivered

  /** `listens`: the Host answers channels, and settles the sends that were cut off. */
  datatype Action = Act(t: Id, move: Move) | HostStarts(listens: bool)

  // ---------- the rows ----------

  /** The WHERE clause of `claimDelivery`, for each kind of attempt. */
  predicate MayClaim(row: Row, kind: Claim, now: int) {
    match kind
    case First => row.status == Pending
    case Manual => row.status == Failed || row.status == Unknown
    case Retry => row.status == Failed && row.retryable && row.nextAttemptAt.Some? && row.nextAttemptAt.value <= now
  }

  function Claimed(row: Row): Row { Row(Sending, row.attempts + 1, false, None) }

  function Arrived(row: Row): Row { row.(status := Delivered, retryable := false, nextAttemptAt := None) }

  /** `classifySendFailure`: only a channel can say that the send may have gone out. */
  function Classify(e: SendError): (Status, bool) {
    if e.ChannelError? then (if e.outcomeUnknown then Unknown else Failed, !e.outcomeUnknown && e.retryable)
    else (Failed, false)
  }

  /** When the next automatic attempt is due, if there is one. */
  function NextAttempt(f: Flight, e: SendError, now: int): Option<int> {
    var (status, retryable) := Classify(e);
    if f.automatic && status == Failed && retryable && 1 <= f.attempts <= |RETRY_BACKOFF_MS|
    then Some(now + RETRY_BACKOFF_MS[f.attempts - 1])
    else None
  }

  function Rejected(row: Row, f: Flight, e: SendError, now: int): Row {
    var next := NextAttempt(f, e, now);
    Row(Classify(e).0, row.attempts, next.Some?, next)
  }

  /** `replyDelivery` of src/agents/turnLifecycle.ts. */
  function Told(mark: Mark, delivered: bool): Mark {
    if mark == Other then Other else if delivered then Succeeded else Undelivered
  }

  function Without(flights: seq<Flight>, i: nat): seq<Flight>
    requires i < |flights|
  {
    flights[..i] + flights[i + 1..]
  }

  function Moved(r: Reply, move: Move): Reply {
    match move
    case Create(mark) =>
      if r.row.Some? || mark == Undelivered then r else r.(row := Some(Row(Pending, 0, false, None)), mark := mark)
    case Begin(kind, now) =>
      if r.row.None? || !MayClaim(r.row.value, kind, now) then r
      else
        var row := Claimed(r.row.value);
        r.(row := Some(row), flights := r.flights + [Flight(row.attempts, kind != Manual)],
           begun := r.begun + [row.attempts])
    case Fail(i, error, now) =>
      if r.row.None? || i >= |r.flights| then r
      else
        var row := Rejected(r.row.value, r.flights[i], error, now);
        r.(row := Some(row), flights := Without(r.flights, i),
           mark := if row.retryable then r.mark else Told(r.mark, false))
    case Arrive(i) =>
      if r.row.None? || i >= |r.flights| then r
      else r.(row := Some(Arrived(r.row.value)), flights := Without(r.flights, i), mark := Told(r.mark, true))
    case MarkDelivered =>
      if r.row.None? || r.row.value.status == Delivered then r
      else r.(row := Some(Arrived(r.row.value)), mark := Told(r.mark, true))
  }

  predicate CutOff(r: Reply) { r.row.Some? && r.row.value.status == Sending }

  /** A new Host has no sends under way; when it listens, those that were are settled as unknown. */
  function Restarted(r: Reply, listens: bool): Reply {
    if listens && CutOff(r) then
      r.(row := Some(r.row.value.(status := Unknown, retryable := false, nextAttemptAt := None)),
         mark := Told(r.mark, false), flights := [])
    else r.(flights := [])
  }

  function Step(s: State, a: Action): State {
    match a
    case Act(t, move) => s[t := Moved(At(s, t), move)]
    case HostStarts(listens) => map t <- s :: Restarted(s[t], listens)
  }

  function Run(s: State, actions: seq<Action>): State
    decreases |actions|
  {
    if actions == [] then s else Step(Run(s, actions[..|actions| - 1]), actions[|actions| - 1])
  }

  // ---------- the service ----------

  datatype Error = NotFound

  function RowAt(rows: map<Id, Row>, t: Id): Option<Row> { if t in rows then Some(rows[t]) else None }

  function MarkAt(marks: map<Id, Mark>, t: Id): Mark { if t in marks then marks[t] else Other }

  /** The stored rows and turn marks, and the attempts of one Host. */
  class ReplyDelivery {
    var rows: map<Id, Row>
    var marks: map<Id, Mark>
    ghost var view: State

    ghost predicate Valid()
      reads this
    {
      (forall t :: At(view, t).row == RowAt(rows, t)) && forall t :: At(view, t).mark == MarkAt(marks, t)
    }

    constructor ()
      ensures Valid() && view == INIT
    {
      rows, marks, view := map[], map[], INIT;
    }

    /** `deliver` up to the end of its first synchronous part: the row, for a turn that ended with
        `mark`. */
    method Record(t: Id, mark: Mark) returns (existing: Option<Row>)
      requires Valid() && mark != Undelivered
      modifies this
      ensures Valid() && view == Step(old(view), Act(t, Create(mark)))
      ensures existing == At(old(view), t).row
    {
      existing := RowAt(rows, t);
      if existing.None? {
        rows, marks := rows[t := Row(Pending, 0, false, None)], marks[t := mark];
      }
      ghost var was, a := view, Act(t, Create(mark));
      view := Step(view, a);
      forall u ensures At(view, u).row == RowAt(rows, u) && At(view, u).mark == MarkAt(marks, u) { AtStep(was, a, u); }
    }

    /** The claim of `attempt`; a send begins exactly when it is won. */
    method Attempt(t: Id, kind: Claim, now: int) returns (attempts: Option<nat>)
      requires Valid()
      modifies this
      ensures Valid() && view == Step(old(view), Act(t, Begin(kind, now)))
      ensures attempts.Some? <==> At(old(view), t).row.Some? && MayClaim(At(old(view), t).row.value, kind, now)
      ensures attempts.Some? ==>
                At(view, t).flights == At(old(view), t).flights + [Flight(attempts.value, kind != Manual)]
    {
      attempts := None;
      if t in rows && MayClaim(rows[t], kind, now) {
        rows := rows[t := Claimed(rows[t])];
        attempts := Some(rows[t].attempts);
      }
      ghost var was, a := view, Act(t, Begin(kind, now));
      view := Step(view, a);
      forall u ensures At(view, u).row == RowAt(rows, u) && At(view, u).mark == MarkAt(marks, u) { AtStep(was, a, u); }
    }

    /** The rest of `attempt` when the send threw. */
    method AttemptFailed(t: Id, ghost i: nat, f: Flight, error: SendError, now: int)
      requires Valid() && t in rows && i < |At(view, t).flights| && At(view, t).flights[i] == f
      modifies this
      ensures Valid() && view == Step(old(view), Act(t, Fail(i, error, now)))
    {
      var row := Rejected(rows[t], f, error, now);
      rows := rows[t := row];
      if !row.retryable { SetReplyDelivered(t, false); }
      ghost var was, a := view, Act(t, Fail(i, error, now));
      view := Step(view, a);
      forall u ensures At(view, u).row == RowAt(rows, u) && At(view, u).mark == MarkAt(marks, u) { AtStep(was, a, u); }
    }

    /** The rest of `attempt` when the send returned. */
    method AttemptArrived(t: Id, ghost i: nat)
      requires Valid() && t in rows && i < |At(view, t).flights|
      modifies this
      ensures Valid() && view == Step(old(view), Act(t, Arrive(i)))
    {
      rows := rows[t := Arrived(rows[t])];
      SetReplyDelivered(t, true);
      ghost var was, a := view, Act(t, Arrive(i));
      view := Step(view, a);
      forall u ensures At(view, u).row == RowAt(rows, u) && At(view, u).mark == MarkAt(marks, u) { AtStep(was, a, u); }
    }

    method MarkDelivered(t: Id) returns (result: Result<Row, Error>)
      requires Valid()
      modifies this
      ensures Valid() && view == Step(old(view), Act(t, Move.MarkDelivered))
      ensures result == if At(view, t).row.Some? then Ok(At(view, t).row.value) else Err(NotFound)
    {
      if t in rows && rows[t].status != Delivered {
        rows := rows[t := Arrived(rows[t])];
        SetReplyDelivered(t, true);
      }
      result := if t in rows then Ok(rows[t]) else Err(NotFound);
      ghost var was, a := view, Act(t, Move.MarkDelivered);
      view := Step(view, a);
      forall u ensures At(view, u).row == RowAt(rows, u) && At(view, u).mark == MarkAt(marks, u) { AtStep(was, a, u); }
    }

    method SetReplyDelivered(t: Id, delivered: bool)
      modifies this`marks
      ensures MarkAt(marks, t) == Told(MarkAt(old(marks), t), delivered)
      ensures forall u :: u != t ==> MarkAt(marks, u) == MarkAt(old(marks), u)
    {
      if t in marks {
        marks := marks[t := Told(marks[t], delivered)];
      }
    }

    /** A Host that starts on these rows: `start`, when it listens on channels. */
    method Start(listens: bool)
      requires Valid()
      modifies this
      ensures Valid() && view == Step(old(view), HostStarts(listens))
    {
      if listens {
        var cut := set t | t in rows && rows[t].status == Sending;
        rows := map t <- rows ::
          if t in cut then rows[t].(status := Unknown, retryable := false, nextAttemptAt := None) else rows[t];
        marks := map t <- marks :: if t in cut then Told(marks[t], false) else marks[t];
      }
      ghost var was, a := view, HostStarts(listens);
      view := Step(view, a);
      forall u ensures At(view, u).row == RowAt(rows, u) && At(view, u).mark == MarkAt(marks, u) { AtStep(was, a, u); }
    }
  }

  // ---------- what every run keeps ----------

  /** The attempts that sends were begun for only go up. */
  ghost predicate Rising(begun: seq<nat>, attempts: nat) {
    (forall i, j :: 0 <= i < j < |begun| ==> begun[i] < begun[j]) &&
    (forall i :: 0 <= i < |begun| ==> begun[i] <= attempts)
  }

  /** A send under way is the last claim's, and its row is still being sent, unless a person has
      marked it delivered. */
  predicate FlightOk(row: Row, flights: seq<Flight>) {
    |flights| <= 1 &&
    (|flights| == 1 ==> (row.status == Sending || row.status == Delivered) && flights[0].attempts == row.attempts) &&
    (|flights| == 1 && flights[0].automatic ==> 1 <= row.attempts <= |RETRY_BACKOFF_MS| + 1)
  }

  predicate RowOk(row: Row) {
    (row.retryable <==> row.nextAttemptAt.Some?) &&
    (row.retryable ==> row.status == Failed && row.attempts <= |RETRY_BACKOFF_MS|) &&
    (row.status == Pending ==> row.attempts == 0)
  }

  /** A turn is failed for its reply exactly as its delivery says, while no retry is coming. */
  predicate MarkOk(row: Row, mark: Mark) {
    (row.status == Delivered ==> mark != Undelivered) &&
    (row.status == Unknown || (row.status == Failed && !row.retryable) ==> mark != Succeeded)
  }

  ghost predicate ReplyOk(r: Reply) {
    match r.row
    case None => r.flights == [] && r.begun == []
    case Some(row) => FlightOk(row, r.flights) && RowOk(row) && MarkOk(row, r.mark) && Rising(r.begun, row.attempts)
  }

  lemma BeginOk(r: Reply, kind: Claim, now: int)
    requires ReplyOk(r)
    ensures ReplyOk(Moved(r, Begin(kind, now)))
  {
    if r.row.Some? && MayClaim(r.row.value, kind, now) {
      RisingPush(r.begun, r.row.value.attempts);
      assert r.flights == [];
    }
  }

  lemma RisingPush(begun: seq<nat>, attempts: nat)
    requires Rising(begun, attempts)
    ensures Rising(begun + [attempts + 1], attempts + 1)
  {
  }

  lemma EndOk(r: Reply, move: Move)
    requires ReplyOk(r) && !move.Begin?
    ensures ReplyOk(Moved(r, move))
  {
    if (move.Fail? || move.Arrive?) && r.row.Some? && move.i < |r.flights| {
      assert Without(r.flights, move.i) == [];
    }
  }

  lemma RestartedOk(r: Reply, listens: bool)
    requires ReplyOk(r)
    ensures ReplyOk(Restarted(r, listens))
  {
  }

  /** What a step does to one reply. */
  lemma AtStep(s: State, a: Action, t: Id)
    ensures At(Step(s, a), t) == match a
                                 case HostStarts(listens) => Restarted(At(s, t), listens)
                                 case Act(u, move) => if u == t then Moved(At(s, t), move) else At(s, t)
  {
  }

  lemma StepOk(s: State, a: Action, t: Id)
    requires ReplyOk(At(s, t))
    ensures ReplyOk(At(Step(s, a), t))
  {
    AtStep(s, a, t);
    match a
    case HostStarts(listens) => RestartedOk(At(s, t), listens);
    case Act(_, move) =>
      if move.Begin? { BeginOk(At(s, t), move.kind, move.now); } else { EndOk(At(s, t), move); }
  }

  lemma {:induction false} RunOk(actions: seq<Action>, t: Id)
    ensures ReplyOk(At(Run(INIT, actions), t))
    decreases |actions|
  {
    if actions != [] {
      RunOk(actions[..|actions| - 1], t);
      StepOk(Run(INIT, actions[..|actions| - 1]), actions[|actions| - 1], t);
    }
  }

  // ---------- the properties ----------

  /** At most one send of a reply is under way. */
  lemma OneInFlight(actions: seq<Action>, t: Id)
    ensures |At(Run(INIT, actions), t).flights| <= 1
  {
    RunOk(actions, t);
  }

  /** No two sends of a reply ever have the same operation key. */
  lemma KeysDistinct(actions: seq<Action>, t: Id, i: nat, j: nat)
    requires i < j < |At(Run(INIT, actions), t).begun|
    ensures At(Run(INIT, actions), t).begun[i] < At(Run(INIT, actions), t).begun[j]
  {
    RunOk(actions, t);
  }

  /** A send that may be retried by itself is one of the first four. */
  lemma AutomaticBound(actions: seq<Action>, t: Id)
    ensures forall f <- At(Run(INIT, actions), t).flights :: f.automatic ==> 1 <= f.attempts <= 4
  {
    RunOk(actions, t);
  }

  /** Unless the turn ended otherwise, a delivered reply's turn has succeeded, and one whose reply is
      unconfirmed, or failed with no retry to come, has failed. */
  lemma TurnTellsDelivery(actions: seq<Action>, t: Id)
    ensures var r := At(Run(INIT, actions), t);
            r.row.Some? && r.mark != Other ==>
              (r.row.value.status == Delivered ==> r.mark == Succeeded) &&
              (r.row.value.status == Unknown || (r.row.value.status == Failed && r.row.value.nextAttemptAt.None?) ==>
               r.mark == Undelivered)
  {
    RunOk(actions, t);
  }

  predicate IsSending(r: Reply) { r.row.Some? && r.row.value.status == Sending }

  /** A claim that is won. */
  predicate Wins(s: State, a: Action, t: Id) {
    a.Act? && a.t == t && a.move.Begin? && At(s, t).row.Some? && MayClaim(At(s, t).row.value, a.move.kind, a.move.now)
  }

  /** What holds at i and not at j stops holding at some step between. */
  lemma {:induction false} StopsBetween(p: nat -> bool, i: nat, j: nat) returns (m: nat)
    requires i <= j && p(i) && !p(j)
    ensures i <= m < j && p(m) && !p(m + 1)
    decreases j
  {
    if p(j - 1) {
      m := j - 1;
    } else {
      m := StopsBetween(p, i, j - 1);
    }
  }

  /** Whether the reply is being sent after n steps of a run. */
  ghost predicate SendingAfter(actions: seq<Action>, t: Id, n: nat) {
    n <= |actions| && IsSending(At(Run(INIT, actions[..n]), t))
  }

  ghost function SendingIn(actions: seq<Action>, t: Id): nat -> bool {
    (n: nat) => SendingAfter(actions, t, n)
  }

  /** The action of step n wins a claim of the reply. */
  ghost predicate WinsAt(actions: seq<Action>, t: Id, n: nat) {
    n < |actions| && Wins(Run(INIT, actions[..n]), actions[n], t)
  }

  lemma WinStarts(actions: seq<Action>, t: Id, n: nat)
    requires WinsAt(actions, t, n)
    ensures SendingAfter(actions, t, n + 1) && !SendingAfter(actions, t, n)
    ensures !IsDelivered(At(Run(INIT, actions[..n]), t))
  {
    RunSnoc(INIT, actions, n);
    AtStep(Run(INIT, actions[..n]), actions[n], t);
  }

  lemma StopsByStep(actions: seq<Action>, t: Id, n: nat)
    requires n < |actions| && SendingAfter(actions, t, n) && !SendingAfter(actions, t, n + 1)
    ensures EndsSending(actions[n], t)
  {
    RunSnoc(INIT, actions, n);
    StopsBy(Run(INIT, actions[..n]), actions[n], t);
  }

  /** Between two claims of a reply that are won, some step took it out of "sending": its send ended, a
      person marked it, or a Host restarted. A delivered reply is never claimed. */
  lemma ClaimsApart(actions: seq<Action>, t: Id, i: nat, j: nat) returns (m: nat)
    requires i < j && WinsAt(actions, t, i) && WinsAt(actions, t, j)
    ensures i < m < j && SendingAfter(actions, t, m) && !SendingAfter(actions, t, m + 1)
    ensures EndsSending(actions[m], t)
    ensures !IsDelivered(At(Run(INIT, actions[..j]), t))
  {
    WinStarts(actions, t, i);
    WinStarts(actions, t, j);
    var p := SendingIn(actions, t);
    m := StopsBetween(p, i + 1, j);
    StopsByStep(actions, t, m);
  }

  predicate EndsSending(a: Action, t: Id) {
    a.HostStarts? || (a.t == t && (a.move.Fail? || a.move.Arrive? || a.move.MarkDelivered?))
  }

  lemma StopsBy(s: State, a: Action, t: Id)
    requires IsSending(At(s, t)) && !IsSending(At(Step(s, a), t))
    ensures EndsSending(a, t)
  {
    AtStep(s, a, t);
  }

  lemma RunSnoc(s: State, actions: seq<Action>, n: nat)
    requires n < |actions|
    ensures Run(s, actions[..n + 1]) == Step(Run(s, actions[..n]), actions[n])
  {
    assert actions[..n + 1][..n] == actions[..n];
  }

  // ---------- delivered, and unknown ----------

  predicate IsDelivered(r: Reply) { r.row.Some? && r.row.value.status == Delivered }

  lemma {:induction false} StaysDelivered(s: State, more: seq<Action>, t: Id)
    requires IsDelivered(At(s, t)) && At(s, t).flights == []
    ensures At(Run(s, more), t) == At(s, t)
    decreases |more|
  {
    if more != [] {
      StaysDelivered(s, more[..|more| - 1], t);
      AtStep(Run(s, more[..|more| - 1]), more[|more| - 1], t);
    }
  }

  /** A send that ends badly after a person marked the reply delivered undoes the mark. */
  lemma MarkOverwritten(s: State, t: Id) returns (more: seq<Action>)
    requires IsDelivered(At(s, t)) && |At(s, t).flights| > 0
    ensures !IsDelivered(At(Run(s, more), t))
  {
    var a := Act(t, Fail(0, OtherError, 0));
    more := [a];
    assert more[..0] == [] && Run(s, more) == Step(s, a);
  }

  /** "Delivered" is for good exactly when no send of the reply is under way. */
  lemma DeliveredIsFinalIff(actions: seq<Action>, t: Id)
    requires IsDelivered(At(Run(INIT, actions), t))
    ensures (forall more :: IsDelivered(At(Run(Run(INIT, actions), more), t))) <==>
              At(Run(INIT, actions), t).flights == []
  {
    var s := Run(INIT, actions);
    if At(s, t).flights == [] {
      forall more ensures IsDelivered(At(Run(s, more), t)) {
        StaysDelivered(s, more, t);
      }
    } else {
      var more := MarkOverwritten(s, t);
      assert !IsDelivered(At(Run(s, more), t));
    }
  }

  const MARKED := [Act("t", Create(Succeeded)), Act("t", Begin(First, 0)), Act("t", Move.MarkDelivered),
                   Act("t", Fail(0, OtherError, 0))]

  lemma MarkedSends()
    ensures At(Run(INIT, MARKED[..2]), "t") ==
            Reply(Some(Row(Sending, 1, false, None)), Succeeded, [Flight(1, true)], [1])
  {
    RunSnoc(INIT, MARKED, 0);
    AtStep(Run(INIT, MARKED[..0]), MARKED[0], "t");
    var r := At(Run(INIT, MARKED[..1]), "t");
    assert r == Reply(Some(Row(Pending, 0, false, None)), Succeeded, [], []);
    RunSnoc(INIT, MARKED, 1);
    AtStep(Run(INIT, MARKED[..1]), MARKED[1], "t");
  }

  lemma MarkedDelivers()
    ensures At(Run(INIT, MARKED[..3]), "t") ==
            Reply(Some(Row(Delivered, 1, false, None)), Succeeded, [Flight(1, true)], [1])
  {
    MarkedSends();
    RunSnoc(INIT, MARKED, 2);
    AtStep(Run(INIT, MARKED[..2]), MARKED[2], "t");
  }

  /** The mark was made while a send was under way: then, and only then, can it be undone. */
  lemma MarkedInFlight()
    ensures IsDelivered(At(Run(INIT, MARKED[..3]), "t"))
    ensures At(Run(INIT, MARKED), "t") == Reply(Some(Row(Failed, 1, false, None)), Undelivered, [], [1])
  {
    MarkedDelivers();
    RunSnoc(INIT, MARKED, 3);
    AtStep(Run(INIT, MARKED[..3]), MARKED[3], "t");
    assert MARKED[..4] == MARKED;
  }

  /** What a person does about a reply. */
  predicate ByPerson(a: Action, t: Id) {
    a.Act? && a.t == t && (a.move.MarkDelivered? || (a.move.Begin? && a.move.kind == Manual))
  }

  /** A reply whose outcome is unknown is not sent again, and stays as it is, until a person resends
      it or marks it delivered. */
  lemma {:induction false} UnknownWaitsForPerson(actions: seq<Action>, more: seq<Action>, t: Id)
    requires At(Run(INIT, actions), t).row.Some? && At(Run(INIT, actions), t).row.value.status == Unknown
    requires forall a <- more :: !ByPerson(a, t)
    ensures At(Run(Run(INIT, actions), more), t) == At(Run(INIT, actions), t)
    decreases |more|
  {
    var s := Run(INIT, actions);
    RunOk(actions, t);
    if more != [] {
      var n := |more| - 1;
      UnknownWaitsForPerson(actions, more[..n], t);
      assert !ByPerson(more[n], t);
      AtStep(Run(s, more[..n]), more[n], t);
    }
  }

  /** A reply that may have gone out is never sent twice without a person: once the channel has said so,
      no other attempt is begun until a person acts. */
  lemma MaybeSentOnce(actions: seq<Action>, more: seq<Action>, t: Id, retryable: bool, now: int)
    requires At(Run(INIT, actions), t).flights != [] && forall a <- more :: !ByPerson(a, t)
    ensures var s := Step(Run(INIT, actions), Act(t, Fail(0, ChannelError(true, retryable), now)));
            At(s, t).begun == At(Run(INIT, actions), t).begun && At(Run(s, more), t) == At(s, t)
  {
    var a := Act(t, Fail(0, ChannelError(true, retryable), now));
    var run := actions + [a];
    RunOk(actions, t);
    AtStep(Run(INIT, actions), a, t);
    assert run[..|run| - 1] == actions && Run(INIT, run) == Step(Run(INIT, actions), a);
    UnknownWaitsForPerson(run, more, t);
  }

  /** 5 seconds, half a minute, 2 minutes. */
  function WaitAfter(attempts: nat): nat {
    if attempts <= 1 then 5000 else if attempts == 2 then 30000 else 120000
  }

  /** When a channel says that nothing was sent and that trying again may help, the first three automatic
      attempts are each followed by another, which may begin exactly from the time its backoff is over;
      until then the turn stays as it was. */
  lemma TransientIsRetried(actions: seq<Action>, t: Id, now: int, later: int)
    requires var r := At(Run(INIT, actions), t);
             r.flights != [] && r.flights[0].automatic && r.flights[0].attempts <= 3
    ensures var r := At(Run(INIT, actions), t);
            var s := Step(Run(INIT, actions), Act(t, Fail(0, ChannelError(false, true), now)));
            && At(s, t).mark == r.mark
            && (Wins(s, Act(t, Begin(Retry, later)), t) <==> later >= now + WaitAfter(r.flights[0].attempts))
  {
    RunOk(actions, t);
    AtStep(Run(INIT, actions), Act(t, Fail(0, ChannelError(false, true), now)), t);
  }

  /** A send that a Host stops in the middle of is not begun again: once a Host that listens has started,
      the reply is unknown, with its attempts as they were, until a person acts. */
  lemma CutOffIsUnknown(actions: seq<Action>, more: seq<Action>, t: Id)
    requires IsSending(At(Run(INIT, actions), t)) && forall a <- more :: !ByPerson(a, t)
    ensures var r, s := At(Run(INIT, actions), t), Step(Run(INIT, actions), HostStarts(true));
            && At(s, t) == At(Run(s, more), t)
            && At(s, t).row == Some(Row(Unknown, r.row.value.attempts, false, None))
            && At(s, t).mark != Succeeded && At(s, t).flights == [] && At(s, t).begun == r.begun
  {
    var a := HostStarts(true);
    var run := actions + [a];
    AtStep(Run(INIT, actions), a, t);
    assert run[..|run| - 1] == actions && Run(INIT, run) == Step(Run(INIT, actions), a);
    UnknownWaitsForPerson(run, more, t);
  }

  // ---------- what each step does ----------

  /** The statuses that each kind of attempt may start from: the first from pending; one by a person from
      failed or unknown; a retry from failed, when it is due. */
  predicate IsFree(row: Row, kind: Claim, now: int) {
    || (kind == First && row.status == Pending)
    || (kind == Manual && (row.status == Failed || row.status == Unknown))
    || (kind == Retry && row.status == Failed && row.retryable && row.nextAttemptAt.Some? &&
       row.nextAttemptAt.value <= now)
  }

  /** An attempt begins a send exactly from those, under the next number; otherwise it does nothing. */
  lemma AttemptMeans(s: State, t: Id, kind: Claim, now: int)
    ensures var r, after := At(s, t), At(Step(s, Act(t, Begin(kind, now))), t);
            if r.row.Some? && IsFree(r.row.value, kind, now) then
              var n := r.row.value.attempts + 1;
              after == Reply(Some(Row(Sending, n, false, None)), r.mark, r.flights + [Flight(n, kind != Manual)],
                             r.begun + [n])
            else after == r
  {
  }

  /** A reply that failed, or whose outcome is unknown, can be resent by a person at any time. */
  lemma PersonMayResend(actions: seq<Action>, t: Id, now: int)
    requires var r := At(Run(INIT, actions), t);
             r.row.Some? && (r.row.value.status == Failed || r.row.value.status == Unknown)
    ensures var r := At(Step(Run(INIT, actions), Act(t, Begin(Manual, now))), t);
            IsSending(r) && |r.flights| == 1 && !r.flights[0].automatic
  {
    RunOk(actions, t);
    AttemptMeans(Run(INIT, actions), t, Manual, now);
  }

  /** A send that returned leaves the reply delivered and, unless the turn ended otherwise, its turn a
      success; so does a person's mark, which leaves the sends alone. */
  lemma ArriveMeans(s: State, t: Id, i: nat)
    requires At(s, t).row.Some?
    ensures var r, row := At(s, t), At(s, t).row.value;
            var mark := if r.mark == Other then Other else Succeeded;
            && (i < |r.flights| ==>
                  At(Step(s, Act(t, Arrive(i))), t) ==
                  Reply(Some(Row(Delivered, row.attempts, false, None)), mark, r.flights[..i] + r.flights[i + 1..],
                        r.begun))
            && (row.status != Delivered ==>
                  At(Step(s, Act(t, Move.MarkDelivered)), t) ==
                  Reply(Some(Row(Delivered, row.attempts, false, None)), mark, r.flights, r.begun))
            && (row.status == Delivered ==> At(Step(s, Act(t, Move.MarkDelivered)), t) == r)
  {
  }

  /** A failure that may pass, as the channel says, of one of the first three automatic attempts. */
  predicate WillRetry(f: Flight, e: SendError) {
    f.automatic && 1 <= f.attempts <= 3 && e == ChannelError(false, true)
  }

  /** A send that threw leaves the reply unknown if it may have gone out, and failed otherwise, with a time
      for the next attempt exactly when there will be one; and when there will not, its turn failed. */
  lemma FailMeans(s: State, t: Id, i: nat, e: SendError, now: int)
    requires At(s, t).row.Some? && i < |At(s, t).flights|
    ensures var r, f := At(s, t), At(s, t).flights[i];
            var status := if e.ChannelError? && e.outcomeUnknown then Unknown else Failed;
            var next := if WillRetry(f, e) then Some(now + WaitAfter(f.attempts)) else None;
            At(Step(s, Act(t, Fail(i, e, now))), t) ==
            Reply(Some(Row(status, r.row.value.attempts, next.Some?, next)),
                  if next.Some? || r.mark == Other then r.mark else Undelivered,
                  r.flights[..i] + r.flights[i + 1..], r.begun)
  {
  }

  /** A reply is recorded once, to be sent. */
  lemma CreateMeans(s: State, t: Id, mark: Mark)
    requires mark != Undelivered
    ensures At(Step(s, Act(t, Create(mark))), t) ==
            if At(s, t).row.None? then At(s, t).(row := Some(Row(Pending, 0, false, None)), mark := mark) else At(s, t)
  {
  }
}
