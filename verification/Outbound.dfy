/** Sending under an operation key at most once: `sendOutbound` of src/agents/service.ts over the
    outbound rows of src/agents/store.ts, when the Host may stop between any two steps. */
module Outbound {
  import opened Options

  type Text = string

  datatype Key = Key(session: Text, operation: Text)

  /** The stored state of a send. */
  datatype SendState = Unknown | Submitted

  /** What a call answers: "submitted", with whether this call sent it, or the error
      agent.outbound_unknown. */
  datatype Answer = Done(resent: bool) | OutcomeUnknown

  /** One key: its stored state; how many calls have recorded it, wait for their `submit`, and are past
      it; how many runs of `submit` ever began and ever ended well; whether a call ever answered
      "submitted". */
  datatype Send = Send(stored: Option<SendState>, ready: nat, running: nat, returned: nat, submits: nat,
                       successes: nat, reported: bool)

  type State = map<Key, Send>

  const FRESH := Send(None, 0, 0, 0, 0, 0, false)
  const INIT: State := map[]

  function At(s: State, k: Key): Send { if k in s then s[k] else FRESH }

  datatype Move = Call | Submit | Return | Throw | Record

  datatype Action = Act(move: Move, k: Key) | HostStops

  function Moved(x: Send, move: Move): Send {
    match move
    case Call =>
      if x.stored.None? then x.(stored := Some(Unknown), ready := x.ready + 1)
      else if x.stored == Some(Submitted) then x.(reported := true)
      else x
    case Submit =>
      if x.ready == 0 then x else x.(ready := x.ready - 1, running := x.running + 1, submits := x.submits + 1)
    case Return =>
      if x.running == 0 then x
      else x.(running := x.running - 1, returned := x.returned + 1, successes := x.successes + 1)
    case Throw => if x.running == 0 then x else x.(running := x.running - 1)
    case Record =>
      if x.returned == 0 then x
      else x.(returned := x.returned - 1, stored := Some(Submitted), reported := true)
  }

  /** Calls end with the Host; what is stored stays. */
  function Stopped(x: Send): Send { x.(ready := 0, running := 0, returned := 0) }

  function Step(s: State, a: Action): State {
    match a
    case Act(move, k) => s[k := Moved(At(s, k), move)]
    case HostStops => map k <- s :: Stopped(s[k])
  }

  function Run(s: State, actions: seq<Action>): State
    decreases |actions|
  {
    if actions == [] then s else Step(Run(s, actions[..|actions| - 1]), actions[|actions| - 1])
  }

  // ---------- the service ----------

  class Sends {
    var ledger: map<Key, SendState>
    ghost var view: State

    ghost predicate Valid()
      reads this
    {
      forall k :: At(view, k).stored == if k in ledger then Some(ledger[k]) else None
    }

    constructor ()
      ensures Valid() && view == INIT
    {
      ledger := map[];
      view := INIT;
    }

    /** `sendOutbound` up to its await: None means that `submit` is to be run. */
    method Begin(k: Key) returns (answer: Option<Answer>)
      requires Valid()
      modifies this
      ensures Valid() &&
              view == if answer.None? then Run(old(view), [Act(Call, k), Act(Submit, k)])
                      else Step(old(view), Act(Call, k))
      ensures answer.None? <==> At(old(view), k).stored.None?
      ensures answer == Some(Done(false)) <==> At(old(view), k).stored == Some(Submitted)
    {
      if k in ledger {
        view := Step(view, Act(Call, k));
        return Some(if ledger[k] == Submitted then Done(false) else OutcomeUnknown);
      }
      RunTwo(view, Act(Call, k), Act(Submit, k));
      view := Step(Step(view, Act(Call, k)), Act(Submit, k));
      ledger := ledger[k := Unknown];
      answer := None;
    }

    /** The rest of the call, when `submit` is over. */
    method End(k: Key, threw: bool) returns (answer: Answer)
      requires Valid() && At(view, k).running > 0
      modifies this
      ensures Valid() &&
              view == if threw then Step(old(view), Act(Throw, k)) else Run(old(view), [Act(Return, k), Act(Record, k)])
      ensures answer == if threw then OutcomeUnknown else Done(true)
    {
      if threw {
        view := Step(view, Act(Throw, k));
        return OutcomeUnknown;
      }
      RunTwo(view, Act(Return, k), Act(Record, k));
      view := Step(Step(view, Act(Return, k)), Act(Record, k));
      ledger := ledger[k := Submitted];
      answer := Done(true);
    }
  }

  lemma RunTwo(s: State, a: Action, b: Action)
    ensures Run(s, [a, b]) == Step(Step(s, a), b)
  {
    assert [a, b][..1] == [a] && [a][..0] == [];
    assert Run(s, [a]) == Step(s, a);
  }

  // ---------- at most once ----------

  predicate SendOk(x: Send) {
    && x.ready + x.submits <= 1
    && x.running + x.successes <= x.submits
    && x.returned <= x.successes
    && (x.stored.None? ==> x.ready + x.submits == 0)
    && (x.stored == Some(Submitted) ==> x.successes == 1 && x.returned == 0)
    && (x.reported ==> x.stored == Some(Submitted))
  }

  /** What a step does to one key. */
  lemma AtStep(s: State, a: Action, k: Key)
    ensures At(Step(s, a), k) == match a
                                 case HostStops => Stopped(At(s, k))
                                 case Act(move, l) => if l == k then Moved(At(s, k), move) else At(s, k)
  {
  }

  lemma MovedOk(x: Send, move: Move)
    requires SendOk(x)
    ensures SendOk(Moved(x, move)) && SendOk(Stopped(x))
  {
  }

  lemma {:induction false} RunOk(actions: seq<Action>, k: Key)
    ensures SendOk(At(Run(INIT, actions), k))
    decreases |actions|
  {
    if actions != [] {
      var s, a := Run(INIT, actions[..|actions| - 1]), actions[|actions| - 1];
      RunOk(actions[..|actions| - 1], k);
      AtStep(s, a, k);
      forall move ensures SendOk(Moved(At(s, k), move)) && SendOk(Stopped(At(s, k))) {
        MovedOk(At(s, k), move);
      }
    }
  }

  /** However calls overlap and whenever the Host stops, `submit` is run at most once for a session
      and operation key. */
  lemma SubmittedAtMostOnce(actions: seq<Action>, k: Key)
    ensures At(Run(INIT, actions), k).submits <= 1
  {
    RunOk(actions, k);
  }

  /** A call that answers "submitted" is right: `submit` was run once and ended well. */
  lemma ReportedIsTrue(actions: seq<Action>, k: Key)
    requires At(Run(INIT, actions), k).reported
    ensures At(Run(INIT, actions), k).submits == 1 && At(Run(INIT, actions), k).successes == 1
  {
    RunOk(actions, k);
  }

  /** No call is working on the key. */
  predicate Idle(x: Send) { x.ready == 0 && x.running == 0 && x.returned == 0 }

  /** A send whose outcome is unknown and that no call is working on. */
  predicate Stuck(x: Send) { Idle(x) && x.stored == Some(Unknown) && !x.reported }

  /** It stays so: nothing sends it again, and no call answers "submitted" for it. */
  lemma {:induction false} UnknownIsFinal(s: State, actions: seq<Action>, k: Key)
    requires Stuck(At(s, k))
    ensures Stuck(At(Run(s, actions), k)) && At(Run(s, actions), k).submits == At(s, k).submits
    decreases |actions|
  {
    if actions != [] {
      UnknownIsFinal(s, actions[..|actions| - 1], k);
      AtStep(Run(s, actions[..|actions| - 1]), actions[|actions| - 1], k);
    }
  }

  /** When the Host stops, a send that a call was working on is left unknown for good, whether or not
      it went out; the stored states are as they were. */
  lemma StoppedIsUnknown(actions: seq<Action>, k: Key)
    ensures var x, y := At(Run(INIT, actions), k), At(Step(Run(INIT, actions), HostStops), k);
            y.stored == x.stored && (Stuck(y) || Idle(x))
  {
    RunOk(actions, k);
  }

  lemma AtTwo(s: State, m: Move, n: Move, k: Key)
    ensures At(Run(s, [Act(m, k), Act(n, k)]), k) == Moved(Moved(At(s, k), m), n)
  {
    RunTwo(s, Act(m, k), Act(n, k));
    AtStep(s, Act(m, k), k);
    AtStep(Step(s, Act(m, k)), Act(n, k), k);
  }

  /** A call under a key that was never used records it as unknown and sends. */
  lemma FreshIsSent(s: State, k: Key)
    requires At(s, k) == FRESH
    ensures At(Run(s, [Act(Call, k), Act(Submit, k)]), k) == Send(Some(Unknown), 0, 1, 0, 1, 0, false)
  {
    AtTwo(s, Call, Submit, k);
    var called := FRESH.(stored := Some(Unknown), ready := 1);
    assert Moved(FRESH, Call) == called;
    assert Moved(called, Submit) == Send(Some(Unknown), 0, 1, 0, 1, 0, false);
  }

  /** When that `submit` returns and it is recorded, the key is submitted and reported; when it throws, the
      key stays unknown. */
  lemma SentIsSubmitted(s: State, k: Key)
    requires At(s, k) == Send(Some(Unknown), 0, 1, 0, 1, 0, false)
    ensures At(Run(s, [Act(Return, k), Act(Record, k)]), k) == Send(Some(Submitted), 0, 0, 0, 1, 1, true)
    ensures At(Step(s, Act(Throw, k)), k) == Send(Some(Unknown), 0, 0, 0, 1, 0, false)
  {
    AtTwo(s, Return, Record, k);
    AtStep(s, Act(Throw, k), k);
    var returned := Send(Some(Unknown), 0, 0, 1, 1, 1, false);
    assert Moved(At(s, k), Return) == returned;
    assert Moved(returned, Record) == Send(Some(Submitted), 0, 0, 0, 1, 1, true);
  }

  /** What is submitted stays so, with the one run of `submit` that it took, and each call reports it. */
  lemma {:induction false} SubmittedIsFinal(actions: seq<Action>, more: seq<Action>, k: Key)
    requires At(Run(INIT, actions), k).stored == Some(Submitted)
    ensures var x := At(Run(Run(INIT, actions), more), k);
            x.stored == Some(Submitted) && x.submits == 1 && x.successes == 1 &&
            Moved(x, Call) == x.(reported := true)
    decreases |more|
  {
    var s := Run(INIT, actions);
    RunOk(actions, k);
    if more != [] {
      var n := |more| - 1;
      SubmittedIsFinal(actions, more[..n], k);
      MoreOk(actions, more[..n], k);
      AtStep(Run(s, more[..n]), more[n], k);
    }
  }

  lemma {:induction false} MoreOk(actions: seq<Action>, more: seq<Action>, k: Key)
    ensures SendOk(At(Run(Run(INIT, actions), more), k))
    decreases |more|
  {
    if more == [] {
      RunOk(actions, k);
    } else {
      var n := |more| - 1;
      var s := Run(Run(INIT, actions), more[..n]);
      MoreOk(actions, more[..n], k);
      AtStep(s, more[n], k);
      if more[n].Act? { MovedOk(At(s, k), more[n].move); } else { MovedOk(At(s, k), Call); }
    }
  }
}
