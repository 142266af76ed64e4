/** What the tool results of one assistant turn may put into the context window: the decisions of
    src/agent/toolOutputBudget.ts and the ledger of src/agent/toolOutputBudgetExtension.ts. Token
    counts are integers and window fractions are reals. */
module ToolBudget {
  import opened Options

  const RESERVE_MIN_TOKENS := 16000.0
  const RESERVE_FRACTION := 0.25
  const PER_RESULT_MAX_FRACTION := 0.3
  const TURN_TOTAL_MAX_FRACTION := 0.4
  const UNKNOWN_USAGE_INLINE_MAX_BYTES := 50 * 1024
  const IMAGE_BLOCK_EST_TOKENS := 1500

  datatype Number = Finite(value: real) | NotFinite

  /** `getContextUsage()`: the tokens in use, when known, and the size of the window. */
  datatype Usage = Usage(tokens: Option<real>, window: Number)

  datatype Reason = ExceedsRemaining | ExceedsPerResultCap | UnknownUsageFallback | AdapterTruncated
  datatype Decision = Inline(estTokens: nat) | Spill(estTokens: nat, reason: Reason)

  function Max(a: real, b: real): real { if a < b then b else a }

  function Min(a: real, b: real): real { if a < b then a else b }

  /** `Math.ceil(Math.max(0, bytes) / 3)`: the fewest tokens of 3 bytes that hold them. */
  function EstimateTokens(bytes: int): (n: nat)
    ensures bytes <= 3 * n && forall m: nat :: bytes <= 3 * m ==> n <= m
  {
    if bytes <= 0 then 0 else (bytes + 2) / 3
  }

  predicate Known(u: Usage) {
    u.tokens.Some? && u.window.Finite? && u.window.value > 0.0
  }

  /** The window less what is in use and the reserve. */
  function Room(u: Usage): real
    requires Known(u)
  {
    u.window.value - u.tokens.value - Max(RESERVE_MIN_TOKENS, RESERVE_FRACTION * u.window.value)
  }

  function DecideToolOutput(resultBytes: nat, u: Usage, ledger: nat): Decision {
    var est := EstimateTokens(resultBytes);
    if !Known(u) then
      if resultBytes <= UNKNOWN_USAGE_INLINE_MAX_BYTES then Inline(est) else Spill(est, UnknownUsageFallback)
    else if est as real > PER_RESULT_MAX_FRACTION * u.window.value then Spill(est, ExceedsPerResultCap)
    else if est as real > Room(u) - ledger as real then Spill(est, ExceedsRemaining)
    else Inline(est)
  }

  /** What the results of the tools that stay inline may add up to. */
  function Allowed(u: Usage): real
    requires Known(u)
  {
    Min(Room(u), TURN_TOTAL_MAX_FRACTION * u.window.value)
  }

  /** `decideTurnCap`: true for "defer". */
  predicate Defers(resultTokens: nat, u: Usage, ledger: nat) {
    Known(u) && ledger > 0 && (ledger + resultTokens) as real > Allowed(u)
  }

  // ---------- the ledger ----------

  /** What a turn put into the context: the result of a capped tool, the text of another, its
      images, or the notice in place of a result. */
  datatype Kind = CappedResult | TextResult | Images | Notice

  /** One such item, with the ledger it met. */
  datatype Item = Item(kind: Kind, tokens: nat, met: nat)

  /** The ledger, and what it stands for. */
  datatype Book = Book(ledger: nat, items: seq<Item>)

  const EMPTY := Book(0, [])

  /** The steps between two awaits of the extension's handlers; the handlers of one turn may take
      them in any order. `noticeBytes` and `bytes` of Replaced are the sizes of the text that the
      model sees in place of a result, `cut` says that the adapter had already truncated it. */
  datatype Event =
    | MessageEnd(assistant: bool)
    | Capped(usage: Usage, bytes: nat, images: nat, noticeBytes: nat)
    | ResultImages(images: nat)
    | ResultText(usage: Usage, bytes: nat, cut: bool)
    | Replaced(bytes: nat)

  function Add(b: Book, kind: Kind, tokens: nat): Book {
    Book(b.ledger + tokens, b.items + [Item(kind, tokens, b.ledger)])
  }

  function CappedTokens(bytes: nat, images: nat): nat {
    EstimateTokens(bytes) + images * IMAGE_BLOCK_EST_TOKENS
  }

  function Step(b: Book, e: Event): Book {
    match e
    case MessageEnd(assistant) => if assistant then EMPTY else b
    case Capped(u, bytes, images, noticeBytes) =>
      var tokens := CappedTokens(bytes, images);
      if Defers(tokens, u, b.ledger) then Add(b, Notice, EstimateTokens(noticeBytes))
      else Add(b, CappedResult, tokens)
    case ResultImages(images) => Add(b, Images, images * IMAGE_BLOCK_EST_TOKENS)
    case ResultText(u, bytes, cut) =>
      var decision :=
        if cut then Spill(EstimateTokens(bytes), AdapterTruncated)
        else DecideToolOutput(bytes, u, b.ledger);
      if decision.Inline? then Add(b, TextResult, decision.estTokens) else b
    case Replaced(bytes) => Add(b, Notice, EstimateTokens(bytes))
  }

  function Run(es: seq<Event>): Book
    decreases |es|
  {
    if es == [] then EMPTY else Step(Run(es[..|es| - 1]), es[|es| - 1])
  }

  /** The extension itself: one counter, changed by its handlers. */
  class Extension {
    var turnLedgerTokens: nat
    ghost var items: seq<Item>

    ghost function View(): Book
      reads this
    {
      Book(turnLedgerTokens, items)
    }

    constructor ()
      ensures View() == EMPTY
    {
      turnLedgerTokens := 0;
      items := [];
    }

    method OnMessageEnd(assistant: bool)
      modifies this
      ensures View() == Step(old(View()), MessageEnd(assistant))
    {
      if assistant {
        turnLedgerTokens := 0;
        items := [];
      }
    }

    /** `capTurnTotal`; the result is replaced by a notice when deferred. */
    method CapTurnTotal(usage: Usage, bytes: nat, images: nat, noticeBytes: nat) returns (deferred: bool)
      modifies this
      ensures View() == Step(old(View()), Capped(usage, bytes, images, noticeBytes))
      ensures deferred == Defers(CappedTokens(bytes, images), usage, old(turnLedgerTokens))
    {
      var tokens := EstimateTokens(bytes) + images * IMAGE_BLOCK_EST_TOKENS;
      deferred := Defers(tokens, usage, turnLedgerTokens);
      if deferred {
        Charge(Notice, EstimateTokens(noticeBytes));
      } else {
        Charge(CappedResult, tokens);
      }
    }

    /** A result of any other tool, up to its first await. */
    method StartResult(images: nat)
      modifies this
      ensures View() == Step(old(View()), ResultImages(images))
    {
      Charge(Images, images * IMAGE_BLOCK_EST_TOKENS);
    }

    /** The same result once the adapter's own output is read. */
    method DecideResult(usage: Usage, bytes: nat, cut: bool) returns (decision: Decision)
      modifies this
      ensures View() == Step(old(View()), ResultText(usage, bytes, cut))
      ensures !cut ==> decision == DecideToolOutput(bytes, usage, old(turnLedgerTokens))
      ensures cut ==> decision == Spill(EstimateTokens(bytes), AdapterTruncated)
    {
      decision :=
        if cut then Spill(EstimateTokens(bytes), AdapterTruncated)
        else DecideToolOutput(bytes, usage, turnLedgerTokens);
      if decision.Inline? {
        Charge(TextResult, decision.estTokens);
      }
    }

    /** The same result, not kept, once its text is saved or saving has failed. */
    method ReplaceResult(replacementBytes: nat)
      modifies this
      ensures View() == Step(old(View()), Replaced(replacementBytes))
    {
      Charge(Notice, EstimateTokens(replacementBytes));
    }

    method Charge(kind: Kind, tokens: nat)
      modifies this
      ensures View() == Add(old(View()), kind, tokens)
    {
      items := items + [Item(kind, tokens, turnLedgerTokens)];
      turnLedgerTokens := turnLedgerTokens + tokens;
    }
  }

  // ---------- what the ledger is ----------

  function Total(items: seq<Item>, kinds: set<Kind>): (n: nat) {
    if items == [] then 0
    else
      var last := items[|items| - 1];
      Total(items[..|items| - 1], kinds) + if last.kind in kinds then last.tokens else 0
  }

  const EVERY: set<Kind> := {CappedResult, TextResult, Images, Notice}

  /** What the budget kept inline: the text of ordinary results, and capped results whole. */
  const KEPT: set<Kind> := {CappedResult, TextResult}

  /** The tokens of capped results that met an empty ledger. */
  function FirstTokens(items: seq<Item>): (n: nat) {
    if items == [] then 0
    else
      var last := items[|items| - 1];
      FirstTokens(items[..|items| - 1]) + if last.kind == CappedResult && last.met == 0 then last.tokens else 0
  }

  lemma TotalPush(items: seq<Item>, item: Item, kinds: set<Kind>)
    ensures Total(items + [item], kinds) == Total(items, kinds) + if item.kind in kinds then item.tokens else 0
    ensures FirstTokens(items + [item]) ==
            FirstTokens(items) + if item.kind == CappedResult && item.met == 0 then item.tokens else 0
  {
    assert (items + [item])[..|items|] == items;
  }

  lemma {:induction false} TotalGrows(items: seq<Item>, small: set<Kind>, large: set<Kind>)
    requires small <= large
    ensures Total(items, small) <= Total(items, large)
    decreases |items|
  {
    if items != [] {
      TotalGrows(items[..|items| - 1], small, large);
    }
  }

  /** The ledger is exactly what the turn put into the context so far, and each item met the tokens
      of the items before it: awaits between the steps of a result lose and double nothing. */
  ghost predicate Balanced(b: Book) {
    b.ledger == Total(b.items, EVERY) &&
    forall i :: 0 <= i < |b.items| ==> b.items[i].met == Total(b.items[..i], EVERY)
  }

  lemma AddBalanced(b: Book, kind: Kind, tokens: nat)
    requires Balanced(b)
    ensures Balanced(Add(b, kind, tokens))
  {
    var b' := Add(b, kind, tokens);
    assert kind in EVERY;
    TotalPush(b.items, Item(kind, tokens, b.ledger), EVERY);
    forall i | 0 <= i < |b'.items| ensures b'.items[i].met == Total(b'.items[..i], EVERY) {
      assert b'.items[..i] == b.items[..i];
      assert b.items[..|b.items|] == b.items;
    }
  }

  lemma {:induction false} LedgerIsTotal(es: seq<Event>)
    ensures Balanced(Run(es))
    decreases |es|
  {
    if es != [] {
      var n := |es| - 1;
      LedgerIsTotal(es[..n]);
      var b := Run(es[..n]);
      if Step(b, es[n]) != b && Step(b, es[n]) != EMPTY {
        var item := Step(b, es[n]).items[|b.items|];
        AddBalanced(b, item.kind, item.tokens);
      }
    }
  }

  /** In a turn at most one result with any tokens met an empty ledger. */
  lemma OneFirst(es: seq<Event>, i: nat, j: nat)
    requires i < j < |Run(es).items|
    requires Run(es).items[i].tokens > 0
    ensures Run(es).items[j].met >= Run(es).items[i].tokens
  {
    LedgerIsTotal(es);
    var items := Run(es).items;
    TotalHolds(items[..j], i);
  }

  lemma {:induction false} TotalHolds(items: seq<Item>, i: nat)
    requires i < |items|
    ensures items[i].tokens <= Total(items, EVERY)
    decreases |items|
  {
    assert items[|items| - 1].kind in EVERY by {
      match items[|items| - 1].kind { case CappedResult => case TextResult => case Images => case Notice => }
    }
    if i < |items| - 1 {
      TotalHolds(items[..|items| - 1], i);
    }
  }

  // ---------- the budget ----------

  /** Every decision sees a known usage that leaves at most `room`, of which capped results may have
      at most `share`. With one known usage u in the whole turn these are Room(u) and Allowed(u). */
  ghost predicate UsageWithin(es: seq<Event>, room: real, share: real) {
    forall e <- es :: (e.ResultText? || e.Capped?) ==>
      Known(e.usage) && Room(e.usage) <= room && Allowed(e.usage) <= share
  }

  ghost predicate WithinBudget(items: seq<Item>, room: real, share: real) {
    Total(items, KEPT) as real <= Max(room, FirstTokens(items) as real) &&
    Total(items, {CappedResult}) as real <= Max(share, FirstTokens(items) as real)
  }

  lemma AddWithin(b: Book, kind: Kind, tokens: nat, room: real, share: real)
    requires Balanced(b) && WithinBudget(b.items, room, share)
    requires kind == TextResult ==> (b.ledger + tokens) as real <= room
    requires kind == CappedResult ==>
               b.ledger == 0 || ((b.ledger + tokens) as real <= room && (b.ledger + tokens) as real <= share)
    ensures WithinBudget(Add(b, kind, tokens).items, room, share)
  {
    var item := Item(kind, tokens, b.ledger);
    TotalPush(b.items, item, KEPT);
    TotalPush(b.items, item, {CappedResult});
    TotalGrows(b.items, KEPT, EVERY);
    TotalGrows(b.items, {CappedResult}, EVERY);
  }

  lemma StepWithin(b: Book, e: Event, room: real, share: real)
    requires Balanced(b) && WithinBudget(b.items, room, share)
    requires (e.ResultText? || e.Capped?) ==> Known(e.usage) && Room(e.usage) <= room && Allowed(e.usage) <= share
    ensures WithinBudget(Step(b, e).items, room, share)
  {
    var b' := Step(b, e);
    if b' != b && b' != EMPTY {
      var item := b'.items[|b.items|];
      AddWithin(b, item.kind, item.tokens, room, share);
    }
  }

  lemma {:induction false} RunWithin(es: seq<Event>, room: real, share: real)
    requires UsageWithin(es, room, share)
    ensures WithinBudget(Run(es).items, room, share)
    decreases |es|
  {
    if es != [] {
      var n := |es| - 1;
      RunWithin(es[..n], room, share);
      LedgerIsTotal(es[..n]);
      assert es[n] in es;
      StepWithin(Run(es[..n]), es[n], room, share);
    }
  }

  /** Each assistant message starts a turn with an empty book, whatever was pending. */
  lemma {:induction false} TurnStartsEmpty(before: seq<Event>, es: seq<Event>)
    ensures Run(before + [MessageEnd(true)] + es) == Run(es)
    decreases |es|
  {
    var run := before + [MessageEnd(true)] + es;
    if es == [] {
      assert run[|run| - 1] == MessageEnd(true);
    } else {
      TurnStartsEmpty(before, es[..|es| - 1]);
      assert run[..|run| - 1] == before + [MessageEnd(true)] + es[..|es| - 1];
    }
  }

  /** The turn budget at one known usage: what is kept inline totals at most the room the window
      leaves, or the capped result that met the empty ledger if that alone is more; and the capped
      results total at most their share of it, with the same exception. */
  lemma TurnBudget(before: seq<Event>, es: seq<Event>, u: Usage)
    requires Known(u) && forall e <- es :: (e.ResultText? || e.Capped?) ==> e.usage == u
    ensures var items := Run(before + [MessageEnd(true)] + es).items;
            Total(items, KEPT) as real <= Max(Room(u), FirstTokens(items) as real) &&
            Total(items, {CappedResult}) as real <= Max(Allowed(u), FirstTokens(items) as real)
  {
    TurnStartsEmpty(before, es);
    RunWithin(es, Room(u), Allowed(u));
  }

  /** A result of a capped tool that is alone in its turn is never deferred, and one that follows
      another is deferred exactly when the turn's total would pass the share. */
  lemma DeferredIff(es: seq<Event>, u: Usage, bytes: nat, images: nat, noticeBytes: nat)
    requires Known(u)
    ensures var b := Run(es);
            var tokens := CappedTokens(bytes, images);
            Step(b, Capped(u, bytes, images, noticeBytes)) == Add(b, CappedResult, tokens) <==>
            (Total(b.items, EVERY) == 0 || (Total(b.items, EVERY) + tokens) as real <= Allowed(u))
  {
    LedgerIsTotal(es);
    var b := Run(es);
    assert forall kind, n: nat :: Add(b, kind, n).items[|b.items|] == Item(kind, n, b.ledger);
  }

  /** An ordinary result is kept exactly when it is at most 3 tenths of the window and all that the
      turn put into the context, with it, is at most the room. */
  lemma KeptIff(es: seq<Event>, u: Usage, bytes: nat)
    requires Known(u)
    ensures var b := Run(es);
            var tokens := EstimateTokens(bytes);
            Step(b, ResultText(u, bytes, false)) == Add(b, TextResult, tokens) <==>
            (tokens as real <= PER_RESULT_MAX_FRACTION * u.window.value &&
             (Total(b.items, EVERY) + tokens) as real <= Room(u))
  {
    LedgerIsTotal(es);
  }

  // ---------- what the budget does not ask about ----------

  /** What the turn put into the context without a question: images, and notices in place of results. */
  const UNASKED: set<Kind> := {Images, Notice}

  lemma {:induction false} TotalSplits(items: seq<Item>)
    ensures Total(items, EVERY) == Total(items, KEPT) + Total(items, UNASKED)
    decreases |items|
  {
    if items != [] {
      TotalSplits(items[..|items| - 1]);
      match items[|items| - 1].kind { case CappedResult => case TextResult => case Images => case Notice => }
    }
  }

  /** The whole turn at one known usage: the ledger is at most the room, or the capped result that met the
      empty ledger, and on top of that only images and notices. */
  lemma WholeTurn(before: seq<Event>, es: seq<Event>, u: Usage)
    requires Known(u) && forall e <- es :: (e.ResultText? || e.Capped?) ==> e.usage == u
    ensures var b := Run(before + [MessageEnd(true)] + es);
            b.ledger as real <= Max(Room(u), FirstTokens(b.items) as real) + Total(b.items, UNASKED) as real
  {
    var run := before + [MessageEnd(true)] + es;
    TurnBudget(before, es, u);
    LedgerIsTotal(run);
    TotalSplits(Run(run).items);
  }

  /** What a step charges although nothing asks whether it fits: images, a notice, and a capped result
      that meets an empty ledger. */
  function Unasked(b: Book, e: Event): nat {
    match e
    case MessageEnd(_) => 0
    case ResultText(_, _, _) => 0
    case ResultImages(images) => images * IMAGE_BLOCK_EST_TOKENS
    case Replaced(bytes) => EstimateTokens(bytes)
    case Capped(u, bytes, images, noticeBytes) =>
      var tokens := CappedTokens(bytes, images);
      if Defers(tokens, u, b.ledger) then EstimateTokens(noticeBytes) else if b.ledger == 0 then tokens else 0
  }

  predicate Inside(b: Book, u: Usage)
    requires Known(u)
  {
    b.ledger as real <= Room(u)
  }

  /** Every unasked charge of the run fits into the room that is left when it comes. */
  ghost predicate UnaskedFit(es: seq<Event>, u: Usage)
    requires Known(u)
  {
    forall i :: 0 <= i < |es| ==> (Run(es[..i]).ledger + Unasked(Run(es[..i]), es[i])) as real <= Room(u)
  }

  lemma StepInsideIff(b: Book, e: Event, u: Usage)
    requires Known(u) && Inside(b, u) && ((e.ResultText? || e.Capped?) ==> e.usage == u)
    ensures Inside(Step(b, e), u) <==> (b.ledger + Unasked(b, e)) as real <= Room(u) || e == MessageEnd(true)
  {
  }

  lemma RunSnoc(es: seq<Event>, n: nat)
    requires n < |es|
    ensures Run(es[..n + 1]) == Step(Run(es[..n]), es[n])
  {
    assert es[..n + 1][..n] == es[..n];
  }

  lemma {:induction false} InsideAfter(es: seq<Event>, u: Usage, n: nat)
    requires Known(u) && n <= |es| && forall e <- es :: (e.ResultText? || e.Capped?) ==> e.usage == u
    requires UnaskedFit(es, u) && Room(u) >= 0.0
    ensures Inside(Run(es[..n]), u)
    decreases n
  {
    if n > 0 {
      InsideAfter(es, u, n - 1);
      RunSnoc(es, n - 1);
      StepInsideIff(Run(es[..n - 1]), es[n - 1], u);
    }
  }

  /** A turn at one known usage stays inside the room throughout exactly when there is room at all and
      each charge that nothing asks about fits into what is left of it. */
  lemma InsideIff(es: seq<Event>, u: Usage)
    requires Known(u) && forall e <- es :: (e.ResultText? || e.Capped?) ==> e.usage == u
    ensures (forall n :: 0 <= n <= |es| ==> Inside(Run(es[..n]), u)) <==> Room(u) >= 0.0 && UnaskedFit(es, u)
  {
    if Room(u) >= 0.0 && UnaskedFit(es, u) {
      forall n | 0 <= n <= |es| ensures Inside(Run(es[..n]), u) {
        InsideAfter(es, u, n);
      }
    }
    if forall n :: 0 <= n <= |es| ==> Inside(Run(es[..n]), u) {
      assert Inside(Run(es[..0]), u) && es[..0] == [];
      forall i | 0 <= i < |es| ensures (Run(es[..i]).ledger + Unasked(Run(es[..i]), es[i])) as real <= Room(u) {
        assert Inside(Run(es[..i]), u) && Inside(Run(es[..i + 1]), u);
        RunSnoc(es, i);
        StepInsideIff(Run(es[..i]), es[i], u);
      }
    }
  }

  /** So no run bounds what images may still add: any turn, and n more, passes n tokens. */
  lemma ImagesUnbounded(es: seq<Event>, n: nat)
    ensures var b := Run(es + [ResultImages(n)]);
            b.ledger >= Run(es).ledger + n && Total(b.items, EVERY) == b.ledger &&
              Total(b.items, KEPT) == Total(Run(es).items, KEPT)
  {
    var run := es + [ResultImages(n)];
    assert run[..|es|] == es;
    LedgerIsTotal(run);
    TotalPush(Run(es).items, Item(Images, n * IMAGE_BLOCK_EST_TOKENS, Run(es).ledger), KEPT);
  }

  // ---------- the decisions in numbers ----------

  /** What a window leaves: 16000 tokens or a quarter of it stay free, whichever is more. */
  lemma RoomIs(u: Usage)
    requires Known(u)
    ensures var free := u.window.value - u.tokens.value;
            Room(u) <= free - 16000.0 && Room(u) <= free - u.window.value / 4.0 &&
            (Room(u) == free - 16000.0 || Room(u) == free - u.window.value / 4.0)
    ensures Allowed(u) <= Room(u) && Allowed(u) <= 2.0 / 5.0 * u.window.value &&
            (Allowed(u) == Room(u) || Allowed(u) == 2.0 / 5.0 * u.window.value)
  {
  }

  /** A result of a capped tool is charged and kept when the usage is not known, the turn is empty, or the
      turn's total with it is within the smaller of the room and 2 fifths of the window; otherwise only
      its notice is charged. A text takes a third of its bytes, rounded up, and an image 1500 tokens. */
  lemma CappedIs(es: seq<Event>, u: Usage, bytes: nat, images: nat, noticeBytes: nat)
    ensures var b := Run(es);
            var tokens := (bytes + 2) / 3 + images * 1500;
            var fits := u.tokens.None? || u.window == NotFinite || u.window.value <= 0.0 ||
              Total(b.items, EVERY) == 0 ||
                        ((Total(b.items, EVERY) + tokens) as real <= Room(u) &&
                         (Total(b.items, EVERY) + tokens) as real <= 2.0 / 5.0 * u.window.value);
            Step(b, Capped(u, bytes, images, noticeBytes)) ==
            if fits then Book(b.ledger + tokens, b.items + [Item(CappedResult, tokens, b.ledger)])
            else Book(b.ledger + (noticeBytes + 2) / 3, b.items + [Item(Notice, (noticeBytes + 2) / 3, b.ledger)])
  {
    LedgerIsTotal(es);
  }

  /** The text of any other tool: one that the adapter cut is never kept; with an unknown usage it is kept
      exactly up to 51200 bytes; otherwise exactly up to 3 tenths of the window and the room that is left. A
      text that is not kept charges nothing until its notice does. */
  lemma TextIs(es: seq<Event>, u: Usage, bytes: nat, cut: bool)
    ensures var b := Run(es);
            var tokens := (bytes + 2) / 3;
            var fits := if u.tokens.None? || u.window == NotFinite || u.window.value <= 0.0 then bytes <= 51200
                        else tokens as real <= 3.0 / 10.0 * u.window.value &&
                             (Total(b.items, EVERY) + tokens) as real <= Room(u);
            Step(b, ResultText(u, bytes, cut)) ==
            if fits && !cut then Book(b.ledger + tokens, b.items + [Item(TextResult, tokens, b.ledger)]) else b
  {
    LedgerIsTotal(es);
  }

  /** Why a text is not kept: what the window as a whole allows is asked first, then what is left. */
  lemma SpillIs(u: Usage, bytes: nat, ledger: nat)
    ensures DecideToolOutput(bytes, u, ledger) == Spill((bytes + 2) / 3, ExceedsPerResultCap) <==>
            Known(u) && ((bytes + 2) / 3) as real > 3.0 / 10.0 * u.window.value
    ensures DecideToolOutput(bytes, u, ledger) == Spill((bytes + 2) / 3, ExceedsRemaining) <==>
            Known(u) && ((bytes + 2) / 3) as real <= 3.0 / 10.0 * u.window.value &&
            (ledger + (bytes + 2) / 3) as real > Room(u)
    ensures DecideToolOutput(bytes, u, ledger) == Spill((bytes + 2) / 3, UnknownUsageFallback) <==>
            !Known(u) && bytes > 51200
  {
  }

  /** Images and notices are charged as they come; only an assistant message empties the ledger. */
  lemma OthersAre(b: Book, n: nat)
    ensures Step(b, ResultImages(n)) == Book(b.ledger + n * 1500, b.items + [Item(Images, n * 1500, b.ledger)])
    ensures Step(b, Replaced(n)) == Book(b.ledger + (n + 2) / 3, b.items + [Item(Notice, (n + 2) / 3, b.ledger)])
    ensures Step(b, MessageEnd(true)) == Book(0, []) && Step(b, MessageEnd(false)) == b
  {
  }
}
