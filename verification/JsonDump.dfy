/** `dump_into` with its size bound and depth limit (src/canonical.cpp). */
module JsonDump {
  import opened Bytes
  import opened Units
  import opened Json
  import opened JsonTrip

  const MAX_DEPTH: nat := 64

  datatype Sink = Sink(out: string, error: Option<Refusal>)

  /** One value: the guards are tested when it begins, not when it ends. */
  function DumpInto(v: Value, k: Sink, depth: nat, max: nat): Sink
    decreases v, 0
  {
    if k.error.Some? then k
    else if depth > MAX_DEPTH then k.(error := Some(OutOfRange))
    else if |k.out| + 1 > max then k.(error := Some(OversizedInput))
    else
      match v
      case Array(items) => Close(DumpItems(items, k.(out := k.out + "["), true, depth, max), "]")
      case Object(ms) => Close(DumpMembers(ms, k.(out := k.out + "{"), true, depth, max), "}")
      case _ => k.(out := k.out + Print(v))
  }

  function Close(k: Sink, bracket: string): Sink { if k.error.Some? then k else k.(out := k.out + bracket) }

  function Comma(first: bool): string { if first then "" else "," }

  function DumpItems(items: Items, k: Sink, first: bool, depth: nat, max: nat): Sink
    decreases items, 1
  {
    match items
    case NoItems => k
    case Item(v, rest) =>
      var next := DumpInto(v, k.(out := k.out + Comma(first)), depth + 1, max);
      if next.error.Some? then next else DumpItems(rest, next, false, depth, max)
  }

  function DumpMembers(ms: Members, k: Sink, first: bool, depth: nat, max: nat): Sink
    decreases ms, 1
  {
    match ms
    case NoMembers => k
    case Member(key, v, rest) =>
      var next := DumpInto(v, k.(out := k.out + Comma(first) + Quote(key) + ":"), depth + 1, max);
      if next.error.Some? then next else DumpMembers(rest, next, false, depth, max)
  }

  /** `dump`. */
  function Dump(v: Value, max: nat): Checked<string> {
    var k := DumpInto(v, Sink("", None), 0, max);
    match k.error
    case Some(r) => Refuse(r)
    case None => Pass(k.out)
  }

  // ---- What the bound bounds --------------------------------------------------------------------

  /** Nesting below a value. */
  function Height(v: Value): nat {
    match v
    case Array(items) => ItemsHeight(items)
    case Object(ms) => MembersHeight(ms)
    case _ => 0
  }

  function ItemsHeight(items: Items): nat {
    match items
    case NoItems => 0
    case Item(v, rest) => Max(1 + Height(v), ItemsHeight(rest))
  }

  function MembersHeight(ms: Members): nat {
    match ms
    case NoMembers => 0
    case Member(_, v, rest) => Max(1 + Height(v), MembersHeight(rest))
  }

  function Max(a: nat, b: nat): nat { if a < b then b else a }

  /** Where, in the text of `v`, the last value nested in it begins. */
  function LastBegin(v: Value): nat {
    match v
    case Array(items) => if items.NoItems? then 0 else 1 + ItemsLast(items)
    case Object(ms) => if ms.NoMembers? then 0 else 1 + MembersLast(ms)
    case _ => 0
  }

  function ItemsLast(items: Items): nat
    requires items.Item?
  {
    if items.tail.NoItems? then LastBegin(items.head) else |Print(items.head)| + 1 + ItemsLast(items.tail)
  }

  function MembersLast(ms: Members): nat
    requires ms.Member?
  {
    |Quote(ms.key)| + 1 + if ms.more.NoMembers? then LastBegin(ms.value) else |Print(ms.value)| + 1 + MembersLast(ms.more)
  }

  /** The condition under which a value that begins at `at` is dumped. */
  predicate Fits(v: Value, at: nat, depth: nat, max: nat) {
    depth + Height(v) <= MAX_DEPTH && at + LastBegin(v) < max
  }

  lemma {:induction false} LastBeginsInside(v: Value)
    ensures LastBegin(v) < |Print(v)|
    decreases v, 0
  {
    hide Quote;
    match v
    case Array(items) => if items.Item? { ItemsLastInside(items); }
    case Object(ms) => if ms.Member? { MembersLastInside(ms); }
    case _ => FirstChar(v);
  }

  lemma {:induction false} ItemsLastInside(items: Items)
    requires items.Item?
    ensures ItemsLast(items) < |PrintItems(items)|
    decreases items, 1
  {
    LastBeginsInside(items.head);
    if items.tail.Item? { ItemsLastInside(items.tail); }
  }

  lemma {:induction false} MembersLastInside(ms: Members)
    requires ms.Member?
    ensures MembersLast(ms) < |PrintMembers(ms)|
    decreases ms, 1
  {
    hide Quote;
    LastBeginsInside(ms.value);
    if ms.more.Member? { MembersLastInside(ms.more); }
  }

  predicate DumpsTo(r: Sink, k: Sink, text: string, fits: bool) {
    if fits then r == Sink(k.out + text, None) else r.error.Some?
  }

  /** Dumping succeeds exactly when nothing is nested too deep and the last nested value begins
      within the bound, and then appends the printed value. */
  lemma {:induction false} DumpsIff(v: Value, k: Sink, depth: nat, max: nat)
    requires k.error.None?
    ensures DumpsTo(DumpInto(v, k, depth, max), k, Print(v), Fits(v, |k.out|, depth, max))
    decreases v, 0
  {
    match v
    case Array(items) => ArrayDumpsIff(items, k, depth, max);
    case Object(ms) => ObjectDumpsIff(ms, k, depth, max);
    case _ => hide Print;
  }

  lemma {:induction false} ArrayDumpsIff(items: Items, k: Sink, depth: nat, max: nat)
    requires k.error.None?
    ensures DumpsTo(DumpInto(Array(items), k, depth, max), k, Print(Array(items)), Fits(Array(items), |k.out|, depth, max))
    decreases items, 2
  {
    hide DumpItems, PrintItems, ItemsHeight, ItemsLast, DumpMembers;
    var start := k.(out := k.out + "[");
    if items.Item? { ItemsDumpIff(items, start, true, depth, max); } else { EmptyItems(start, depth, max); }
    assert k.out + ("[" + (PrintItems(items) + "]")) == start.out + (Comma(true) + PrintItems(items)) + "]";
  }

  lemma {:induction false} ObjectDumpsIff(ms: Members, k: Sink, depth: nat, max: nat)
    requires k.error.None?
    ensures DumpsTo(DumpInto(Object(ms), k, depth, max), k, Print(Object(ms)), Fits(Object(ms), |k.out|, depth, max))
    decreases ms, 2
  {
    hide DumpMembers, PrintMembers, MembersHeight, MembersLast, DumpItems;
    var start := k.(out := k.out + "{");
    if ms.Member? { MembersDumpIff(ms, start, true, depth, max); } else { EmptyMembers(start, depth, max); }
    assert k.out + ("{" + (PrintMembers(ms) + "}")) == start.out + (Comma(true) + PrintMembers(ms)) + "}";
  }

  lemma EmptyItems(k: Sink, depth: nat, max: nat)
    ensures DumpItems(NoItems, k, true, depth, max) == k && PrintItems(NoItems) == "" && ItemsHeight(NoItems) == 0
  {
  }

  lemma EmptyMembers(k: Sink, depth: nat, max: nat)
    ensures DumpMembers(NoMembers, k, true, depth, max) == k && PrintMembers(NoMembers) == "" && MembersHeight(NoMembers) == 0
  {
  }

  lemma {:induction false} ItemsDumpIff(items: Items, k: Sink, first: bool, depth: nat, max: nat)
    requires items.Item? && k.error.None?
    ensures DumpsTo(DumpItems(items, k, first, depth, max), k, Comma(first) + PrintItems(items),
                    depth + ItemsHeight(items) <= MAX_DEPTH && |k.out + Comma(first)| + ItemsLast(items) < max)
    decreases items, 1
  {
    hide DumpInto, Print, Height, LastBegin, Comma;
    var v, before := items.head, k.(out := k.out + Comma(first));
    DumpsIff(v, before, depth + 1, max);
    LastBeginsInside(v);
    if items.tail.NoItems? {
      assert ItemsHeight(items.tail) == 0;
      assert k.out + (Comma(first) + PrintItems(items)) == before.out + Print(v);
    } else if Fits(v, |before.out|, depth + 1, max) {
      var next := before.(out := before.out + Print(v));
      ItemsDumpIff(items.tail, next, false, depth, max);
      CommaText();
      assert k.out + (Comma(first) + PrintItems(items)) == next.out + (Comma(false) + PrintItems(items.tail));
    }
  }

  lemma CommaText()
    ensures Comma(false) == "," && Comma(true) == ""
  {
  }

  lemma {:induction false} MembersDumpIff(ms: Members, k: Sink, first: bool, depth: nat, max: nat)
    requires ms.Member? && k.error.None?
    ensures DumpsTo(DumpMembers(ms, k, first, depth, max), k, Comma(first) + PrintMembers(ms),
                    depth + MembersHeight(ms) <= MAX_DEPTH && |k.out + Comma(first)| + MembersLast(ms) < max)
    decreases ms, 1
  {
    hide DumpInto, Print, Height, LastBegin, Comma, Quote;
    var v, before := ms.value, k.(out := k.out + Comma(first) + Quote(ms.key) + ":");
    DumpsIff(v, before, depth + 1, max);
    LastBeginsInside(v);
    if ms.more.NoMembers? {
      assert MembersHeight(ms.more) == 0;
      assert k.out + (Comma(first) + PrintMembers(ms)) == before.out + Print(v);
    } else if Fits(v, |before.out|, depth + 1, max) {
      var next := before.(out := before.out + Print(v));
      MembersDumpIff(ms.more, next, false, depth, max);
      CommaText();
      assert k.out + (Comma(first) + PrintMembers(ms)) == next.out + (Comma(false) + PrintMembers(ms.more));
    }
  }

  // ---- Theorems -----------------------------------------------------------------------------------

  /** `dump` succeeds exactly under `Fits`, with the printed document. A document no longer than the
      bound always fits; the converse fails, since only the beginning of each value is tested. */
  lemma DumpIff(v: Value, max: nat)
    ensures Dump(v, max).Pass? <==> Fits(v, 0, 0, max)
    ensures Dump(v, max).Pass? ==> Dump(v, max) == Pass(Print(v))
    ensures |Print(v)| <= max && Height(v) <= MAX_DEPTH ==> Dump(v, max).Pass?
  {
    hide DumpInto, Print, Height, LastBegin;
    DumpsIff(v, Sink("", None), 0, max);
    assert "" + Print(v) == Print(v);
    LastBeginsInside(v);
  }

  /** A document longer than the bound can be produced. */
  lemma DumpCanExceedItsBound()
    ensures exists v, max :: Dump(v, max).Pass? && |Dump(v, max).value| > max
  {
    assert Dump(Null, 1).Pass? && |Dump(Null, 1).value| == 4 by {
      assert Fits(Null, 0, 0, 1) && |Print(Null)| == 4;
      DumpIff(Null, 1);
    }
  }

  /** Print, parse, print: the parsed value is the normalised one and its text is identical. */
  lemma PrintParsePrint(v: Value, bytes: nat, depth: nat)
    requires Made(v) && Dump(v, bytes).Pass? && Readable(v, 0, depth)
    ensures var t := Dump(v, bytes).value;
      Parse(t, depth) == Pass(Norm(v)) && Dump(Norm(v), bytes) == Pass(t)
  {
    hide Print, Made, Readable, Parse, Norm, Height, LastBegin;
    DumpIff(v, bytes);
    DumpIff(Norm(v), bytes);
    ParseOfPrintIff(v, depth);
    NormPrints(v);
    NormKeepsShape(v);
  }

  lemma {:induction false} NormKeepsShape(v: Value)
    ensures Height(Norm(v)) == Height(v) && LastBegin(Norm(v)) == LastBegin(v)
    decreases v, 0
  {
    match v
    case Array(items) => ItemsKeepShape(items);
    case Object(ms) => MembersKeepShape(ms);
    case _ =>
  }

  lemma {:induction false} ItemsKeepShape(items: Items)
    ensures ItemsHeight(NormItems(items)) == ItemsHeight(items)
    ensures items.Item? ==> ItemsLast(NormItems(items)) == ItemsLast(items)
    decreases items, 1
  {
    hide Print;
    if items.Item? {
      NormKeepsShape(items.head);
      NormPrints(items.head);
      ItemsKeepShape(items.tail);
    }
  }

  lemma {:induction false} MembersKeepShape(ms: Members)
    ensures MembersHeight(NormMembers(ms)) == MembersHeight(ms)
    ensures ms.Member? ==> MembersLast(NormMembers(ms)) == MembersLast(ms)
    decreases ms, 1
  {
    hide Print, Quote;
    if ms.Member? {
      NormKeepsShape(ms.value);
      NormPrints(ms.value);
      MembersKeepShape(ms.more);
    }
  }

  // ---- The printer --------------------------------------------------------------------------------

  /** `append_escaped`. */
  method AppendEscaped(out: string, text: string) returns (r: string)
    ensures r == out + Escape(text)
  {
    hide EscapeChar;
    r := out;
    assert text[0..] == text;
    for i := 0 to |text|
      invariant r + Escape(text[i..]) == out + Escape(text)
    {
      assert text[i..][0] == text[i] && text[i..][1..] == text[i + 1..];
      assert r + (EscapeChar(text[i]) + Escape(text[i + 1..])) == r + EscapeChar(text[i]) + Escape(text[i + 1..]);
      r := r + EscapeChar(text[i]);
    }
  }

  class Printer {
    const max: nat
    var out: string
    var error: Option<Refusal>

    function K(): Sink
      reads this
    {
      Sink(out, error)
    }

    constructor (limit: nat)
      ensures max == limit && K() == Sink("", None)
    {
      max, out, error := limit, "", None;
    }

    /** `dump_into`: recursion on the value, a loop over its children. */
    method Value(v: Value, depth: nat)
      modifies this
      ensures K() == DumpInto(v, old(K()), depth, max)
      decreases v, 0
    {
      hide DumpItems, DumpMembers;
      if error.Some? { return; }
      if depth > MAX_DEPTH { error := Some(OutOfRange); return; }
      if |out| + 1 > max { error := Some(OversizedInput); return; }
      match v
      case Array(items) =>
        out := out + "[";
        AllItems(items, depth);
        if error.Some? { return; }
        out := out + "]";
      case Object(members) =>
        out := out + "{";
        AllMembers(members, depth);
        if error.Some? { return; }
        out := out + "}";
      case _ => out := out + Print(v);
    }

    method AllItems(items: Items, depth: nat)
      requires error.None?
      modifies this
      ensures K() == DumpItems(items, old(K()), true, depth, max)
      decreases items, 1
    {
      hide DumpInto;
      var rest, first := items, true;
      ghost var goal := DumpItems(items, K(), true, depth, max);
      while rest.Item?
        invariant rest == items || rest < items
        invariant error.None? && DumpItems(rest, K(), first, depth, max) == goal
        decreases rest
      {
        out := out + Comma(first);
        Value(rest.head, depth + 1);
        if error.Some? { return; }
        rest, first := rest.tail, false;
      }
    }

    method AllMembers(members: Members, depth: nat)
      requires error.None?
      modifies this
      ensures K() == DumpMembers(members, old(K()), true, depth, max)
      decreases members, 1
    {
      hide DumpInto, Quote;
      var rest, first := members, true;
      ghost var goal := DumpMembers(members, K(), true, depth, max);
      while rest.Member?
        invariant rest == members || rest < members
        invariant error.None? && DumpMembers(rest, K(), first, depth, max) == goal
        decreases rest
      {
        out := out + Comma(first) + Quote(rest.key) + ":";
        Value(rest.value, depth + 1);
        if error.Some? { return; }
        rest, first := rest.more, false;
      }
    }
  }
}
