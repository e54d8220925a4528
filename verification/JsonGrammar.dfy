/** The texts the strict reader accepts, as a grammar that does not mention the reader: a document is
    accepted exactly when it spells a value (src/canonical.cpp). */
module JsonGrammar {
  import opened Bytes
  import opened Units
  import opened Json

  // ---- Whitespace and strings ---------------------------------------------------------------

  predicate Blank(c: char) { c == ' ' || c == '\t' || c == '\n' || c == '\r' }

  predicate Space(s: string) { forall i :: 0 <= i < |s| ==> Blank(s[i]) }

  /** The short escapes. */
  predicate ShortEscape(e: char, c: char) {
    || (e == '"' && c == '"') || (e == '\\' && c == '\\') || (e == '/' && c == '/')
    || (e == 'b' && c as int == 8) || (e == 'f' && c as int == 12) || (e == 'n' && c as int == 10)
    || (e == 'r' && c as int == 13) || (e == 't' && c as int == 9)
  }

  predicate HexDigit(h: char, v: int) {
    || ('0' <= h <= '9' && v == h as int - 48) || ('a' <= h <= 'f' && v == h as int - 87) || ('A' <= h <= 'F' && v == h as int - 55)
  }

  ghost predicate UnicodeEscape(t: string, c: char) {
    && |t| == 6 && t[0] == '\\' && t[1] == 'u' && c as int < 0x80
    && exists a, b, d, e :: HexDigit(t[2], a) && HexDigit(t[3], b) && HexDigit(t[4], d) && HexDigit(t[5], e) &&
         c as int == 4096 * a + 256 * b + 16 * d + e
  }

  /** The spellings of one character: itself if it is printable ASCII other than quote and backslash, a
      short escape, or four hexadecimal digits of an ASCII code. */
  ghost predicate SpellsChar(t: string, c: char) {
    || (|t| == 1 && t[0] == c && c != '"' && c != '\\' && 0x20 <= c as int < 0x7F)
    || (|t| == 2 && t[0] == '\\' && ShortEscape(t[1], c))
    || UnicodeEscape(t, c)
  }

  ghost predicate SpellsChars(t: string, s: string)
    decreases |s|, 1
  {
    if s == "" then t == "" else exists e, u :: CharThen(t, e, u, s)
  }

  ghost predicate CharThen(t: string, e: string, u: string, s: string)
    requires s != ""
    decreases |s|, 0
  {
    t == e + u && e != "" && SpellsChar(e, s[0]) && SpellsChars(u, s[1..])
  }

  ghost predicate SpellsString(t: string, s: string) {
    |t| >= 2 && t[0] == '"' && t[|t| - 1] == '"' && SpellsChars(t[1..|t| - 1], s)
  }

  // ---- Numbers --------------------------------------------------------------------------------

  predicate AllDigits(t: string) { forall i :: 0 <= i < |t| ==> '0' <= t[i] <= '9' }

  function Decimal(t: string): nat
    requires AllDigits(t)
  {
    if t == "" then 0 else 10 * Decimal(t[..|t| - 1]) + (t[|t| - 1] as int - 48)
  }

  predicate SpellsNat(t: string, n: nat) { t != "" && AllDigits(t) && Decimal(t) == n }

  // ---- Values ---------------------------------------------------------------------------------

  /** The members of an object, in any order. */
  function Pairs(ms: Members): set<(string, Value)> {
    match ms
    case NoMembers => {}
    case Member(k, v, more) => {(k, v)} + Pairs(more)
  }

  function Length(ms: Members): nat { if ms.NoMembers? then 0 else 1 + Length(ms.more) }

  /** Leading space, then the value itself, within the nesting bound. */
  ghost predicate SpellsValue(t: string, v: Value, depth: nat, max: nat)
    decreases |t|, 2
  {
    depth <= max && exists ws, core :: SpaceThen(t, ws, core, v, depth, max)
  }

  ghost predicate SpaceThen(t: string, ws: string, core: string, v: Value, depth: nat, max: nat)
    decreases |t|, 1
  {
    t == ws + core && Space(ws) && SpellsCore(core, v, depth, max)
  }

  ghost predicate SpellsCore(t: string, v: Value, depth: nat, max: nat)
    decreases |t|, 0
  {
    match v
    case Null => t == "null"
    case Bool(b) => t == if b then "true" else "false"
    case UInt(u) => u <= U64_MAX && SpellsNat(t, u)
    case Int(i) => I64_MIN <= i <= 0 && |t| > 0 && t[0] == '-' && SpellsNat(t[1..], -i)
    case String(s) => SpellsString(t, s)
    case Array(items) =>
      && |t| >= 2 && t[0] == '[' && t[|t| - 1] == ']'
      && if items.NoItems? then Space(t[1..|t| - 1]) else SpellsItems(t[1..|t| - 1], items, depth, max)
    case Object(ms) =>
      && |t| >= 2 && t[0] == '{' && t[|t| - 1] == '}' && Ascending(ms)
      && if ms.NoMembers? then Space(t[1..|t| - 1])
         else exists written :: Pairs(written) == Pairs(ms) && Length(written) == Length(ms) &&
                                SpellsMembers(t[1..|t| - 1], written, depth, max)
  }

  /** Values separated by commas. */
  ghost predicate SpellsItems(t: string, items: Items, depth: nat, max: nat)
    decreases |t|, 4
  {
    items.Item? && exists a, ws, y :: ItemThen(t, a, ws, y, items, depth, max)
  }

  /** A value, space, and after a comma the other values. */
  ghost predicate ItemThen(t: string, a: string, ws: string, y: string, items: Items, depth: nat, max: nat)
    requires items.Item?
    decreases |t|, 3
  {
    && t == (if items.tail.NoItems? then a + ws else a + ws + [','] + y)
    && SpellsValue(a, items.head, depth + 1, max) && Space(ws) && (items.tail.Item? ==> SpellsItems(y, items.tail, depth, max))
  }

  /** A key, a colon and a value. */
  ghost predicate SpellsMember(t: string, k: string, v: Value, depth: nat, max: nat)
    decreases |t|, 4
  {
    exists lead, key, ws, val :: KeyThen(t, lead, key, ws, val, k, v, depth, max)
  }

  ghost predicate KeyThen(t: string, lead: string, key: string, ws: string, val: string, k: string, v: Value, depth: nat, max: nat)
    decreases |t|, 3
  {
    && t == lead + (key + (ws + ([':'] + val)))
    && Space(lead) && SpellsString(key, k) && Space(ws) && SpellsValue(val, v, depth + 1, max)
  }

  /** Members separated by commas. */
  ghost predicate SpellsMembers(t: string, ms: Members, depth: nat, max: nat)
    decreases |t|, 6
  {
    ms.Member? && exists a, ws, y :: MemberThen(t, a, ws, y, ms, depth, max)
  }

  ghost predicate MemberThen(t: string, a: string, ws: string, y: string, ms: Members, depth: nat, max: nat)
    requires ms.Member?
    decreases |t|, 5
  {
    && t == (if ms.more.NoMembers? then a + ws else a + ws + [','] + y)
    && SpellsMember(a, ms.key, ms.value, depth, max) && Space(ws) && (ms.more.Member? ==> SpellsMembers(y, ms.more, depth, max))
  }

  /** A document: one value, then only space. */
  ghost predicate SpellsDocument(t: string, v: Value, max: nat) {
    exists n :: 0 <= n <= |t| && SpellsValue(t[..n], v, 0, max) && Space(t[n..])
  }

  // ---- What is read is spelled ------------------------------------------------------------------

  predicate Ends(t: string, rest: string) { |rest| <= |t| && t[|t| - |rest|..] == rest }

  function Used(t: string, rest: string): string
    requires Ends(t, rest)
  {
    t[..|t| - |rest|]
  }

  lemma {:induction false} SkipIs(t: string)
    ensures Ends(t, Skip(t)) && Space(Used(t, Skip(t))) && (Skip(t) != "" ==> !Blank(Skip(t)[0]))
    decreases |t|
  {
    if t != "" && t[0] in " \t\n\r" {
      SkipIs(t[1..]);
      var rest := Skip(t);
      assert t[|t| - |rest|..] == t[1..][|t[1..]| - |rest|..];
      assert Used(t, rest) == [t[0]] + Used(t[1..], rest);
    }
  }

  lemma HexIs(c: char, v: int)
    ensures HexValue(c) == (if v >= 0 then Some(v) else None) ==> v < 0 || HexDigit(c, v)
    ensures HexDigit(c, v) ==> 0 <= v < 16 && HexValue(c) == Some(v)
  {
  }

  lemma UnescapeSpells(t: string)
    requires Unescape(t).Pass?
    ensures
      var (c, n) := Unescape(t).value;
      0 < n <= |t| && SpellsChar(['\\'] + t[..n], c)
  {
    var (c, n) := Unescape(t).value;
    var e := ['\\'] + t[..n];
    assert e[0] == '\\' && e[1] == t[0];
    if t[0] == 'u' {
      assert e[2] == t[1] && e[3] == t[2] && e[4] == t[3] && e[5] == t[4];
      var h := [HexValue(t[1]).value, HexValue(t[2]).value, HexValue(t[3]).value, HexValue(t[4]).value];
      HexIs(t[1], h[0]);
      HexIs(t[2], h[1]);
      HexIs(t[3], h[2]);
      HexIs(t[4], h[3]);
      assert UnicodeEscape(e, c);
    }
  }

  lemma {:induction false} CharsSpell(t: string)
    requires ReadChars(t).Pass?
    ensures
      var Got(s, rest) := ReadChars(t).value;
      && Ends(t, rest) && |rest| < |t| && t[|t| - |rest| - 1] == '"' && SpellsChars(t[..|t| - |rest| - 1], s)
    decreases |t|
  {
    hide Unescape, SpellsChar, SpellsChars, Ends;
    if t[0] == '"' {
      Dropped(t, 1);
      EmptySpells();
      assert t[..0] == "";
    } else {
      var n := if t[0] == '\\' then 1 + Unescape(t[1..]).value.1 else 1;
      if t[0] == '\\' {
        UnescapeSpells(t[1..]);
        assert ['\\'] + t[1..][..n - 1] == t[..n];
      } else {
        PlainSpells(t);
      }
      CharsSpell(t[n..]);
      var Got(s, rest) := ReadChars(t).value;
      ConsSpells(t, n, rest, s);
    }
  }

  lemma EmptySpells() ensures SpellsChars("", "") {}

  lemma ConsSpells(t: string, n: nat, rest: string, s: string)
    requires 0 < n <= |t| && s != "" && SpellsChar(t[..n], s[0]) && Ends(t[n..], rest) && |rest| < |t[n..]|
    requires SpellsChars(t[n..][..|t[n..]| - |rest| - 1], s[1..]) && t[n..][|t[n..]| - |rest| - 1] == '"'
    ensures Ends(t, rest) && t[|t| - |rest| - 1] == '"' && SpellsChars(t[..|t| - |rest| - 1], s)
  {
    hide SpellsChar;
    var all := t[..|t| - |rest| - 1];
    var tail := t[n..][..|t[n..]| - |rest| - 1];
    assert all == t[..n] + tail;
    assert t[|t| - |rest|..] == t[n..][|t[n..]| - |rest|..];
    assert CharThen(all, t[..n], tail, s);
  }

  lemma PlainSpells(t: string)
    requires t != "" && t[0] != '"' && t[0] != '\\' && 0x20 <= t[0] as int < 0x7F
    ensures SpellsChar(t[..1], t[0])
  {
  }

  lemma StringSpells(t: string)
    requires ReadString(t).Pass?
    ensures Ends(t, ReadString(t).value.rest) && SpellsString(Used(t, ReadString(t).value.rest), ReadString(t).value.value)
  {
    hide ReadChars, SpellsChars;
    CharsSpell(t[1..]);
    var Got(s, rest) := ReadChars(t[1..]).value;
    assert t[|t| - |rest|..] == t[1..][|t[1..]| - |rest|..];
    assert Used(t, rest)[1..|Used(t, rest)| - 1] == t[1..][..|t[1..]| - |rest| - 1];
  }

  lemma {:induction false} AccumulateIs(d: string, negative: bool)
    requires AllDigits(d)
    ensures
      var n: int := Decimal(d);
      Accumulate(d, negative) ==
      if negative then (if n <= -I64_MIN then Some(-n) else None) else if n <= U64_MAX then Some(n) else None
    decreases |d|
  {
    if d != "" { AccumulateIs(d[..|d| - 1], negative); }
  }

  lemma {:induction false} RunIs(t: string)
    ensures AllDigits(t[..Run(t)]) && (Run(t) < |t| ==> !IsDigit(t[Run(t)]))
  {
    if t != "" && IsDigit(t[0]) {
      RunIs(t[1..]);
      assert t[..Run(t)] == [t[0]] + t[1..][..Run(t[1..])];
    }
  }

  lemma BodySpells(body: string, negative: bool)
    requires ReadBody(body, negative).Pass?
    ensures
      var Got(v, rest) := ReadBody(body, negative).value;
      && Ends(body, rest)
      && if negative then v.Int? && I64_MIN <= v.i <= 0 && SpellsNat(Used(body, rest), -v.i)
         else v.UInt? && v.u <= U64_MAX && SpellsNat(Used(body, rest), v.u)
  {
    hide Run, Accumulate;
    RunIs(body);
    AccumulateIs(body[..Run(body)], negative);
  }

  lemma ScalarSpells(t: string, depth: nat, max: nat)
    requires t != "" && ReadScalar(t).Pass?
    ensures Ends(t, ReadScalar(t).value.rest) && SpellsCore(Used(t, ReadScalar(t).value.rest), ReadScalar(t).value.value, depth, max)
  {
    hide ReadString, ReadBody, SpellsString, SpellsNat;
    if t[0] == '"' {
      StringSpells(t);
    } else if t[0] == '-' {
      BodySpells(t[1..], true);
      var rest := ReadScalar(t).value.rest;
      assert t[|t| - |rest|..] == t[1..][|t[1..]| - |rest|..] && Used(t, rest)[1..] == Used(t[1..], rest);
    } else if IsDigit(t[0]) {
      BodySpells(t, false);
    }
  }

  // ---- Objects are sorted -------------------------------------------------------------------------

  lemma InsertPairs(k: string, v: Value, ms: Members)
    ensures Pairs(Insert(k, v, ms)) == {(k, v)} + Pairs(ms) && Length(Insert(k, v, ms)) == 1 + Length(ms)
  {
  }

  lemma SortPairs(ms: Members)
    ensures Pairs(Sort(ms)) == Pairs(ms) && Length(Sort(ms)) == Length(ms)
  {
    match ms
    case NoMembers =>
    case Member(k, v, more) => SortPairs(more); InsertPairs(k, v, Sort(more));
  }

  // ---- Values ---------------------------------------------------------------------------------------

  lemma UsedJoins(t: string, u: string, rest: string)
    requires Ends(t, u) && Ends(u, rest)
    ensures Ends(t, rest) && Used(t, rest) == Used(t, u) + Used(u, rest)
  {
    assert t[|t| - |rest|..] == u[|u| - |rest|..];
  }

  lemma Dropped(t: string, n: nat)
    requires n <= |t|
    ensures Ends(t, t[n..]) && Used(t, t[n..]) == t[..n]
  {
  }

  lemma {:induction false} ValueSpells(t: string, depth: nat, max: nat)
    requires ReadValue(t, depth, max).Pass?
    ensures Ends(t, ReadValue(t, depth, max).value.rest)
    ensures SpellsValue(Used(t, ReadValue(t, depth, max).value.rest), ReadValue(t, depth, max).value.value, depth, max)
    decreases |t|, 2
  {
    hide Skip, Space, ReadItems, ReadMembers, ReadScalar, SpellsCore;
    var core := Skip(t);
    SkipIs(t);
    var Got(v, rest) := ReadValue(t, depth, max).value;
    CoreSpells(core, depth, max);
    UsedJoins(t, core, rest);
    var used := Used(t, rest);
    assert SpaceThen(used, Used(t, core), Used(core, rest), v, depth, max);
  }

  /** The reader after the leading space. */
  function ReadCore(t: string, depth: nat, max: nat): Checked<Got<Value>>
    requires t != ""
  {
    if t[0] == '{' then
      var u := Skip(t[1..]);
      if StartsWith(u, "}") then Pass(Got(Object(NoMembers), u[1..]))
      else
        match ReadMembers(u, depth, max)
        case Refuse(r) => Refuse(r)
        case Pass(Got(ms, rest)) => (match MakeObject(ms) case Refuse(r) => Refuse(r) case Pass(v) => Pass(Got(v, rest)))
    else if t[0] == '[' then
      var u := Skip(t[1..]);
      if StartsWith(u, "]") then Pass(Got(Array(NoItems), u[1..]))
      else
        match ReadItems(u, depth, max)
        case Refuse(r) => Refuse(r)
        case Pass(Got(items, rest)) => Pass(Got(Array(items), rest))
    else ReadScalar(t)
  }

  lemma BracketItems(ws: string, y: string, items: Items, depth: nat, max: nat)
    requires Space(ws) && if items.NoItems? then y == "" else SpellsItems(y, items, depth, max)
    ensures SpellsCore(['['] + (ws + y) + [']'], Array(items), depth, max)
  {
    hide SpellsItems, Space;
    var t := ['['] + (ws + y) + [']'];
    assert t[1..|t| - 1] == ws + y;
    if items.Item? { LeadItems(ws, y, items, depth, max); } else { assert ws + y == ws; }
  }

  lemma BracketMembers(ws: string, y: string, written: Members, ms: Members, depth: nat, max: nat)
    requires Space(ws) && Ascending(ms) && Pairs(written) == Pairs(ms) && Length(written) == Length(ms)
    requires if ms.NoMembers? then y == "" else SpellsMembers(y, written, depth, max)
    ensures SpellsCore(['{'] + (ws + y) + ['}'], Object(ms), depth, max)
  {
    hide SpellsMembers, Space, Ascending, Pairs, Length;
    var t := ['{'] + (ws + y) + ['}'];
    assert t[1..|t| - 1] == ws + y;
    if ms.Member? { LeadMembers(ws, y, written, depth, max); } else { assert ws + y == ws; }
  }

  lemma {:induction false} CoreSpells(t: string, depth: nat, max: nat)
    requires t != "" && ReadCore(t, depth, max).Pass?
    ensures Ends(t, ReadCore(t, depth, max).value.rest)
    ensures SpellsCore(Used(t, ReadCore(t, depth, max).value.rest), ReadCore(t, depth, max).value.value, depth, max)
    decreases |t|, 1
  {
    hide SpellsCore, ReadScalar, ReadItems, ReadMembers, MakeObject;
    if t[0] == '{' {
      ObjectSpells(t, depth, max);
    } else if t[0] == '[' {
      ArraySpells(t, depth, max);
    } else {
      ScalarSpells(t, depth, max);
    }
  }

  lemma {:induction false} ArraySpells(t: string, depth: nat, max: nat)
    requires t != "" && t[0] == '[' && ReadCore(t, depth, max).Pass?
    ensures Ends(t, ReadCore(t, depth, max).value.rest)
    ensures SpellsCore(Used(t, ReadCore(t, depth, max).value.rest), ReadCore(t, depth, max).value.value, depth, max)
    decreases |t|, 0
  {
    hide SpellsCore, Skip, Space, ReadItems, ReadMembers, ReadScalar, SpellsItems, Ends;
    var rest := ReadCore(t, depth, max).value.rest;
    var u := Skip(t[1..]);
    SkipIs(t[1..]);
    Dropped(t, 1);
    UsedJoins(t, t[1..], u);
    var ws, y, items := Used(t[1..], u), "", NoItems;
    assert t[..1] == ['['];
    if StartsWith(u, "]") {
      Dropped(u, 1);
      assert u[..1] == [']'];
    } else {
      ItemsSpell(u, depth, max);
      items := ReadItems(u, depth, max).value.value;
      y := Used(u, rest)[..|Used(u, rest)| - 1];
    }
    UsedJoins(t, u, rest);
    BracketItems(ws, y, items, depth, max);
    assert Used(u, rest) == y + [']'];
    assert Used(t, rest) == ['['] + (ws + y) + [']'];
  }

  lemma {:induction false} ObjectSpells(t: string, depth: nat, max: nat)
    requires t != "" && t[0] == '{' && ReadCore(t, depth, max).Pass?
    ensures Ends(t, ReadCore(t, depth, max).value.rest)
    ensures SpellsCore(Used(t, ReadCore(t, depth, max).value.rest), ReadCore(t, depth, max).value.value, depth, max)
    decreases |t|, 0
  {
    hide SpellsCore, Skip, Space, ReadItems, ReadMembers, ReadScalar, SpellsMembers, Ends, MakeObject, Pairs;
    var rest := ReadCore(t, depth, max).value.rest;
    var u := Skip(t[1..]);
    SkipIs(t[1..]);
    Dropped(t, 1);
    UsedJoins(t, t[1..], u);
    var ws, y, written, ms := Used(t[1..], u), "", NoMembers, NoMembers;
    assert t[..1] == ['{'];
    if StartsWith(u, "}") {
      Dropped(u, 1);
      assert u[..1] == ['}'];
    } else {
      MembersSpell(u, depth, max);
      written := ReadMembers(u, depth, max).value.value;
      ObjectPairs(written);
      ms := MakeObject(written).value.members;
      y := Used(u, rest)[..|Used(u, rest)| - 1];
    }
    UsedJoins(t, u, rest);
    BracketMembers(ws, y, written, ms, depth, max);
    assert Used(u, rest) == y + ['}'];
    assert Used(t, rest) == ['{'] + (ws + y) + ['}'];
  }

  lemma ObjectPairs(written: Members)
    requires MakeObject(written).Pass?
    ensures MakeObject(written).value.Object? && Ascending(MakeObject(written).value.members)
    ensures Pairs(written) == Pairs(MakeObject(written).value.members) && Length(written) == Length(MakeObject(written).value.members)
  {
    SortPairs(written);
  }

  /** Space in front of the first value belongs to it. */
  lemma LeadValue(ws: string, t: string, v: Value, depth: nat, max: nat)
    requires Space(ws) && SpellsValue(t, v, depth, max)
    ensures SpellsValue(ws + t, v, depth, max)
  {
    hide SpellsCore;
    var lead, core :| SpaceThen(t, lead, core, v, depth, max);
    assert ws + t == (ws + lead) + core;
    assert SpaceThen(ws + t, ws + lead, core, v, depth, max);
  }

  lemma LeadItems(ws: string, t: string, items: Items, depth: nat, max: nat)
    requires Space(ws) && SpellsItems(t, items, depth, max)
    ensures SpellsItems(ws + t, items, depth, max)
  {
    var a, gap, y :| ItemThen(t, a, gap, y, items, depth, max);
    hide SpellsValue, Space, SpellsItems;
    LeadValue(ws, a, items.head, depth + 1, max);
    assert ws + (a + gap) == (ws + a) + gap && ws + (a + gap + [','] + y) == (ws + a) + gap + [','] + y;
    JoinItems(ws + a, gap, y, items.head, items.tail, depth, max);
  }

  lemma LeadMember(ws: string, t: string, k: string, v: Value, depth: nat, max: nat)
    requires Space(ws) && SpellsMember(t, k, v, depth, max)
    ensures SpellsMember(ws + t, k, v, depth, max)
  {
    hide SpellsValue, SpellsString;
    var lead, key, gap, val :| KeyThen(t, lead, key, gap, val, k, v, depth, max);
    assert ws + t == (ws + lead) + (key + (gap + ([':'] + val)));
    assert KeyThen(ws + t, ws + lead, key, gap, val, k, v, depth, max);
  }

  lemma LeadMembers(ws: string, t: string, ms: Members, depth: nat, max: nat)
    requires Space(ws) && SpellsMembers(t, ms, depth, max)
    ensures SpellsMembers(ws + t, ms, depth, max)
  {
    var a, gap, y :| MemberThen(t, a, gap, y, ms, depth, max);
    hide SpellsMember, Space, SpellsMembers;
    LeadMember(ws, a, ms.key, ms.value, depth, max);
    assert ws + (a + gap) == (ws + a) + gap && ws + (a + gap + [','] + y) == (ws + a) + gap + [','] + y;
    JoinMembers(ws + a, gap, y, ms.key, ms.value, ms.more, depth, max);
  }

  /** A value and space, alone or with more values after a comma. */
  lemma JoinItems(a: string, ws: string, y: string, v: Value, vs: Items, depth: nat, max: nat)
    requires SpellsValue(a, v, depth + 1, max) && Space(ws) && (vs.Item? ==> SpellsItems(y, vs, depth, max))
    ensures SpellsItems(if vs.NoItems? then a + ws else a + ws + [','] + y, Item(v, vs), depth, max)
  {
    hide SpellsValue, Space;
    assert ItemThen(if vs.NoItems? then a + ws else a + ws + [','] + y, a, ws, y, Item(v, vs), depth, max);
  }

  lemma {:induction false} ItemsSpell(t: string, depth: nat, max: nat)
    requires ReadItems(t, depth, max).Pass?
    ensures
      var Got(items, rest) := ReadItems(t, depth, max).value;
      && Ends(t, rest) && |rest| < |t| && Used(t, rest)[|Used(t, rest)| - 1] == ']' && items.Item?
      && SpellsItems(Used(t, rest)[..|Used(t, rest)| - 1], items, depth, max)
    decreases |t|, 3
  {
    hide Skip, Space, ReadValue, SpellsValue, SpellsItems, Ends;
    var Got(items, rest) := ReadItems(t, depth, max).value;
    var Got(v, after) := ReadValue(t, depth + 1, max).value;
    ValueSpells(t, depth + 1, max);
    var u := Skip(after);
    SkipIs(after);
    UsedJoins(t, after, u);
    Dropped(u, 1);
    UsedJoins(t, u, u[1..]);
    var y := "";
    if StartsWith(u, ",") {
      ItemsSpell(u[1..], depth, max);
      UsedJoins(t, u[1..], rest);
      y := Used(u[1..], rest)[..|Used(u[1..], rest)| - 1];
    }
    JoinItems(Used(t, after), Used(after, u), y, v, items.tail, depth, max);
    assert u[..1] == [u[0]];
    assert Used(t, rest)[..|Used(t, rest)| - 1] ==
           if items.tail.NoItems? then Used(t, after) + Used(after, u) else Used(t, after) + Used(after, u) + [','] + y;
  }

  lemma {:induction false} MemberSpells(t: string, depth: nat, max: nat)
    requires ReadMember(t, depth, max).Pass?
    ensures
      var Got((k, v), rest) := ReadMember(t, depth, max).value;
      Ends(t, rest) && SpellsMember(Used(t, rest), k, v, depth, max)
    decreases |t|, 3
  {
    hide Skip, Space, ReadValue, SpellsValue, ReadString, SpellsString, Ends;
    var Got((k, v), rest) := ReadMember(t, depth, max).value;
    var key := Skip(t);
    SkipIs(t);
    StringSpells(key);
    var afterKey := ReadString(key).value.rest;
    var colon := Skip(afterKey);
    SkipIs(afterKey);
    Dropped(colon, 1);
    ValueSpells(colon[1..], depth + 1, max);
    JoinFour(t, key, afterKey, colon, rest);
    assert KeyThen(Used(t, rest), Used(t, key), Used(key, afterKey), Used(afterKey, colon), Used(colon[1..], rest), k, v, depth, max);
  }

  lemma JoinFour(t: string, key: string, afterKey: string, colon: string, rest: string)
    requires Ends(t, key) && Ends(key, afterKey) && Ends(afterKey, colon) && StartsWith(colon, ":") && Ends(colon[1..], rest)
    ensures Ends(t, rest)
    ensures Used(t, rest) == Used(t, key) + (Used(key, afterKey) + (Used(afterKey, colon) + ([':'] + Used(colon[1..], rest))))
  {
    Dropped(colon, 1);
    hide Ends, Used;
    UsedJoins(colon, colon[1..], rest);
    UsedJoins(afterKey, colon, rest);
    UsedJoins(key, afterKey, rest);
    UsedJoins(t, key, rest);
    assert colon[..1] == [':'];
  }

  /** A member and space, alone or with more members after a comma. */
  lemma JoinMembers(a: string, ws: string, y: string, k: string, v: Value, vs: Members, depth: nat, max: nat)
    requires SpellsMember(a, k, v, depth, max) && Space(ws) && (vs.Member? ==> SpellsMembers(y, vs, depth, max))
    ensures SpellsMembers(if vs.NoMembers? then a + ws else a + ws + [','] + y, Member(k, v, vs), depth, max)
  {
    hide SpellsMember, Space;
    assert MemberThen(if vs.NoMembers? then a + ws else a + ws + [','] + y, a, ws, y, Member(k, v, vs), depth, max);
  }

  lemma {:induction false} MembersSpell(t: string, depth: nat, max: nat)
    requires ReadMembers(t, depth, max).Pass?
    ensures
      var Got(ms, rest) := ReadMembers(t, depth, max).value;
      && Ends(t, rest) && |rest| < |t| && Used(t, rest)[|Used(t, rest)| - 1] == '}' && ms.Member?
      && SpellsMembers(Used(t, rest)[..|Used(t, rest)| - 1], ms, depth, max)
    decreases |t|, 4
  {
    hide Skip, Space, ReadMember, SpellsMember, SpellsMembers, Ends;
    var Got(ms, rest) := ReadMembers(t, depth, max).value;
    var Got((k, v), after) := ReadMember(t, depth, max).value;
    MemberSpells(t, depth, max);
    var u := Skip(after);
    SkipIs(after);
    UsedJoins(t, after, u);
    Dropped(u, 1);
    UsedJoins(t, u, u[1..]);
    var y := "";
    if StartsWith(u, ",") {
      MembersSpell(u[1..], depth, max);
      UsedJoins(t, u[1..], rest);
      y := Used(u[1..], rest)[..|Used(u[1..], rest)| - 1];
    }
    JoinMembers(Used(t, after), Used(after, u), y, k, v, ms.more, depth, max);
    assert u[..1] == [u[0]];
    assert Used(t, rest)[..|Used(t, rest)| - 1] ==
           if ms.more.NoMembers? then Used(t, after) + Used(after, u) else Used(t, after) + Used(after, u) + [','] + y;
  }

  // ---- What is spelled is read --------------------------------------------------------------------

  /** A text after which a value is known to have ended. */
  predicate Stops(rest: string) { rest == "" || Blank(rest[0]) || rest[0] == ',' || rest[0] == ']' || rest[0] == '}' }

  lemma {:induction false} SkipOver(ws: string, t: string)
    requires Space(ws)
    ensures Skip(ws + t) == Skip(t)
    decreases |ws|
  {
    if ws == "" {
      assert ws + t == t;
    } else {
      assert (ws + t)[0] == ws[0] && (ws + t)[1..] == ws[1..] + t;
      SkipOver(ws[1..], t);
    }
  }

  lemma SkipNothing(t: string)
    requires t != "" ==> !Blank(t[0])
    ensures Skip(t) == t
  {
  }

  lemma EscapeIsRead(e: string, c: char, t: string)
    requires |e| >= 2 && e[0] == '\\' && SpellsChar(e, c)
    ensures Unescape((e + t)[1..]) == Pass((c, |e| - 1))
  {
    var u := (e + t)[1..];
    assert u[0] == e[1];
    if |e| == 6 {
      assert u[1] == e[2] && u[2] == e[3] && u[3] == e[4] && u[4] == e[5];
      var a, b, d, f :| HexDigit(e[2], a) && HexDigit(e[3], b) && HexDigit(e[4], d) && HexDigit(e[5], f) &&
                        c as int == 4096 * a + 256 * b + 16 * d + f;
      HexIs(e[2], a);
      HexIs(e[3], b);
      HexIs(e[4], d);
      HexIs(e[5], f);
    }
  }

  lemma QuoteIsRead(rest: string)
    ensures ReadChars(['"'] + rest) == Pass(Got("", rest))
  {
    assert (['"'] + rest)[1..] == rest;
  }

  lemma {:induction false} CharsAreRead(t: string, s: string, rest: string)
    requires SpellsChars(t, s)
    ensures ReadChars(t + (['"'] + rest)) == Pass(Got(s, rest))
    decreases |s|
  {
    hide ReadChars, SpellsChar;
    var all := t + (['"'] + rest);
    if s == "" {
      assert all == ['"'] + rest;
      QuoteIsRead(rest);
    } else {
      var e, u :| CharThen(t, e, u, s);
      CharsAreRead(u, s[1..], rest);
      assert all == e + (u + (['"'] + rest));
      CharIsRead(e, s[0], u + (['"'] + rest));
      assert s == [s[0]] + s[1..];
    }
  }

  /** One spelled character in front. */
  lemma CharIsRead(e: string, c: char, t: string)
    requires SpellsChar(e, c) && e != ""
    ensures ReadChars(e + t) == Cons(c, ReadChars(t))
  {
    hide Unescape;
    var all := e + t;
    assert all[0] == e[0] && all[|e|..] == t;
    if e[0] == '\\' {
      EscapeLength(e, c);
      EscapeIsRead(e, c, t);
      assert all[1 + (|e| - 1)..] == t;
    }
  }

  lemma EscapeLength(e: string, c: char)
    requires SpellsChar(e, c) && e[0] == '\\'
    ensures |e| >= 2
  {
  }

  lemma StringIsRead(t: string, s: string, rest: string)
    requires SpellsString(t, s)
    ensures ReadString(t + rest) == Pass(Got(s, rest))
  {
    hide ReadChars, SpellsChars;
    var inner := t[1..|t| - 1];
    CharsAreRead(inner, s, rest);
    assert (t + rest)[1..] == inner + (['"'] + rest);
  }

  lemma {:induction false} DecimalGrows(t: string, i: nat)
    requires AllDigits(t) && i <= |t|
    ensures Decimal(t[..i]) <= Decimal(t)
    decreases |t|
  {
    if i < |t| {
      DecimalGrows(t[..|t| - 1], i);
      assert t[..|t| - 1][..i] == t[..i];
    } else {
      assert t[..i] == t;
    }
  }

  lemma {:induction false} RunOver(t: string, rest: string)
    requires AllDigits(t) && (rest != "" ==> !IsDigit(rest[0]))
    ensures Run(t + rest) == |t|
    decreases |t|
  {
    if t == "" {
      assert t + rest == rest;
    } else {
      assert (t + rest)[1..] == t[1..] + rest && (t + rest)[0] == t[0];
      RunOver(t[1..], rest);
    }
  }

  lemma BodyIsRead(t: string, n: nat, negative: bool, rest: string)
    requires SpellsNat(t, n) && n <= (if negative then -I64_MIN else U64_MAX) && Stops(rest)
    ensures ReadBody(t + rest, negative) == Pass(Got(if negative then Int(0 - n) else UInt(n), rest))
  {
    hide Run, Accumulate, Decimal;
    RunOver(t, rest);
    AccumulateIs(t, negative);
    var all := t + rest;
    assert all[..|t|] == t && all[|t|..] == rest;
    if rest != "" { assert all[|t|] == rest[0]; }
  }

  lemma LiteralIsRead(v: Value, depth: nat, max: nat, t: string, rest: string)
    requires (v.Null? || v.Bool?) && SpellsCore(t, v, depth, max)
    ensures ReadScalar(t + rest) == Pass(Got(v, rest))
  {
    assert (t + rest)[..|t|] == t && (t + rest)[|t|..] == rest && (t + rest)[0] == t[0];
  }

  lemma ScalarIsRead(t: string, v: Value, depth: nat, max: nat, rest: string)
    requires !v.Array? && !v.Object? && SpellsCore(t, v, depth, max) && Stops(rest)
    ensures t != "" && !Blank(t[0]) && t[0] != '[' && t[0] != '{' && t[0] != ']' && t[0] != '}' && ReadScalar(t + rest) == Pass(Got(v, rest))
  {
    hide ReadString, ReadBody, SpellsChars;
    var all := t + rest;
    match v
    case Null => LiteralIsRead(v, depth, max, t, rest);
    case Bool(_) => LiteralIsRead(v, depth, max, t, rest);
    case String(s) => StringIsRead(t, s, rest); assert all[0] == '"';
    case UInt(u) => BodyIsRead(t, u, false, rest); assert all[0] == t[0] && IsDigit(t[0]);
    case Int(i) =>
      BodyIsRead(t[1..], -i, true, rest);
      assert all[0] == '-' && all[1..] == t[1..] + rest;
  }

  lemma CoreStarts(t: string, v: Value, depth: nat, max: nat)
    requires SpellsCore(t, v, depth, max)
    ensures t != "" && !Blank(t[0]) && t[0] != ']' && t[0] != '}' && t[0] != ','
  {
    hide SpellsChars, SpellsItems, SpellsMembers;
    match v
    case UInt(u) => assert '0' <= t[0] <= '9';
    case _ =>
  }

  lemma ReadsCore(t: string, depth: nat, max: nat)
    ensures depth <= max && Skip(t) != "" ==> ReadValue(t, depth, max) == ReadCore(Skip(t), depth, max)
  {
    hide ReadItems, ReadMembers, ReadScalar, MakeObject, Skip;
  }

  lemma ReadsAfterSpace(ws: string, t: string, depth: nat, max: nat)
    requires Space(ws)
    ensures ReadValue(ws + t, depth, max) == ReadValue(t, depth, max)
  {
    hide ReadItems, ReadMembers, ReadScalar, MakeObject, Skip;
    SkipOver(ws, t);
  }

  lemma {:induction false} ValueIsRead(t: string, v: Value, depth: nat, max: nat, rest: string)
    requires SpellsValue(t, v, depth, max) && Stops(rest)
    ensures ReadValue(t + rest, depth, max) == Pass(Got(v, rest))
    decreases |t|, 1
  {
    hide ReadValue, SpellsCore, Skip, ReadCore, Stops;
    var ws, core :| SpaceThen(t, ws, core, v, depth, max);
    assert t + rest == ws + (core + rest);
    ReadsAfterSpace(ws, core + rest, depth, max);
    CoreStarts(core, v, depth, max);
    SkipNothing(core + rest);
    ReadsCore(core + rest, depth, max);
    CoreIsRead(core, v, depth, max, rest);
  }

  lemma {:induction false} CoreIsRead(t: string, v: Value, depth: nat, max: nat, rest: string)
    requires SpellsCore(t, v, depth, max) && Stops(rest)
    ensures t != "" && ReadCore(t + rest, depth, max) == Pass(Got(v, rest))
    decreases |t|, 0
  {
    hide ReadScalar, ReadItems, ReadMembers, MakeObject, Skip, SpellsItems, SpellsMembers, SpellsString, Space, Stops;
    if v.Array? {
      var inner := t[1..|t| - 1];
      assert (t + rest)[1..] == inner + ([']'] + rest);
      if v.items.NoItems? {
        EmptyIsRead(inner, ']', rest);
      } else {
        ItemsAreRead(inner, v.items, depth, max, rest);
        ItemsBegin(inner, v.items, depth, max, [']'] + rest);
        ItemsAfterSkip(inner + ([']'] + rest), depth, max);
      }
    } else if v.Object? {
      var inner := t[1..|t| - 1];
      assert (t + rest)[1..] == inner + (['}'] + rest);
      if v.members.NoMembers? {
        EmptyIsRead(inner, '}', rest);
      } else {
        var written :| Pairs(written) == Pairs(v.members) && Length(written) == Length(v.members) && SpellsMembers(inner, written, depth, max);
        MembersAreRead(inner, written, depth, max, rest);
        MembersBegin(inner, written, depth, max, ['}'] + rest);
        MembersAfterSkip(inner + (['}'] + rest), depth, max);
        SortIsUnique(written, v.members);
      }
    } else {
      ScalarIsRead(t, v, depth, max, rest);
      assert (t + rest)[0] == t[0];
    }
  }

  lemma EmptyIsRead(ws: string, bracket: char, rest: string)
    requires Space(ws) && !Blank(bracket)
    ensures Skip(ws + ([bracket] + rest)) == [bracket] + rest && StartsWith([bracket] + rest, [bracket]) && ([bracket] + rest)[1..] == rest
  {
    SkipOver(ws, [bracket] + rest);
    SkipNothing([bracket] + rest);
    assert ([bracket] + rest)[..1] == [bracket];
  }

  lemma SkipTwice(t: string)
    ensures Skip(Skip(t)) == Skip(t)
  {
    SkipIs(t);
    SkipNothing(Skip(t));
  }

  lemma ItemsAfterSkip(t: string, depth: nat, max: nat)
    ensures ReadItems(Skip(t), depth, max) == ReadItems(t, depth, max)
  {
    hide ReadValue, Skip;
    SkipTwice(t);
    ValueAfterSkip(t, depth + 1, max);
  }

  lemma ValueAfterSkip(t: string, depth: nat, max: nat)
    ensures ReadValue(Skip(t), depth, max) == ReadValue(t, depth, max)
  {
    hide ReadItems, ReadMembers, ReadScalar, MakeObject, Skip;
    SkipTwice(t);
  }

  lemma MembersAfterSkip(t: string, depth: nat, max: nat)
    ensures ReadMembers(Skip(t), depth, max) == ReadMembers(t, depth, max)
  {
    hide ReadValue, ReadString, Skip;
    SkipTwice(t);
    assert ReadMember(Skip(t), depth, max) == ReadMember(t, depth, max);
    hide ReadMember;
  }

  lemma Regroup(a: string, ws: string, y: string, end: string)
    ensures a + ws + end == a + (ws + end)
    ensures a + ws + [','] + y + end == a + (ws + ([','] + (y + end)))
  {
  }

  /** Values begin with something that is neither space nor a bracket that closes. */
  lemma ValueBegins(t: string, v: Value, depth: nat, max: nat, rest: string)
    requires SpellsValue(t, v, depth, max)
    ensures Skip(t + rest) != "" && Skip(t + rest)[0] != ']' && Skip(t + rest)[0] != '}'
  {
    hide SpellsCore, Skip;
    var ws, core :| SpaceThen(t, ws, core, v, depth, max);
    assert t + rest == ws + (core + rest);
    SkipOver(ws, core + rest);
    CoreStarts(core, v, depth, max);
    SkipNothing(core + rest);
  }

  lemma ItemsBegin(t: string, items: Items, depth: nat, max: nat, rest: string)
    requires SpellsItems(t, items, depth, max)
    ensures Skip(t + rest) != "" && Skip(t + rest)[0] != ']'
  {
    hide SpellsValue, Skip;
    var a, ws, y :| ItemThen(t, a, ws, y, items, depth, max);
    var later := if items.tail.NoItems? then ws + rest else ws + ([','] + (y + rest));
    Regroup(a, ws, y, rest);
    ValueBegins(a, items.head, depth + 1, max, later);
  }

  lemma MembersBegin(t: string, ms: Members, depth: nat, max: nat, rest: string)
    requires SpellsMembers(t, ms, depth, max)
    ensures Skip(t + rest) != "" && Skip(t + rest)[0] != '}'
  {
    hide SpellsMember, Skip;
    var a, ws, y :| MemberThen(t, a, ws, y, ms, depth, max);
    var later := if ms.more.NoMembers? then ws + rest else ws + ([','] + (y + rest));
    Regroup(a, ws, y, rest);
    MemberBegins(a, ms.key, ms.value, depth, max, later);
  }

  lemma StringStarts(t: string, s: string)
    requires SpellsString(t, s)
    ensures t != "" && t[0] == '"'
  {
    hide SpellsChars;
  }

  lemma MemberBegins(t: string, k: string, v: Value, depth: nat, max: nat, rest: string)
    requires SpellsMember(t, k, v, depth, max)
    ensures Skip(t + rest) != "" && Skip(t + rest)[0] == '"'
  {
    hide SpellsValue, SpellsString, Skip, Space;
    var lead, key, ws, val :| KeyThen(t, lead, key, ws, val, k, v, depth, max);
    StringStarts(key, k);
    var later := key + (ws + ([':'] + val)) + rest;
    assert t + rest == lead + later && later[0] == key[0];
    SkipOver(lead, later);
    SkipNothing(later);
  }

  /** What follows a value inside brackets stops it. */
  lemma StopsBefore(ws: string, mark: char, rest: string)
    requires Space(ws) && (mark == ',' || mark == ']' || mark == '}')
    ensures Stops(ws + ([mark] + rest)) && Skip(ws + ([mark] + rest)) == [mark] + rest
    ensures StartsWith([mark] + rest, [mark]) && ([mark] + rest)[1..] == rest
  {
    EmptyIsRead(ws, mark, rest);
    if ws != "" { assert (ws + ([mark] + rest))[0] == ws[0]; }
  }

  lemma ItemEnd(all: string, v: Value, after: string, rest: string, depth: nat, max: nat)
    requires ReadValue(all, depth + 1, max) == Pass(Got(v, after)) && Skip(after) == [']'] + rest
    ensures ReadItems(all, depth, max) == Pass(Got(Item(v, NoItems), rest))
  {
    hide ReadValue, Skip;
    assert ([']'] + rest)[..1] == [']'] && ([']'] + rest)[1..] == rest;
  }

  lemma ItemMore(all: string, v: Value, after: string, later: string, depth: nat, max: nat)
    requires ReadValue(all, depth + 1, max) == Pass(Got(v, after)) && Skip(after) == [','] + later
    ensures ReadItems(all, depth, max) ==
            match ReadItems(later, depth, max) case Refuse(r) => Refuse(r) case Pass(Got(vs, last)) => Pass(Got(Item(v, vs), last))
  {
    hide ReadValue, Skip;
    assert ([','] + later)[..1] == [','] && ([','] + later)[1..] == later;
  }

  lemma {:induction false} ItemsAreRead(t: string, items: Items, depth: nat, max: nat, rest: string)
    requires SpellsItems(t, items, depth, max)
    ensures ReadItems(t + ([']'] + rest), depth, max) == Pass(Got(items, rest))
    decreases |t|, 2
  {
    hide ReadValue, SpellsValue, Skip, Space, Stops, ReadItems;
    var a, ws, y :| ItemThen(t, a, ws, y, items, depth, max);
    hide SpellsItems, StartsWith;
    var all := t + ([']'] + rest);
    Regroup(a, ws, y, [']'] + rest);
    if items.tail.NoItems? {
      var after := ws + ([']'] + rest);
      StopsBefore(ws, ']', rest);
      ValueIsRead(a, items.head, depth + 1, max, after);
      ItemEnd(all, items.head, after, rest, depth, max);
    } else {
      var later := y + ([']'] + rest);
      var after := ws + ([','] + later);
      StopsBefore(ws, ',', later);
      ValueIsRead(a, items.head, depth + 1, max, after);
      ItemsAreRead(y, items.tail, depth, max, rest);
      ItemMore(all, items.head, after, later, depth, max);
    }
  }

  lemma {:induction false} MemberIsRead(t: string, k: string, v: Value, depth: nat, max: nat, rest: string)
    requires SpellsMember(t, k, v, depth, max) && Stops(rest)
    ensures ReadMember(t + rest, depth, max) == Pass(Got((k, v), rest))
    decreases |t|, 2
  {
    hide ReadValue, SpellsValue, Skip, Space, Stops, ReadString, SpellsChars;
    var lead, key, ws, val :| KeyThen(t, lead, key, ws, val, k, v, depth, max);
    var later := val + rest;
    var fromColon := ws + ([':'] + later);
    assert t + rest == lead + (key + fromColon);
    StringStarts(key, k);
    SkipOver(lead, key + fromColon);
    SkipNothing(key + fromColon);
    StringIsRead(key, k, fromColon);
    EmptyIsRead(ws, ':', later);
    ValueIsRead(val, v, depth + 1, max, rest);
  }

  lemma MemberEnd(all: string, k: string, v: Value, after: string, rest: string, depth: nat, max: nat)
    requires ReadMember(all, depth, max) == Pass(Got((k, v), after)) && Skip(after) == ['}'] + rest
    ensures ReadMembers(all, depth, max) == Pass(Got(Member(k, v, NoMembers), rest))
  {
    hide ReadMember, Skip;
    assert (['}'] + rest)[..1] == ['}'] && (['}'] + rest)[1..] == rest;
  }

  lemma MemberMore(all: string, k: string, v: Value, after: string, later: string, depth: nat, max: nat)
    requires ReadMember(all, depth, max) == Pass(Got((k, v), after)) && Skip(after) == [','] + later
    ensures ReadMembers(all, depth, max) ==
            match ReadMembers(later, depth, max) case Refuse(r) => Refuse(r) case Pass(Got(vs, last)) => Pass(Got(Member(k, v, vs), last))
  {
    hide ReadMember, Skip;
    assert ([','] + later)[..1] == [','] && ([','] + later)[1..] == later;
  }

  lemma {:induction false} MembersAreRead(t: string, ms: Members, depth: nat, max: nat, rest: string)
    requires SpellsMembers(t, ms, depth, max)
    ensures ReadMembers(t + (['}'] + rest), depth, max) == Pass(Got(ms, rest))
    decreases |t|, 3
  {
    hide ReadMember, SpellsMember, Skip, Space, Stops, ReadMembers;
    var a, ws, y :| MemberThen(t, a, ws, y, ms, depth, max);
    hide SpellsMembers, StartsWith;
    var all := t + (['}'] + rest);
    Regroup(a, ws, y, ['}'] + rest);
    if ms.more.NoMembers? {
      var after := ws + (['}'] + rest);
      StopsBefore(ws, '}', rest);
      MemberIsRead(a, ms.key, ms.value, depth, max, after);
      MemberEnd(all, ms.key, ms.value, after, rest, depth, max);
    } else {
      var later := y + (['}'] + rest);
      var after := ws + ([','] + later);
      StopsBefore(ws, ',', later);
      MemberIsRead(a, ms.key, ms.value, depth, max, after);
      MembersAreRead(y, ms.more, depth, max, rest);
      MemberMore(all, ms.key, ms.value, after, later, depth, max);
    }
  }

  /** A number that goes on with a fraction or an exponent is refused as unsupported. */
  lemma FractionIsUnsupported(digits: string, negative: bool, rest: string)
    requires digits != "" && AllDigits(digits) && rest != "" && (rest[0] == '.' || rest[0] == 'e' || rest[0] == 'E')
    ensures ReadBody(digits + rest, negative) == Refuse(UnsupportedValue)
  {
    hide Run, Accumulate, Decimal;
    RunOver(digits, rest);
    assert (digits + rest)[|digits|] == rest[0];
  }

  // ---- Sorting has one outcome -----------------------------------------------------------------------

  lemma {:induction false} LessIsTotal(a: string, b: string)
    ensures Less(a, b) || a == b || Less(b, a)
    ensures !(Less(a, b) && Less(b, a)) && !Less(a, a)
    decreases |a|
  {
    if a != "" && b != "" {
      LessIsTotal(a[1..], b[1..]);
      LessIsTotal(a[1..], a[1..]);
      assert a == [a[0]] + a[1..] && b == [b[0]] + b[1..];
    } else if a != "" {
      LessIsTotal(a[1..], a[1..]);
    }
  }

  lemma {:induction false} LessIsTransitive(a: string, b: string, c: string)
    requires Less(a, b) && Less(b, c)
    ensures Less(a, c)
    decreases |a|
  {
    if a != "" && a[0] == b[0] == c[0] { LessIsTransitive(a[1..], b[1..], c[1..]); }
  }

  /** No key is smaller than the one before it. */
  predicate Weakly(ms: Members) {
    ms.Member? && ms.more.Member? ==> !Less(ms.more.key, ms.key) && Weakly(ms.more)
  }

  lemma {:induction false} InsertIsWeakly(k: string, v: Value, ms: Members)
    requires Weakly(ms)
    ensures Weakly(Insert(k, v, ms))
  {
    hide Less;
    if ms.Member? && !Less(k, ms.key) {
      if ms.more.Member? { InsertIsWeakly(k, v, ms.more); }
    } else if ms.Member? {
      LessIsTotal(k, ms.key);
    }
  }

  lemma {:induction false} SortIsWeakly(ms: Members)
    ensures Weakly(Sort(ms))
  {
    if ms.Member? {
      SortIsWeakly(ms.more);
      InsertIsWeakly(ms.key, ms.value, Sort(ms.more));
    }
  }

  lemma {:induction false} FirstIsLeast(ms: Members)
    requires Weakly(ms) && ms.Member?
    ensures forall p :: p in Pairs(ms) ==> !Less(p.0, ms.key)
  {
    LessIsTotal(ms.key, ms.key);
    hide Less;
    if ms.more.Member? {
      FirstIsLeast(ms.more);
      forall p | p in Pairs(ms.more) ensures !Less(p.0, ms.key) {
        if Less(p.0, ms.key) {
          LessIsTotal(ms.key, ms.more.key);
          if Less(ms.key, ms.more.key) { LessIsTransitive(p.0, ms.key, ms.more.key); }
        }
      }
    }
  }

  lemma {:induction false} AscendingIsWeakly(ms: Members)
    requires Ascending(ms)
    ensures Weakly(ms) && |Pairs(ms)| == Length(ms)
    ensures ms.Member? ==> forall p :: p in Pairs(ms.more) ==> Less(ms.key, p.0)
  {
    hide Less;
    if ms.Member? {
      AscendingIsWeakly(ms.more);
      if ms.more.Member? {
        LessIsTotal(ms.key, ms.more.key);
        forall p | p in Pairs(ms.more) ensures Less(ms.key, p.0) {
          if p != (ms.more.key, ms.more.value) { LessIsTransitive(ms.key, ms.more.key, p.0); }
        }
      }
      LessIsTotal(ms.key, ms.key);
      assert (ms.key, ms.value) !in Pairs(ms.more);
    }
  }

  lemma {:induction false} FewPairs(ms: Members)
    ensures |Pairs(ms)| <= Length(ms)
  {
    if ms.Member? { FewPairs(ms.more); }
  }

  lemma AddOne<T>(x: T, s: set<T>)
    ensures |{x} + s| == if x in s then |s| else |s| + 1
  {
    if x in s { assert {x} + s == s; }
  }

  lemma FirstIsNew(ms: Members)
    requires ms.Member? && |Pairs(ms)| == Length(ms)
    ensures (ms.key, ms.value) !in Pairs(ms.more)
  {
    FewPairs(ms.more);
    AddOne((ms.key, ms.value), Pairs(ms.more));
  }

  /** A weakly sorted list with the members of a strictly sorted one is that list. */
  lemma {:induction false} SortedIsUnique(ns: Members, ms: Members)
    requires Weakly(ns) && Ascending(ms) && Pairs(ns) == Pairs(ms) && Length(ns) == Length(ms)
    ensures ns == ms
  {
    hide Less;
    AscendingIsWeakly(ms);
    if ms.Member? {
      FirstIsLeast(ns);
      FirstIsLeast(ms);
      var p, q := (ns.key, ns.value), (ms.key, ms.value);
      assert p in Pairs(ms) && q in Pairs(ns);
      LessIsTotal(p.0, q.0);
      assert p == q;
      AscendingIsWeakly(ms.more);
      FirstIsNew(ns);
      FirstIsNew(ms);
      assert Pairs(ns.more) == Pairs(ns) - {q} && Pairs(ms.more) == Pairs(ms) - {q};
      SortedIsUnique(ns.more, ms.more);
    }
  }

  lemma SortIsUnique(written: Members, ms: Members)
    requires Pairs(written) == Pairs(ms) && Length(written) == Length(ms) && Ascending(ms)
    ensures MakeObject(written) == Pass(Object(ms))
  {
    SortPairs(written);
    SortIsWeakly(written);
    SortedIsUnique(Sort(written), ms);
  }

  // ---- Documents ----------------------------------------------------------------------------------------

  /** A text is accepted as a value exactly when it spells that value. */
  lemma ParsedIff(t: string, v: Value, max: nat)
    ensures Parse(t, max) == Pass(v) <==> SpellsDocument(t, v, max)
  {
    hide ReadValue, SpellsValue, Skip;
    if Parse(t, max) == Pass(v) {
      var rest := ReadValue(t, 0, max).value.rest;
      ValueSpells(t, 0, max);
      SkipIs(rest);
      assert t[|t| - |rest|..] == rest && Used(rest, "") == rest;
    }
    if SpellsDocument(t, v, max) {
      var n :| 0 <= n <= |t| && SpellsValue(t[..n], v, 0, max) && Space(t[n..]);
      ValueIsRead(t[..n], v, 0, max, t[n..]);
      assert t == t[..n] + t[n..] && t[n..] + "" == t[n..];
      SkipOver(t[n..], "");
      SkipNothing("");
    }
  }
}
