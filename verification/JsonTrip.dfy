/** Printing and reading JSON are inverse (src/canonical.cpp). */
module JsonTrip {
  import opened Bytes
  import opened Units
  import opened Json

  // ---- Values -------------------------------------------------------------------------------------

  /** Strings are byte strings. */
  predicate ByteString(s: string) { forall i :: 0 <= i < |s| ==> s[i] as int < 256 }

  predicate Ascii(s: string) { forall i :: 0 <= i < |s| ==> s[i] as int <= 0x7F }

  /** What the constructors of `JsonValue` guarantee: 64-bit numbers, byte strings, sorted keys. */
  predicate Made(v: Value) {
    match v
    case Null => true
    case Bool(_) => true
    case Int(i) => I64_MIN <= i <= I64_MAX
    case UInt(u) => u <= U64_MAX
    case String(s) => ByteString(s)
    case Array(items) => MadeItems(items)
    case Object(ms) => Ascending(ms) && MadeMembers(ms)
  }

  predicate MadeItems(items: Items) { items.Item? ==> Made(items.head) && MadeItems(items.tail) }

  predicate MadeMembers(ms: Members) { ms.Member? ==> ByteString(ms.key) && Made(ms.value) && MadeMembers(ms.more) }

  /** ASCII strings and keys throughout, and no value nested deeper than `max`. */
  predicate Readable(v: Value, depth: nat, max: nat) {
    && depth <= max
    && match v
       case String(s) => Ascii(s)
       case Array(items) => ReadableItems(items, depth + 1, max)
       case Object(ms) => ReadableMembers(ms, depth + 1, max)
       case _ => true
  }

  predicate ReadableItems(items: Items, depth: nat, max: nat) {
    items.Item? ==> Readable(items.head, depth, max) && ReadableItems(items.tail, depth, max)
  }

  predicate ReadableMembers(ms: Members, depth: nat, max: nat) {
    ms.Member? ==> Ascii(ms.key) && Readable(ms.value, depth, max) && ReadableMembers(ms.more, depth, max)
  }

  /** A non-negative signed number is read back as unsigned. */
  function Norm(v: Value): Value {
    match v
    case Int(i) => if i < 0 then v else UInt(i)
    case Array(items) => Array(NormItems(items))
    case Object(ms) => Object(NormMembers(ms))
    case _ => v
  }

  function NormItems(items: Items): Items {
    match items
    case NoItems => NoItems
    case Item(v, rest) => Item(Norm(v), NormItems(rest))
  }

  function NormMembers(ms: Members): Members {
    match ms
    case NoMembers => NoMembers
    case Member(k, v, rest) => Member(k, Norm(v), NormMembers(rest))
  }

  /** What may follow a value inside a document. */
  predicate Delimited(rest: string) { rest == "" || rest[0] in ",]}" }

  // ---- Strings ------------------------------------------------------------------------------------

  lemma HexBack(n: nat)
    requires n < 16
    ensures HexValue(Hex(n)) == Some(n)
  {
  }

  lemma PlainBack(c: char, t: string)
    requires 0x20 <= c as int < 0x7F && c != '"' && c != '\\'
    ensures ReadChars([c] + t) == Cons(c, ReadChars(t))
  {
    assert ([c] + t)[1..] == t;
  }

  lemma ShortBack(c: char, e: char, t: string)
    requires Unescape([e] + t) == Pass((c, 1))
    ensures ReadChars("\\" + [e] + t) == Cons(c, ReadChars(t))
  {
    var u := "\\" + [e] + t;
    assert u[1..] == [e] + t && u[2..] == t;
  }

  lemma UnicodeBack(c: char, t: string)
    requires c as int < 256
    ensures ReadChars("\\u00" + [Hex(c as int / 16 % 16), Hex(c as int % 16)] + t) ==
      if c as int <= 0x7F then Cons(c, ReadChars(t)) else Refuse(UnsupportedValue)
  {
    var a, b := Hex(c as int / 16 % 16), Hex(c as int % 16);
    HexBack(c as int / 16 % 16);
    HexBack(c as int % 16);
    var u := "\\u00" + [a, b] + t;
    var e := u[1..];
    assert e[0] == 'u' && e[1] == '0' && e[2] == '0' && e[3] == a && e[4] == b && |e| >= 5;
    assert u[1 + 5..] == t;
    hide Hex, ReadChars;
    assert Unescape(e) == if c as int <= 0x7F then Pass((c, 5)) else Refuse(UnsupportedValue);
  }

  /** Every escape is undone by the reader; a byte above 0x7F is escaped but then refused. */
  lemma CharBack(c: char, t: string)
    requires c as int < 256
    ensures ReadChars(EscapeChar(c) + t) == if c as int <= 0x7F then Cons(c, ReadChars(t)) else Refuse(UnsupportedValue)
  {
    hide ReadChars, Hex;
    if c in "\"\\\n\r\t" || c as int in {8, 12} {
      var e := if c == '"' then '"' else if c == '\\' then '\\' else if c == '\n' then 'n' else if c == '\r' then 'r'
               else if c == '\t' then 't' else if c as int == 8 then 'b' else 'f';
      assert EscapeChar(c) == "\\" + [e];
      ShortBack(c, e, t);
    } else if c as int < 0x20 || c as int >= 0x7F {
      UnicodeBack(c, t);
    } else {
      PlainBack(c, t);
    }
  }

  lemma {:induction false} CharsBack(s: string, rest: string)
    requires ByteString(s)
    ensures ReadChars(Escape(s) + ("\"" + rest)) == if Ascii(s) then Pass(Got(s, rest)) else Refuse(UnsupportedValue)
  {
    if s == "" {
      assert Escape(s) + ("\"" + rest) == "\"" + rest;
      assert ("\"" + rest)[1..] == rest;
    } else {
      var later := Escape(s[1..]) + ("\"" + rest);
      assert Escape(s) + ("\"" + rest) == EscapeChar(s[0]) + later;
      hide ReadChars, EscapeChar, Ascii;
      CharBack(s[0], later);
      CharsBack(s[1..], rest);
      assert s == [s[0]] + s[1..];
      AsciiSplits(s);
    }
  }

  lemma AsciiSplits(s: string)
    requires s != ""
    ensures Ascii(s) <==> s[0] as int <= 0x7F && Ascii(s[1..])
  {
    if s[0] as int <= 0x7F && Ascii(s[1..]) {
      forall i | 0 <= i < |s| ensures s[i] as int <= 0x7F { if i > 0 { assert s[i] == s[1..][i - 1]; } }
    }
  }

  lemma StringBack(s: string, rest: string)
    requires ByteString(s)
    ensures ReadString(Quote(s) + rest) == if Ascii(s) then Pass(Got(s, rest)) else Refuse(UnsupportedValue)
  {
    hide ReadChars, Escape, Ascii;
    CharsBack(s, rest);
    assert Quote(s) + rest == "\"" + (Escape(s) + ("\"" + rest));
    assert ("\"" + (Escape(s) + ("\"" + rest)))[1..] == Escape(s) + ("\"" + rest);
  }

  /** Section 7 of RFC 8259: inside the quotes there is no control character, no bare quote and
      nothing outside printable ASCII. */
  lemma {:induction false} EscapedIsPrintable(s: string, i: nat)
    requires ByteString(s) && i < |Escape(s)|
    ensures 0x20 <= Escape(s)[i] as int < 0x7F
    ensures Escape(s)[i] == '"' ==> i > 0 && Escape(s)[i - 1] == '\\'
  {
    EscapeIsPrintable(s[0]);
    hide EscapeChar;
    if i >= |EscapeChar(s[0])| { EscapedIsPrintable(s[1..], i - |EscapeChar(s[0])|); }
  }

  lemma EscapeIsPrintable(c: char)
    requires c as int < 256
    ensures forall j :: 0 <= j < |EscapeChar(c)| ==> 0x20 <= EscapeChar(c)[j] as int < 0x7F
    ensures forall j :: 0 <= j < |EscapeChar(c)| && EscapeChar(c)[j] == '"' ==> j > 0 && EscapeChar(c)[j - 1] == '\\'
  {
  }

  // ---- Numbers ------------------------------------------------------------------------------------

  lemma {:induction false} DigitsAreDigits(n: nat, i: nat)
    requires i < |Digits(n)|
    ensures IsDigit(Digits(n)[i])
  {
    if n >= 10 && i < |Digits(n)| - 1 { DigitsAreDigits(n / 10, i); }
  }

  lemma {:induction false} RunOf(d: string, rest: string)
    requires forall i :: 0 <= i < |d| ==> IsDigit(d[i])
    requires rest == "" || !IsDigit(rest[0])
    ensures Run(d + rest) == |d|
  {
    if d != "" {
      assert (d + rest)[1..] == d[1..] + rest;
      RunOf(d[1..], rest);
    } else {
      assert d + rest == rest;
    }
  }

  lemma {:induction false} AccumulateBack(n: nat, negative: bool)
    requires n <= if negative then -I64_MIN else U64_MAX
    ensures forall i :: 0 <= i < |Digits(n)| ==> IsDigit(Digits(n)[i])
    ensures Accumulate(Digits(n), negative) == Some(if negative then 0 - n else n)
  {
    hide Digit, IsDigit;
    forall i | 0 <= i < |Digits(n)| ensures IsDigit(Digits(n)[i]) { DigitsAreDigits(n, i); }
    var d := Digits(n);
    if n >= 10 {
      AccumulateBack(n / 10, negative);
      assert d[..|d| - 1] == Digits(n / 10) && d[|d| - 1] == Digit(n % 10);
    } else {
      assert d[..|d| - 1] == "" && d[|d| - 1] == Digit(n % 10);
    }
    DigitValue(n % 10);
    hide Digits;
  }

  lemma DigitValue(n: nat)
    requires n < 10
    ensures Digit(n) as int - '0' as int == n
  {
  }

  lemma DigitsBack(n: nat, negative: bool, rest: string)
    requires (n <= if negative then -I64_MIN else U64_MAX) && Delimited(rest)
    ensures ReadBody(Digits(n) + rest, negative) == Pass(Got(if negative then Int(0 - n) else UInt(n), rest))
    ensures IsDigit(Digits(n)[0])
  {
    AccumulateBack(n, negative);
    RunOf(Digits(n), rest);
    hide Digits, Accumulate, Run;
    var d := Digits(n);
    assert (d + rest)[..|d|] == d && (d + rest)[|d|..] == rest;
  }

  lemma NumberBack(n: nat, rest: string)
    requires n <= U64_MAX && Delimited(rest)
    ensures ReadNumber(Digits(n) + rest) == Pass(Got(UInt(n), rest)) && IsDigit(Digits(n)[0])
  {
    hide Digits, ReadBody;
    DigitsBack(n, false, rest);
  }

  lemma NegativeBack(n: nat, rest: string)
    requires n <= -I64_MIN && Delimited(rest)
    ensures ReadNumber("-" + Digits(n) + rest) == Pass(Got(Int(0 - n), rest))
  {
    hide Digits, ReadBody;
    assert ("-" + Digits(n) + rest)[1..] == Digits(n) + rest;
    DigitsBack(n, true, rest);
  }

  // ---- Objects ------------------------------------------------------------------------------------

  lemma SortedStays(ms: Members)
    requires Ascending(ms)
    ensures Sort(ms) == ms
  {
    hide Less;
  }

  lemma NormKeepsOrder(ms: Members)
    requires Ascending(ms)
    ensures Ascending(NormMembers(ms)) && MakeObject(NormMembers(ms)) == Pass(Object(NormMembers(ms)))
  {
    hide Less;
    NormAscends(ms);
    SortedStays(NormMembers(ms));
  }

  lemma {:induction false} NormAscends(ms: Members)
    requires Ascending(ms)
    ensures Ascending(NormMembers(ms))
  {
    hide Less;
    match ms
    case NoMembers =>
    case Member(k, v, NoMembers) => assert NormMembers(ms).more == NoMembers;
    case Member(k, v, Member(k', v', rest)) =>
      NormAscends(ms.more);
      assert NormMembers(ms).more == NormMembers(ms.more) && NormMembers(ms.more).key == k';
  }

  // ---- Documents ----------------------------------------------------------------------------------

  /** How a value starts: never with whitespace and never with a closing bracket. */
  lemma FirstChar(v: Value)
    ensures Print(v) != "" && Print(v)[0] !in " \t\n\r,]}"
  {
    if v.UInt? || (v.Int? && v.i >= 0) {
      DigitsAreDigits(if v.UInt? then v.u else v.i, 0);
    }
  }

  predicate ReadsAs(r: Checked<Got<Value>>, v: Value, rest: string, readable: bool) {
    if readable then r == Pass(Got(Norm(v), rest)) else r.Refuse?
  }

  lemma LiteralBack(w: string, v: Value, rest: string)
    requires (w == "null" && v == Null) || (w == "true" && v == Bool(true)) || (w == "false" && v == Bool(false))
    ensures ReadScalar(w + rest) == Pass(Got(v, rest))
  {
    hide ReadString, ReadNumber;
    var t := w + rest;
    assert t[..|w|] == w && t[|w|..] == rest && t[0] == w[0];
    assert |w| <= 4 || t[..4] == w[..4];
  }

  lemma ScalarBack(v: Value, rest: string)
    requires Made(v) && Delimited(rest) && !v.Array? && !v.Object?
    ensures ReadsAs(ReadScalar(Print(v) + rest), v, rest, v.String? ==> Ascii(v.s))
  {
    hide ReadString, ReadNumber, Digits, Ascii, Quote;
    match v
    case Null => LiteralBack("null", v, rest);
    case Bool(b) => LiteralBack(if b then "true" else "false", v, rest);
    case Int(i) => if i < 0 { NegativeBack(0 - i, rest); } else { NumberBack(i, rest); assert (Digits(i) + rest)[0] == Digits(i)[0]; }
    case UInt(u) => NumberBack(u, rest); assert (Digits(u) + rest)[0] == Digits(u)[0];
    case String(s) => StringBack(s, rest); QuoteStarts(s, rest);
  }

  lemma QuoteStarts(s: string, rest: string)
    ensures Quote(s) != "" && Quote(s)[0] == '"' && (Quote(s) + rest)[0] == '"'
  {
  }

  /** Reading what was printed gives the value back, with the rest of the text, exactly when every
      string is ASCII and nothing is nested too deep; otherwise it is refused. */
  lemma {:induction false} ValueBack(v: Value, rest: string, depth: nat, max: nat)
    requires Made(v) && Delimited(rest)
    ensures ReadsAs(ReadValue(Print(v) + rest, depth, max), v, rest, Readable(v, depth, max))
    decreases v, 0
  {
    FirstChar(v);
    var t := Print(v) + rest;
    assert Skip(t) == t;
    if depth <= max {
      match v
      case Array(items) => ArrayBack(items, rest, depth, max);
      case Object(ms) => ObjectBack(ms, rest, depth, max);
      case _ => ScalarBack(v, rest); NotBracket(v);
    }
  }

  lemma NotBracket(v: Value)
    requires !v.Array? && !v.Object?
    ensures Print(v) != "" && Print(v)[0] != '[' && Print(v)[0] != '{'
  {
    if v.UInt? || (v.Int? && v.i >= 0) { DigitsAreDigits(if v.UInt? then v.u else v.i, 0); }
  }

  lemma {:induction false} ArrayBack(items: Items, rest: string, depth: nat, max: nat)
    requires MadeItems(items) && depth <= max
    ensures ReadsAs(ReadValue(Print(Array(items)) + rest, depth, max), Array(items), rest, ReadableItems(items, depth + 1, max))
    decreases items, 2
  {
    var t := Print(Array(items)) + rest;
    var u := PrintItems(items) + ("]" + rest);
    assert t == "[" + u && t[1..] == u;
    if items.NoItems? {
      assert u == "]" + rest && u[1..] == rest;
    } else {
      ItemsStart(items);
      assert Skip(u) == u && !StartsWith(u, "]");
      ItemsBack(items, rest, depth, max);
    }
  }

  lemma ItemsStart(items: Items)
    requires items.Item?
    ensures PrintItems(items) != "" && PrintItems(items)[0] !in " \t\n\r,]}"
  {
    FirstChar(items.head);
  }

  lemma {:induction false} ItemsBack(items: Items, rest: string, depth: nat, max: nat)
    requires MadeItems(items) && items.Item?
    ensures var r := ReadItems(PrintItems(items) + ("]" + rest), depth, max);
      if ReadableItems(items, depth + 1, max) then r == Pass(Got(NormItems(items), rest)) else r.Refuse?
    decreases items, 1
  {
    hide ReadValue, Print, Readable, Made, Norm;
    var v := items.head;
    if items.tail.NoItems? {
      var after := "]" + rest;
      assert PrintItems(items) == Print(v) && ReadableItems(items.tail, depth + 1, max);
      ValueBack(v, after, depth + 1, max);
      assert Skip(after) == after && after[1..] == rest;
    } else {
      var later := PrintItems(items.tail) + ("]" + rest);
      var after := "," + later;
      assert PrintItems(items) + ("]" + rest) == Print(v) + after;
      ValueBack(v, after, depth + 1, max);
      assert Skip(after) == after && after[1..] == later;
      ItemsBack(items.tail, rest, depth, max);
    }
  }

  lemma {:induction false} ObjectBack(ms: Members, rest: string, depth: nat, max: nat)
    requires Ascending(ms) && MadeMembers(ms) && depth <= max
    ensures ReadsAs(ReadValue(Print(Object(ms)) + rest, depth, max), Object(ms), rest, ReadableMembers(ms, depth + 1, max))
    decreases ms, 2
  {
    var t := Print(Object(ms)) + rest;
    var u := PrintMembers(ms) + ("}" + rest);
    if ms.Member? { MembersStart(ms); }
    assert t == "{" + u by { assert Print(Object(ms)) == "{" + (PrintMembers(ms) + "}"); }
    assert t[1..] == u;
    hide PrintMembers, ReadMembers, ReadItems, ReadScalar, MakeObject, ReadableMembers, NormMembers, MadeMembers, Ascending;
    if ms.NoMembers? {
      NoMembersFacts(depth + 1, max);
      assert u == "}" + rest && u[1..] == rest;
    } else {
      assert Skip(u) == u && !StartsWith(u, "}");
      MembersBack(ms, rest, depth, max);
      NormKeepsOrder(ms);
    }
  }

  lemma NoMembersFacts(depth: nat, max: nat)
    ensures PrintMembers(NoMembers) == "" && ReadableMembers(NoMembers, depth, max) && NormMembers(NoMembers) == NoMembers
  {
  }

  lemma MembersStart(ms: Members)
    requires ms.Member?
    ensures PrintMembers(ms) != "" && PrintMembers(ms)[0] == '"'
  {
  }

  lemma {:induction false} MemberBack(k: string, v: Value, after: string, depth: nat, max: nat)
    requires ByteString(k) && Made(v) && Delimited(after)
    ensures var r := ReadMember(Quote(k) + (":" + (Print(v) + after)), depth, max);
      if Ascii(k) && Readable(v, depth + 1, max) then r == Pass(Got((k, Norm(v)), after)) else r.Refuse?
    decreases v, 1
  {
    var body := Print(v) + after;
    var t := Quote(k) + (":" + body);
    QuoteStarts(k, ":" + body);
    StringBack(k, ":" + body);
    ValueBack(v, after, depth + 1, max);
    hide Quote, ReadString, ReadValue, Ascii, Print, Readable, Made, ByteString;
    assert Skip(t) == t;
    assert Skip(":" + body) == ":" + body && (":" + body)[1..] == body;
  }

  lemma {:induction false} MembersBack(ms: Members, rest: string, depth: nat, max: nat)
    requires MadeMembers(ms) && ms.Member?
    ensures var r := ReadMembers(PrintMembers(ms) + ("}" + rest), depth, max);
      if ReadableMembers(ms, depth + 1, max) then r == Pass(Got(NormMembers(ms), rest)) else r.Refuse?
    decreases ms, 1
  {
    hide ReadMember, Quote, Print, Ascii, Readable, Made, ByteString;
    var later := PrintMembers(ms.more) + ("}" + rest);
    if ms.more.NoMembers? {
      var after := "}" + rest;
      assert PrintMembers(ms) + ("}" + rest) == Quote(ms.key) + (":" + (Print(ms.value) + after));
      MemberBack(ms.key, ms.value, after, depth, max);
      assert Skip(after) == after && after[1..] == rest && ReadableMembers(ms.more, depth + 1, max);
    } else {
      var after := "," + later;
      assert PrintMembers(ms) + ("}" + rest) == Quote(ms.key) + (":" + (Print(ms.value) + after));
      MemberBack(ms.key, ms.value, after, depth, max);
      assert Skip(after) == after && after[1..] == later;
      MembersBack(ms.more, rest, depth, max);
    }
  }

  // ---- Theorems -----------------------------------------------------------------------------------

  /** The text a value prints to parses if and only if the value is readable, and then as the same
      value with non-negative signed numbers read as unsigned. */
  lemma ParseOfPrintIff(v: Value, max: nat)
    requires Made(v)
    ensures Parse(Print(v), max).Pass? <==> Readable(v, 0, max)
    ensures Readable(v, 0, max) ==> Parse(Print(v), max) == Pass(Norm(v))
  {
    hide ReadValue, Print, Made, Readable, Norm;
    assert Print(v) + "" == Print(v);
    ValueBack(v, "", 0, max);
  }

  /** Printing what was read back gives the same bytes. */
  lemma {:induction false} NormPrints(v: Value)
    ensures Print(Norm(v)) == Print(v)
    decreases v, 0
  {
    hide Quote, Digits;
    match v
    case Array(items) => NormItemsPrint(items);
    case Object(ms) => NormMembersPrint(ms);
    case _ =>
  }

  lemma {:induction false} NormItemsPrint(items: Items)
    ensures PrintItems(NormItems(items)) == PrintItems(items)
    decreases items, 1
  {
    if items.Item? {
      NormPrints(items.head);
      NormItemsPrint(items.tail);
    }
  }

  lemma {:induction false} NormMembersPrint(ms: Members)
    ensures PrintMembers(NormMembers(ms)) == PrintMembers(ms)
    decreases ms, 1
  {
    hide Quote;
    if ms.Member? {
      NormPrints(ms.value);
      NormMembersPrint(ms.more);
    }
  }
}
