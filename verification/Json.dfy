/** The canonical JSON printer and the strict reader of src/canonical.cpp. */
module Json {
  import opened Bytes
  import opened Units

  datatype Value = Null | Bool(b: bool) | Int(i: int) | UInt(u: nat) | String(s: string) | Array(items: Items) | Object(members: Members)
  datatype Items = NoItems | Item(head: Value, tail: Items)
  datatype Members = NoMembers | Member(key: string, value: Value, more: Members)

  const I64_MIN: int := -0x8000_0000_0000_0000
  const I64_MAX: int := 0x7FFF_FFFF_FFFF_FFFF

  // ---- Printing ---------------------------------------------------------------------------------

  function Hex(n: nat): char
    requires n < 16
  {
    "0123456789abcdef"[n]
  }

  /** One character of `append_escaped`. */
  function EscapeChar(c: char): string {
    if c == '"' then "\\\""
    else if c == '\\' then "\\\\"
    else if c == '\n' then "\\n"
    else if c == '\r' then "\\r"
    else if c == '\t' then "\\t"
    else if c as int == 8 then "\\b"
    else if c as int == 12 then "\\f"
    else if c as int < 0x20 || c as int >= 0x7F then "\\u00" + [Hex(c as int / 16 % 16), Hex(c as int % 16)]
    else [c]
  }

  function Escape(s: string): string {
    if s == "" then "" else EscapeChar(s[0]) + Escape(s[1..])
  }

  function Quote(s: string): string { "\"" + (Escape(s) + "\"") }

  function Digit(n: nat): char
    requires n < 10
  {
    "0123456789"[n]
  }

  function Digits(n: nat): (s: string)
    ensures |s| > 0
  {
    if n < 10 then [Digit(n)] else Digits(n / 10) + [Digit(n % 10)]
  }

  /** The document `dump_into` appends. */
  function Print(v: Value): string {
    match v
    case Null => "null"
    case Bool(b) => if b then "true" else "false"
    case Int(i) => if i < 0 then "-" + Digits(-i) else Digits(i)
    case UInt(u) => Digits(u)
    case String(s) => Quote(s)
    case Array(items) => "[" + (PrintItems(items) + "]")
    case Object(members) => "{" + (PrintMembers(members) + "}")
  }

  function PrintItems(items: Items): string {
    match items
    case NoItems => ""
    case Item(v, NoItems) => Print(v)
    case Item(v, rest) => Print(v) + ("," + PrintItems(rest))
  }

  function PrintMembers(members: Members): string {
    match members
    case NoMembers => ""
    case Member(k, v, NoMembers) => Quote(k) + (":" + Print(v))
    case Member(k, v, rest) => Quote(k) + (":" + (Print(v) + ("," + PrintMembers(rest))))
  }

  // ---- Reading ------------------------------------------------------------------------------------

  datatype Got<+T> = Got(value: T, rest: string)

  function Skip(t: string): (r: string)
    ensures |r| <= |t|
  {
    if t != "" && t[0] in " \t\n\r" then Skip(t[1..]) else t
  }

  function HexValue(c: char): Option<nat> {
    if '0' <= c <= '9' then Some(c as int - '0' as int)
    else if 'a' <= c <= 'f' then Some(c as int - 'a' as int + 10)
    else if 'A' <= c <= 'F' then Some(c as int - 'A' as int + 10)
    else None
  }

  /** The value of a backslash escape and the number of characters after the backslash. */
  function Unescape(t: string): (r: Checked<(char, nat)>)
    ensures r.Pass? ==> 0 < r.value.1 <= |t|
  {
    if t == "" then Refuse(TruncatedInput)
    else
      match t[0]
      case '"' => Pass(('"', 1))
      case '\\' => Pass(('\\', 1))
      case '/' => Pass(('/', 1))
      case 'b' => Pass((8 as char, 1))
      case 'f' => Pass((12 as char, 1))
      case 'n' => Pass(('\n', 1))
      case 'r' => Pass(('\r', 1))
      case 't' => Pass(('\t', 1))
      case 'u' =>
        if |t| < 5 then Refuse(TruncatedInput)
        else
          var h := [HexValue(t[1]), HexValue(t[2]), HexValue(t[3]), HexValue(t[4])];
          if h[0].None? || h[1].None? || h[2].None? || h[3].None? then Refuse(MalformedInput)
          else
            var n := 4096 * h[0].value + 256 * h[1].value + 16 * h[2].value + h[3].value;
            if n > 0x7F then Refuse(UnsupportedValue) else Pass((n as char, 5))
      case _ => Refuse(MalformedInput)
  }

  /** `parse_raw_string` after its opening quote. */
  function ReadChars(t: string): (r: Checked<Got<string>>)
    ensures r.Pass? ==> |r.value.rest| < |t|
    decreases |t|
  {
    if t == "" then Refuse(TruncatedInput)
    else if t[0] == '"' then Pass(Got("", t[1..]))
    else if t[0] == '\\' then
      match Unescape(t[1..])
      case Refuse(r) => Refuse(r)
      case Pass((c, n)) => Cons(c, ReadChars(t[1 + n..]))
    else if t[0] as int < 0x20 then Refuse(MalformedInput)
    else if t[0] as int >= 0x7F then Refuse(UnsupportedValue)
    else Cons(t[0], ReadChars(t[1..]))
  }

  function Cons(c: char, later: Checked<Got<string>>): Checked<Got<string>> {
    match later
    case Refuse(r) => Refuse(r)
    case Pass(Got(s, rest)) => Pass(Got([c] + s, rest))
  }

  function ReadString(t: string): (r: Checked<Got<string>>)
    ensures r.Pass? ==> |r.value.rest| < |t|
  {
    if t == "" || t[0] != '"' then Refuse(MalformedInput) else ReadChars(t[1..])
  }

  predicate IsDigit(c: char) { '0' <= c <= '9' }

  /** The length of the digits at the front. */
  function Run(t: string): (n: nat)
    ensures n <= |t|
  {
    if t != "" && IsDigit(t[0]) then 1 + Run(t[1..]) else 0
  }

  /** Accumulate towards `sign` with the 64-bit overflow checks of each step. */
  function Accumulate(digits: string, negative: bool): Option<int>
    requires forall i :: 0 <= i < |digits| ==> IsDigit(digits[i])
  {
    if digits == "" then Some(0)
    else
      match Accumulate(digits[..|digits| - 1], negative)
      case None => None
      case Some(v) =>
        var d := digits[|digits| - 1] as int - '0' as int;
        if negative then (if v * 10 - d >= I64_MIN then Some(v * 10 - d) else None)
        else if v * 10 + d <= U64_MAX then Some(v * 10 + d) else None
  }

  lemma RunIsDigits(t: string, i: nat)
    requires i < Run(t)
    ensures IsDigit(t[i])
  {
    if i > 0 { RunIsDigits(t[1..], i - 1); }
  }

  /** `parse_number` after the optional sign. */
  function ReadBody(body: string, negative: bool): (r: Checked<Got<Value>>)
    ensures r.Pass? ==> |r.value.rest| < |body|
  {
    var n := Run(body);
    if n == 0 then Refuse(MalformedInput)
    else if n < |body| && body[n] in ".eE" then Refuse(UnsupportedValue)
    else
      assert forall i :: 0 <= i < n ==> IsDigit(body[i]) by {
        forall i | 0 <= i < n ensures IsDigit(body[i]) { RunIsDigits(body, i); }
      }
      match Accumulate(body[..n], negative)
      case None => Refuse(ArithmeticOverflow)
      case Some(v) => if negative then Pass(Got(Int(v), body[n..])) else Pass(Got(UInt(if v >= 0 then v else 0), body[n..]))
  }

  function ReadNumber(t: string): (r: Checked<Got<Value>>)
    ensures r.Pass? ==> |r.value.rest| < |t|
  {
    if t != "" && t[0] == '-' then ReadBody(t[1..], true) else ReadBody(t, false)
  }

  predicate StartsWith(t: string, w: string) { |w| <= |t| && t[..|w|] == w }

  /** `JsonValue::object`: members sorted by key, duplicates refused. */
  function MakeObject(members: Members): Checked<Value> {
    var sorted := Sort(members);
    if Ascending(sorted) then Pass(Object(sorted)) else Refuse(DuplicateIdentity)
  }

  function Sort(ms: Members): Members {
    match ms
    case NoMembers => NoMembers
    case Member(k, v, rest) => Insert(k, v, Sort(rest))
  }

  function Insert(k: string, v: Value, ms: Members): Members {
    if ms.NoMembers? || Less(k, ms.key) then Member(k, v, ms)
    else Member(ms.key, ms.value, Insert(k, v, ms.more))
  }

  /** The order of `std::string`. */
  predicate Less(a: string, b: string) {
    if a == "" then b != "" else b != "" && (a[0] < b[0] || (a[0] == b[0] && Less(a[1..], b[1..])))
  }

  predicate Ascending(ms: Members) {
    ms.Member? && ms.more.Member? ==> Less(ms.key, ms.more.key) && Ascending(ms.more)
  }

  /** Strings, numbers and the three literals. */
  function ReadScalar(t: string): (r: Checked<Got<Value>>)
    requires t != ""
    ensures r.Pass? ==> |r.value.rest| < |t|
  {
    if t[0] == '"' then
      match ReadString(t)
      case Refuse(r) => Refuse(r)
      case Pass(Got(s, rest)) => Pass(Got(String(s), rest))
    else if t[0] == '-' || IsDigit(t[0]) then ReadNumber(t)
    else if StartsWith(t, "null") then Pass(Got(Null, t[4..]))
    else if StartsWith(t, "true") then Pass(Got(Bool(true), t[4..]))
    else if StartsWith(t, "false") then Pass(Got(Bool(false), t[5..]))
    else Refuse(MalformedInput)
  }

  /** `parse_value`. */
  function ReadValue(text: string, depth: nat, max: nat): (r: Checked<Got<Value>>)
    ensures r.Pass? ==> |r.value.rest| < |text|
    decreases |text|, 0
  {
    var t := Skip(text);
    if depth > max then Refuse(OutOfRange)
    else if t == "" then Refuse(TruncatedInput)
    else if t[0] == '{' then
      var u := Skip(t[1..]);
      if StartsWith(u, "}") then Pass(Got(Object(NoMembers), u[1..]))
      else
        match ReadMembers(u, depth, max)
        case Refuse(r) => Refuse(r)
        case Pass(Got(ms, rest)) => (match MakeObject(ms) case Refuse(r) => Refuse(r) case Pass(v) => Pass(Got(v, rest)))
    else if t[0] == '[' then
      var u := Skip(t[1..]);
      if StartsWith(u, "]") then Pass(Got(Array(NoItems), u[1..]))
      else
        match ReadItems(u, depth, max)
        case Refuse(r) => Refuse(r)
        case Pass(Got(items, rest)) => Pass(Got(Array(items), rest))
    else ReadScalar(t)
  }

  /** The loop of `parse_array`. */
  function ReadItems(t: string, depth: nat, max: nat): (r: Checked<Got<Items>>)
    ensures r.Pass? ==> |r.value.rest| < |t|
    decreases |t|, 1
  {
    match ReadValue(t, depth + 1, max)
    case Refuse(r) => Refuse(r)
    case Pass(Got(v, rest)) =>
      var u := Skip(rest);
      if StartsWith(u, ",") then
        (match ReadItems(u[1..], depth, max) case Refuse(r) => Refuse(r) case Pass(Got(vs, last)) => Pass(Got(Item(v, vs), last)))
      else if StartsWith(u, "]") then Pass(Got(Item(v, NoItems), u[1..]))
      else Refuse(MalformedInput)
  }

  /** A key, a colon and a value. */
  function ReadMember(t: string, depth: nat, max: nat): (r: Checked<Got<(string, Value)>>)
    ensures r.Pass? ==> |r.value.rest| < |t|
    decreases |t|, 1
  {
    match ReadString(Skip(t))
    case Refuse(r) => Refuse(r)
    case Pass(Got(k, afterKey)) =>
      var colon := Skip(afterKey);
      if !StartsWith(colon, ":") then Refuse(MalformedInput)
      else
        match ReadValue(colon[1..], depth + 1, max)
        case Refuse(r) => Refuse(r)
        case Pass(Got(v, rest)) => Pass(Got((k, v), rest))
  }

  /** The loop of `parse_object`. */
  function ReadMembers(t: string, depth: nat, max: nat): (r: Checked<Got<Members>>)
    ensures r.Pass? ==> |r.value.rest| < |t|
    decreases |t|, 2
  {
    match ReadMember(t, depth, max)
    case Refuse(r) => Refuse(r)
    case Pass(Got((k, v), rest)) =>
      var u := Skip(rest);
      if StartsWith(u, ",") then
        (match ReadMembers(u[1..], depth, max)
         case Refuse(r) => Refuse(r)
         case Pass(Got(ms, last)) => Pass(Got(Member(k, v, ms), last)))
      else if StartsWith(u, "}") then Pass(Got(Member(k, v, NoMembers), u[1..]))
      else Refuse(MalformedInput)
  }

  /** `JsonReader::parse`: one value, then only whitespace. */
  function Parse(t: string, max: nat): Checked<Value> {
    match ReadValue(t, 0, max)
    case Refuse(r) => Refuse(r)
    case Pass(Got(v, rest)) => if Skip(rest) != "" then Refuse(MalformedInput) else Pass(v)
  }
}
