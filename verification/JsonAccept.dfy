/** Every document the reader accepts stands for a value the printer can print and the reader reads
    back (src/canonical.cpp). */
module JsonAccept {
  import opened Bytes
  import opened Units
  import opened Json
  import opened JsonTrip

  lemma {:induction false} CharsAreAscii(t: string)
    ensures ReadChars(t).Pass? ==> Ascii(ReadChars(t).value.value)
    decreases |t|
  {
    if t != "" && ReadChars(t).Pass? && t[0] != '"' {
      if t[0] == '\\' {
        CharsAreAscii(t[1 + Unescape(t[1..]).value.1..]);
      } else {
        CharsAreAscii(t[1..]);
      }
    }
  }

  lemma StringIsAscii(t: string)
    ensures ReadString(t).Pass? ==> Ascii(ReadString(t).value.value) && ByteString(ReadString(t).value.value)
  {
    hide ReadChars;
    if ReadString(t).Pass? { CharsAreAscii(t[1..]); }
  }

  lemma {:induction false} AccumulateInRange(d: string, negative: bool)
    requires forall i :: 0 <= i < |d| ==> IsDigit(d[i])
    ensures Accumulate(d, negative).Some? ==>
      if negative then I64_MIN <= Accumulate(d, negative).value <= 0 else 0 <= Accumulate(d, negative).value <= U64_MAX
  {
    if d != "" { AccumulateInRange(d[..|d| - 1], negative); }
  }

  lemma BodyIsMade(body: string, negative: bool)
    ensures ReadBody(body, negative).Pass? ==>
      var v := ReadBody(body, negative).value.value; Made(v) && (v.Int? || v.UInt?)
  {
    hide Run, Accumulate;
    if ReadBody(body, negative).Pass? {
      var n := Run(body);
      forall i | 0 <= i < n ensures IsDigit(body[i]) { RunIsDigits(body, i); }
      AccumulateInRange(body[..n], negative);
    }
  }

  lemma NumberIsMade(t: string)
    ensures ReadNumber(t).Pass? ==> var v := ReadNumber(t).value.value; Made(v) && (v.Int? || v.UInt?)
  {
    hide ReadBody, Made;
    if t != "" { BodyIsMade(t[1..], true); }
    BodyIsMade(t, false);
  }

  lemma ScalarIsMade(t: string, depth: nat, max: nat)
    requires t != "" && depth <= max
    ensures ReadScalar(t).Pass? ==> Made(ReadScalar(t).value.value) && Readable(ReadScalar(t).value.value, depth, max)
  {
    hide ReadString, ReadNumber, Ascii, ByteString;
    StringIsAscii(t);
    NumberIsMade(t);
  }

  lemma {:induction false} InsertKeeps(k: string, v: Value, ms: Members, depth: nat, max: nat)
    requires ByteString(k) && Ascii(k) && Made(v) && Readable(v, depth, max)
    requires MadeMembers(ms) && ReadableMembers(ms, depth, max)
    ensures MadeMembers(Insert(k, v, ms)) && ReadableMembers(Insert(k, v, ms), depth, max)
  {
    hide Made, Readable, Less, Ascii, ByteString;
    if ms.Member? { InsertKeeps(k, v, ms.more, depth, max); }
  }

  lemma {:induction false} SortKeeps(ms: Members, depth: nat, max: nat)
    requires MadeMembers(ms) && ReadableMembers(ms, depth, max)
    ensures MadeMembers(Sort(ms)) && ReadableMembers(Sort(ms), depth, max)
  {
    hide Made, Readable, Insert, Ascii, ByteString;
    if ms.Member? {
      SortKeeps(ms.more, depth, max);
      InsertKeeps(ms.key, ms.value, Sort(ms.more), depth, max);
    }
  }

  lemma {:induction false} ValueIsMade(text: string, depth: nat, max: nat)
    ensures ReadValue(text, depth, max).Pass? ==>
      Made(ReadValue(text, depth, max).value.value) && Readable(ReadValue(text, depth, max).value.value, depth, max)
    decreases |text|, 0
  {
    var t := Skip(text);
    if depth <= max && t != "" {
      var u := Skip(t[1..]);
      if t[0] == '{' {
        if !StartsWith(u, "}") { ObjectIsMade(u, depth, max); }
      } else if t[0] == '[' {
        if !StartsWith(u, "]") { ItemsAreMade(u, depth, max); }
      } else {
        ScalarIsMade(t, depth, max);
      }
      hide ReadMembers, ReadItems, ReadScalar, Skip;
    }
  }

  lemma {:induction false} ItemsAreMade(t: string, depth: nat, max: nat)
    ensures ReadItems(t, depth, max).Pass? ==>
      MadeItems(ReadItems(t, depth, max).value.value) && ReadableItems(ReadItems(t, depth, max).value.value, depth + 1, max)
    decreases |t|, 1
  {
    hide ReadValue, Skip, Made, Readable;
    ValueIsMade(t, depth + 1, max);
    if ReadValue(t, depth + 1, max).Pass? {
      var u := Skip(ReadValue(t, depth + 1, max).value.rest);
      if StartsWith(u, ",") { ItemsAreMade(u[1..], depth, max); }
    }
  }

  lemma {:induction false} ObjectIsMade(t: string, depth: nat, max: nat)
    ensures ReadMembers(t, depth, max).Pass? && MakeObject(ReadMembers(t, depth, max).value.value).Pass? ==>
      var ms := MakeObject(ReadMembers(t, depth, max).value.value).value.members;
      Ascending(ms) && MadeMembers(ms) && ReadableMembers(ms, depth + 1, max)
    decreases |t|, 3
  {
    hide ReadMembers, Ascending;
    MembersAreMade(t, depth, max);
    if ReadMembers(t, depth, max).Pass? { SortKeeps(ReadMembers(t, depth, max).value.value, depth + 1, max); }
  }

  lemma {:induction false} MemberIsMade(t: string, depth: nat, max: nat)
    ensures ReadMember(t, depth, max).Pass? ==>
      var (k, v) := ReadMember(t, depth, max).value.value;
      ByteString(k) && Ascii(k) && Made(v) && Readable(v, depth + 1, max)
    decreases |t|, 1
  {
    hide ReadString, ReadValue, Skip, Made, Readable, Ascii, ByteString;
    StringIsAscii(Skip(t));
    if ReadString(Skip(t)).Pass? {
      var colon := Skip(ReadString(Skip(t)).value.rest);
      if StartsWith(colon, ":") { ValueIsMade(colon[1..], depth + 1, max); }
    }
  }

  lemma {:induction false} MembersAreMade(t: string, depth: nat, max: nat)
    ensures ReadMembers(t, depth, max).Pass? ==>
      MadeMembers(ReadMembers(t, depth, max).value.value) && ReadableMembers(ReadMembers(t, depth, max).value.value, depth + 1, max)
    decreases |t|, 2
  {
    hide ReadMember, Skip, Made, Readable, Ascii, ByteString;
    MemberIsMade(t, depth, max);
    if ReadMember(t, depth, max).Pass? {
      var u := Skip(ReadMember(t, depth, max).value.rest);
      if StartsWith(u, ",") { MembersAreMade(u[1..], depth, max); }
    }
  }

  /** Whatever text was accepted, printing the value and parsing it again gives the same value up to
      the sign class of a non-negative number: the printed form is canonical. */
  lemma AcceptedIsStable(t: string, max: nat)
    requires Parse(t, max).Pass?
    ensures var v := Parse(t, max).value;
      Made(v) && Readable(v, 0, max) && Parse(Print(v), max) == Pass(Norm(v)) && Print(Norm(v)) == Print(v)
  {
    hide Made, Readable, Print, Norm, ReadValue;
    ValueIsMade(t, 0, max);
    var v := ReadValue(t, 0, max).value.value;
    ParseOfPrintIff(v, max);
    NormPrints(v);
  }
}
