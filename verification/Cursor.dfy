/** The sticky-error writer and reader of src/wire.cpp over the buffer and cursor of
    src/canonical.cpp, proved against the field codec. */
module Cursor {
  import opened Bytes
  import opened Units
  import opened Codec

  /** `BinWriter::bytes` refuses a string whose length does not fit in 32 bits. */
  predicate Writable(k: Kind, v: Item) { k.Token? || k.Text? ==> |Str(v)| < Pow256(4) }

  predicate WritableAll(ks: seq<Kind>, vs: seq<Item>)
    requires |ks| == |vs|
  {
    forall i :: 0 <= i < |ks| ==> Writable(ks[i], vs[i])
  }

  /** After a refused append later and smaller ones may still succeed, so the buffer is then
      meaningless; the flag says so. */
  class Writer {
    const max: nat
    var buffer: seq<byte>
    var failed: bool
    ghost var wanted: seq<byte>

    ghost predicate Valid()
      reads this
    {
      |buffer| <= |wanted| && (!failed ==> buffer == wanted && |wanted| <= max)
    }

    constructor (limit: nat)
      ensures Valid() && !failed && wanted == [] && max == limit
    {
      max, buffer, failed, wanted := limit, [], false, [];
    }

    method Append(bytes: seq<byte>) returns (ok: bool)
      requires Valid()
      modifies this
      ensures Valid() && wanted == old(wanted) + bytes
      ensures failed == (old(failed) || !ok)
      ensures !ok ==> |wanted| > max
    {
      ok := |buffer| + |bytes| <= max;
      if ok { buffer := buffer + bytes; } else { failed := true; }
      wanted := wanted + bytes;
    }

    method WriteItem(k: Kind, v: Item)
      requires Valid()
      modifies this
      ensures Valid() && wanted == old(wanted) + EncodeItem(k, v)
      ensures failed ==> old(failed) || !Writable(k, v) || |wanted| > max
      ensures old(failed) || !Writable(k, v) ==> failed
    {
      hide Store, Pow256;
      if k.Token? || k.Text? {
        if |Str(v)| >= Pow256(4) {
          failed, wanted := true, wanted + EncodeItem(k, v);
        } else {
          var ok := Append(Store(4, |Str(v)|));
          if ok { ok := Append(Str(v)); } else { wanted := wanted + Str(v); }
        }
      } else {
        var _ := Append(EncodeItem(k, v));
      }
    }

    /** The bytes are exactly the encoding unless the flag is up, and the flag is up exactly when a
        field was not writable or the encoding does not fit. */
    method WriteItems(ks: seq<Kind>, vs: seq<Item>)
      requires Valid() && |ks| == |vs|
      modifies this
      ensures Valid() && wanted == old(wanted) + EncodeItems(ks, vs)
      ensures failed <==> old(failed) || !WritableAll(ks, vs) || |old(wanted) + EncodeItems(ks, vs)| > max
    {
      hide EncodeItem, Writable;
      assert ks[0..] == ks && vs[0..] == vs;
      ghost var all := old(wanted) + EncodeItems(ks, vs);
      for i := 0 to |ks|
        invariant Valid() && wanted + EncodeItems(ks[i..], vs[i..]) == all
        invariant failed ==> old(failed) || |all| > max || exists j :: 0 <= j < i && !Writable(ks[j], vs[j])
        invariant old(failed) || (exists j :: 0 <= j < i && !Writable(ks[j], vs[j])) ==> failed
      {
        assert ks[i..][1..] == ks[i + 1..] && vs[i..][1..] == vs[i + 1..];
        ghost var before := wanted;
        WriteItem(ks[i], vs[i]);
        assert before + (EncodeItem(ks[i], vs[i]) + EncodeItems(ks[i + 1..], vs[i + 1..])) == wanted + EncodeItems(ks[i + 1..], vs[i + 1..]);
      }
    }
  }

  class Reader {
    const data: seq<byte>
    const limits: Limits
    var position: nat
    var error: Option<Refusal>

    ghost predicate Valid() reads this { position <= |data| }

    ghost function Rest(): seq<byte>
      requires Valid()
      reads this
    {
      data[position..]
    }

    constructor (d: seq<byte>, l: Limits)
      ensures Valid() && data == d && limits == l && position == 0 && error == None
    {
      data, limits, position, error := d, l, 0, None;
    }

    /** Reads a field, unless an earlier one failed. */
    method ReadItem(k: Kind) returns (v: Item)
      requires Valid()
      modifies this
      ensures Valid()
      ensures old(error).Some? ==> error == old(error)
      ensures old(error).None? ==>
        match DecodeItem(k, old(Rest()), limits)
        case Refuse(r) => error == Some(r)
        case Pass(Read(item, rest)) => error == None && v == item && Rest() == rest
    {
      v := N(0);
      if error.None? {
        DecodeLeavesSuffix(k, data[position..], limits);
        hide DecodeItem;
        match DecodeItem(k, data[position..], limits)
        case Refuse(r) => error := Some(r);
        case Pass(Read(item, rest)) => v, position := item, |data| - |rest|;
      }
    }

    /** Straight-line reads report the first failure, exactly as the codec does. */
    method ReadItems(ks: seq<Kind>) returns (vs: seq<Item>)
      requires Valid() && error == None
      modifies this
      ensures Valid()
      ensures match DecodeItems(ks, old(Rest()), limits)
        case Refuse(r) => error == Some(r)
        case Pass(Reads(items, rest)) => error == None && vs == items && Rest() == rest
    {
      hide DecodeItem;
      vs := [];
      ghost var goal := DecodeItems(ks, Rest(), limits);
      assert ks[0..] == ks;
      if goal.Pass? { assert vs + goal.value.items == goal.value.items; }
      for i := 0 to |ks|
        invariant Valid() && |vs| == i
        invariant error.Some? ==> goal == Refuse(error.value)
        invariant error.None? ==> goal == Prepend(vs, DecodeItems(ks[i..], Rest(), limits))
      {
        assert ks[i..][1..] == ks[i + 1..];
        ghost var later := DecodeItems(ks[i..], Rest(), limits);
        var v := ReadItem(ks[i]);
        if error.None? && later.Pass? { assert vs + later.value.items == (vs + [v]) + later.value.items[1..]; }
        vs := vs + [v];
      }
    }
  }

  ghost function Prepend(vs: seq<Item>, later: Checked<Reads>): Checked<Reads> {
    match later
    case Refuse(r) => Refuse(r)
    case Pass(Reads(items, rest)) => Pass(Reads(vs + items, rest))
  }
}
