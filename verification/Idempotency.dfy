/** The bounded idempotency table (src/fabric.cpp): request identifiers map to the answer
    they were given, oldest evicted first. */
module Idempotency {
  import opened Units
  import opened Types

  predicate NoDuplicates(s: seq<Id>) {
    forall i, j :: 0 <= i < j < |s| ==> s[i] != s[j]
  }

  /** The keys are exactly the duplicate-free arrival order. */
  ghost predicate WellFormed(t: Table) {
    NoDuplicates(t.order) && forall id :: id in t.entries <==> id in t.order
  }

  lemma {:induction false} SizesAgree(entries: map<Id, IdempotencyEntry>, order: seq<Id>)
    requires NoDuplicates(order) && forall id :: id in entries <==> id in order
    ensures |entries| == |order|
  {
    if order == [] {
      assert entries == map[];
    } else {
      var rest := entries - {order[0]};
      assert order[0] in entries;
      SizesAgree(rest, order[1..]);
      assert entries.Keys == rest.Keys + {order[0]};
      assert |entries.Keys| == |entries|;
    }
  }

  /** The eviction loop of `record_idempotency`. */
  function Evict(max: nat, t: Table): Table
    decreases |t.order|
  {
    if |t.entries| > max && t.order != [] then Evict(max, Table(t.entries - {t.order[0]}, t.order[1..]))
    else t
  }

  /** `record_idempotency`: re-recording keeps the position, a new identifier goes last. */
  function Remember(max: nat, t: Table, id: Id, e: IdempotencyEntry): Table {
    if id == 0 then t
    else Evict(max, Table(t.entries[id := e], if id in t.entries then t.order else t.order + [id]))
  }

  function Pop(t: Table): Table
    requires t.order != []
  {
    Table(t.entries - {t.order[0]}, t.order[1..])
  }

  lemma PopMembers(order: seq<Id>)
    requires order != [] && NoDuplicates(order)
    ensures NoDuplicates(order[1..]) && forall x :: x in order[1..] <==> x in order && x != order[0]
  {
    forall x ensures x in order[1..] <==> x in order && x != order[0] {
      if x in order[1..] {
        var i :| 0 <= i < |order[1..]| && order[1..][i] == x;
        assert x == order[i + 1];
      }
      assert order == [order[0]] + order[1..];
    }
  }

  lemma PopKeeps(t: Table)
    requires WellFormed(t) && t.order != []
    ensures WellFormed(Pop(t)) && |Pop(t).entries| == |t.entries| - 1
  {
    var u := Pop(t);
    PopMembers(t.order);
    SizesAgree(t.entries, t.order);
    SizesAgree(u.entries, u.order);
  }

  lemma PushKeeps(t: Table, id: Id, e: IdempotencyEntry)
    requires WellFormed(t) && id !in t.entries
    ensures WellFormed(Table(t.entries[id := e], t.order + [id]))
    ensures |t.entries[id := e]| == |t.entries| + 1
  {
    SizesAgree(t.entries, t.order);
    SizesAgree(t.entries[id := e], t.order + [id]);
  }

  lemma UpdateKeeps(t: Table, id: Id, e: IdempotencyEntry)
    requires WellFormed(t) && id in t.entries
    ensures WellFormed(Table(t.entries[id := e], t.order))
    ensures |t.entries[id := e]| == |t.entries|
  {
    SizesAgree(t.entries, t.order);
    SizesAgree(t.entries[id := e], t.order);
  }

  /** One recording on a table within its bound: the table stays well formed and within the
      bound, the new answer is stored, and at most the single oldest entry leaves. */
  lemma RememberIsFifo(max: nat, t: Table, id: Id, e: IdempotencyEntry)
    requires max > 0 && WellFormed(t) && |t.entries| <= max && id != 0
    ensures WellFormed(Remember(max, t, id, e)) && |Remember(max, t, id, e).entries| <= max
    ensures id in Remember(max, t, id, e).entries && Remember(max, t, id, e).entries[id] == e
    ensures id in t.entries ==> Remember(max, t, id, e) == Table(t.entries[id := e], t.order)
    ensures id !in t.entries && |t.entries| < max ==>
              Remember(max, t, id, e) == Table(t.entries[id := e], t.order + [id])
    ensures id !in t.entries && |t.entries| == max ==>
              t.order != [] &&
              Remember(max, t, id, e) == Table(t.entries[id := e] - {t.order[0]}, t.order[1..] + [id])
  {
    hide Evict, WellFormed;
    if id in t.entries {
      UpdateKeeps(t, id, e);
      EvictsNone(max, Table(t.entries[id := e], t.order));
    } else {
      PushKeeps(t, id, e);
      var grown := Table(t.entries[id := e], t.order + [id]);
      if |t.entries| == max {
        OrderedIffStored(t);
        PopKeeps(grown);
        assert grown.order[1..] == t.order[1..] + [id];
        EvictsOne(max, grown);
      } else {
        EvictsNone(max, grown);
      }
    }
  }

  lemma EvictsNone(max: nat, t: Table)
    requires |t.entries| <= max
    ensures Evict(max, t) == t
  {
  }

  lemma EvictsOne(max: nat, t: Table)
    requires t.order != [] && |t.entries| == max + 1 && |Pop(t).entries| == max
    ensures Evict(max, t) == Pop(t)
  {
    EvictsNone(max, Pop(t));
  }

  lemma OrderedIffStored(t: Table)
    requires WellFormed(t)
    ensures t.order == [] <==> |t.entries| == 0
    ensures t.order != [] ==> t.order[0] in t.entries
  {
    SizesAgree(t.entries, t.order);
  }

  /** Tables that answer alike: equal up to the time stamps of their entries. */
  predicate AnswersAlike(t: Table, u: Table) {
    t.order == u.order && t.entries.Keys == u.entries.Keys &&
    forall id :: id in t.entries ==>
      t.entries[id].fingerprint == u.entries[id].fingerprint && t.entries[id].response == u.entries[id].response
  }

  lemma {:induction false} EvictAlike(max: nat, t: Table, u: Table)
    requires AnswersAlike(t, u)
    ensures AnswersAlike(Evict(max, t), Evict(max, u))
    decreases |t.order|
  {
    assert |t.entries| == |t.entries.Keys| == |u.entries|;
    if |t.entries| > max && t.order != [] {
      EvictAlike(max, Table(t.entries - {t.order[0]}, t.order[1..]), Table(u.entries - {u.order[0]}, u.order[1..]));
    }
  }

  lemma RememberAlike(max: nat, t: Table, u: Table, id: Id, e: IdempotencyEntry, f: IdempotencyEntry)
    requires AnswersAlike(t, u) && e.fingerprint == f.fingerprint && e.response == f.response
    ensures AnswersAlike(Remember(max, t, id, e), Remember(max, u, id, f))
  {
    if id != 0 {
      EvictAlike(max, Table(t.entries[id := e], if id in t.entries then t.order else t.order + [id]),
                 Table(u.entries[id := f], if id in u.entries then u.order else u.order + [id]));
    }
  }
}
