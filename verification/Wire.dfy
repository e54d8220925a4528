/** `enc_assignment` and `dec_assignment` (src/wire.cpp): the record written field by field and
    rebuilt from the fields in the order they are read. */
module Wire {
  import opened Bytes
  import opened Units
  import opened Codec

  type Text = seq<byte>

  datatype ScopeSpec = ScopeSpec(kind: nat, domain: Text, device: Text, selector: Text)
  datatype Incarnation = Incarnation(generation: nat, boot: Text)
  datatype Fence = Fence(epoch: nat, sequence: nat)
  datatype Binding = Binding(topology: nat, capability: nat, policy: nat, assignment: nat, schema: nat)
  datatype DemandVector = DemandVector(packets: nat, bytes: nat, flows: nat, queues: nat, memory: nat)
  datatype Transition = Transition(from: nat, to: nat, reason: nat, at: int, fence: Fence)
  datatype Effect = Effect(attempt: nat, fence: Fence, generation: nat, incarnation: Incarnation,
                           capabilityGeneration: nat, outcome: nat, reason: nat, observedAt: int)

  datatype Assignment = Assignment(
    id: Text, generation: nat, fn: Text, cls: nat, scope: ScopeSpec, scopeId: Text, exclusivity: nat, exclusiveKey: nat,
    mode: nat, state: nat, device: Text, host: Text, kind: nat, incarnation: Incarnation, demand: DemandVector,
    binding: Binding, authority: Text, lease: nat, fence: Fence, attempt: nat, fingerprint: Text, source: Text,
    sequence: nat, observedAt: int, validUntil: int, reason: nat, createdAt: int, updatedAt: int,
    history: seq<Transition>, effects: seq<Effect>)

  const U8: Kind := Num(8)

  function OneTo(n: nat): set<nat> { if n == 0 then {} else OneTo(n - 1) + {n} }

  /** Identity, generation, function and class. */
  function SubjectKinds(l: Limits): (ks: seq<Kind>)
    ensures |ks| == 4
  {
    [Token, U8, Token, Class]
  }

  function SubjectItems(a: Assignment): (vs: seq<Item>)
    ensures |vs| == 4
  {
    [S(a.id), N(a.generation), S(a.fn), N(a.cls)]
  }

  /** The scope. */
  function ScopeKinds(l: Limits): (ks: seq<Kind>)
    ensures |ks| == 4
  {
    [Code(1, OneTo(5)), Token, Token, Kind.Text]
  }

  function ScopeItems(a: Assignment): (vs: seq<Item>)
    ensures |vs| == 4
  {
    [N(a.scope.kind), S(a.scope.domain), S(a.scope.device), S(a.scope.selector)]
  }

  /** Scope identity, exclusivity, mode and state. */
  function StandingKinds(l: Limits): (ks: seq<Kind>)
    ensures |ks| == 5
  {
    [Token, Code(1, OneTo(2)), Code(1, OneTo(2)), Code(1, OneTo(2)), Code(1, OneTo(11))]
  }

  function StandingItems(a: Assignment): (vs: seq<Item>)
    ensures |vs| == 5
  {
    [S(a.scopeId), N(a.exclusivity), N(a.exclusiveKey), N(a.mode), N(a.state)]
  }

  /** The device. */
  function TargetKinds(l: Limits): (ks: seq<Kind>)
    ensures |ks| == 5
  {
    [Token, Token, Code(1, OneTo(4)), U8, Token]
  }

  function TargetItems(a: Assignment): (vs: seq<Item>)
    ensures |vs| == 5
  {
    [S(a.device), S(a.host), N(a.kind), N(a.incarnation.generation), S(a.incarnation.boot)]
  }

  /** Demand. */
  function DemandKinds(l: Limits): (ks: seq<Kind>)
    ensures |ks| == 5
  {
    [U8, U8, U8, U8, U8]
  }

  function DemandItems(a: Assignment): (vs: seq<Item>)
    ensures |vs| == 5
  {
    [N(a.demand.packets), N(a.demand.bytes), N(a.demand.flows), N(a.demand.queues), N(a.demand.memory)]
  }

  /** Generation binding. */
  function BindingKinds(l: Limits): (ks: seq<Kind>)
    ensures |ks| == 5
  {
    [U8, U8, U8, U8, U8]
  }

  function BindingItems(a: Assignment): (vs: seq<Item>)
    ensures |vs| == 5
  {
    [N(a.binding.topology), N(a.binding.capability), N(a.binding.policy), N(a.binding.assignment), N(a.binding.schema)]
  }

  /** Authority, lease, fence, attempt and request fingerprint. */
  function TenureKinds(l: Limits): (ks: seq<Kind>)
    ensures |ks| == 6
  {
    [Token, U8, U8, U8, U8, Digest]
  }

  function TenureItems(a: Assignment): (vs: seq<Item>)
    ensures |vs| == 6
  {
    [S(a.authority), N(a.lease), N(a.fence.epoch), N(a.fence.sequence), N(a.attempt), S(a.fingerprint)]
  }

  /** Provenance, freshness, reason and times. */
  function EvidenceKinds(l: Limits): (ks: seq<Kind>)
    ensures |ks| == 7
  {
    [Token, U8, Signed, Signed, Code(2, l.reasons), Signed, Signed]
  }

  function EvidenceItems(a: Assignment): (vs: seq<Item>)
    ensures |vs| == 7
  {
    [S(a.source), N(a.sequence), I(a.observedAt), I(a.validUntil), N(a.reason), I(a.createdAt), I(a.updatedAt)]
  }

  /** The fields before the two collections, in wire order. */
  function HeadKinds(l: Limits): (ks: seq<Kind>)
    ensures |ks| == 41
  {
    SubjectKinds(l) + ScopeKinds(l) + StandingKinds(l) + TargetKinds(l) +
    DemandKinds(l) + BindingKinds(l) + TenureKinds(l) + EvidenceKinds(l)
  }

  /** What `enc_assignment` writes before the collections. */
  function HeadItems(a: Assignment): (vs: seq<Item>)
    ensures |vs| == 41
  {
    SubjectItems(a) + ScopeItems(a) + StandingItems(a) + TargetItems(a) +
    DemandItems(a) + BindingItems(a) + TenureItems(a) + EvidenceItems(a)
  }

  /** What `dec_assignment` builds from the fields in the order it reads them. */
  function BuildHead(v: seq<Item>, history: seq<Transition>, effects: seq<Effect>): Assignment
    requires |v| == 41
  {
    Assignment(
      Str(v[0]), Nat(v[1]), Str(v[2]), Nat(v[3]), ScopeSpec(Nat(v[4]), Str(v[5]), Str(v[6]), Str(v[7])),
      Str(v[8]), Nat(v[9]), Nat(v[10]), Nat(v[11]), Nat(v[12]), Str(v[13]), Str(v[14]), Nat(v[15]),
      Incarnation(Nat(v[16]), Str(v[17])),
      DemandVector(Nat(v[18]), Nat(v[19]), Nat(v[20]), Nat(v[21]), Nat(v[22])),
      Binding(Nat(v[23]), Nat(v[24]), Nat(v[25]), Nat(v[26]), Nat(v[27])),
      Str(v[28]), Nat(v[29]), Fence(Nat(v[30]), Nat(v[31])), Nat(v[32]), Str(v[33]), Str(v[34]), Nat(v[35]),
      Int(v[36]), Int(v[37]), Nat(v[38]), Int(v[39]), Int(v[40]), history, effects)
  }

  function TransitionKinds(l: Limits): (ks: seq<Kind>)
    ensures |ks| == 6
  {
    [Code(1, OneTo(11)), Code(1, OneTo(11)), Code(2, l.reasons), Signed, U8, U8]
  }

  function TransitionItems(t: Transition): (vs: seq<Item>)
    ensures |vs| == 6
  {
    [N(t.from), N(t.to), N(t.reason), I(t.at), N(t.fence.epoch), N(t.fence.sequence)]
  }

  function BuildTransition(v: seq<Item>): Transition
    requires |v| == 6
  {
    Transition(Nat(v[0]), Nat(v[1]), Nat(v[2]), Int(v[3]), Fence(Nat(v[4]), Nat(v[5])))
  }

  function EffectKinds(l: Limits): (ks: seq<Kind>)
    ensures |ks| == 10
  {
    [U8, U8, U8, U8, U8, Token, U8, Code(1, OneTo(4)), Code(2, l.reasons), Signed]
  }

  function EffectItems(e: Effect): (vs: seq<Item>)
    ensures |vs| == 10
  {
    [N(e.attempt), N(e.fence.epoch), N(e.fence.sequence), N(e.generation), N(e.incarnation.generation),
     S(e.incarnation.boot), N(e.capabilityGeneration), N(e.outcome), N(e.reason), I(e.observedAt)]
  }

  function BuildEffect(v: seq<Item>): Effect
    requires |v| == 10
  {
    Effect(Nat(v[0]), Fence(Nat(v[1]), Nat(v[2])), Nat(v[3]), Incarnation(Nat(v[4]), Str(v[5])),
           Nat(v[6]), Nat(v[7]), Nat(v[8]), Int(v[9]))
  }

  function TransitionRows(h: seq<Transition>): (rows: seq<seq<Item>>)
    ensures |rows| == |h| && forall i :: 0 <= i < |h| ==> rows[i] == TransitionItems(h[i])
  {
    seq(|h|, i requires 0 <= i < |h| => TransitionItems(h[i]))
  }

  function EffectRows(es: seq<Effect>): (rows: seq<seq<Item>>)
    ensures |rows| == |es| && forall i :: 0 <= i < |es| ==> rows[i] == EffectItems(es[i])
  {
    seq(|es|, i requires 0 <= i < |es| => EffectItems(es[i]))
  }

  function Transitions(rows: seq<seq<Item>>): (h: seq<Transition>)
    requires forall i :: 0 <= i < |rows| ==> |rows[i]| == 6
    ensures |h| == |rows| && forall i :: 0 <= i < |h| ==> h[i] == BuildTransition(rows[i])
  {
    seq(|rows|, i requires 0 <= i < |rows| => BuildTransition(rows[i]))
  }

  function Effects(rows: seq<seq<Item>>): (es: seq<Effect>)
    requires forall i :: 0 <= i < |rows| ==> |rows[i]| == 10
    ensures |es| == |rows| && forall i :: 0 <= i < |es| ==> es[i] == BuildEffect(rows[i])
  {
    seq(|rows|, i requires 0 <= i < |rows| => BuildEffect(rows[i]))
  }

  function Encode(a: Assignment, l: Limits): seq<byte> {
    EncodeItems(HeadKinds(l), HeadItems(a)) +
    (EncodeList(TransitionKinds(l), TransitionRows(a.history)) + EncodeList(EffectKinds(l), EffectRows(a.effects)))
  }

  datatype Decoded = Decoded(record: Assignment, rest: seq<byte>)

  function Decode(d: seq<byte>, l: Limits): Checked<Decoded> {
    match DecodeItems(HeadKinds(l), d, l)
    case Refuse(r) => Refuse(r)
    case Pass(Reads(head, d1)) =>
      match DecodeList(TransitionKinds(l), l.maxHistory, d1, l)
      case Refuse(r) => Refuse(r)
      case Pass(Rows(history, d2)) =>
        match DecodeList(EffectKinds(l), l.maxEffects, d2, l)
        case Refuse(r) => Refuse(r)
        case Pass(Rows(effects, d3)) => Pass(Decoded(BuildHead(head, Transitions(history), Effects(effects)), d3))
  }

  /** Every field within its width and bound, and the collections within theirs. */
  predicate WithinBounds(a: Assignment, l: Limits) {
    && FitAll(HeadKinds(l), HeadItems(a), l)
    && FitRows(TransitionKinds(l), TransitionRows(a.history), l)
    && FitRows(EffectKinds(l), EffectRows(a.effects), l)
    && |a.history| < Pow256(4) && |a.effects| < Pow256(4)
  }

  // ---- Round trip ---------------------------------------------------------------------------------

  lemma HeadRebuilds(a: Assignment)
    ensures BuildHead(HeadItems(a), a.history, a.effects) == a
  {
  }

  lemma RowsRebuild(a: Assignment)
    ensures Transitions(TransitionRows(a.history)) == a.history && Effects(EffectRows(a.effects)) == a.effects
  {
  }

  lemma HeadBack(a: Assignment, rest: seq<byte>, l: Limits)
    requires WithinBounds(a, l)
    ensures DecodeItems(HeadKinds(l), EncodeItems(HeadKinds(l), HeadItems(a)) + rest, l) == Pass(Reads(HeadItems(a), rest))
  {
    hide HeadKinds, HeadItems, TransitionRows, EffectRows, TransitionKinds, EffectKinds;
    ItemsBack(HeadKinds(l), HeadItems(a), rest, l);
  }

  /** Decoding an encoded record gives it back and leaves exactly the bytes that followed, as long as
      the collections are within the decoder's bounds; beyond either bound it is refused. */
  lemma RoundTripIff(a: Assignment, rest: seq<byte>, l: Limits)
    requires WithinBounds(a, l)
    ensures Decode(Encode(a, l) + rest, l) ==
      if |a.history| <= l.maxHistory && |a.effects| <= l.maxEffects then Pass(Decoded(a, rest)) else Refuse(LimitExceeded)
  {
    hide HeadKinds, HeadItems, TransitionRows, EffectRows, TransitionKinds, EffectKinds, BuildHead, Transitions, Effects;
    hide FitAll, EncodeItems, DecodeItems, EncodeList, DecodeList;
    var hs, es := EncodeList(TransitionKinds(l), TransitionRows(a.history)), EncodeList(EffectKinds(l), EffectRows(a.effects));
    var head := EncodeItems(HeadKinds(l), HeadItems(a));
    assert Encode(a, l) + rest == head + (hs + (es + rest));
    HeadBack(a, hs + (es + rest), l);
    ListBackIff(TransitionKinds(l), TransitionRows(a.history), l.maxHistory, es + rest, l);
    if |a.history| <= l.maxHistory {
      ListBackIff(EffectKinds(l), EffectRows(a.effects), l.maxEffects, rest, l);
    }
    HeadRebuilds(a);
    RowsRebuild(a);
  }

  lemma ListBackIff(ks: seq<Kind>, rows: seq<seq<Item>>, max: nat, rest: seq<byte>, l: Limits)
    requires FitRows(ks, rows, l) && |rows| < Pow256(4)
    ensures DecodeList(ks, max, EncodeList(ks, rows) + rest, l) ==
      if |rows| <= max then Pass(Rows(rows, rest)) else Refuse(LimitExceeded)
  {
    if |rows| <= max {
      ListBack(ks, rows, max, rest, l);
    } else {
      hide Store, EncodeRows, DecodeRows;
      assert EncodeList(ks, rows) + rest == Store(4, |rows|) + (EncodeRows(ks, rows) + rest);
      NatBack(4, |rows|, EncodeRows(ks, rows) + rest);
    }
  }

  /** Two encoded records, each followed by anything, agree only when record and suffix agree: the
      encoding is injective, and no encoding is a proper prefix of another. */
  lemma EncodingIsPrefixFree(a: Assignment, b: Assignment, x: seq<byte>, y: seq<byte>, l: Limits)
    requires WithinBounds(a, l) && WithinBounds(b, l) && Encode(a, l) + x == Encode(b, l) + y
    requires |a.history| <= l.maxHistory && |a.effects| <= l.maxEffects
    requires |b.history| <= l.maxHistory && |b.effects| <= l.maxEffects
    ensures a == b && x == y
  {
    hide Encode, Decode, WithinBounds;
    RoundTripIff(a, x, l);
    RoundTripIff(b, y, l);
  }

  /** What was decoded does not depend on what follows. */
  lemma DecodeExtends(d: seq<byte>, more: seq<byte>, l: Limits)
    requires Decode(d, l).Pass?
    ensures Decode(d + more, l) == Pass(Decoded(Decode(d, l).value.record, Decode(d, l).value.rest + more))
  {
    hide HeadKinds, TransitionKinds, EffectKinds, BuildHead, Transitions, Effects, DecodeItems, DecodeList;
    ItemsExtend(HeadKinds(l), d, l, more);
    var d1 := DecodeItems(HeadKinds(l), d, l).value.rest;
    ListExtends(TransitionKinds(l), l.maxHistory, d1, l, more);
    var d2 := DecodeList(TransitionKinds(l), l.maxHistory, d1, l).value.rest;
    ListExtends(EffectKinds(l), l.maxEffects, d2, l, more);
  }

  /** A truncated record is never mistaken for a value. */
  lemma TruncationIsRefused(a: Assignment, n: nat, l: Limits)
    requires WithinBounds(a, l) && |a.history| <= l.maxHistory && |a.effects| <= l.maxEffects
    requires n < |Encode(a, l)|
    ensures Decode(Encode(a, l)[..n], l).Refuse?
  {
    hide Encode, Decode, WithinBounds;
    var whole := Encode(a, l);
    if Decode(whole[..n], l).Pass? {
      DecodeExtends(whole[..n], whole[n..], l);
      assert whole[..n] + whole[n..] == whole && whole + [] == whole;
      RoundTripIff(a, [], l);
    }
  }

  // ---- Canonicity ---------------------------------------------------------------------------------

  lemma SubjectUnbuilds(v: seq<Item>, history: seq<Transition>, effects: seq<Effect>, l: Limits)
    requires |v| == 41 && FitAll(SubjectKinds(l), v[0..4], l)
    ensures SubjectItems(BuildHead(v, history, effects)) == v[0..4]
  {
    hide OneTo, Pow256, ValidToken;
  }

  lemma ScopeUnbuilds(v: seq<Item>, history: seq<Transition>, effects: seq<Effect>, l: Limits)
    requires |v| == 41 && FitAll(ScopeKinds(l), v[4..8], l)
    ensures ScopeItems(BuildHead(v, history, effects)) == v[4..8]
  {
    hide OneTo, Pow256, ValidToken;
  }

  lemma StandingUnbuilds(v: seq<Item>, history: seq<Transition>, effects: seq<Effect>, l: Limits)
    requires |v| == 41 && FitAll(StandingKinds(l), v[8..13], l)
    ensures StandingItems(BuildHead(v, history, effects)) == v[8..13]
  {
    hide OneTo, Pow256, ValidToken;
  }

  lemma TargetUnbuilds(v: seq<Item>, history: seq<Transition>, effects: seq<Effect>, l: Limits)
    requires |v| == 41 && FitAll(TargetKinds(l), v[13..18], l)
    ensures TargetItems(BuildHead(v, history, effects)) == v[13..18]
  {
    hide OneTo, Pow256, ValidToken;
  }

  lemma DemandUnbuilds(v: seq<Item>, history: seq<Transition>, effects: seq<Effect>, l: Limits)
    requires |v| == 41 && FitAll(DemandKinds(l), v[18..23], l)
    ensures DemandItems(BuildHead(v, history, effects)) == v[18..23]
  {
    hide OneTo, Pow256, ValidToken;
  }

  lemma BindingUnbuilds(v: seq<Item>, history: seq<Transition>, effects: seq<Effect>, l: Limits)
    requires |v| == 41 && FitAll(BindingKinds(l), v[23..28], l)
    ensures BindingItems(BuildHead(v, history, effects)) == v[23..28]
  {
    hide OneTo, Pow256, ValidToken;
  }

  lemma TenureUnbuilds(v: seq<Item>, history: seq<Transition>, effects: seq<Effect>, l: Limits)
    requires |v| == 41 && FitAll(TenureKinds(l), v[28..34], l)
    ensures TenureItems(BuildHead(v, history, effects)) == v[28..34]
  {
    hide OneTo, Pow256, ValidToken;
  }

  lemma EvidenceUnbuilds(v: seq<Item>, history: seq<Transition>, effects: seq<Effect>, l: Limits)
    requires |v| == 41 && FitAll(EvidenceKinds(l), v[34..41], l)
    ensures EvidenceItems(BuildHead(v, history, effects)) == v[34..41]
  {
    hide OneTo, Pow256, ValidToken;
  }

  lemma FitSlice(before: seq<Kind>, ks: seq<Kind>, after: seq<Kind>, v: seq<Item>, l: Limits)
    requires FitAll(before + ks + after, v, l)
    ensures FitAll(ks, v[|before|..|before| + |ks|], l)
  {
    hide Fit;
    forall i | 0 <= i < |ks| ensures Fit(ks[i], v[|before|..|before| + |ks|][i], l) {
      assert (before + ks + after)[|before| + i] == ks[i];
    }
  }

  lemma HeadUnbuilds(v: seq<Item>, history: seq<Transition>, effects: seq<Effect>, l: Limits)
    requires FitAll(HeadKinds(l), v, l)
    ensures HeadItems(BuildHead(v, history, effects)) == v
  {
    assert |v| == 41;
    hide SubjectKinds, ScopeKinds, StandingKinds, TargetKinds, DemandKinds, BindingKinds, TenureKinds, EvidenceKinds, FitAll, BuildHead;
    hide SubjectItems, ScopeItems, StandingItems, TargetItems, DemandItems, BindingItems, TenureItems, EvidenceItems;
    HeadFits(v, l);
    SubjectUnbuilds(v, history, effects, l);
    ScopeUnbuilds(v, history, effects, l);
    StandingUnbuilds(v, history, effects, l);
    TargetUnbuilds(v, history, effects, l);
    DemandUnbuilds(v, history, effects, l);
    BindingUnbuilds(v, history, effects, l);
    TenureUnbuilds(v, history, effects, l);
    EvidenceUnbuilds(v, history, effects, l);
    SlicesJoin(v);
  }

  lemma SlicesJoin<T>(v: seq<T>)
    requires |v| == 41
    ensures v[0..4] + v[4..8] + v[8..13] + v[13..18] + v[18..23] + v[23..28] + v[28..34] + v[34..41] == v
  {
    assert v[0..4] + v[4..8] == v[..8] && v[..8] + v[8..13] == v[..13] && v[..13] + v[13..18] == v[..18];
    assert v[..18] + v[18..23] == v[..23] && v[..23] + v[23..28] == v[..28];
    assert v[..28] + v[28..34] == v[..34] && v[..34] + v[34..41] == v;
  }

  lemma HeadFits(v: seq<Item>, l: Limits)
    requires |v| == 41 && FitAll(HeadKinds(l), v, l)
    ensures FitAll(SubjectKinds(l), v[0..4], l) && FitAll(ScopeKinds(l), v[4..8], l)
    ensures FitAll(StandingKinds(l), v[8..13], l) && FitAll(TargetKinds(l), v[13..18], l)
    ensures FitAll(DemandKinds(l), v[18..23], l) && FitAll(BindingKinds(l), v[23..28], l)
    ensures FitAll(TenureKinds(l), v[28..34], l) && FitAll(EvidenceKinds(l), v[34..41], l)
  {
    hide SubjectKinds, ScopeKinds, StandingKinds, TargetKinds, DemandKinds, BindingKinds, TenureKinds, EvidenceKinds, FitAll;
    var k1, k2, k3, k4 := SubjectKinds(l), ScopeKinds(l), StandingKinds(l), TargetKinds(l);
    var k5, k6, k7, k8 := DemandKinds(l), BindingKinds(l), TenureKinds(l), EvidenceKinds(l);
    assert HeadKinds(l) == ([]) + k1 + (k2 + k3 + k4 + k5 + k6 + k7 + k8);
    FitSlice([], k1, k2 + k3 + k4 + k5 + k6 + k7 + k8, v, l);
    assert HeadKinds(l) == (k1) + k2 + (k3 + k4 + k5 + k6 + k7 + k8);
    FitSlice(k1, k2, k3 + k4 + k5 + k6 + k7 + k8, v, l);
    assert HeadKinds(l) == (k1 + k2) + k3 + (k4 + k5 + k6 + k7 + k8);
    FitSlice(k1 + k2, k3, k4 + k5 + k6 + k7 + k8, v, l);
    assert HeadKinds(l) == (k1 + k2 + k3) + k4 + (k5 + k6 + k7 + k8);
    FitSlice(k1 + k2 + k3, k4, k5 + k6 + k7 + k8, v, l);
    assert HeadKinds(l) == (k1 + k2 + k3 + k4) + k5 + (k6 + k7 + k8);
    FitSlice(k1 + k2 + k3 + k4, k5, k6 + k7 + k8, v, l);
    assert HeadKinds(l) == (k1 + k2 + k3 + k4 + k5) + k6 + (k7 + k8);
    FitSlice(k1 + k2 + k3 + k4 + k5, k6, k7 + k8, v, l);
    assert HeadKinds(l) == (k1 + k2 + k3 + k4 + k5 + k6) + k7 + (k8);
    FitSlice(k1 + k2 + k3 + k4 + k5 + k6, k7, k8, v, l);
    assert HeadKinds(l) == (k1 + k2 + k3 + k4 + k5 + k6 + k7) + k8 + ([]);
    FitSlice(k1 + k2 + k3 + k4 + k5 + k6 + k7, k8, [], v, l);
  }

  lemma RowsUnbuild(hs: seq<seq<Item>>, es: seq<seq<Item>>, l: Limits)
    requires FitRows(TransitionKinds(l), hs, l) && FitRows(EffectKinds(l), es, l)
    ensures TransitionRows(Transitions(hs)) == hs && EffectRows(Effects(es)) == es
  {
    hide OneTo, Pow256, ValidToken;
    forall i | 0 <= i < |hs| ensures TransitionItems(BuildTransition(hs[i])) == hs[i] { TransitionUnbuilds(hs[i], l); }
    forall i | 0 <= i < |es| ensures EffectItems(BuildEffect(es[i])) == es[i] { EffectUnbuilds(es[i], l); }
    hide TransitionItems, BuildTransition, EffectItems, BuildEffect;
  }

  lemma TransitionUnbuilds(v: seq<Item>, l: Limits)
    requires FitAll(TransitionKinds(l), v, l)
    ensures TransitionItems(BuildTransition(v)) == v
  {
    hide OneTo, Pow256, ValidToken;
    var ks := TransitionKinds(l);
    assert forall i :: 0 <= i < 6 ==> Fit(ks[i], v[i], l);
  }

  lemma EffectUnbuilds(v: seq<Item>, l: Limits)
    requires FitAll(EffectKinds(l), v, l)
    ensures EffectItems(BuildEffect(v)) == v
  {
    hide OneTo, Pow256, ValidToken;
    var ks := EffectKinds(l);
    assert forall i :: 0 <= i < 10 ==> Fit(ks[i], v[i], l);
  }

  lemma BuiltCollections(v: seq<Item>, history: seq<Transition>, effects: seq<Effect>)
    requires |v| == 41
    ensures BuildHead(v, history, effects).history == history && BuildHead(v, history, effects).effects == effects
  {
  }

  lemma NoClassInRows(l: Limits)
    ensures Class !in TransitionKinds(l) && Class !in EffectKinds(l)
  {
  }

  /** What the decoder accepts is within bounds, and the accepted bytes are the canonical encoding of
      the record exactly when the class was spelled plainly. */
  lemma AcceptedIsCanonicalIff(d: seq<byte>, l: Limits)
    requires Decode(d, l).Pass?
    ensures var Decoded(a, rest) := Decode(d, l).value;
      && WithinBounds(a, l) && |a.history| <= l.maxHistory && |a.effects| <= l.maxEffects
      && (Encode(a, l) + rest == d <==> PlainItems(HeadKinds(l), d, l))
  {
    hide HeadKinds, TransitionKinds, EffectKinds, BuildHead, HeadItems, Transitions, Effects, TransitionRows, EffectRows;
    hide DecodeItems, DecodeList, EncodeItems, EncodeList, FitAll, FitRows, PlainItems;
    var Reads(head, d1) := DecodeItems(HeadKinds(l), d, l).value;
    var Rows(hs, d2) := DecodeList(TransitionKinds(l), l.maxHistory, d1, l).value;
    var Rows(es, rest) := DecodeList(EffectKinds(l), l.maxEffects, d2, l).value;
    NoClassInRows(l);
    BuiltCollections(head, Transitions(hs), Effects(es));
    ItemsCanonicalIff(HeadKinds(l), d, l);
    ListCanonical(TransitionKinds(l), l.maxHistory, d1, l);
    ListCanonical(EffectKinds(l), l.maxEffects, d2, l);
    HeadUnbuilds(head, Transitions(hs), Effects(es), l);
    RowsUnbuild(hs, es, l);
    var e, eh, ee := EncodeItems(HeadKinds(l), head), EncodeList(TransitionKinds(l), hs), EncodeList(EffectKinds(l), es);
    assert e + (eh + ee) + rest == e + (eh + (ee + rest));
  }
}
