/** Vtxo policies (lib/src/vtxo/mod.rs) and the payload of an Ark address
    (lib/src/address.rs). The bech32m character layer is not modelled. */
module Address {
  import opened Basics
  import opened Encode

  // ----- vtxo policies

  ghost predicate ValidPolicy(onCurve: Bytes -> bool, p: Policy) {
    && IsKey(onCurve, p.user)
    && (p.HtlcSend? || p.HtlcRecv? ==> |p.hash| == 32 && p.expiry < 0x1_0000_0000)
    && (p.HtlcRecv? ==> p.delta < 0x1_0000)
  }

  /** The fields the two HTLC policies share. */
  function Htlc(k: Bytes, h: Bytes, e: nat): Bytes {
    k + (h + LE(e, 4))
  }

  function ReadHtlc(onCurve: Bytes -> bool, bs: Bytes): Read<(Bytes, Bytes, nat)> {
    var (k, r) :- ReadKey(onCurve, bs);
    var (h, r) :- ReadSlice(32, r);
    var (e, r) :- ReadLE(4, r);
    Ok((k, h, e), r)
  }

  lemma Assoc(a: Bytes, b: Bytes, c: Bytes)
    ensures (a + b) + c == a + (b + c)
  {
  }

  lemma HtlcBack(onCurve: Bytes -> bool, k: Bytes, h: Bytes, e: nat, rest: Bytes)
    requires IsKey(onCurve, k) && |h| == 32 && e < 0x1_0000_0000
    ensures ReadHtlc(onCurve, Htlc(k, h, e) + rest) == Ok((k, h, e), rest)
  {
    Widths();
    var le := LE(e, 4);
    Assoc(k, h + le, rest);
    Assoc(h, le, rest);
    ReadKeyBack(onCurve, k, h + (le + rest));
    ReadSliceBack(h, le + rest);
    ReadLEBack(e, 4, rest);
  }

  function EncodePolicy(p: Policy): Bytes {
    match p
    case Pubkey(k) => [0x00] + k
    case HtlcSend(k, h, e) => [0x01] + Htlc(k, h, e)
    case HtlcRecv(k, h, e, d) => [0x02] + (Htlc(k, h, e) + LE(d, 2))
    case Checkpoint(k) => [0x03] + k
  }

  function ReadPolicy(onCurve: Bytes -> bool, bs: Bytes): Read<Policy> {
    if bs == [] then Eof
    else if bs[0] == 0x00 then
      var (k, r) :- ReadKey(onCurve, bs[1..]);
      Ok(Pubkey(k), r)
    else if bs[0] == 0x03 then
      var (k, r) :- ReadKey(onCurve, bs[1..]);
      Ok(Checkpoint(k), r)
    else if bs[0] == 0x01 then
      var (f, r) :- ReadHtlc(onCurve, bs[1..]);
      Ok(HtlcSend(f.0, f.1, f.2), r)
    else if bs[0] == 0x02 then
      var (f, r) :- ReadHtlc(onCurve, bs[1..]);
      var (d, r) :- ReadLE(2, r);
      Ok(HtlcRecv(f.0, f.1, f.2, d), r)
    else Invalid
  }

  /** The positions of key, payment hash and expiry behind a type byte. */
  lemma HtlcForm(tag: Byte, k: Bytes, h: Bytes, e: nat, more: Bytes)
    requires |k| == 33 && |h| == 32
    ensures var bs := [tag] + (Htlc(k, h, e) + more);
            && |bs| == 70 + |more| && bs[0] == tag && bs[1..34] == k && bs[34..66] == h
            && bs[66..70] == LE(e, 4) && bs[70..] == more
  {
    var fields := Htlc(k, h, e);
    Assoc(k, h + LE(e, 4), more);
    Assoc(h, LE(e, 4), more);
    FourParts(k, h, LE(e, 4), more);
    var bs, body := [tag] + (fields + more), fields + more;
    assert bs[1..] == body;
    Shifted(bs, 1, body, 0, 33);
    Shifted(bs, 1, body, 33, 65);
    Shifted(bs, 1, body, 65, 69);
  }

  /** Where each policy has its type byte, key, payment hash, expiry and expiry delta. */
  lemma PolicyForm(onCurve: Bytes -> bool, p: Policy)
    requires ValidPolicy(onCurve, p)
    ensures var bs := EncodePolicy(p);
            && |bs| >= 34 && bs[1..34] == p.user
            && (p.Pubkey? ==> bs[0] == 0x00 && |bs| == 34) && (p.Checkpoint? ==> bs[0] == 0x03 && |bs| == 34)
            && (p.HtlcSend? ==>
                  bs[0] == 0x01 && |bs| == 70 && bs[34..66] == p.hash && bs[66..] == LE(p.expiry, 4))
            && (p.HtlcRecv? ==>
                  && bs[0] == 0x02 && |bs| == 72 && bs[34..66] == p.hash
                  && bs[66..70] == LE(p.expiry, 4) && bs[70..] == LE(p.delta, 2))
  {
    match p
    case HtlcSend(k, h, e) =>
      assert Htlc(k, h, e) + [] == Htlc(k, h, e);
      HtlcForm(0x01, k, h, e, []);
    case HtlcRecv(k, h, e, d) => HtlcForm(0x02, k, h, e, LE(d, 2));
    case _ =>
  }

  lemma TagBack(tag: Byte, body: Bytes, rest: Bytes)
    ensures [tag] + body + rest != []
    ensures ([tag] + body + rest)[0] == tag && ([tag] + body + rest)[1..] == body + rest
  {
  }

  lemma PolicyBack(onCurve: Bytes -> bool, p: Policy, rest: Bytes)
    requires ValidPolicy(onCurve, p)
    ensures ReadPolicy(onCurve, EncodePolicy(p) + rest) == Ok(p, rest)
  {
    match p
    case Pubkey(k) =>
      TagBack(0x00, k, rest);
      ReadKeyBack(onCurve, k, rest);
    case Checkpoint(k) =>
      TagBack(0x03, k, rest);
      ReadKeyBack(onCurve, k, rest);
    case HtlcSend(k, h, e) =>
      TagBack(0x01, Htlc(k, h, e), rest);
      HtlcBack(onCurve, k, h, e, rest);
    case HtlcRecv(k, h, e, d) =>
      Widths();
      TagBack(0x02, Htlc(k, h, e) + LE(d, 2), rest);
      Assoc(Htlc(k, h, e), LE(d, 2), rest);
      HtlcBack(onCurve, k, h, e, LE(d, 2) + rest);
      ReadLEBack(d, 2, rest);
  }

  // ----- deliveries

  datatype Delivery =
    | ServerBuiltin
    | ServerMailbox(blindedId: Bytes)
    | Unknown(deliveryType: Byte, data: Bytes)

  const BUILTIN: Byte := 0x00
  const MAILBOX: Byte := 0x01

  ghost predicate ValidDelivery(d: Delivery) {
    && (d.ServerMailbox? ==> |d.blindedId| == 33)
    && EncodedLength(d) < U64
  }

  function EncodedLength(d: Delivery): nat {
    match d
    case ServerBuiltin => 1
    case ServerMailbox(_) => 1 + 33
    case Unknown(_, data) => 1 + |data|
  }

  function EncodeDelivery(d: Delivery): Bytes {
    match d
    case ServerBuiltin => [BUILTIN]
    case ServerMailbox(id) => [MAILBOX] + id
    case Unknown(t, data) => [t] + data
  }

  function DecodeDelivery(bs: Bytes): Read<Delivery> {
    if bs == [] then Eof
    else if bs[0] == BUILTIN then Ok(ServerBuiltin, [])
    else if bs[0] == MAILBOX then
      if |bs| == 34 then Ok(ServerMailbox(bs[1..]), []) else Invalid
    else Ok(Unknown(bs[0], bs[1..]), [])
  }

  /** The type byte of an unknown delivery is not one of the known ones. */
  ghost predicate Unambiguous(d: Delivery) {
    d.Unknown? ==> d.deliveryType != BUILTIN && d.deliveryType != MAILBOX
  }

  lemma DeliveryBack(d: Delivery)
    requires ValidDelivery(d)
    ensures |EncodeDelivery(d)| == EncodedLength(d)
    ensures DecodeDelivery(EncodeDelivery(d)) == Ok(d, []) <==> Unambiguous(d)
  {
    if !d.ServerBuiltin? {
      assert EncodeDelivery(d)[1..] == if d.ServerMailbox? then d.blindedId else d.data;
    }
  }

  /** The type byte of each delivery, and what follows it. */
  lemma DeliveryForm(d: Delivery)
    ensures var bs := EncodeDelivery(d);
            && bs != []
            && match d
               case ServerBuiltin => bs == [0x00]
               case ServerMailbox(id) => bs[0] == 0x01 && bs[1..] == id
               case Unknown(t, data) => bs[0] == t && bs[1..] == data
  {
  }

  /** A delivery behind its length. */
  function Field(d: Delivery): Bytes {
    CompactSize(EncodedLength(d)) + EncodeDelivery(d)
  }

  function ReadField(bs: Bytes): Read<Delivery> {
    var (len, r) :- ReadCompactSize(bs);
    var (buf, r) :- ReadSlice(len, r);
    var (d, _) :- DecodeDelivery(buf);
    Ok(d, r)
  }

  lemma FieldBack(d: Delivery, rest: Bytes)
    requires ValidDelivery(d)
    ensures ReadField(Field(d) + rest) == Ok(d, rest) <==> Unambiguous(d)
    ensures ReadField(Field(d) + rest).Ok? ==> ReadField(Field(d) + rest).rest == rest
    ensures Field(d) != []
  {
    var body := EncodeDelivery(d);
    DeliveryBack(d);
    Assoc(CompactSize(EncodedLength(d)), body, rest);
    CompactSizeBack(EncodedLength(d), body + rest);
    ReadSliceBack(body, rest);
  }

  lemma FieldShrinks(bs: Bytes)
    ensures ReadField(bs).Ok? ==> |ReadField(bs).rest| < |bs|
  {
    if ReadField(bs).Ok? {
      CompactSizeCanonical(bs);
    }
  }

  function EncodeDeliveries(ds: seq<Delivery>): Bytes {
    if ds == [] then [] else Field(ds[0]) + EncodeDeliveries(ds[1..])
  }

  function ReadDeliveries(bs: Bytes): Read<seq<Delivery>>
    decreases |bs|
  {
    if bs == [] then Ok([], [])
    else
      FieldShrinks(bs);
      var (d, r) :- ReadField(bs);
      var (ds, r) :- ReadDeliveries(r);
      Ok([d] + ds, r)
  }

  ghost predicate AllValid(ds: seq<Delivery>) {
    forall d :: d in ds ==> ValidDelivery(d)
  }

  ghost predicate AllUnambiguous(ds: seq<Delivery>) {
    forall d :: d in ds ==> Unambiguous(d)
  }

  lemma FirstAndRest(ds: seq<Delivery>)
    requires ds != []
    ensures AllValid(ds) <==> ValidDelivery(ds[0]) && AllValid(ds[1..])
    ensures AllUnambiguous(ds) <==> Unambiguous(ds[0]) && AllUnambiguous(ds[1..])
  {
    assert ds == [ds[0]] + ds[1..];
  }

  lemma ReadsFirst(bs: Bytes, ds: seq<Delivery>)
    requires bs != [] && ds != []
    ensures ReadDeliveries(bs) == Ok(ds, []) <==>
              ReadField(bs).Ok? && ReadField(bs).value == ds[0] && ReadDeliveries(ReadField(bs).rest) == Ok(ds[1..], [])
  {
    assert ds == [ds[0]] + ds[1..];
  }

  lemma {:induction false} DeliveriesBack(ds: seq<Delivery>)
    requires AllValid(ds)
    ensures ReadDeliveries(EncodeDeliveries(ds)) == Ok(ds, []) <==> AllUnambiguous(ds)
  {
    if ds != [] {
      FirstAndRest(ds);
      FieldBack(ds[0], EncodeDeliveries(ds[1..]));
      DeliveriesBack(ds[1..]);
      ReadsFirst(EncodeDeliveries(ds), ds);
    }
  }

  // ----- the payload

  datatype Address = Address(testnet: bool, arkId: Bytes, policy: Policy, delivery: seq<Delivery>)

  ghost predicate ValidAddress(onCurve: Bytes -> bool, a: Address) {
    && |a.arkId| == 4
    && ValidPolicy(onCurve, a.policy)
    && AllValid(a.delivery)
  }

  /** The fields in front of the deliveries. */
  function Head(a: Address): Bytes {
    var buf := EncodePolicy(a.policy);
    a.arkId + (CompactSize(|buf|) + buf)
  }

  function EncodePayload(a: Address): Bytes {
    Head(a) + EncodeDeliveries(a.delivery)
  }

  /** The payload: the id, the length of the policy and the policy, then each delivery
      behind its length, in order. */
  lemma PayloadForm(a: Address)
    requires |a.arkId| == 4
    ensures var bs, policy := EncodePayload(a), EncodePolicy(a.policy);
            var size := |CompactSize(|policy|)|;
            && |bs| >= 4 + size + |policy| && bs[..4] == a.arkId && bs[4..4 + size] == CompactSize(|policy|)
            && bs[4 + size..4 + size + |policy|] == policy
            && bs[4 + size + |policy|..] == EncodeDeliveries(a.delivery)
  {
    var policy, tail := EncodePolicy(a.policy), EncodeDeliveries(a.delivery);
    var size := CompactSize(|policy|);
    Assoc(a.arkId, size + policy, tail);
    Assoc(size, policy, tail);
    FourParts(a.arkId, size, policy, tail);
  }

  lemma DeliveriesForm(d: Delivery, ds: seq<Delivery>)
    requires ValidDelivery(d)
    ensures EncodeDeliveries([]) == []
    ensures EncodeDeliveries([d] + ds) ==
              CompactSize(|EncodeDelivery(d)|) + EncodeDelivery(d) + EncodeDeliveries(ds)
  {
    DeliveryBack(d);
    assert ([d] + ds)[1..] == ds;
  }

  /** The policy a buffer starts with. Every failure counts as an invalid policy. */
  function PolicyIn(onCurve: Bytes -> bool, buf: Bytes): Read<Policy> {
    var r := ReadPolicy(onCurve, buf);
    if r.Ok? then r else InvalidPolicy
  }

  function DecodePayload(onCurve: Bytes -> bool, testnet: bool, bs: Bytes): Read<Address> {
    var (arkId, r) :- ReadSlice(4, bs);
    var (len, r) :- ReadCompactSize(r);
    var (buf, r) :- ReadSlice(len, r);
    var (policy, _) :- PolicyIn(onCurve, buf);
    var (delivery, r) :- ReadDeliveries(r);
    Ok(Address(testnet, arkId, policy, delivery), r)
  }

  /** The length-prefixed policy reads back as the buffer it was written from. */
  lemma HeadBack(a: Address, tail: Bytes)
    requires |a.arkId| == 4 && |EncodePolicy(a.policy)| < U64
    ensures var buf := EncodePolicy(a.policy);
            var rest := CompactSize(|buf|) + (buf + tail);
            && ReadSlice(4, Head(a) + tail) == Ok(a.arkId, rest)
            && ReadCompactSize(rest) == Ok(|buf|, buf + tail)
            && ReadSlice(|buf|, buf + tail) == Ok(buf, tail)
  {
    var buf := EncodePolicy(a.policy);
    Assoc(a.arkId, CompactSize(|buf|) + buf, tail);
    Assoc(CompactSize(|buf|), buf, tail);
    ReadSliceBack(a.arkId, CompactSize(|buf|) + (buf + tail));
    CompactSizeBack(|buf|, buf + tail);
    ReadSliceBack(buf, tail);
  }

  /** The round trip holds for any number of deliveries, and exactly when no
      unknown delivery claims a known type byte. */
  lemma PayloadBack(onCurve: Bytes -> bool, a: Address)
    requires ValidAddress(onCurve, a)
    ensures DecodePayload(onCurve, a.testnet, EncodePayload(a)) == Ok(a, []) <==> AllUnambiguous(a.delivery)
  {
    var buf, tail := EncodePolicy(a.policy), EncodeDeliveries(a.delivery);
    HeadBack(a, tail);
    PolicyInBack(onCurve, a.policy);
    DecodeSteps(onCurve, a.testnet, EncodePayload(a), a.arkId, CompactSize(|buf|) + (buf + tail), buf, buf + tail,
                a.policy, tail, a.delivery);
    DeliveriesBack(a.delivery);
  }

  lemma PolicyInBack(onCurve: Bytes -> bool, p: Policy)
    requires ValidPolicy(onCurve, p)
    ensures PolicyIn(onCurve, EncodePolicy(p)) == Ok(p, [])
  {
    assert EncodePolicy(p) + [] == EncodePolicy(p);
    PolicyBack(onCurve, p, []);
  }

  /** Decoding, once the parts in front of the deliveries have been read. */
  lemma DecodeSteps(onCurve: Bytes -> bool, testnet: bool, bs: Bytes, arkId: Bytes, r1: Bytes, buf: Bytes, r2: Bytes,
                    p: Policy, r3: Bytes, ds: seq<Delivery>)
    requires ReadSlice(4, bs) == Ok(arkId, r1) && ReadCompactSize(r1) == Ok(|buf|, r2)
    requires ReadSlice(|buf|, r2) == Ok(buf, r3) && PolicyIn(onCurve, buf) == Ok(p, [])
    ensures DecodePayload(onCurve, testnet, bs) == Ok(Address(testnet, arkId, p, ds), []) <==>
              ReadDeliveries(r3) == Ok(ds, [])
  {
  }

  // ----- which payloads are encodings

  lemma KeyCanonical(onCurve: Bytes -> bool, bs: Bytes)
    requires ReadKey(onCurve, bs).Ok?
    ensures IsKey(onCurve, ReadKey(onCurve, bs).value)
    ensures bs == ReadKey(onCurve, bs).value + ReadKey(onCurve, bs).rest
  {
  }

  lemma HtlcCanonical(onCurve: Bytes -> bool, bs: Bytes)
    requires ReadHtlc(onCurve, bs).Ok?
    ensures var f := ReadHtlc(onCurve, bs).value;
            && IsKey(onCurve, f.0) && |f.1| == 32 && f.2 < Pow256(4)
            && bs == Htlc(f.0, f.1, f.2) + ReadHtlc(onCurve, bs).rest
  {
    var f, rest := ReadHtlc(onCurve, bs).value, ReadHtlc(onCurve, bs).rest;
    KeyCanonical(onCurve, bs);
    var r := ReadKey(onCurve, bs).rest;
    ReadLECanonical(4, r[32..]);
    assert r == f.1 + (LE(f.2, 4) + rest);
    Assoc(f.0, f.1 + LE(f.2, 4), rest);
    Assoc(f.1, LE(f.2, 4), rest);
  }

  lemma Untag(bs: Bytes, tag: Byte, body: Bytes, rest: Bytes)
    requires bs != [] && bs[0] == tag && bs[1..] == body + rest
    ensures bs == [tag] + body + rest
  {
  }

  /** Whatever is read as a policy is exactly what would have been written for it. */
  lemma PolicyCanonical(onCurve: Bytes -> bool, bs: Bytes)
    requires ReadPolicy(onCurve, bs).Ok?
    ensures ValidPolicy(onCurve, ReadPolicy(onCurve, bs).value)
    ensures bs == EncodePolicy(ReadPolicy(onCurve, bs).value) + ReadPolicy(onCurve, bs).rest
  {
    var p, rest := ReadPolicy(onCurve, bs).value, ReadPolicy(onCurve, bs).rest;
    Widths();
    match p
    case Pubkey(k) =>
      KeyCanonical(onCurve, bs[1..]);
      Untag(bs, 0x00, k, rest);
    case Checkpoint(k) =>
      KeyCanonical(onCurve, bs[1..]);
      Untag(bs, 0x03, k, rest);
    case HtlcSend(k, h, e) =>
      HtlcCanonical(onCurve, bs[1..]);
      Untag(bs, 0x01, Htlc(k, h, e), rest);
    case HtlcRecv(k, h, e, d) =>
      HtlcCanonical(onCurve, bs[1..]);
      ReadLECanonical(2, ReadHtlc(onCurve, bs[1..]).rest);
      Assoc(Htlc(k, h, e), LE(d, 2), rest);
      Untag(bs, 0x02, Htlc(k, h, e) + LE(d, 2), rest);
  }

  /** The field announces a built-in delivery longer than its type byte. */
  ghost predicate Slack(bs: Bytes) {
    var len := ReadCompactSize(bs);
    len.Ok? && len.value > 1 && len.rest != [] && len.rest[0] == BUILTIN
  }

  /** No field of the series has slack. */
  ghost predicate Tight(bs: Bytes)
    decreases |bs|
  {
    if bs == [] || !ReadField(bs).Ok? then true
    else
      FieldShrinks(bs);
      !Slack(bs) && Tight(ReadField(bs).rest)
  }

  lemma DeliveryCanonical(buf: Bytes)
    requires DecodeDelivery(buf).Ok?
    ensures var d := DecodeDelivery(buf).value;
            if buf[0] == BUILTIN && |buf| > 1 then d.ServerBuiltin?
            else EncodeDelivery(d) == buf && EncodedLength(d) == |buf|
  {
    assert buf == [buf[0]] + buf[1..];
  }

  /** A field is what would have been written, or longer if it has slack. */
  lemma FieldCanonical(bs: Bytes)
    requires ReadField(bs).Ok?
    ensures var d, rest := ReadField(bs).value, ReadField(bs).rest;
            if Slack(bs) then |Field(d)| + |rest| < |bs| else bs == Field(d) + rest
  {
    CompactSizeCanonical(bs);
    var len, r := ReadCompactSize(bs).value, ReadCompactSize(bs).rest;
    var buf, rest := r[..len], r[len..];
    assert r == buf + rest;
    DeliveryCanonical(buf);
    assert len > 0 ==> buf[0] == r[0];
    if Slack(bs) {
      CompactSizeForm(1);
    } else {
      Assoc(CompactSize(len), buf, rest);
    }
  }

  lemma {:induction false} DeliveriesCanonical(bs: Bytes)
    requires ReadDeliveries(bs).Ok?
    ensures ReadDeliveries(bs).rest == []
    ensures var ds := ReadDeliveries(bs).value;
            if Tight(bs) then EncodeDeliveries(ds) == bs else |EncodeDeliveries(ds)| < |bs|
    decreases |bs|
  {
    if bs != [] {
      FieldShrinks(bs);
      FieldCanonical(bs);
      DeliveriesCanonical(ReadField(bs).rest);
      var ds := ReadDeliveries(bs).value;
      assert ds[0] == ReadField(bs).value && ds[1..] == ReadDeliveries(ReadField(bs).rest).value;
    }
  }

  lemma CompactSizeGrows(a: nat, b: nat)
    requires a <= b
    ensures |CompactSize(a)| <= |CompactSize(b)|
  {
  }

  /** Where the buffer of the policy starts, and what comes after it. */
  ghost function PolicyLength(bs: Bytes): nat
    requires 4 <= |bs| && ReadCompactSize(bs[4..]).Ok?
  {
    ReadCompactSize(bs[4..]).value
  }

  ghost function PolicyBuffer(bs: Bytes): Bytes
    requires HasParts(bs)
  {
    ReadCompactSize(bs[4..]).rest[..PolicyLength(bs)]
  }

  ghost function DeliveryBytes(bs: Bytes): Bytes
    requires HasParts(bs)
  {
    ReadCompactSize(bs[4..]).rest[PolicyLength(bs)..]
  }

  ghost predicate HasParts(bs: Bytes) {
    4 <= |bs| && ReadCompactSize(bs[4..]).Ok? && PolicyLength(bs) <= |ReadCompactSize(bs[4..]).rest|
  }

  /** What an accepted payload is read from. */
  lemma PayloadReads(onCurve: Bytes -> bool, testnet: bool, bs: Bytes)
    requires DecodePayload(onCurve, testnet, bs).Ok?
    ensures HasParts(bs)
    ensures var a := DecodePayload(onCurve, testnet, bs).value;
            && a.arkId == bs[..4]
            && ReadPolicy(onCurve, PolicyBuffer(bs)).Ok? && a.policy == ReadPolicy(onCurve, PolicyBuffer(bs)).value
            && ReadDeliveries(DeliveryBytes(bs)).Ok? && a.delivery == ReadDeliveries(DeliveryBytes(bs)).value
  {
  }

  /** The parts make up the whole payload. */
  lemma PayloadParts(bs: Bytes)
    requires HasParts(bs)
    ensures bs == bs[..4] + (CompactSize(|PolicyBuffer(bs)|) + PolicyBuffer(bs)) + DeliveryBytes(bs)
  {
    var after := bs[4..];
    CompactSizeCanonical(after);
    var size, buf, tail := CompactSize(PolicyLength(bs)), PolicyBuffer(bs), DeliveryBytes(bs);
    assert ReadCompactSize(after).rest == buf + tail;
    Assoc(size, buf, tail);
    Rejoin(bs, size + buf, tail);
  }

  lemma Rejoin(bs: Bytes, b: Bytes, c: Bytes)
    requires 4 <= |bs| && bs[4..] == b + c
    ensures bs == bs[..4] + b + c
  {
  }

  /** When decoding succeeds, and when the policy is to blame. */
  lemma PayloadErrors(onCurve: Bytes -> bool, testnet: bool, bs: Bytes)
    ensures DecodePayload(onCurve, testnet, bs).Ok? <==>
              HasParts(bs) && ReadPolicy(onCurve, PolicyBuffer(bs)).Ok? && ReadDeliveries(DeliveryBytes(bs)).Ok?
    ensures DecodePayload(onCurve, testnet, bs) == InvalidPolicy <==>
              HasParts(bs) && !ReadPolicy(onCurve, PolicyBuffer(bs)).Ok?
    ensures |bs| < 4 ==> DecodePayload(onCurve, testnet, bs) == Eof
    ensures DecodePayload(onCurve, testnet, bs).Ok? ==> DecodePayload(onCurve, testnet, bs).value.testnet == testnet
  {
    if HasParts(bs) && ReadPolicy(onCurve, PolicyBuffer(bs)).Ok? {
      DeliveryErrors(DeliveryBytes(bs));
    }
  }

  /** Deliveries never fail with the error reserved for policies. An empty one is cut
      short, and a mailbox id of the wrong length is invalid. */
  lemma {:induction false} DeliveryErrors(bs: Bytes)
    ensures ReadDeliveries(bs) != InvalidPolicy
    ensures DecodeDelivery(bs).Eof? <==> bs == []
    ensures DecodeDelivery(bs).Invalid? <==> bs != [] && bs[0] == 0x01 && |bs| != 34
    decreases |bs|
  {
    if bs != [] && ReadField(bs).Ok? {
      FieldShrinks(bs);
      DeliveryErrors(ReadField(bs).rest);
    }
  }

  /** An accepted payload is the encoding of the address it decodes to exactly if no
      bytes follow the policy in its buffer and no built-in delivery is longer than
      its type byte. */
  lemma PayloadCanonical(onCurve: Bytes -> bool, testnet: bool, bs: Bytes)
    requires DecodePayload(onCurve, testnet, bs).Ok?
    ensures HasParts(bs)
    ensures EncodePayload(DecodePayload(onCurve, testnet, bs).value) == bs <==>
              ReadPolicy(onCurve, PolicyBuffer(bs)).rest == [] && Tight(DeliveryBytes(bs))
  {
    PayloadReads(onCurve, testnet, bs);
    PayloadParts(bs);
    var a, buf, tail := DecodePayload(onCurve, testnet, bs).value, PolicyBuffer(bs), DeliveryBytes(bs);
    var written, rest := EncodePolicy(a.policy), ReadPolicy(onCurve, buf).rest;
    PolicyCanonical(onCurve, buf);
    CompactSizeGrows(|written|, |buf|);
    DeliveriesCanonical(tail);
    if rest == [] {
      assert written + [] == written;
    } else {
      assert |Head(a)| < |bs| - |tail|;
    }
  }

  // ----- the loops

  method EncodeField(d: Delivery, w: Writer)
    modifies w
    ensures w.out == old(w.out) + Field(d)
  {
    var _ := w.EmitCompactSize(EncodedLength(d));
    w.EmitSlice(EncodeDelivery(d));
    Assoc(old(w.out), CompactSize(EncodedLength(d)), EncodeDelivery(d));
  }

  method EncodeHead(a: Address, w: Writer)
    modifies w
    ensures w.out == old(w.out) + Head(a)
  {
    w.EmitSlice(a.arkId);
    var buf := EncodePolicy(a.policy);
    ghost var size := CompactSize(|buf|);
    var _ := w.EmitCompactSize(|buf|);
    w.EmitSlice(buf);
    Assoc(old(w.out) + a.arkId, size, buf);
    Assoc(old(w.out), a.arkId, size + buf);
  }

  /** Writing the first of the remaining deliveries leaves the final output alone. */
  lemma FieldNext(out: Bytes, ds: seq<Delivery>, i: nat)
    requires i < |ds|
    ensures out + Field(ds[i]) + EncodeDeliveries(ds[i + 1..]) == out + EncodeDeliveries(ds[i..])
  {
    assert ds[i..][1..] == ds[i + 1..];
    Assoc(out, Field(ds[i]), EncodeDeliveries(ds[i + 1..]));
  }

  method EncodeDeliveriesTo(ds: seq<Delivery>, w: Writer)
    modifies w
    ensures w.out == old(w.out) + EncodeDeliveries(ds)
  {
    assert ds[0..] == ds;
    for i := 0 to |ds|
      invariant w.out + EncodeDeliveries(ds[i..]) == old(w.out) + EncodeDeliveries(ds)
    {
      FieldNext(w.out, ds, i);
      EncodeField(ds[i], w);
    }
    assert w.out + [] == w.out;
  }

  method EncodePayloadTo(a: Address, w: Writer)
    modifies w
    ensures w.out == old(w.out) + EncodePayload(a)
  {
    EncodeHead(a, w);
    EncodeDeliveriesTo(a.delivery, w);
    Assoc(old(w.out), Head(a), EncodeDeliveries(a.delivery));
  }

  /** Decodes by consuming the input, one length-prefixed field at a time. */
  method DecodePayloadFrom(onCurve: Bytes -> bool, testnet: bool, bs: Bytes) returns (r: Read<Address>)
    ensures r == DecodePayload(onCurve, testnet, bs)
  {
    var arkId :- ReadSlice(4, bs);
    var len :- ReadCompactSize(arkId.1);
    var buf :- ReadSlice(len.0, len.1);
    var policy :- PolicyIn(onCurve, buf.0);
    var delivery :- DecodeDeliveriesFrom(buf.1);
    r := Ok(Address(testnet, arkId.0, policy.0, delivery.0), delivery.1);
  }

  method DecodeDeliveriesFrom(bs: Bytes) returns (r: Read<seq<Delivery>>)
    ensures r == ReadDeliveries(bs)
  {
    var left := bs;
    var delivery: seq<Delivery> := [];
    PrependNothing([], ReadDeliveries(bs));
    while left != []
      invariant ReadDeliveries(bs) == Prepend(delivery, ReadDeliveries(left))
      decreases |left|
    {
      FieldShrinks(left);
      var d := ReadField(left);
      if !d.Ok? {
        return d.PropagateFailure();
      }
      PrependStep(delivery, d.value, ReadDeliveries(d.rest));
      delivery, left := delivery + [d.value], d.rest;
    }
    PrependNothing(delivery, Ok([], []));
    r := Ok(delivery, []);
  }

  lemma PrependNothing(ds: seq<Delivery>, r: Read<seq<Delivery>>)
    ensures ds == [] ==> Prepend(ds, r) == r
    ensures r == Ok([], []) ==> Prepend(ds, r) == Ok(ds, [])
  {
    if r.Ok? {
      assert [] + r.value == r.value && ds + [] == ds;
    }
  }

  lemma PrependStep(ds: seq<Delivery>, d: Delivery, r: Read<seq<Delivery>>)
    ensures Prepend(ds, Prepend([d], r)) == Prepend(ds + [d], r)
  {
    if r.Ok? {
      assert ds + ([d] + r.value) == ds + [d] + r.value;
    }
  }

  ghost function Prepend(ds: seq<Delivery>, r: Read<seq<Delivery>>): Read<seq<Delivery>> {
    match r
    case Ok(more, rest) => Ok(ds + more, rest)
    case _ => r
  }
}
