/** The messages signed to prove ownership of a vtxo (lib/src/challenges.rs), as
    the byte strings fed to the hash engine. Injectivity is shown by a decoder. */
module Challenges {
  import opened Basics
  import opened Encode
  import opened Address

  // ----- big-endian integers

  function BE(v: nat, n: nat): (r: Bytes)
    ensures |r| == n
  {
    if n == 0 then [] else BE(v / 256, n - 1) + [v % 256]
  }

  function FromBE(b: Bytes): nat {
    if b == [] then 0 else 256 * FromBE(b[..|b| - 1]) + b[|b| - 1]
  }

  lemma {:induction false} BEBack(v: nat, n: nat)
    requires v < Pow256(n)
    ensures FromBE(BE(v, n)) == v
  {
    if n > 0 {
      BEBack(v / 256, n - 1);
      assert BE(v, n)[..n - 1] == BE(v / 256, n - 1);
    }
  }

  /** Byte `i` is the digit of weight `n - 1 - i` in base 256: most significant first. */
  lemma {:induction false} BEDigit(v: nat, n: nat, i: nat)
    requires i < n
    ensures BE(v, n)[i] == v / Pow256(n - 1 - i) % 256
  {
    if i < n - 1 {
      BEDigit(v / 256, n - 1, i);
      DivDiv(v, Pow256(n - 2 - i));
    }
  }

  function ReadBE8(bs: Bytes): Read<nat> {
    if 8 <= |bs| then Ok(FromBE(bs[..8]), bs[8..]) else Eof
  }

  lemma ReadBE8Back(v: nat, rest: Bytes)
    requires v < U64
    ensures ReadBE8(BE(v, 8) + rest) == Ok(v, rest)
  {
    Widths();
    BEBack(v, 8);
    ReadSliceBack(BE(v, 8), rest);
  }

  // ----- what is committed to

  /** Every compressed point: the curve itself plays no part here. */
  const ANY_POINT: Bytes -> bool := _ => true

  ghost predicate ValidRequest(q: SignedVtxoRequest) {
    && q.vtxo.amount < U64
    && ValidPolicy(ANY_POINT, q.vtxo.policy)
    && (q.cosignKey.Some? ==> IsKey(ANY_POINT, q.cosignKey.value))
  }

  ghost predicate ValidOffboard(o: TxOut) {
    o.value < U64 && |o.script| < U64
  }

  function EncodeRequest(q: SignedVtxoRequest): Bytes {
    BE(q.vtxo.amount, 8) + (EncodePolicy(q.vtxo.policy) + OptKey(q.cosignKey))
  }

  function ReadRequest(bs: Bytes): Read<SignedVtxoRequest> {
    var (a, r) :- ReadBE8(bs);
    var (p, r) :- ReadPolicy(ANY_POINT, r);
    var (k, r) :- ReadOptKey(ANY_POINT, r);
    Ok(SignedVtxoRequest(VtxoRequest(p, a), k), r)
  }

  /** A request: the amount in eight bytes, the policy, and the cosign key or a zero. */
  lemma RequestForm(q: SignedVtxoRequest)
    ensures var bs, policy := EncodeRequest(q), EncodePolicy(q.vtxo.policy);
            && |bs| >= 8 + |policy| && bs[8..8 + |policy|] == policy
            && (forall i :: 0 <= i < 8 ==> bs[i] == q.vtxo.amount / Pow256(7 - i) % 256)
            && bs[8 + |policy|..] == if q.cosignKey.Some? then q.cosignKey.value else [0]
  {
    forall i | 0 <= i < 8
      ensures EncodeRequest(q)[i] == q.vtxo.amount / Pow256(7 - i) % 256
    {
      BEDigit(q.vtxo.amount, 8, i);
    }
  }

  lemma RequestBack(q: SignedVtxoRequest, rest: Bytes)
    requires ValidRequest(q)
    ensures ReadRequest(EncodeRequest(q) + rest) == Ok(q, rest)
  {
    var p, k := EncodePolicy(q.vtxo.policy), OptKey(q.cosignKey);
    Assoc(BE(q.vtxo.amount, 8), p + k, rest);
    Assoc(p, k, rest);
    ReadBE8Back(q.vtxo.amount, p + (k + rest));
    PolicyBack(ANY_POINT, q.vtxo.policy, k + rest);
    OptKeyBack(ANY_POINT, q.cosignKey, rest);
  }

  /** The consensus encoding of a transaction output. */
  function EncodeOffboard(o: TxOut): Bytes {
    LE(o.value, 8) + (CompactSize(|o.script|) + o.script)
  }

  function ReadOffboard(bs: Bytes): Read<TxOut> {
    var (v, r) :- ReadLE(8, bs);
    var (n, r) :- ReadCompactSize(r);
    var (s, r) :- ReadSlice(n, r);
    Ok(TxOut(s, v), r)
  }

  /** An output: the value in eight bytes, least significant first, and the script behind
      its length. */
  lemma OffboardForm(o: TxOut)
    ensures var bs, size := EncodeOffboard(o), |CompactSize(|o.script|)|;
            && |bs| == 8 + size + |o.script|
            && (forall i :: 0 <= i < 8 ==> bs[i] == o.value / Pow256(i) % 256)
            && bs[8..8 + size] == CompactSize(|o.script|) && bs[8 + size..] == o.script
  {
    forall i | 0 <= i < 8
      ensures EncodeOffboard(o)[i] == o.value / Pow256(i) % 256
    {
      LEDigit(o.value, 8, i);
    }
  }

  lemma OffboardBack(o: TxOut, rest: Bytes)
    requires ValidOffboard(o)
    ensures ReadOffboard(EncodeOffboard(o) + rest) == Ok(o, rest)
  {
    Widths();
    var size := CompactSize(|o.script|);
    Assoc(LE(o.value, 8), size + o.script, rest);
    Assoc(size, o.script, rest);
    ReadLEBack(o.value, 8, size + (o.script + rest));
    CompactSizeBack(|o.script|, o.script + rest);
    ReadSliceBack(o.script, rest);
  }

  function EncodeRequests(qs: seq<SignedVtxoRequest>): Bytes {
    if qs == [] then [] else EncodeRequest(qs[0]) + EncodeRequests(qs[1..])
  }

  function ReadRequests(n: nat, bs: Bytes): Read<seq<SignedVtxoRequest>> {
    if n == 0 then Ok([], bs)
    else
      var (q, r) :- ReadRequest(bs);
      var (qs, r) :- ReadRequests(n - 1, r);
      Ok([q] + qs, r)
  }

  ghost predicate ValidRequests(qs: seq<SignedVtxoRequest>) {
    forall q :: q in qs ==> ValidRequest(q)
  }

  lemma FirstRequest(qs: seq<SignedVtxoRequest>)
    requires qs != [] && ValidRequests(qs)
    ensures ValidRequest(qs[0]) && ValidRequests(qs[1..]) && qs == [qs[0]] + qs[1..]
  {
  }

  lemma {:induction false} RequestsBack(qs: seq<SignedVtxoRequest>, rest: Bytes)
    requires ValidRequests(qs)
    ensures ReadRequests(|qs|, EncodeRequests(qs) + rest) == Ok(qs, rest)
  {
    if qs == [] {
      assert [] + rest == rest;
    } else {
      FirstRequest(qs);
      Assoc(EncodeRequest(qs[0]), EncodeRequests(qs[1..]), rest);
      RequestBack(qs[0], EncodeRequests(qs[1..]) + rest);
      RequestsBack(qs[1..], rest);
    }
  }

  function EncodeOffboards(os: seq<TxOut>): Bytes {
    if os == [] then [] else EncodeOffboard(os[0]) + EncodeOffboards(os[1..])
  }

  function ReadOffboards(n: nat, bs: Bytes): Read<seq<TxOut>> {
    if n == 0 then Ok([], bs)
    else
      var (o, r) :- ReadOffboard(bs);
      var (os, r) :- ReadOffboards(n - 1, r);
      Ok([o] + os, r)
  }

  ghost predicate ValidOffboards(os: seq<TxOut>) {
    forall o :: o in os ==> ValidOffboard(o)
  }

  lemma FirstOffboard(os: seq<TxOut>)
    requires os != [] && ValidOffboards(os)
    ensures ValidOffboard(os[0]) && ValidOffboards(os[1..]) && os == [os[0]] + os[1..]
  {
  }

  lemma {:induction false} OffboardsBack(os: seq<TxOut>, rest: Bytes)
    requires ValidOffboards(os)
    ensures ReadOffboards(|os|, EncodeOffboards(os) + rest) == Ok(os, rest)
  {
    if os == [] {
      assert [] + rest == rest;
    } else {
      FirstOffboard(os);
      Assoc(EncodeOffboard(os[0]), EncodeOffboards(os[1..]), rest);
      OffboardBack(os[0], EncodeOffboards(os[1..]) + rest);
      OffboardsBack(os[1..], rest);
    }
  }

  // ----- the three messages

  function Ascii(s: string): (r: Bytes)
    ensures |r| == |s| && forall i :: 0 <= i < |s| && s[i] < 256 as char ==> r[i] == s[i] as int
  {
    seq(|s|, i requires 0 <= i < |s| => s[i] as int % 256)
  }

  const ROUND_PREFIX := "Ark round input ownership proof "
  const LIGHTNING_PREFIX := "Lightning receive VTXO challenge"
  const STATUS_PREFIX := "Ark VTXO status query challenge "

  /** What each kind of challenge commits to. */
  datatype Proof =
    | RoundInput(challenge: Bytes, vtxoId: Bytes, requests: seq<SignedVtxoRequest>, offboards: seq<TxOut>)
    | LightningReceive(paymentHash: Bytes, vtxoId: Bytes)
    | VtxoStatus(vtxoId: Bytes)

  ghost predicate ValidProof(p: Proof) {
    && |p.vtxoId| == 36
    && (p.RoundInput? ==>
          && |p.challenge| == 32
          && |p.requests| < U64 && ValidRequests(p.requests)
          && |p.offboards| < U64 && ValidOffboards(p.offboards))
    && (p.LightningReceive? ==> |p.paymentHash| == 32)
  }

  function Counted(requests: seq<SignedVtxoRequest>, offboards: seq<TxOut>): Bytes {
    BE(|requests|, 8) + (EncodeRequests(requests) + (BE(|offboards|, 8) + EncodeOffboards(offboards)))
  }

  function ReadCounted(bs: Bytes): Read<(seq<SignedVtxoRequest>, seq<TxOut>)> {
    var (n, r) :- ReadBE8(bs);
    var (qs, r) :- ReadRequests(n, r);
    var (m, r) :- ReadBE8(r);
    var (os, r) :- ReadOffboards(m, r);
    Ok((qs, os), r)
  }

  lemma CountedBack(requests: seq<SignedVtxoRequest>, offboards: seq<TxOut>)
    requires |requests| < U64 && ValidRequests(requests)
    requires |offboards| < U64 && ValidOffboards(offboards)
    ensures ReadCounted(Counted(requests, offboards)) == Ok((requests, offboards), [])
  {
    var os := EncodeOffboards(offboards);
    ReadBE8Back(|requests|, EncodeRequests(requests) + (BE(|offboards|, 8) + os));
    RequestsBack(requests, BE(|offboards|, 8) + os);
    ReadBE8Back(|offboards|, os);
    assert os + [] == os;
    OffboardsBack(offboards, []);
  }

  function Prefix(p: Proof): (r: Bytes)
    ensures |r| == 32
  {
    match p
    case RoundInput(_, _, _, _) => Ascii(ROUND_PREFIX)
    case LightningReceive(_, _) => Ascii(LIGHTNING_PREFIX)
    case VtxoStatus(_) => Ascii(STATUS_PREFIX)
  }

  function Body(p: Proof): Bytes {
    match p
    case RoundInput(c, id, qs, os) => c + (id + Counted(qs, os))
    case LightningReceive(h, id) => h + id
    case VtxoStatus(id) => id
  }

  /** The bytes that are hashed and signed. */
  function Message(p: Proof): Bytes {
    Prefix(p) + Body(p)
  }

  lemma CountedLayout(qs: seq<SignedVtxoRequest>, os: seq<TxOut>)
    ensures var t, n := Counted(qs, os), |EncodeRequests(qs)|;
            && |t| == 16 + n + |EncodeOffboards(os)| && t[..8] == BE(|qs|, 8) && t[8..8 + n] == EncodeRequests(qs)
            && t[8 + n..16 + n] == BE(|os|, 8) && t[16 + n..] == EncodeOffboards(os)
  {
    CountedParts(BE(|qs|, 8), EncodeRequests(qs), BE(|os|, 8), EncodeOffboards(os));
  }

  lemma CountedParts(a: Bytes, b: Bytes, c: Bytes, d: Bytes)
    requires |a| == 8 && |c| == 8
    ensures var t, n := a + (b + (c + d)), |b|;
            && |t| == 16 + n + |d| && t[..8] == a && t[8..8 + n] == b
            && t[8 + n..16 + n] == c && t[16 + n..] == d
  {
    FourParts(a, b, c, d);
  }

  lemma RoundHead(c: Bytes, id: Bytes, qs: seq<SignedVtxoRequest>, os: seq<TxOut>)
    requires |c| == 32 && |id| == 36
    ensures var m, t := Message(RoundInput(c, id, qs, os)), Counted(qs, os);
            && |m| == 100 + |t| && m[100..] == t
            && m[..32] == Ascii(ROUND_PREFIX) && m[32..64] == c && m[64..100] == id
  {
    FourParts(Ascii(ROUND_PREFIX), c, id, Counted(qs, os));
  }

  lemma RoundTail(m: Bytes, t: Bytes, n: nat)
    requires |m| == 100 + |t| && m[100..] == t && 16 + n <= |t|
    ensures m[100..108] == t[..8] && m[108..108 + n] == t[8..8 + n]
    ensures m[108 + n..116 + n] == t[8 + n..16 + n] && m[116 + n..] == t[16 + n..]
  {
    Shifted(m, 100, t, 0, 8);
    Shifted(m, 100, t, 8, 8 + n);
    Shifted(m, 100, t, 8 + n, 16 + n);
  }

  /** Where a round proof has its prefix, challenge, vtxo id and number of requests; the
      requests, the number of offboards and the offboards follow. */
  lemma RoundLayout(c: Bytes, id: Bytes, qs: seq<SignedVtxoRequest>, os: seq<TxOut>)
    requires |c| == 32 && |id| == 36
    ensures var m, n := Message(RoundInput(c, id, qs, os)), |EncodeRequests(qs)|;
            && |m| == 116 + n + |EncodeOffboards(os)|
            && m[..32] == Ascii("Ark round input ownership proof ") && m[32..64] == c && m[64..100] == id
            && m[100..108] == BE(|qs|, 8) && m[108..108 + n] == EncodeRequests(qs)
            && m[108 + n..116 + n] == BE(|os|, 8) && m[116 + n..] == EncodeOffboards(os)
  {
    RoundHead(c, id, qs, os);
    CountedLayout(qs, os);
    RoundTail(Message(RoundInput(c, id, qs, os)), Counted(qs, os), |EncodeRequests(qs)|);
  }

  /** The lists are written element by element, in order. */
  lemma ListsForm(q: SignedVtxoRequest, qs: seq<SignedVtxoRequest>, o: TxOut, os: seq<TxOut>)
    ensures EncodeRequests([]) == [] && EncodeRequests([q] + qs) == EncodeRequest(q) + EncodeRequests(qs)
    ensures EncodeOffboards([]) == [] && EncodeOffboards([o] + os) == EncodeOffboard(o) + EncodeOffboards(os)
  {
    assert ([q] + qs)[1..] == qs && ([o] + os)[1..] == os;
  }

  /** The two other kinds of proof, byte for byte. */
  lemma LightningLayout(hash: Bytes, id: Bytes)
    requires |hash| == 32 && |id| == 36
    ensures var m := Message(LightningReceive(hash, id));
            |m| == 100 && m[..32] == Ascii("Lightning receive VTXO challenge") && m[32..64] == hash && m[64..] == id
  {
    assert id + [] == id;
    FourParts(Ascii(LIGHTNING_PREFIX), hash, id, []);
  }

  lemma StatusLayout(id: Bytes)
    requires |id| == 36
    ensures var m := Message(VtxoStatus(id));
            |m| == 68 && m[..32] == Ascii("Ark VTXO status query challenge ") && m[32..] == id
  {
  }

  lemma SplitAt(a: Bytes, b: Bytes, c: Bytes, d: Bytes)
    requires |a| == |c| && a + b == c + d
    ensures a == c && b == d
  {
    ReadSliceBack(a, b);
    ReadSliceBack(c, d);
  }

  lemma PrefixesDiffer(p: Proof, q: Proof)
    requires Prefix(p) == Prefix(q)
    ensures p.RoundInput? == q.RoundInput? && p.LightningReceive? == q.LightningReceive?
  {
    assert Prefix(p)[0] == Prefix(q)[0];
    assert Prefix(p)[4] == Prefix(q)[4];
    assert Ascii(ROUND_PREFIX)[0] == 65 && Ascii(ROUND_PREFIX)[4] == 114;
    assert Ascii(LIGHTNING_PREFIX)[0] == 76;
    assert Ascii(STATUS_PREFIX)[0] == 65 && Ascii(STATUS_PREFIX)[4] == 86;
  }

  /** Different proofs, of the same or of different kinds, sign different bytes. */
  lemma MessageInjective(p: Proof, q: Proof)
    requires ValidProof(p) && ValidProof(q)
    requires Message(p) == Message(q)
    ensures p == q
  {
    SplitAt(Prefix(p), Body(p), Prefix(q), Body(q));
    PrefixesDiffer(p, q);
    match p
    case RoundInput(c, id, qs, os) =>
      SplitAt(c, id + Counted(qs, os), q.challenge, q.vtxoId + Counted(q.requests, q.offboards));
      SplitAt(id, Counted(qs, os), q.vtxoId, Counted(q.requests, q.offboards));
      CountedBack(qs, os);
      CountedBack(q.requests, q.offboards);
    case LightningReceive(h, id) =>
      SplitAt(h, id, q.paymentHash, q.vtxoId);
    case VtxoStatus(id) =>
  }

  // ----- feeding the engine

  lemma RequestNext(out: Bytes, qs: seq<SignedVtxoRequest>, i: nat)
    requires i < |qs|
    ensures out + EncodeRequest(qs[i]) + EncodeRequests(qs[i + 1..]) == out + EncodeRequests(qs[i..])
  {
    assert qs[i..][1..] == qs[i + 1..];
    Assoc(out, EncodeRequest(qs[i]), EncodeRequests(qs[i + 1..]));
  }

  method FeedRequests(engine: Writer, qs: seq<SignedVtxoRequest>)
    modifies engine
    ensures engine.out == old(engine.out) + EncodeRequests(qs)
  {
    assert qs[0..] == qs;
    for i := 0 to |qs|
      invariant engine.out + EncodeRequests(qs[i..]) == old(engine.out) + EncodeRequests(qs)
    {
      RequestNext(engine.out, qs, i);
      engine.EmitSlice(EncodeRequest(qs[i]));
    }
    assert engine.out + [] == engine.out;
  }

  lemma OffboardNext(out: Bytes, os: seq<TxOut>, i: nat)
    requires i < |os|
    ensures out + EncodeOffboard(os[i]) + EncodeOffboards(os[i + 1..]) == out + EncodeOffboards(os[i..])
  {
    assert os[i..][1..] == os[i + 1..];
    Assoc(out, EncodeOffboard(os[i]), EncodeOffboards(os[i + 1..]));
  }

  method FeedOffboards(engine: Writer, os: seq<TxOut>)
    modifies engine
    ensures engine.out == old(engine.out) + EncodeOffboards(os)
  {
    assert os[0..] == os;
    for i := 0 to |os|
      invariant engine.out + EncodeOffboards(os[i..]) == old(engine.out) + EncodeOffboards(os)
    {
      OffboardNext(engine.out, os, i);
      engine.EmitSlice(EncodeOffboard(os[i]));
    }
    assert engine.out + [] == engine.out;
  }

  method FeedCounted(engine: Writer, qs: seq<SignedVtxoRequest>, os: seq<TxOut>)
    modifies engine
    ensures engine.out == old(engine.out) + Counted(qs, os)
  {
    ghost var out := engine.out;
    engine.EmitSlice(BE(|qs|, 8));
    FeedRequests(engine, qs);
    engine.EmitSlice(BE(|os|, 8));
    FeedOffboards(engine, os);
    Nest(out, BE(|qs|, 8), EncodeRequests(qs), BE(|os|, 8), EncodeOffboards(os));
  }

  lemma Nest(a: Bytes, b: Bytes, c: Bytes, d: Bytes, e: Bytes)
    ensures a + b + c + d + e == a + (b + (c + (d + e)))
  {
  }

  /** `RoundAttemptChallenge::as_signable_message`, up to the final hash. */
  method RoundMessage(c: Bytes, id: Bytes, qs: seq<SignedVtxoRequest>, os: seq<TxOut>) returns (out: Bytes)
    ensures out == Message(RoundInput(c, id, qs, os))
  {
    var engine := new Writer();
    engine.EmitSlice(Ascii(ROUND_PREFIX));
    engine.EmitSlice(c);
    engine.EmitSlice(id);
    FeedCounted(engine, qs, os);
    out := engine.out;
    Nest([], Ascii(ROUND_PREFIX), c, id, Counted(qs, os));
  }

  /** `LightningReceiveChallenge::as_signable_message`, up to the final hash. */
  method LightningMessage(hash: Bytes, id: Bytes) returns (out: Bytes)
    ensures out == Message(LightningReceive(hash, id))
  {
    var engine := new Writer();
    engine.EmitSlice(Ascii(LIGHTNING_PREFIX));
    engine.EmitSlice(hash);
    engine.EmitSlice(id);
    out := engine.out;
    assert [] + Ascii(LIGHTNING_PREFIX) == Ascii(LIGHTNING_PREFIX);
    Assoc(Ascii(LIGHTNING_PREFIX), hash, id);
  }

  /** `VtxoStatusChallenge::as_signable_message`, up to the final hash. */
  method StatusMessage(id: Bytes) returns (out: Bytes)
    ensures out == Message(VtxoStatus(id))
  {
    var engine := new Writer();
    engine.EmitSlice(Ascii(STATUS_PREFIX));
    engine.EmitSlice(id);
    out := engine.out;
  }
}
