/** Tracking of a round attempt whose forfeits were signed (`UnconfirmedRound` in
    bark/src/round.rs): confirmation, and double-spend detection with memory
    across calls. */
module Tracking {
  import opened Collections
  import opened Basics

  const BLOCK_TIME: nat := 600

  /** A funding transaction. The id fixes the inputs but not the witnesses, so it
      stays the same when the inputs get signed. */
  datatype FundingTx = FundingTx(txid: Txid, prevs: seq<OutPoint>, signed: seq<bool>) {
    predicate IsSigned() { false !in signed }
  }

  datatype Tracked = Tracked(tx: FundingTx, vtxos: seq<nat>, spenders: seq<Option<Txid>>, firstAt: Option<nat>)

  ghost predicate Wellformed(t: Tracked) {
    && |t.spenders| == |t.tx.prevs|
    && forall i :: 0 <= i < |t.spenders| ==> t.spenders[i] != Some(t.tx.txid)
  }

  function NewTracked(tx: FundingTx, vtxos: seq<nat>): (t: Tracked)
    ensures Wellformed(t) && t.tx == tx && t.vtxos == vtxos && t.firstAt.None?
    ensures forall i :: 0 <= i < |t.spenders| ==> t.spenders[i].None?
  {
    Tracked(tx, vtxos, seq(|tx.prevs|, _ => None), None)
  }

  // ----- what the chain source may answer

  datatype Answer<+T> = NoAnswer | Got(value: T)
  datatype TxStatus = NotFound | Mempool | Confirmed(height: nat)

  /** A spent output names its spender and its status; either may be missing. */
  datatype OutputInfo = OutputInfo(spent: bool, txid: Option<Txid>, status: Option<Option<nat>>)

  datatype Source =
    | Esplora(txStatus: Txid -> Answer<TxStatus>, outputStatus: OutPoint -> Answer<Option<OutputInfo>>)
    | Bitcoind(unspent: OutPoint -> Answer<bool>, now: nat)

  /** What one call of `sync` sees. */
  datatype View = View(own: Answer<TxStatus>, tip: Answer<nat>, fetched: Option<seq<bool>>, source: Source)

  datatype Verdict = RoundConfirmed | DoubleSpent(spender: Option<Txid>) | Unconfirmed

  // ----- double spends as Esplora reports them

  type Sighting = Option<(nat, Txid)>

  /** One input looked at: the remembered spender afterwards, and the confirmed
      conflicting spender seen, if any; or an error after updating the memory. */
  datatype Looked = LookError(memo: Option<Txid>) | Looked(memo: Option<Txid>, seen: Sighting)

  function LookAtOutput(own: Txid, answer: Answer<Option<OutputInfo>>): Looked {
    match answer
    case NoAnswer => LookError(None)
    case Got(None) => Looked(None, None)
    case Got(Some(info)) =>
      if !info.spent || info.txid == Some(own) then Looked(None, None)
      else if info.txid.None? then LookError(None)
      else if info.status.None? then LookError(info.txid)
      else if info.status.value.None? then Looked(info.txid, None)
      else Looked(info.txid, Some((info.status.value.value, info.txid.value)))
  }

  function LookAt(own: Txid, prev: OutPoint, memo: Option<Txid>, src: Source): Looked
    requires src.Esplora?
  {
    if memo.None? then LookAtOutput(own, src.outputStatus(prev))
    else match src.txStatus(memo.value)
      case NoAnswer => LookError(memo)
      case Got(Confirmed(h)) => Looked(memo, Some((h, memo.value)))
      case Got(Mempool) => Looked(memo, None)
      case Got(NotFound) => LookAtOutput(own, src.outputStatus(prev))
  }

  /** The ordering of optional pairs: nothing first, then by height, then by id. */
  predicate AtMost(a: Sighting, b: Sighting) {
    a.None? || (b.Some? && (a.value.0 < b.value.0 || (a.value.0 == b.value.0 && a.value.1 <= b.value.1)))
  }

  function MaxSeen(a: Sighting, b: Sighting): Sighting {
    if AtMost(b, a) then a else b
  }

  /** The pass over the inputs from index `i` on: the memory and the latest sighting. */
  function Pass(t: Tracked, src: Source, i: nat, memo: seq<Option<Txid>>, best: Sighting)
    : (r: (seq<Option<Txid>>, Answer<Sighting>))
    requires src.Esplora? && i <= |t.tx.prevs| == |memo|
    ensures |r.0| == |memo|
    decreases |memo| - i
  {
    if i == |memo| then (memo, Got(best))
    else match LookAt(t.tx.txid, t.tx.prevs[i], memo[i], src)
      case LookError(m) => (memo[i := m], NoAnswer)
      case Looked(m, seen) => Pass(t, src, i + 1, memo[i := m], MaxSeen(best, seen))
  }

  // ----- the same in terms of what the chain source answers

  /** The chain source named this transaction as the spender of the output. */
  ghost predicate Reported(src: Source, prev: OutPoint, x: Txid) {
    && src.Esplora? && src.outputStatus(prev).Got? && src.outputStatus(prev).value.Some?
    && src.outputStatus(prev).value.value.spent && src.outputStatus(prev).value.value.txid == Some(x)
  }

  /** The chain source is asked about the output itself: no spender is remembered for
      this input, or the one that is has disappeared. */
  ghost predicate LooksUp(t: Tracked, src: Source, j: nat)
    requires src.Esplora? && j < |t.spenders|
  {
    t.spenders[j].None? || src.txStatus(t.spenders[j].value) == Got(NotFound)
  }

  /** Everything asked about this input was answered. */
  ghost predicate AnsweredAt(t: Tracked, src: Source, j: nat)
    requires src.Esplora? && j < |t.spenders| == |t.tx.prevs|
  {
    if !LooksUp(t, src, j) then src.txStatus(t.spenders[j].value).Got?
    else
      var answer := src.outputStatus(t.tx.prevs[j]);
      answer.Got? && (answer.value.Some? && answer.value.value.spent && answer.value.value.txid != Some(t.tx.txid) ==>
                        answer.value.value.txid.Some? && answer.value.value.status.Some?)
  }

  /** At input `j` a conflicting transaction is confirmed at this height: the one
      remembered, or else one reported as the spender. */
  ghost predicate SeenAt(t: Tracked, src: Source, j: nat, s: (nat, Txid))
    requires src.Esplora? && Wellformed(t)
  {
    j < |t.tx.prevs| &&
    if LooksUp(t, src, j)
    then && s.1 != t.tx.txid && Reported(src, t.tx.prevs[j], s.1)
         && src.outputStatus(t.tx.prevs[j]).value.value.status == Some(Some(s.0))
    else t.spenders[j] == Some(s.1) && src.txStatus(s.1) == Got(Confirmed(s.0))
  }

  /** After looking at input `j` this spender is remembered: it was before and has not
      disappeared, or it is a foreign one that was reported now. */
  ghost predicate RemembersAt(t: Tracked, src: Source, j: nat, x: Txid)
    requires src.Esplora? && Wellformed(t) && j < |t.tx.prevs|
  {
    if LooksUp(t, src, j) then x != t.tx.txid && Reported(src, t.tx.prevs[j], x) else t.spenders[j] == Some(x)
  }

  /** What looking at an input comes to. */
  lemma LookExact(t: Tracked, src: Source, j: nat)
    requires src.Esplora? && Wellformed(t) && j < |t.tx.prevs|
    ensures var l := LookAt(t.tx.txid, t.tx.prevs[j], t.spenders[j], src);
            && (l.Looked? <==> AnsweredAt(t, src, j))
            && (forall s :: l.Looked? && l.seen == Some(s) <==> SeenAt(t, src, j, s))
            && (forall x: Txid :: l.memo == Some(x) <==> RemembersAt(t, src, j, x))
  {
  }

  /** The outcome of a pass bounds every sighting from `i` on, and is one of them
      unless it is what the pass started with. */
  lemma {:induction false} PassBounds(t: Tracked, src: Source, i: nat, memo: seq<Option<Txid>>, best: Sighting)
    requires src.Esplora? && Wellformed(t) && i <= |t.tx.prevs| == |memo|
    requires memo[i..] == t.spenders[i..]
    requires Pass(t, src, i, memo, best).1.Got?
    ensures var last := Pass(t, src, i, memo, best).1.value;
            && AtMost(best, last)
            && (forall j, s :: i <= j && SeenAt(t, src, j, s) ==> AtMost(Some(s), last))
            && (last == best || exists j: nat :: i <= j && last.Some? && SeenAt(t, src, j, last.value))
    decreases |memo| - i
  {
    if i < |memo| {
      assert memo[i] == memo[i..][0] == t.spenders[i..][0] == t.spenders[i];
      var l := LookAt(t.tx.txid, t.tx.prevs[i], memo[i], src);
      LookExact(t, src, i);
      var memo' := memo[i := l.memo];
      assert memo'[i + 1..] == memo[i..][1..] == t.spenders[i..][1..] == t.spenders[i + 1..];
      PassBounds(t, src, i + 1, memo', MaxSeen(best, l.seen));
      if l.seen.Some? {
        assert SeenAt(t, src, i, l.seen.value);
      }
    }
  }

  lemma {:induction false} PassKeepsWellformed(t: Tracked, src: Source, i: nat, memo: seq<Option<Txid>>, best: Sighting)
    requires src.Esplora? && i <= |t.tx.prevs| == |memo|
    requires Wellformed(t.(spenders := memo))
    ensures Wellformed(t.(spenders := Pass(t, src, i, memo, best).0))
    decreases |memo| - i
  {
    if i < |memo| {
      var l := LookAt(t.tx.txid, t.tx.prevs[i], memo[i], src);
      assert l.memo != Some(t.tx.txid);
      if l.Looked? {
        PassKeepsWellformed(t, src, i + 1, memo[i := l.memo], MaxSeen(best, l.seen));
      }
    }
  }

  /** Confirmations of a transaction in a block of the given height. */
  function Confirmations(tip: nat, height: nat): int {
    tip - (height - 1)
  }

  datatype Check = CheckError | Conflict(spender: Option<Txid>) | NoConflict

  function EsploraCheck(t: Tracked, v: View, required: nat): (Tracked, Check)
    requires v.source.Esplora? && |t.spenders| == |t.tx.prevs|
  {
    var (memo, last) := Pass(t, v.source, 0, t.spenders, None);
    var t' := t.(spenders := memo);
    match last
    case NoAnswer => (t', CheckError)
    case Got(None) => (t', NoConflict)
    case Got(Some(s)) =>
      if v.tip.NoAnswer? then (t', CheckError)
      else if Confirmations(v.tip.value, s.0) >= required then (t', Conflict(Some(s.1)))
      else (t', NoConflict)
  }

  /** Everything asked about any input was answered. */
  ghost predicate AllAnswered(t: Tracked, src: Source)
    requires src.Esplora? && Wellformed(t)
  {
    forall j :: 0 <= j < |t.tx.prevs| ==> AnsweredAt(t, src, j)
  }

  lemma {:induction false} PassAnswers(t: Tracked, src: Source, i: nat, memo: seq<Option<Txid>>, best: Sighting)
    requires src.Esplora? && Wellformed(t) && i <= |t.tx.prevs| == |memo|
    requires memo[i..] == t.spenders[i..]
    ensures Pass(t, src, i, memo, best).1.Got? <==> forall j :: i <= j < |t.tx.prevs| ==> AnsweredAt(t, src, j)
    decreases |memo| - i
  {
    if i < |memo| {
      assert memo[i] == memo[i..][0] == t.spenders[i..][0] == t.spenders[i];
      var l := LookAt(t.tx.txid, t.tx.prevs[i], memo[i], src);
      LookExact(t, src, i);
      if l.Looked? {
        var memo' := memo[i := l.memo];
        assert memo'[i + 1..] == memo[i..][1..] == t.spenders[i..][1..] == t.spenders[i + 1..];
        PassAnswers(t, src, i + 1, memo', MaxSeen(best, l.seen));
      }
    }
  }

  /** In Esplora mode a conflict is reported exactly when everything was answered,
      a confirmed conflicting spender was seen, and every one seen in that pass has
      the required number of confirmations. */
  ghost predicate DeepConflict(t: Tracked, v: View, required: nat)
    requires v.source.Esplora? && Wellformed(t)
  {
    && AllAnswered(t, v.source) && v.tip.Got?
    && (exists j: nat, s :: SeenAt(t, v.source, j, s))
    && (forall j, s :: SeenAt(t, v.source, j, s) ==> v.tip.value - s.0 + 1 >= required)
  }

  lemma EsploraConflictExact(t: Tracked, v: View, required: nat)
    requires v.source.Esplora? && Wellformed(t)
    ensures EsploraCheck(t, v, required).1.Conflict? <==> DeepConflict(t, v, required)
    ensures EsploraCheck(t, v, required).1.CheckError? <==>
              !AllAnswered(t, v.source) || (v.tip.NoAnswer? && exists j: nat, s :: SeenAt(t, v.source, j, s))
  {
    PassAnswers(t, v.source, 0, t.spenders, None);
    if AllAnswered(t, v.source) {
      PassBounds(t, v.source, 0, t.spenders, None);
    }
  }

  /** The spender was seen, and none was seen later, or in the same block with a
      greater id. */
  ghost predicate LatestSeen(t: Tracked, src: Source, j: nat, s: (nat, Txid))
    requires src.Esplora? && Wellformed(t)
  {
    && SeenAt(t, src, j, s)
    && forall k: nat, u: (nat, Txid) :: SeenAt(t, src, k, u) ==> u.0 < s.0 || (u.0 == s.0 && u.1 <= s.1)
  }

  /** The transaction named in a conflict is the latest that was seen, and not ours. */
  lemma EsploraConflict(t: Tracked, v: View, required: nat)
    requires v.source.Esplora? && Wellformed(t) && EsploraCheck(t, v, required).1.Conflict?
    ensures DeepConflict(t, v, required)
    ensures exists j: nat, s :: LatestSeen(t, v.source, j, s) && s.1 != t.tx.txid
                                && EsploraCheck(t, v, required).1.spender == Some(s.1)
  {
    EsploraConflictExact(t, v, required);
    PassBounds(t, v.source, 0, t.spenders, None);
    var last := Pass(t, v.source, 0, t.spenders, None).1.value;
    var j: nat :| SeenAt(t, v.source, j, last.value);
    assert LatestSeen(t, v.source, j, last.value) && last.value.1 != t.tx.txid;
  }

  lemma {:induction false} PassRemembers(t: Tracked, src: Source, i: nat, memo: seq<Option<Txid>>, best: Sighting,
                                         j: nat)
    requires src.Esplora? && Wellformed(t) && i <= |t.tx.prevs| == |memo| && j < |memo|
    requires memo[i..] == t.spenders[i..]
    ensures var after := Pass(t, src, i, memo, best).0;
            if i <= j && forall m :: i <= m < j ==> AnsweredAt(t, src, m)
            then forall x: Txid :: after[j] == Some(x) <==> RemembersAt(t, src, j, x)
            else after[j] == memo[j]
    decreases |memo| - i
  {
    if i < |memo| {
      assert memo[i] == memo[i..][0] == t.spenders[i..][0] == t.spenders[i];
      var l := LookAt(t.tx.txid, t.tx.prevs[i], memo[i], src);
      LookExact(t, src, i);
      if l.Looked? {
        var memo' := memo[i := l.memo];
        assert memo'[i + 1..] == memo[i..][1..] == t.spenders[i..][1..] == t.spenders[i + 1..];
        PassRemembers(t, src, i + 1, memo', MaxSeen(best, l.seen), j);
      }
    }
  }

  /** The memory after a pass: an input that was looked at remembers exactly what the
      answers say, and those after the first error keep what they had. */
  lemma EsploraMemory(t: Tracked, v: View, required: nat, j: nat)
    requires v.source.Esplora? && Wellformed(t) && j < |t.tx.prevs|
    ensures var after := EsploraCheck(t, v, required).0;
            && after == t.(spenders := after.spenders)
            && if forall m :: 0 <= m < j ==> AnsweredAt(t, v.source, m)
               then forall x: Txid :: after.spenders[j] == Some(x) <==> RemembersAt(t, v.source, j, x)
               else after.spenders[j] == t.spenders[j]
  {
    PassRemembers(t, v.source, 0, t.spenders, None, j);
  }

  // ----- double spends as bitcoind lets us guess them

  /** Whether some input from index `i` on is spent, stopping at the first. */
  function AnySpent(prevs: seq<OutPoint>, src: Source, i: nat): Answer<bool>
    requires src.Bitcoind? && i <= |prevs|
    decreases |prevs| - i
  {
    if i == |prevs| then Got(false)
    else match src.unspent(prevs[i])
      case NoAnswer => NoAnswer
      case Got(false) => Got(true)
      case Got(true) => AnySpent(prevs, src, i + 1)
  }

  /** The first input that is not plainly unspent decides. */
  lemma {:induction false} AnySpentExact(prevs: seq<OutPoint>, src: Source, i: nat)
    requires src.Bitcoind? && i <= |prevs|
    ensures AnySpent(prevs, src, i) == Got(false) <==>
              forall k :: i <= k < |prevs| ==> src.unspent(prevs[k]) == Got(true)
    ensures AnySpent(prevs, src, i) == Got(true) <==>
              exists k :: i <= k < |prevs| && src.unspent(prevs[k]) == Got(false)
                          && forall m :: i <= m < k ==> src.unspent(prevs[m]) == Got(true)
    decreases |prevs| - i
  {
    if i < |prevs| {
      AnySpentExact(prevs, src, i + 1);
      if src.unspent(prevs[i]) == Got(true) && AnySpent(prevs, src, i + 1) == Got(true) {
        var k :| i + 1 <= k < |prevs| && src.unspent(prevs[k]) == Got(false)
                 && forall m :: i + 1 <= m < k ==> src.unspent(prevs[m]) == Got(true);
        assert forall m :: i <= m < k ==> src.unspent(prevs[m]) == Got(true);
      }
    }
  }

  function BitcoindCheck(t: Tracked, v: View, required: nat): (Tracked, Check)
    requires v.source.Bitcoind?
  {
    match AnySpent(t.tx.prevs, v.source, 0)
    case NoAnswer => (t, CheckError)
    case Got(false) => (t.(firstAt := None), NoConflict)
    case Got(true) =>
      var now := v.source.now;
      var since := if t.firstAt.Some? then t.firstAt.value else now;
      var t' := t.(firstAt := Some(since));
      if now >= since && now - since > 2 * required * BLOCK_TIME then (t', Conflict(None)) else (t', NoConflict)
  }

  // ----- one call of sync

  function Updated(t: Tracked, fetched: Option<seq<bool>>): Tracked {
    if !t.tx.IsSigned() && fetched.Some? then t.(tx := t.tx.(signed := fetched.value)) else t
  }

  function Checked(t: Tracked, v: View, required: nat): (Tracked, Check)
    requires |t.spenders| == |t.tx.prevs|
  {
    if v.source.Esplora? then EsploraCheck(t, v, required) else BitcoindCheck(t, v, required)
  }

  function Sync(t: Tracked, v: View, required: nat): (Tracked, Answer<Verdict>)
    requires |t.spenders| == |t.tx.prevs|
  {
    match v.own
    case NoAnswer => (t, NoAnswer)
    case Got(NotFound) =>
      var (t', check) := Checked(t, v, required);
      (t', if check.CheckError? then NoAnswer
           else if check.Conflict? then Got(DoubleSpent(check.spender))
           else Got(Unconfirmed))
    case Got(Mempool) => (Updated(t.(firstAt := None), v.fetched), Got(Unconfirmed))
    case Got(Confirmed(h)) =>
      var t' := Updated(t.(firstAt := None), v.fetched);
      (t', if v.tip.NoAnswer? then NoAnswer
           else if Confirmations(v.tip.value, h) >= required then Got(RoundConfirmed)
           else Got(Unconfirmed))
  }

  /** The first input that is not plainly unspent is spent. */
  ghost predicate SomeSpent(t: Tracked, src: Source)
    requires src.Bitcoind?
  {
    exists k :: 0 <= k < |t.tx.prevs| && src.unspent(t.tx.prevs[k]) == Got(false)
                && forall m :: 0 <= m < k ==> src.unspent(t.tx.prevs[m]) == Got(true)
  }

  ghost predicate NoneSpent(t: Tracked, src: Source)
    requires src.Bitcoind?
  {
    forall k :: 0 <= k < |t.tx.prevs| ==> src.unspent(t.tx.prevs[k]) == Got(true)
  }

  /** A conflict that has lasted for more than twice the time the required number of
      blocks takes. */
  ghost predicate LongConflict(t: Tracked, v: View, required: nat)
    requires v.source.Bitcoind?
  {
    SomeSpent(t, v.source) && t.firstAt.Some? && v.source.now - t.firstAt.value > 2 * required * 600
  }

  /** The check for a double spend was answered in full. */
  ghost predicate CheckAnswered(t: Tracked, v: View)
    requires Wellformed(t)
  {
    if v.source.Esplora?
    then AllAnswered(t, v.source) && ((exists j: nat, s :: SeenAt(t, v.source, j, s)) ==> v.tip.Got?)
    else SomeSpent(t, v.source) || NoneSpent(t, v.source)
  }

  /** When each verdict is given. */
  lemma SyncVerdict(t: Tracked, v: View, required: nat)
    requires Wellformed(t)
    ensures Sync(t, v, required).1 == Got(RoundConfirmed) <==>
              v.own.Got? && v.own.value.Confirmed? && v.tip.Got? && v.tip.value - v.own.value.height + 1 >= required
    ensures Sync(t, v, required).1 == NoAnswer <==>
              || v.own.NoAnswer? || (v.own.value.Confirmed? && v.tip.NoAnswer?)
              || (v.own.value.NotFound? && !CheckAnswered(t, v))
    ensures (exists x :: Sync(t, v, required).1 == Got(DoubleSpent(x))) <==>
              && v.own == Got(NotFound)
              && if v.source.Esplora? then DeepConflict(t, v, required) else LongConflict(t, v, required)
    ensures Sync(t, v, required).1 == Got(Unconfirmed) <==>
              || v.own == Got(Mempool)
              || (v.own.Got? && v.own.value.Confirmed? && v.tip.Got? && v.tip.value - v.own.value.height + 1 < required)
              || (v.own == Got(NotFound) && CheckAnswered(t, v)
                  && !(if v.source.Esplora? then DeepConflict(t, v, required) else LongConflict(t, v, required)))
  {
    if v.source.Esplora? {
      EsploraConflictExact(t, v, required);
    } else {
      AnySpentExact(t.tx.prevs, v.source, 0);
    }
    var r := Sync(t, v, required).1;
    if r.Got? && r.value.DoubleSpent? {
      assert r == Got(DoubleSpent(r.value.spender));
    }
  }

  /** What a call leaves of the entry, apart from the spenders remembered in Esplora
      mode: a transaction that is found gets its witnesses and resets the clock, and a
      conflict that bitcoind shows starts the clock if it is not running. */
  lemma SyncMemory(t: Tracked, v: View, required: nat)
    requires Wellformed(t)
    ensures var after := Sync(t, v, required).0;
            && after.vtxos == t.vtxos && after.tx.txid == t.tx.txid && after.tx.prevs == t.tx.prevs
            && match v.own
               case NoAnswer => after == t
               case Got(NotFound) =>
                 && after.tx == t.tx
                 && if v.source.Esplora? then after.firstAt == t.firstAt
                    else && after.spenders == t.spenders
                         && (NoneSpent(t, v.source) ==> after.firstAt.None?)
                         && (SomeSpent(t, v.source) ==>
                               after.firstAt == if t.firstAt.Some? then t.firstAt else Some(v.source.now))
                         && (!NoneSpent(t, v.source) && !SomeSpent(t, v.source) ==> after.firstAt == t.firstAt)
               case Got(_) =>
                 && after.firstAt.None? && after.spenders == t.spenders
                 && after.tx.signed == if v.fetched.Some? && false in t.tx.signed then v.fetched.value else t.tx.signed
  {
    if v.source.Bitcoind? {
      AnySpentExact(t.tx.prevs, v.source, 0);
    }
  }

  lemma SyncKeeps(t: Tracked, v: View, required: nat)
    requires Wellformed(t)
    ensures Wellformed(Sync(t, v, required).0)
    ensures Sync(t, v, required).0.tx.txid == t.tx.txid && Sync(t, v, required).0.tx.prevs == t.tx.prevs
  {
    if v.source.Esplora? {
      PassKeepsWellformed(t, v.source, 0, t.spenders, None);
    }
  }

  /** A transaction that became signed in this call was found, so it is not judged
      double spent in the same call. */
  lemma SignedNotDropped(t: Tracked, v: View, required: nat)
    requires Wellformed(t) && !t.tx.IsSigned() && Sync(t, v, required).0.tx.IsSigned()
    ensures Sync(t, v, required).1 != Got(DoubleSpent(None))
    ensures forall x :: Sync(t, v, required).1 != Got(DoubleSpent(x))
  {
  }

  // ----- runs of sync

  /** The entry after the first `k` calls. */
  ghost function After(t: Tracked, views: seq<View>, required: nat, k: nat): (r: Tracked)
    requires Wellformed(t) && k <= |views|
    ensures Wellformed(r) && r.tx.txid == t.tx.txid && r.tx.prevs == t.tx.prevs
  {
    if k == 0 then t else
      var before := After(t, views, required, k - 1);
      SyncKeeps(before, views[k - 1], required);
      Sync(before, views[k - 1], required).0
  }

  /** The verdict of call `k`. */
  ghost function VerdictAt(t: Tracked, views: seq<View>, required: nat, k: nat): Answer<Verdict>
    requires Wellformed(t) && k < |views|
  {
    Sync(After(t, views, required, k), views[k], required).1
  }

  /** The call found our transaction missing and one of its inputs spent. */
  ghost predicate SawConflict(t: Tracked, v: View) {
    v.own == Got(NotFound) && v.source.Bitcoind? && AnySpent(t.tx.prevs, v.source, 0) == Got(true)
  }

  /** The chain source answered everything the call asked it. */
  ghost predicate Completed(t: Tracked, v: View) {
    v.own.Got? && (v.own == Got(NotFound) && v.source.Bitcoind? ==> AnySpent(t.tx.prevs, v.source, 0).Got?)
  }

  /** Every completed call in the range saw the conflict. */
  ghost predicate ConflictThroughout(t: Tracked, views: seq<View>, from: nat, to: nat) {
    forall i :: from <= i < to && i < |views| && Completed(t, views[i]) ==> SawConflict(t, views[i])
  }

  ghost predicate AllBitcoind(views: seq<View>) {
    forall i :: 0 <= i < |views| ==> views[i].source.Bitcoind?
  }

  /** The remembered time is that of a call that saw the conflict, and every
      completed call since then saw it too. */
  lemma {:induction false} RememberedTime(t: Tracked, views: seq<View>, required: nat, k: nat) returns (j: nat)
    requires Wellformed(t) && t.firstAt.None? && AllBitcoind(views) && k <= |views|
    requires After(t, views, required, k).firstAt.Some?
    ensures j < k && SawConflict(t, views[j]) && ConflictThroughout(t, views, j, k)
    ensures After(t, views, required, k).firstAt == Some(views[j].source.now)
  {
    var before := After(t, views, required, k - 1);
    if before.firstAt.Some? {
      j := RememberedTime(t, views, required, k - 1);
    } else {
      j := k - 1;
    }
  }

  /** In bitcoind mode a double-spend verdict means that since some earlier call
      every completed call saw our transaction missing and an input spent, and that
      more than twice the expected time for the required confirmations passed. */
  lemma BitcoindVerdict(t: Tracked, views: seq<View>, required: nat, n: nat) returns (j: nat)
    requires Wellformed(t) && t.firstAt.None? && AllBitcoind(views) && n < |views|
    requires VerdictAt(t, views, required, n).Got? && VerdictAt(t, views, required, n).value.DoubleSpent?
    ensures j <= n && SawConflict(t, views[j]) && SawConflict(t, views[n])
    ensures ConflictThroughout(t, views, j, n + 1)
    ensures views[n].source.now - views[j].source.now > 2 * required * BLOCK_TIME
  {
    if After(t, views, required, n).firstAt.Some? {
      j := RememberedTime(t, views, required, n);
    } else {
      j := n;
    }
  }

  ghost predicate ClockAdvances(views: seq<View>)
    requires AllBitcoind(views)
  {
    forall i, j :: 0 <= i <= j < |views| ==> views[i].source.now <= views[j].source.now
  }

  /** From a call that saw the conflict on, as long as every completed call sees it,
      the time stays remembered and is no later than that of the call. */
  lemma {:induction false} TimeStays(t: Tracked, views: seq<View>, required: nat, j: nat, k: nat)
    requires Wellformed(t) && t.firstAt.None? && AllBitcoind(views) && ClockAdvances(views) && j < k <= |views|
    requires SawConflict(t, views[j]) && ConflictThroughout(t, views, j, k)
    ensures After(t, views, required, k).firstAt.Some?
    ensures After(t, views, required, k).firstAt.value <= views[j].source.now
  {
    var before := After(t, views, required, k - 1);
    if j < k - 1 {
      TimeStays(t, views, required, j, k - 1);
      assert Completed(t, views[k - 1]) ==> SawConflict(t, views[k - 1]);
    } else if before.firstAt.Some? {
      var i := RememberedTime(t, views, required, j);
    }
  }

  /** Conversely, with a clock that does not run backwards, a conflict seen for long
      enough without interruption is judged a double spend. */
  lemma BitcoindVerdictComplete(t: Tracked, views: seq<View>, required: nat, j: nat, n: nat)
    requires Wellformed(t) && t.firstAt.None? && AllBitcoind(views) && ClockAdvances(views) && j < n < |views|
    requires SawConflict(t, views[j]) && SawConflict(t, views[n]) && ConflictThroughout(t, views, j, n)
    requires views[n].source.now - views[j].source.now > 2 * required * BLOCK_TIME
    ensures VerdictAt(t, views, required, n) == Got(DoubleSpent(None))
  {
    TimeStays(t, views, required, j, n);
  }

  lemma {:induction false} PassMemory(t: Tracked, src: Source, i: nat, memo: seq<Option<Txid>>, best: Sighting,
                                      j: nat, x: Txid)
    requires src.Esplora? && i <= |t.tx.prevs| == |memo| && j < |memo|
    requires Pass(t, src, i, memo, best).0[j] == Some(x)
    ensures memo[j] == Some(x) || Reported(src, t.tx.prevs[j], x)
    decreases |memo| - i
  {
    if i < |memo| {
      var l := LookAt(t.tx.txid, t.tx.prevs[i], memo[i], src);
      if l.Looked? {
        PassMemory(t, src, i + 1, memo[i := l.memo], MaxSeen(best, l.seen), j, x);
      }
    }
  }

  /** A remembered spender was reported in an earlier call. */
  lemma {:induction false} RememberedSpender(t: Tracked, views: seq<View>, required: nat, k: nat, i: nat, x: Txid)
    returns (j: nat)
    requires Wellformed(t) && k <= |views| && i < |t.tx.prevs|
    requires t.spenders[i] != Some(x) && After(t, views, required, k).spenders[i] == Some(x)
    ensures j < k && Reported(views[j].source, t.tx.prevs[i], x)
  {
    var before := After(t, views, required, k - 1);
    var v := views[k - 1];
    if before.spenders[i] == Some(x) {
      j := RememberedSpender(t, views, required, k - 1, i, x);
    } else {
      PassMemory(before, v.source, 0, before.spenders, None, i, x);
      j := k - 1;
    }
  }

  /** In Esplora mode a double-spend verdict names a transaction other than ours
      that the chain source reported, in this or an earlier call, as the spender of
      one of our inputs, and that has the required confirmations now. */
  lemma EsploraVerdict(t: Tracked, views: seq<View>, required: nat, n: nat) returns (i: nat, j: nat, h: nat, x: Txid)
    requires Wellformed(t) && n < |views| && views[n].source.Esplora?
    requires forall k :: 0 <= k < |t.spenders| ==> t.spenders[k].None?
    requires VerdictAt(t, views, required, n).Got? && VerdictAt(t, views, required, n).value.DoubleSpent?
    ensures VerdictAt(t, views, required, n) == Got(DoubleSpent(Some(x))) && x != t.tx.txid
    ensures i < |t.tx.prevs| && j <= n && Reported(views[j].source, t.tx.prevs[i], x)
    ensures views[n].own == Got(NotFound) && views[n].tip.Got?
    ensures views[n].tip.value - h + 1 >= required
    ensures SeenAt(After(t, views, required, n), views[n].source, i, (h, x))
  {
    var now := After(t, views, required, n);
    var v := views[n];
    EsploraConflict(now, v, required);
    var k: nat, s :| LatestSeen(now, v.source, k, s) && s.1 != t.tx.txid
                     && EsploraCheck(now, v, required).1.spender == Some(s.1);
    i, h, x := k, s.0, s.1;
    if now.spenders[i] == Some(x) {
      j := RememberedSpender(t, views, required, n, i, x);
    } else {
      j := n;
    }
  }

  // ----- what a call depends on

  /** The two entries differ at most in witnesses and new vtxos, which no verdict
      depends on. */
  ghost predicate SameMemory(a: Tracked, b: Tracked) {
    a.tx.txid == b.tx.txid && a.tx.prevs == b.tx.prevs && a.spenders == b.spenders && a.firstAt == b.firstAt
  }

  lemma {:induction false} PassSameMemory(a: Tracked, b: Tracked, src: Source, i: nat, memo: seq<Option<Txid>>,
                                          best: Sighting)
    requires src.Esplora? && i <= |a.tx.prevs| == |memo| && SameMemory(a, b)
    ensures Pass(a, src, i, memo, best) == Pass(b, src, i, memo, best)
    decreases |memo| - i
  {
    if i < |memo| {
      var l := LookAt(a.tx.txid, a.tx.prevs[i], memo[i], src);
      if l.Looked? {
        PassSameMemory(a, b, src, i + 1, memo[i := l.memo], MaxSeen(best, l.seen));
      }
    }
  }

  lemma SyncSameMemory(a: Tracked, b: Tracked, v: View, required: nat)
    requires Wellformed(a) && Wellformed(b) && SameMemory(a, b)
    ensures SameMemory(Sync(a, v, required).0, Sync(b, v, required).0)
    ensures Sync(a, v, required).1 == Sync(b, v, required).1
  {
    if v.source.Esplora? {
      PassSameMemory(a, b, v.source, 0, a.spenders, None);
    }
  }

  /** Later calls have no influence on earlier states. */
  lemma {:induction false} AfterPrefix(t: Tracked, views: seq<View>, more: seq<View>, required: nat, k: nat)
    requires Wellformed(t) && k <= |views| && views <= more
    ensures After(t, views, required, k) == After(t, more, required, k)
  {
    if k > 0 {
      AfterPrefix(t, views, more, required, k - 1);
    }
  }

  // ----- the loops

  method PassLoop(t: Tracked, src: Source) returns (memo: seq<Option<Txid>>, last: Answer<Sighting>)
    requires src.Esplora? && |t.spenders| == |t.tx.prevs|
    ensures (memo, last) == Pass(t, src, 0, t.spenders, None)
  {
    memo := t.spenders;
    var confirmed: Sighting := None;
    for i := 0 to |t.tx.prevs|
      invariant |memo| == |t.tx.prevs|
      invariant Pass(t, src, i, memo, confirmed) == Pass(t, src, 0, t.spenders, None)
    {
      var l := LookAt(t.tx.txid, t.tx.prevs[i], memo[i], src);
      memo := memo[i := l.memo];
      if l.LookError? {
        return memo, NoAnswer;
      }
      confirmed := MaxSeen(confirmed, l.seen);
    }
    last := Got(confirmed);
  }

  method AnySpentLoop(prevs: seq<OutPoint>, src: Source) returns (r: Answer<bool>)
    requires src.Bitcoind?
    ensures r == AnySpent(prevs, src, 0)
  {
    for i := 0 to |prevs|
      invariant AnySpent(prevs, src, i) == AnySpent(prevs, src, 0)
    {
      var unspent := src.unspent(prevs[i]);
      if unspent.NoAnswer? {
        return NoAnswer;
      }
      if !unspent.value {
        return Got(true);
      }
    }
    r := Got(false);
  }

  /** `UnconfirmedRound::sync` on one entry. */
  method SyncEntry(t: Tracked, v: View, required: nat) returns (now: Tracked, r: Answer<Verdict>)
    requires |t.spenders| == |t.tx.prevs|
    ensures (now, r) == Sync(t, v, required)
  {
    now := t;
    if v.own.NoAnswer? {
      return now, NoAnswer;
    }
    if v.own.value.NotFound? {
      var check: Check;
      if v.source.Esplora? {
        var memo, last := PassLoop(t, v.source);
        now := t.(spenders := memo);
        if last.NoAnswer? || (last.value.Some? && v.tip.NoAnswer?) {
          check := CheckError;
        } else if last.value.Some? && Confirmations(v.tip.value, last.value.value.0) >= required {
          check := Conflict(Some(last.value.value.1));
        } else {
          check := NoConflict;
        }
      } else {
        var doublespent := AnySpentLoop(t.tx.prevs, v.source);
        if doublespent.NoAnswer? {
          check := CheckError;
        } else if !doublespent.value {
          now := t.(firstAt := None);
          check := NoConflict;
        } else {
          var since := if t.firstAt.Some? then t.firstAt.value else v.source.now;
          now := t.(firstAt := Some(since));
          if v.source.now >= since && v.source.now - since > 2 * required * BLOCK_TIME {
            check := Conflict(None);
          } else {
            check := NoConflict;
          }
        }
      }
      match check {
        case CheckError => return now, NoAnswer;
        case Conflict(spender) => return now, Got(DoubleSpent(spender));
        case NoConflict => return now, Got(Unconfirmed);
      }
    }
    now := Updated(t.(firstAt := None), v.fetched);
    if v.own.value.Mempool? {
      return now, Got(Unconfirmed);
    }
    if v.tip.NoAnswer? {
      return now, NoAnswer;
    }
    r := Got(if Confirmations(v.tip.value, v.own.value.height) >= required then RoundConfirmed else Unconfirmed);
  }
}
