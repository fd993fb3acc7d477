/** The server's pool of pre-issued vtxos (server/src/vtxopool.rs).

    The pool is an ordered map from expiry height to an ordered map from amount
    to a vector of ids. `take_inputs` walks it in place. The specification below
    is a one-pick-at-a-time greedy rule that never mentions the walk. */
module VtxoPool {
  import opened Collections
  import opened Basics

  type Bucket = map<nat, seq<VtxoId>>
  type Pool = map<nat, Bucket>

  datatype PoolVtxo = PoolVtxo(id: VtxoId, height: nat, amount: nat)

  // ----- reading a pool

  function Ids(p: Pool, height: nat, amount: nat): seq<VtxoId> {
    if height in p && amount in p[height] then p[height][amount] else []
  }

  predicate Live(p: Pool, height: nat, amount: nat) {
    Ids(p, height, amount) != []
  }

  /** How many times the pool holds this vtxo. */
  ghost function Count(p: Pool, v: PoolVtxo): nat {
    multiset(Ids(p, v.height, v.amount))[v.id]
  }

  /** The two pools hold the same multiset of vtxos. */
  ghost predicate SameContents(p: Pool, q: Pool) {
    forall v :: Count(p, v) == Count(q, v)
  }

  /** `taken` and `q` together hold exactly what `p` holds. */
  ghost predicate Splits(p: Pool, taken: seq<PoolVtxo>, q: Pool) {
    forall v :: Count(p, v) == multiset(taken)[v] + Count(q, v)
  }

  /** No vector and no inner map is left empty. */
  ghost predicate NoEmptyBucket(p: Pool) {
    && (forall h :: h in p ==> p[h] != map[])
    && (forall h, a :: h in p && a in p[h] ==> p[h][a] != [])
  }

  ghost function BucketValues(b: Bucket): map<nat, nat> {
    map a | a in b :: a * |b[a]|
  }

  ghost function HeightValues(p: Pool): map<nat, nat> {
    map h | h in p :: SumMap(BucketValues(p[h]))
  }

  /** The total value held by the pool. */
  ghost function Total(p: Pool): nat {
    SumMap(HeightValues(p))
  }

  ghost function Sum(s: seq<PoolVtxo>): nat {
    if s == [] then 0 else Sum(s[..|s| - 1]) + s[|s| - 1].amount
  }

  // ----- single-bucket updates

  function SetIds(p: Pool, height: nat, amount: nat, ids: seq<VtxoId>): (q: Pool)
    ensures Ids(q, height, amount) == ids
    ensures forall h: nat, a: nat :: (h, a) != (height, amount) ==> Ids(q, h, a) == Ids(p, h, a)
  {
    var b: Bucket := if height in p then p[height] else map[];
    p[height := b[amount := ids]]
  }

  lemma SetIdsTotal(p: Pool, height: nat, amount: nat, ids: seq<VtxoId>)
    ensures Total(SetIds(p, height, amount, ids))
         == Total(p) - amount * |Ids(p, height, amount)| + amount * |ids|
  {
    var b: Bucket := if height in p then p[height] else map[];
    var b' := b[amount := ids];
    assert BucketValues(b') == BucketValues(b)[amount := amount * |ids|];
    SumMapUpdate(BucketValues(b), amount, amount * |ids|);
    var v := SumMap(BucketValues(b'));
    assert HeightValues(p[height := b']) == HeightValues(p)[height := v];
    SumMapUpdate(HeightValues(p), height, v);
    if height !in p {
      assert BucketValues(b) == map[];
    }
  }

  function Push(p: Pool, v: PoolVtxo): (q: Pool) {
    SetIds(p, v.height, v.amount, Ids(p, v.height, v.amount) + [v.id])
  }

  lemma PushCounts(p: Pool, v: PoolVtxo, w: PoolVtxo)
    ensures Count(Push(p, v), w) == Count(p, w) + (if w == v then 1 else 0)
  {
    if (w.height, w.amount) != (v.height, v.amount) {
      assert Ids(Push(p, v), w.height, w.amount) == Ids(p, w.height, w.amount);
    }
  }

  /** The vtxo put in last is the first to come out of its bucket. */
  lemma LastInFirstOut(p: Pool, v: PoolVtxo)
    ensures Live(Push(p, v), v.height, v.amount) && Top(Push(p, v), v.height, v.amount) == v
    ensures forall h: nat, a: nat :: Ids(Pop(Push(p, v), v.height, v.amount), h, a) == Ids(p, h, a)
  {
  }

  lemma PushNoEmpty(p: Pool, v: PoolVtxo)
    requires NoEmptyBucket(p)
    ensures NoEmptyBucket(Push(p, v))
  {
  }

  lemma PushTotal(p: Pool, v: PoolVtxo)
    ensures Total(Push(p, v)) == Total(p) + v.amount
  {
    var ids := Ids(p, v.height, v.amount);
    SetIdsTotal(p, v.height, v.amount, ids + [v.id]);
    OneMore(v.amount, |ids|);
  }

  /** Removes the last id of a live bucket; the emptied vector stays behind. */
  function Pop(p: Pool, height: nat, amount: nat): (q: Pool)
    requires Live(p, height, amount)
  {
    var ids := Ids(p, height, amount);
    SetIds(p, height, amount, ids[..|ids| - 1])
  }

  function Top(p: Pool, height: nat, amount: nat): (v: PoolVtxo)
    requires Live(p, height, amount)
  {
    var ids := Ids(p, height, amount);
    PoolVtxo(ids[|ids| - 1], height, amount)
  }

  lemma PopCounts(p: Pool, height: nat, amount: nat, w: PoolVtxo)
    requires Live(p, height, amount)
    ensures Count(p, w) ==
            Count(Pop(p, height, amount), w) + (if w == Top(p, height, amount) then 1 else 0)
  {
    var ids := Ids(p, height, amount);
    assert ids == ids[..|ids| - 1] + [ids[|ids| - 1]];
    if (w.height, w.amount) != (height, amount) {
      assert Ids(Pop(p, height, amount), w.height, w.amount) == Ids(p, w.height, w.amount);
    }
  }

  lemma PopTotal(p: Pool, height: nat, amount: nat)
    requires Live(p, height, amount)
    ensures Total(p) == Total(Pop(p, height, amount)) + amount
  {
    var ids := Ids(p, height, amount);
    SetIdsTotal(p, height, amount, ids[..|ids| - 1]);
    OneMore(amount, |ids| - 1);
  }

  // ----- the greedy rule

  /** What still has to be covered after `s` was taken. */
  ghost function Left(required: nat, s: seq<PoolVtxo>): nat {
    if Sum(s) >= required then 0 else required - Sum(s)
  }

  /** The rule for one pick: the earliest height that still holds something, and
      there the largest amount if the remainder exceeds it, otherwise the
      smallest amount that covers the remainder. */
  ghost predicate IsPick(p: Pool, remaining: nat, v: PoolVtxo) {
    && remaining > 0
    && Live(p, v.height, v.amount)
    && v == Top(p, v.height, v.amount)
    && Earliest(p, v.height)
    && (remaining > v.amount ==> forall a: nat :: Live(p, v.height, a) ==> a <= v.amount)
    && (remaining <= v.amount ==>
          forall a: nat :: Live(p, v.height, a) && remaining <= a ==> v.amount <= a)
  }

  /** The pool after the picks were popped one after the other. */
  ghost function PopAll(p: Pool, s: seq<PoolVtxo>): Pool {
    if s == [] then p else
      var q := PopAll(p, s[..|s| - 1]);
      var v := s[|s| - 1];
      if Live(q, v.height, v.amount) then Pop(q, v.height, v.amount) else q
  }

  /** Every element of `s` was the pick the rule demands at its moment. */
  ghost predicate Greedy(p: Pool, required: nat, s: seq<PoolVtxo>) {
    s != [] ==>
      var t := s[..|s| - 1];
      Greedy(p, required, t) && IsPick(PopAll(p, t), Left(required, t), s[|s| - 1])
  }

  lemma {:induction false} GreedyTake(p: Pool, required: nat, s: seq<PoolVtxo>, k: nat)
    requires Greedy(p, required, s) && k <= |s|
    ensures Greedy(p, required, s[..k])
    ensures k < |s| ==> IsPick(PopAll(p, s[..k]), Left(required, s[..k]), s[k])
  {
    if k == |s| {
      assert s[..k] == s;
    } else if k < |s| - 1 {
      var t := s[..|s| - 1];
      GreedyTake(p, required, t, k);
      assert t[..k] == s[..k];
    }
  }

  lemma {:induction false} GreedyCounts(p: Pool, required: nat, s: seq<PoolVtxo>, w: PoolVtxo)
    requires Greedy(p, required, s)
    ensures Count(p, w) == multiset(s)[w] + Count(PopAll(p, s), w)
  {
    if s != [] {
      var t := s[..|s| - 1];
      var v := s[|s| - 1];
      GreedyCounts(p, required, t, w);
      PopCounts(PopAll(p, t), v.height, v.amount, w);
      LastCount(s, w);
    }
  }

  /** Picks and remaining pool partition the pool. */
  lemma GreedyConserves(p: Pool, required: nat, s: seq<PoolVtxo>)
    requires Greedy(p, required, s)
    ensures Splits(p, s, PopAll(p, s))
  {
    forall w
      ensures Count(p, w) == multiset(s)[w] + Count(PopAll(p, s), w)
    {
      GreedyCounts(p, required, s, w);
    }
  }

  lemma {:induction false} GreedyTotal(p: Pool, required: nat, s: seq<PoolVtxo>)
    requires Greedy(p, required, s)
    ensures Total(p) == Total(PopAll(p, s)) + Sum(s)
  {
    if s != [] {
      var t := s[..|s| - 1];
      GreedyTotal(p, required, t);
      PopTotal(PopAll(p, t), s[|s| - 1].height, s[|s| - 1].amount);
    }
  }

  /** No pick is superfluous: at every pick the earlier ones fell short. */
  lemma GreedyMinimal(p: Pool, required: nat, s: seq<PoolVtxo>, k: nat)
    requires Greedy(p, required, s) && k < |s|
    ensures Sum(s[..k]) < required
  {
    GreedyTake(p, required, s, k);
  }

  lemma {:induction false} PopAllShrinks(p: Pool, s: seq<PoolVtxo>, k: nat, h: nat, a: nat)
    requires k <= |s|
    requires Live(PopAll(p, s), h, a)
    ensures Live(PopAll(p, s[..k]), h, a)
  {
    if k < |s| {
      var t := s[..|s| - 1];
      assert t[..k] == s[..k];
      PopAllShrinks(p, t, k, h, a);
    } else {
      assert s[..k] == s;
    }
  }

  /** Expiry has priority: once something at a height was taken, every vtxo that
      expires earlier has been taken. */
  lemma GreedyEarliestFirst(p: Pool, required: nat, s: seq<PoolVtxo>, k: nat, v: PoolVtxo)
    requires Greedy(p, required, s) && k < |s|
    requires v.height < s[k].height
    ensures Count(p, v) == multiset(s)[v]
  {
    GreedyCounts(p, required, s, v);
    var q := PopAll(p, s);
    if Live(q, v.height, v.amount) {
      PopAllShrinks(p, s, k, v.height, v.amount);
      GreedyTake(p, required, s, k);
      assert false;
    }
  }

  /** Picks never go back to an earlier height. */
  lemma GreedyHeightsAscend(p: Pool, required: nat, s: seq<PoolVtxo>, j: nat, k: nat)
    requires Greedy(p, required, s) && j <= k < |s|
    ensures s[j].height <= s[k].height
  {
    assert Live(PopAll(p, s[..k]), s[k].height, s[k].amount) by {
      GreedyTake(p, required, s, k);
    }
    assert Live(PopAll(p, s[..j]), s[k].height, s[k].amount) by {
      PopAllShrinks(p, s[..k], j, s[k].height, s[k].amount);
      assert s[..k][..j] == s[..j];
    }
    assert Earliest(PopAll(p, s[..j]), s[j].height) by {
      GreedyTake(p, required, s, j);
    }
  }

  lemma {:induction false} GreedyAgree(p: Pool, required: nat, s: seq<PoolVtxo>, t: seq<PoolVtxo>)
    requires Greedy(p, required, s) && Greedy(p, required, t)
    requires |s| == |t|
    ensures s == t
  {
    if s != [] {
      var s', t' := s[..|s| - 1], t[..|t| - 1];
      GreedyAgree(p, required, s', t');
      PickUnique(PopAll(p, s'), Left(required, s'), s[|s| - 1], t[|t| - 1]);
      assert s == s' + [s[|s| - 1]] && t == t' + [t[|t| - 1]];
    }
  }

  lemma GreedyNotLonger(p: Pool, required: nat, s: seq<PoolVtxo>, t: seq<PoolVtxo>)
    requires Greedy(p, required, s) && Left(required, s) == 0
    requires Greedy(p, required, t)
    ensures |t| <= |s|
  {
    if |s| < |t| {
      GreedyTake(p, required, t, |s|);
      GreedyAgree(p, required, s, t[..|s|]);
    }
  }

  /** The rule leaves no choice: two selections that run to the end are equal. */
  lemma GreedyUnique(p: Pool, required: nat, s: seq<PoolVtxo>, t: seq<PoolVtxo>)
    requires Greedy(p, required, s) && Left(required, s) == 0
    requires Greedy(p, required, t) && Left(required, t) == 0
    ensures s == t
  {
    GreedyNotLonger(p, required, s, t);
    GreedyNotLonger(p, required, t, s);
    GreedyAgree(p, required, s, t);
  }

  lemma PickUnique(p: Pool, remaining: nat, v: PoolVtxo, w: PoolVtxo)
    requires IsPick(p, remaining, v) && IsPick(p, remaining, w)
    ensures v == w
  {
    assert v.height == w.height;
  }

  lemma AllEmptyTotal(p: Pool)
    requires Exhausted(p)
    ensures Total(p) == 0
  {
    forall h | h in p
      ensures HeightValues(p)[h] == 0
    {
      forall a | a in p[h]
        ensures BucketValues(p[h])[a] == 0
      {
        assert !Live(p, h, a);
      }
      SumMapZero(BucketValues(p[h]));
    }
    SumMapZero(HeightValues(p));
  }

  // ----- keeping every bucket occupied

  function Occupied(b: Bucket): Bucket {
    map a | a in b && b[a] != [] :: b[a]
  }

  /** `prune`: drops empty vectors, then inner maps that became empty. */
  function Pruned(p: Pool): Pool {
    map h | h in p && Occupied(p[h]).Keys != {} :: Occupied(p[h])
  }

  lemma PrunedKeeps(p: Pool)
    ensures forall h: nat, a: nat :: Ids(Pruned(p), h, a) == Ids(p, h, a)
    ensures NoEmptyBucket(Pruned(p))
  {
    forall h: nat, a: nat
      ensures Ids(Pruned(p), h, a) == Ids(p, h, a)
    {
      if Live(p, h, a) {
        assert a in Occupied(p[h]).Keys;
      }
    }
  }

  ghost predicate SameShape(p: Pool, q: Pool) {
    p.Keys == q.Keys && forall h :: h in p ==> p[h].Keys == q[h].Keys
  }

  lemma {:induction false} PopAllShape(p: Pool, s: seq<PoolVtxo>)
    ensures SameShape(p, PopAll(p, s))
  {
    if s != [] {
      PopAllShape(p, s[..|s| - 1]);
    }
  }

  lemma SameContentsNoEmpty(p: Pool, q: Pool)
    requires NoEmptyBucket(p) && SameShape(p, q) && SameContents(p, q)
    ensures NoEmptyBucket(q)
  {
    forall h, a | h in q && a in q[h]
      ensures q[h][a] != []
    {
      var v := PoolVtxo(p[h][a][0], h, a);
      assert p[h][a][0] in multiset(p[h][a]);
      assert Count(q, v) == Count(p, v) > 0;
    }
    forall h | h in q
      ensures q[h] != map[]
    {
      assert p[h] != map[];
      var a :| a in p[h];
      assert a in q[h];
    }
  }

  /** Every pick lies in a bucket of the original pool. */
  ghost predicate InShape(p: Pool, s: seq<PoolVtxo>) {
    forall v :: v in s ==> v.height in p && v.amount in p[v.height]
  }

  lemma {:induction false} GreedyInShape(p: Pool, required: nat, s: seq<PoolVtxo>)
    requires Greedy(p, required, s)
    ensures InShape(p, s)
  {
    if s != [] {
      var t := s[..|s| - 1];
      GreedyInShape(p, required, t);
      PopAllShape(p, t);
      assert s == t + [s[|s| - 1]];
    }
  }

  ghost function PushAll(p: Pool, s: seq<PoolVtxo>): Pool {
    if s == [] then p else Push(PushAll(p, s[..|s| - 1]), s[|s| - 1])
  }

  lemma {:induction false} PushAllCounts(p: Pool, s: seq<PoolVtxo>, v: PoolVtxo)
    ensures Count(PushAll(p, s), v) == Count(p, v) + multiset(s)[v]
  {
    if s != [] {
      var t := s[..|s| - 1];
      PushAllCounts(p, t, v);
      PushCounts(PushAll(p, t), s[|s| - 1], v);
      LastCount(s, v);
    }
  }

  lemma PushAllCountsAll(p: Pool, s: seq<PoolVtxo>)
    ensures forall v :: Count(PushAll(p, s), v) == Count(p, v) + multiset(s)[v]
  {
    forall v
      ensures Count(PushAll(p, s), v) == Count(p, v) + multiset(s)[v]
    {
      PushAllCounts(p, s, v);
    }
  }

  lemma {:induction false} PushAllNoEmpty(p: Pool, s: seq<PoolVtxo>)
    requires NoEmptyBucket(p)
    ensures NoEmptyBucket(PushAll(p, s))
  {
    if s != [] {
      PushAllNoEmpty(p, s[..|s| - 1]);
      PushNoEmpty(PushAll(p, s[..|s| - 1]), s[|s| - 1]);
    }
  }

  lemma {:induction false} PushAllShape(p: Pool, s: seq<PoolVtxo>)
    ensures InShape(p, s) ==> SameShape(p, PushAll(p, s))
  {
    if s != [] {
      var t := s[..|s| - 1];
      PushAllShape(p, t);
      assert s == t + [s[|s| - 1]];
    }
  }

  // ----- one step of the walk is one greedy pick

  /** Where the walk over one height stands when it looks at `amount`: the lower
      amounts are untouched, and the higher ones are used up unless the amount
      looked at covers the remainder. */
  ghost predicate Walking(p: Pool, height: nat, amount: nat, remaining: nat) {
    && height in p && amount in p[height]
    && Earliest(p, height)
    && (forall a :: a in p[height] && a < amount ==> p[height][a] != [])
    && (HigherUsedUp(p, height, amount) || (remaining <= amount && p[height][amount] != []))
  }

  ghost predicate HigherUsedUp(p: Pool, height: nat, amount: nat) {
    forall a :: height in p && a in p[height] && a > amount ==> p[height][a] == []
  }

  /** Nothing is left at this height or before. */
  ghost predicate HeightUsedUp(p: Pool, height: nat) {
    forall h: nat, a: nat :: Live(p, h, a) ==> height < h
  }

  /** `next` is the key below `amount`, or zero if there is none. */
  ghost predicate IsNext(keys: set<nat>, amount: nat, next: nat) {
    && (forall a :: a in keys && a < amount ==> a <= next)
    && (next == 0 || (next in keys && next < amount))
  }

  lemma WalkPicks(p: Pool, height: nat, amount: nat, next: nat, remaining: nat)
    requires Walking(p, height, amount, remaining) && IsNext(p[height].Keys, amount, next)
    requires Live(p, height, amount) && remaining > next
    ensures IsPick(p, remaining, Top(p, height, amount))
  {
  }

  lemma WalkPops(p: Pool, height: nat, amount: nat, remaining: nat)
    requires Walking(p, height, amount, remaining)
    requires Live(p, height, amount) && remaining > amount
    ensures Walking(Pop(p, height, amount), height, amount, remaining - amount)
  {
    var q := Pop(p, height, amount);
    assert forall h: nat, a: nat :: Live(q, h, a) ==> Live(p, h, a);
  }

  /** Moving on to the next lower amount. */
  lemma WalkDescends(p: Pool, height: nat, amount: nat, next: nat, remaining: nat)
    requires Walking(p, height, amount, remaining) && IsNext(p[height].Keys, amount, next)
    requires next in p[height].Keys && next < amount
    requires !(Live(p, height, amount) && remaining > next)
    ensures Walking(p, height, next, remaining)
  {
  }

  /** The lowest amount has been looked at. */
  lemma WalkEnds(p: Pool, height: nat, amount: nat, remaining: nat)
    requires Walking(p, height, amount, remaining) && remaining > 0
    requires forall a :: a in p[height] ==> a >= amount
    requires !Live(p, height, amount)
    ensures HeightUsedUp(p, height)
  {
  }

  /** Where a selection stands: the pool and the remainder follow from the picks. */
  ghost predicate Stands(p: Pool, required: nat, s: seq<PoolVtxo>, pool: Pool, remaining: nat) {
    Greedy(p, required, s) && pool == PopAll(p, s) && remaining == Left(required, s)
  }

  function Cover(remaining: nat, amount: nat): nat {
    if amount <= remaining then remaining - amount else 0
  }

  lemma StandsExtend(p: Pool, required: nat, s: seq<PoolVtxo>, pool: Pool, remaining: nat, v: PoolVtxo)
    requires Stands(p, required, s, pool, remaining) && IsPick(pool, remaining, v)
    ensures Stands(p, required, s + [v], Pop(pool, v.height, v.amount), Cover(remaining, v.amount))
  {
    assert (s + [v])[..|s|] == s;
  }

  ghost predicate SameElsewhere(height: nat, p: Pool, q: Pool) {
    forall h :: h != height ==> (h in p <==> h in q) && (h in p ==> p[h] == q[h])
  }

  lemma PopElsewhere(height: nat, p: Pool, q: Pool, amount: nat)
    requires SameElsewhere(height, p, q) && Live(q, height, amount)
    ensures SameElsewhere(height, p, Pop(q, height, amount))
  {
    var q' := Pop(q, height, amount);
    assert forall h :: h != height ==> (h in q' <==> h in q) && (h in q ==> q'[h] == q[h]);
  }

  /** The heights from index `i` on have not been touched. */
  ghost predicate Untouched(heights: seq<nat>, i: nat, p: Pool, q: Pool) {
    forall k :: i <= k < |heights| ==> heights[k] in p && heights[k] in q && q[heights[k]] == p[heights[k]]
  }

  lemma UntouchedStep(heights: seq<nat>, i: nat, p: Pool, q: Pool, r: Pool)
    requires Ascending(heights) && i < |heights|
    requires Untouched(heights, i, p, q) && SameElsewhere(heights[i], q, r)
    ensures Untouched(heights, i + 1, p, r)
  {
    forall k | i < k < |heights|
      ensures heights[k] in r && r[heights[k]] == p[heights[k]]
    {
      assert heights[k] != heights[i];
    }
  }

  /** What stays fixed while one height is walked: the pool and amount of the whole
      selection, and the pool and the amounts when the height was entered. */
  datatype Frame = Frame(start: Pool, required: nat, entered: Pool, keys: set<nat>)

  /** A selection in which nothing but this height changed since it was entered. */
  ghost predicate Taken(f: Frame, height: nat, pool: Pool, ret: seq<PoolVtxo>, remaining: nat) {
    && Stands(f.start, f.required, ret, pool, remaining)
    && SameElsewhere(height, f.entered, pool)
    && height in pool && pool[height].Keys == f.keys
  }

  /** As above, with the walk looking at `amount`. */
  ghost predicate At(f: Frame, height: nat, amount: nat, pool: Pool, ret: seq<PoolVtxo>, remaining: nat) {
    Taken(f, height, pool, ret, remaining) && remaining > 0 && Walking(pool, height, amount, remaining)
  }

  lemma TakeOne(f: Frame, height: nat, amount: nat, next: nat, pool: Pool, ret: seq<PoolVtxo>, remaining: nat)
    requires At(f, height, amount, pool, ret, remaining) && IsNext(f.keys, amount, next)
    requires Live(pool, height, amount) && remaining > next
    ensures var pool', ret' := Pop(pool, height, amount), ret + [Top(pool, height, amount)];
            && Taken(f, height, pool', ret', Cover(remaining, amount))
            && (Cover(remaining, amount) > 0 ==> At(f, height, amount, pool', ret', Cover(remaining, amount)))
  {
    WalkPicks(pool, height, amount, next, remaining);
    StandsExtend(f.start, f.required, ret, pool, remaining, Top(pool, height, amount));
    PopElsewhere(height, f.entered, pool, amount);
    if remaining > amount {
      WalkPops(pool, height, amount, remaining);
    }
  }

  lemma WalkStarts(f: Frame, height: nat, amount: nat, pool: Pool, ret: seq<PoolVtxo>, remaining: nat)
    requires Stands(f.start, f.required, ret, pool, remaining) && remaining > 0
    requires Earliest(pool, height) && Full(pool, height)
    requires f.entered == pool && f.keys == pool[height].Keys && IsGreatest(amount, f.keys)
    ensures At(f, height, amount, pool, ret, remaining)
  {
  }

  lemma NextHeight(heights: seq<nat>, i: nat, h: nat)
    requires Ascending(heights) && i < |heights| && h in heights && heights[i] < h
    ensures i + 1 < |heights| && heights[i + 1] <= h
  {
    var k :| 0 <= k < |heights| && heights[k] == h;
    assert i < k;
  }

  /** Everything still in the pool sits at `heights[i]` or later, if there is such a
      height. */
  ghost predicate NoneBefore(p: Pool, heights: seq<nat>, i: nat) {
    if i < |heights| then Earliest(p, heights[i]) else Exhausted(p)
  }

  lemma HeightDone(p: Pool, heights: seq<nat>, i: nat)
    requires SortsKeys(heights, p) && i < |heights|
    requires HeightUsedUp(p, heights[i])
    ensures NoneBefore(p, heights, i + 1)
  {
    forall h: nat, a: nat | Live(p, h, a)
      ensures i + 1 < |heights| && heights[i + 1] <= h
    {
      NextHeight(heights, i, h);
    }
  }

  /** The heights of the pool in ascending order. */
  ghost predicate SortsKeys(heights: seq<nat>, p: Pool) {
    Ascending(heights) && forall h :: h in heights <==> h in p
  }

  /** Nothing in the pool sits at an earlier height. */
  ghost predicate Earliest(p: Pool, height: nat) {
    forall h: nat, a: nat :: Live(p, h, a) ==> height <= h
  }

  /** Every amount of this height has a vtxo left. */
  ghost predicate Full(p: Pool, height: nat) {
    && height in p && p[height] != map[]
    && forall a :: a in p[height] ==> p[height][a] != []
  }

  ghost predicate Exhausted(p: Pool) {
    forall h: nat, a: nat :: !Live(p, h, a)
  }

  /** Where the walk stands before it enters `heights[i]`. */
  ghost predicate Between(heights: seq<nat>, i: nat, p: Pool, required: nat, s: seq<PoolVtxo>, pool: Pool,
                          remaining: nat) {
    && SortsKeys(heights, p) && i <= |heights|
    && Stands(p, required, s, pool, remaining)
    && remaining > 0 && NoneBefore(pool, heights, i)
    && Untouched(heights, i, p, pool)
  }

  lemma BetweenBegins(heights: seq<nat>, p: Pool, required: nat)
    requires SortsKeys(heights, p) && required > 0
    ensures Between(heights, 0, p, required, [], p, required)
  {
    forall h: nat, a: nat | Live(p, h, a)
      ensures 0 < |heights| && heights[0] <= h
    {
      var k :| 0 <= k < |heights| && heights[k] == h;
    }
  }

  lemma BetweenEnters(heights: seq<nat>, i: nat, p: Pool, required: nat, s: seq<PoolVtxo>, pool: Pool, remaining: nat)
    requires Between(heights, i, p, required, s, pool, remaining) && i < |heights| && NoEmptyBucket(p)
    ensures Earliest(pool, heights[i]) && Full(pool, heights[i])
  {
  }

  lemma BetweenSteps(heights: seq<nat>, i: nat, p: Pool, required: nat,
                     before: seq<PoolVtxo>, entered: Pool, toCover: nat,
                     s: seq<PoolVtxo>, pool: Pool, remaining: nat)
    requires Between(heights, i, p, required, before, entered, toCover) && i < |heights|
    requires Stands(p, required, s, pool, remaining) && SameElsewhere(heights[i], entered, pool)
    requires remaining > 0 && HeightUsedUp(pool, heights[i])
    ensures Between(heights, i + 1, p, required, s, pool, remaining)
  {
    UntouchedStep(heights, i, p, entered, pool);
    SortsKeysPopped(heights, p, s);
    HeightDone(pool, heights, i);
  }

  lemma SortsKeysPopped(heights: seq<nat>, p: Pool, s: seq<PoolVtxo>)
    requires SortsKeys(heights, p)
    ensures SortsKeys(heights, PopAll(p, s))
  {
    PopAllShape(p, s);
  }

  class Data {
    var pool: Pool

    ghost predicate Valid()
      reads this
    {
      NoEmptyBucket(pool)
    }

    constructor ()
      ensures Valid() && pool == map[]
    {
      pool := map[];
    }

    method Insert(vtxo: VtxoId, expiry: nat, amount: nat)
      modifies this
      ensures pool == Push(old(pool), PoolVtxo(vtxo, expiry, amount))
      ensures Total(pool) == Total(old(pool)) + amount
      ensures old(Valid()) ==> Valid()
    {
      var forHeight: Bucket := if expiry in pool then pool[expiry] else map[];
      var forAmount := if amount in forHeight then forHeight[amount] else [];
      forHeight := forHeight[amount := forAmount + [vtxo]];
      PushTotal(pool, PoolVtxo(vtxo, expiry, amount));
      if Valid() {
        PushNoEmpty(pool, PoolVtxo(vtxo, expiry, amount));
      }
      pool := pool[expiry := forHeight];
    }

    /** The put-back loops of `take_inputs` and `send_arkoor`. */
    method InsertAll(vtxos: seq<PoolVtxo>)
      modifies this
      ensures pool == PushAll(old(pool), vtxos)
      ensures old(Valid()) ==> Valid()
    {
      for i := 0 to |vtxos|
        invariant pool == PushAll(old(pool), vtxos[..i])
      {
        assert vtxos[..i + 1][..i] == vtxos[..i];
        Insert(vtxos[i].id, vtxos[i].height, vtxos[i].amount);
      }
      assert vtxos[..|vtxos|] == vtxos;
      if old(Valid()) {
        PushAllNoEmpty(old(pool), vtxos);
      }
    }

    method Prune()
      modifies this
      ensures Valid() && SameContents(old(pool), pool)
    {
      PrunedKeeps(pool);
      pool := Pruned(pool);
    }

    method PruneExpiring(threshold: nat)
      requires Valid()
      modifies this
      ensures Valid()
      ensures forall v :: Count(pool, v) == if v.height > threshold then Count(old(pool), v) else 0
    {
      pool := map h | h in pool && h > threshold :: pool[h];
    }

    /** The innermost loop: pops from one amount while the next lower amount
        would not cover the remainder. */
    method TakeFromAmount(height: nat, amount: nat, nextAmount: nat, ghost f: Frame,
                          taken: seq<PoolVtxo>, toCover: nat)
      returns (ret: seq<PoolVtxo>, remaining: nat)
      requires At(f, height, amount, pool, taken, toCover)
      requires IsNext(f.keys, amount, nextAmount)
      modifies this
      ensures Taken(f, height, pool, ret, remaining)
      ensures remaining > 0 ==> At(f, height, amount, pool, ret, remaining)
      ensures remaining > 0 ==> !(Live(pool, height, amount) && remaining > nextAmount)
    {
      ret, remaining := taken, toCover;
      while pool[height][amount] != [] && remaining > nextAmount
        invariant At(f, height, amount, pool, ret, remaining)
        decreases |pool[height][amount]|
      {
        var v := Top(pool, height, amount);
        TakeOne(f, height, amount, nextAmount, pool, ret, remaining);
        pool := Pop(pool, height, amount);
        ret := ret + [v];
        remaining := Cover(remaining, amount);
        if remaining == 0 {
          return;
        }
      }
    }

    /** The walk over one expiry height, from the largest amount down. */
    method TakeFromHeight(height: nat, ghost p: Pool, ghost required: nat,
                          taken: seq<PoolVtxo>, toCover: nat)
      returns (ret: seq<PoolVtxo>, remaining: nat)
      requires Stands(p, required, taken, pool, toCover) && toCover > 0
      requires Earliest(pool, height) && Full(pool, height)
      modifies this
      ensures Stands(p, required, ret, pool, remaining)
      ensures remaining > 0 ==> HeightUsedUp(pool, height)
      ensures SameElsewhere(height, old(pool), pool)
    {
      ghost var f := Frame(p, required, pool, pool[height].Keys);
      var amount := Greatest(pool[height].Keys);
      WalkStarts(f, height, amount, pool, taken, toCover);
      ret, remaining := taken, toCover;
      while true
        invariant At(f, height, amount, pool, ret, remaining)
        decreases amount
      {
        var next := Below(pool[height].Keys, amount);
        ret, remaining := TakeFromAmount(height, amount, if next.Some? then next.value else 0, f, ret, remaining);
        if remaining == 0 {
          return;
        }
        if next.None? {
          WalkEnds(pool, height, amount, remaining);
          return;
        }
        WalkDescends(pool, height, amount, next.value, remaining);
        amount := next.value;
      }
    }

    method Heights() returns (heights: seq<nat>)
      ensures SortsKeys(heights, pool)
    {
      heights := SortedKeys(pool.Keys);
    }

    /** One round of the walk over all heights. */
    method WalkHeight(heights: seq<nat>, i: nat, ghost p: Pool, ghost required: nat,
                      taken: seq<PoolVtxo>, toCover: nat)
      returns (ret: seq<PoolVtxo>, remaining: nat)
      requires Between(heights, i, p, required, taken, pool, toCover)
      requires NoEmptyBucket(p) && i < |heights|
      modifies this
      ensures Stands(p, required, ret, pool, remaining)
      ensures remaining > 0 ==> Between(heights, i + 1, p, required, ret, pool, remaining)
    {
      BetweenEnters(heights, i, p, required, taken, pool, toCover);
      ghost var before := pool;
      ret, remaining := TakeFromHeight(heights[i], p, required, taken, toCover);
      if remaining > 0 {
        BetweenSteps(heights, i, p, required, taken, before, toCover, ret, pool, remaining);
      }
    }

    /** The walk over all heights, earliest expiry first. */
    method Walk(required: nat) returns (ret: seq<PoolVtxo>, remaining: nat)
      requires Valid()
      modifies this
      ensures Stands(old(pool), required, ret, pool, remaining)
      ensures remaining > 0 ==> Exhausted(pool)
    {
      ret, remaining := [], required;
      if required == 0 {
        return;
      }
      var heights := Heights();
      BetweenBegins(heights, pool, required);
      for i := 0 to |heights|
        invariant Between(heights, i, old(pool), required, ret, pool, remaining)
      {
        ret, remaining := WalkHeight(heights, i, old(pool), required, ret, remaining);
        if remaining == 0 {
          return;
        }
      }
    }

    /** Takes vtxos worth at least the required amount, or nothing. */
    method TakeInputs(required: nat) returns (ret: seq<PoolVtxo>)
      requires Valid()
      modifies this
      ensures Valid()
      ensures Splits(old(pool), ret, pool)
      ensures required > 0 ==> (ret != [] <==> required <= Total(old(pool)))
      ensures ret != [] ==> Greedy(old(pool), required, ret) && required <= Sum(ret)
      ensures required == 0 ==> ret == []
    {
      var remaining;
      ret, remaining := Walk(required);
      GreedyTotal(old(pool), required, ret);
      if remaining != 0 {
        AllEmptyTotal(pool);
        RollbackRestores(old(pool), required, ret);
        InsertAll(ret);
        return [];
      }
      GreedyConserves(old(pool), required, ret);
      Prune();
    }

    /** The end of a payment, on the pool as it is by then, whoever used it in between:
        the inputs go back if preparing failed, otherwise stored change is added. */
    method FinishSend(inputs: seq<PoolVtxo>, prepared: Prepared)
      requires Valid()
      modifies this
      ensures Valid()
      ensures pool == match prepared
                      case PrepareFailed => PushAll(old(pool), inputs)
                      case PreparedWith(None) => old(pool)
                      case PreparedWith(Some(v)) => Push(old(pool), v)
      ensures prepared.PrepareFailed? ==> forall v :: Count(pool, v) == Count(old(pool), v) + multiset(inputs)[v]
    {
      match prepared {
        case PrepareFailed =>
          PushAllCountsAll(pool, inputs);
          InsertAll(inputs);
        case PreparedWith(change) =>
          if change.Some? {
            Insert(change.value.id, change.value.height, change.value.amount);
          }
      }
    }

    /** A payment out of the pool. If preparing it fails, the inputs go back. */
    method SendArkoor(required: nat, prepared: Prepared) returns (inputs: seq<PoolVtxo>, ok: bool)
      requires Valid()
      modifies this
      ensures Valid()
      ensures !ok ==> SameContents(old(pool), pool)
      ensures ok ==> prepared.PreparedWith? && required <= Sum(inputs)
      ensures ok && prepared.change.None? ==> Splits(old(pool), inputs, pool)
      ensures ok && prepared.change.Some? ==> Splits(Push(old(pool), prepared.change.value), inputs, pool)
      ensures required > 0 ==> (ok <==> required <= Total(old(pool)) && prepared.PreparedWith?)
    {
      inputs := TakeInputs(required);
      if inputs == [] {
        return [], false;
      }
      if prepared.PreparedWith? && prepared.change.Some? {
        PushBoth(old(pool), inputs, pool, prepared.change.value);
      }
      FinishSend(inputs, prepared);
      ok := prepared.PreparedWith?;
    }
  }

  lemma PushBoth(p: Pool, taken: seq<PoolVtxo>, q: Pool, v: PoolVtxo)
    requires Splits(p, taken, q)
    ensures Splits(Push(p, v), taken, Push(q, v))
  {
    forall w
      ensures Count(Push(p, v), w) == multiset(taken)[w] + Count(Push(q, v), w)
    {
      PushCounts(p, v, w);
      PushCounts(q, v, w);
    }
  }

  /** What preparing the payment came to: it failed, or it went through, possibly
      storing a change vtxo. */
  datatype Prepared = PrepareFailed | PreparedWith(change: Option<PoolVtxo>)

  lemma RollbackContents(p: Pool, required: nat, s: seq<PoolVtxo>)
    requires Greedy(p, required, s)
    ensures SameContents(p, PushAll(PopAll(p, s), s))
  {
    GreedyConserves(p, required, s);
    PushAllCountsAll(PopAll(p, s), s);
  }

  lemma RollbackShape(p: Pool, required: nat, s: seq<PoolVtxo>)
    requires Greedy(p, required, s)
    ensures SameShape(p, PushAll(PopAll(p, s), s))
  {
    PopAllShape(p, s);
    GreedyInShape(p, required, s);
    PushAllShape(PopAll(p, s), s);
  }

  /** Putting everything back undoes an unsuccessful walk. */
  lemma RollbackRestores(p: Pool, required: nat, s: seq<PoolVtxo>)
    requires NoEmptyBucket(p) && Greedy(p, required, s)
    ensures SameContents(p, PushAll(PopAll(p, s), s))
    ensures NoEmptyBucket(PushAll(PopAll(p, s), s))
  {
    RollbackContents(p, required, s);
    RollbackShape(p, required, s);
    SameContentsNoEmpty(p, PushAll(PopAll(p, s), s));
  }
}
