/** The server's table of vtxos in flux and its transferable guards (server/src/flux.rs). */
module Flux {
  import opened Basics

  // ----- the table

  ghost function Elements(ids: seq<VtxoId>): set<VtxoId> {
    set i | i in ids
  }

  /** The first id of the request that is already locked or repeats an earlier id. */
  ghost predicate FirstRefused(table: set<VtxoId>, ids: seq<VtxoId>, k: nat) {
    && k < |ids|
    && (ids[k] in table || ids[k] in ids[..k])
    && forall j :: 0 <= j < k ==> ids[j] !in table && ids[j] !in ids[..j]
  }

  /** The request can be locked: nothing in it is locked and nothing repeats. */
  ghost predicate Lockable(table: set<VtxoId>, ids: seq<VtxoId>) {
    forall j :: 0 <= j < |ids| ==> ids[j] !in table && ids[j] !in ids[..j]
  }

  lemma LockableExact(table: set<VtxoId>, ids: seq<VtxoId>)
    ensures Lockable(table, ids) <==>
              (forall id :: id in ids ==> id !in table) && (forall i, j :: 0 <= i < j < |ids| ==> ids[i] != ids[j])
  {
    if Lockable(table, ids) {
      forall i, j | 0 <= i < j < |ids|
        ensures ids[i] != ids[j]
      {
        assert ids[..j][i] == ids[i];
      }
    }
  }

  lemma LockableExtend(table: set<VtxoId>, ids: seq<VtxoId>, id: VtxoId)
    requires Lockable(table, ids) && id !in table && id !in ids
    ensures Lockable(table, ids + [id])
  {
    var more := ids + [id];
    forall j | 0 <= j < |more|
      ensures more[j] !in table && more[j] !in more[..j]
    {
      assert more[..j] == ids[..j];
    }
  }

  datatype LockResult = Locked | Refused(id: VtxoId)

  class VtxosInFlux {
    var vtxos: set<VtxoId>

    constructor ()
      ensures vtxos == {}
    {
      vtxos := {};
    }

    /** Locks all of the ids or none of them. */
    method AtomicCheckPut(ids: seq<VtxoId>) returns (r: LockResult)
      modifies this
      ensures r.Locked? <==> Lockable(old(vtxos), ids)
      ensures r.Locked? ==> vtxos == old(vtxos) + Elements(ids)
      ensures r.Refused? ==> vtxos == old(vtxos)
      ensures r.Refused? ==> exists k: nat :: FirstRefused(old(vtxos), ids, k) && r.id == ids[k]
    {
      var buf: seq<VtxoId> := [];
      for i := 0 to |ids|
        invariant buf == ids[..i]
        invariant Lockable(old(vtxos), ids[..i])
        invariant vtxos == old(vtxos) + Elements(ids[..i])
      {
        var id := ids[i];
        if id in vtxos {
          assert FirstRefused(old(vtxos), ids, i) by {
            forall j | 0 <= j < i
              ensures ids[j] !in old(vtxos) && ids[j] !in ids[..j]
            {
              assert ids[..i][j] == ids[j] && ids[..i][..j] == ids[..j];
            }
          }
          Release(buf);
          assert vtxos == old(vtxos);
          return Refused(id);
        }
        vtxos := vtxos + {id};
        buf := buf + [id];
        assert ids[..i + 1] == ids[..i] + [id];
        LockableExtend(old(vtxos), ids[..i], id);
      }
      assert ids[..|ids|] == ids;
      r := Locked;
    }

    method Release(ids: seq<VtxoId>)
      modifies this
      ensures vtxos == old(vtxos) - Elements(ids)
    {
      for i := 0 to |ids|
        invariant vtxos == old(vtxos) - Elements(ids[..i])
      {
        vtxos := vtxos - {ids[i]};
        assert ids[..i + 1] == ids[..i] + [ids[i]];
      }
      assert ids[..|ids|] == ids;
    }
  }

  /** A guard over locked ids. Borrowing and owned guards differ only in how they
      refer to the table, so one class stands for both. */
  class FluxLock {
    const flux: VtxosInFlux
    var vtxos: set<VtxoId>

    constructor (flux: VtxosInFlux)
      ensures this.flux == flux && vtxos == {}
    {
      this.flux := flux;
      vtxos := {};
    }

    /** Locks the ids and wraps them in a guard, or changes nothing. */
    static method Lock(flux: VtxosInFlux, ids: seq<VtxoId>) returns (r: LockResult, guard: FluxLock)
      modifies flux
      ensures r.Locked? <==> Lockable(old(flux.vtxos), ids)
      ensures fresh(guard) && guard.flux == flux
      ensures r.Locked? ==> guard.vtxos == Elements(ids) && guard.vtxos !! old(flux.vtxos)
      ensures r.Locked? ==> flux.vtxos == old(flux.vtxos) + guard.vtxos
      ensures r.Refused? ==> guard.vtxos == {} && flux.vtxos == old(flux.vtxos)
    {
      r := flux.AtomicCheckPut(ids);
      guard := new FluxLock(flux);
      if r.Locked? {
        guard.AddLocked(ids);
      }
    }

    method AddLocked(ids: seq<VtxoId>)
      modifies this`vtxos
      ensures vtxos == old(vtxos) + Elements(ids)
    {
      for i := 0 to |ids|
        invariant vtxos == old(vtxos) + Elements(ids[..i])
      {
        vtxos := vtxos + {ids[i]};
        assert ids[..i + 1] == ids[..i] + [ids[i]];
      }
      assert ids[..|ids|] == ids;
    }

    /** Drains the guard and releases what it held; also what dropping it does. */
    method ReleaseAll()
      modifies this`vtxos, flux
      ensures vtxos == {} && flux.vtxos == old(flux.vtxos) - old(vtxos)
    {
      ghost var held := vtxos;
      while vtxos != {}
        invariant vtxos <= held && flux.vtxos == old(flux.vtxos) - (held - vtxos)
        decreases vtxos
      {
        var id :| id in vtxos;
        vtxos := vtxos - {id};
        flux.Release([id]);
      }
    }

    /** Takes over what the other guard holds; dropping that one releases nothing. */
    method Absorb(other: FluxLock)
      requires other != this
      modifies this`vtxos, other`vtxos
      ensures vtxos == old(vtxos) + old(other.vtxos) && other.vtxos == {}
    {
      vtxos, other.vtxos := vtxos + other.vtxos, {};
    }

    method IntoOwned() returns (owned: FluxLock)
      modifies this`vtxos
      ensures fresh(owned) && owned.flux == flux && owned.vtxos == old(vtxos) && vtxos == {}
    {
      owned := new FluxLock(flux);
      owned.vtxos := vtxos;
      vtxos := {};
    }
  }

  // ----- guards, under every interleaving

  /** Who answers for locked ids: a caller between the table update and the guard
      it will return, a borrowing guard, or an owned guard. */
  datatype Holder = MidLock(caller: nat) | Borrowed(guard: nat) | Owned(guard: nat)

  datatype State = State(table: set<VtxoId>, holders: map<Holder, set<VtxoId>>)

  datatype Action =
    | CheckPut(caller: nat, ids: seq<VtxoId>)
    | MakeGuard(caller: nat, guard: nat)
    | EmptyLock(guard: nat)
    | IntoOwned(guard: nat, owned: nat)
    | Absorb(owned: nat, guard: nat)
    | ReleaseAll(owned: nat)
    | Drop(holder: Holder)

  ghost predicate Enabled(s: State, a: Action) {
    match a
    case CheckPut(c, ids) => MidLock(c) !in s.holders
    case MakeGuard(c, g) => MidLock(c) in s.holders && Borrowed(g) !in s.holders
    case EmptyLock(g) => Borrowed(g) !in s.holders
    case IntoOwned(g, o) => Borrowed(g) in s.holders && Owned(o) !in s.holders
    case Absorb(o, g) => Owned(o) in s.holders && Borrowed(g) in s.holders
    case ReleaseAll(o) => Owned(o) in s.holders
    case Drop(h) => h in s.holders && !h.MidLock?
  }

  /** What a holder holds; a holder that does not exist holds nothing. */
  ghost function Held(s: State, h: Holder): set<VtxoId> {
    if h in s.holders then s.holders[h] else {}
  }

  /** `to` takes over everything `from` holds and `from` disappears. */
  ghost function Move(s: State, from: Holder, to: Holder): State {
    s.(holders := s.holders[to := Held(s, to) + Held(s, from)] - {from})
  }

  ghost function Next(s: State, a: Action): State
    requires Enabled(s, a)
  {
    match a
    case CheckPut(c, ids) =>
      if Lockable(s.table, ids)
      then State(s.table + Elements(ids), s.holders[MidLock(c) := Elements(ids)])
      else s
    case MakeGuard(c, g) => Move(s, MidLock(c), Borrowed(g))
    case EmptyLock(g) => s.(holders := s.holders[Borrowed(g) := {}])
    case IntoOwned(g, o) => Move(s, Borrowed(g), Owned(o))
    case Absorb(o, g) => Move(s, Borrowed(g), Owned(o))
    case ReleaseAll(o) => State(s.table - Held(s, Owned(o)), s.holders[Owned(o) := {}])
    case Drop(h) => State(s.table - Held(s, h), s.holders - {h})
  }

  // ----- the table is always the disjoint union of what the holders hold

  ghost predicate Covered(s: State) {
    forall id :: id in s.table <==> exists h :: id in Held(s, h)
  }

  ghost predicate Exclusive(s: State) {
    forall h, k, id :: id in Held(s, h) && id in Held(s, k) ==> h == k
  }

  ghost predicate Partitioned(s: State) {
    Covered(s) && Exclusive(s)
  }

  lemma MovePartitions(s: State, from: Holder, to: Holder)
    requires Partitioned(s) && from != to
    ensures Partitioned(Move(s, from, to))
  {
    var s' := Move(s, from, to);
    assert forall h :: Held(s', h) ==
                       if h == from then {} else if h == to then Held(s, to) + Held(s, from) else Held(s, h);
    forall id
      ensures id in s'.table <==> exists h :: id in Held(s', h)
    {
      if id in s.table {
        var h :| id in Held(s, h);
        assert id in Held(s', if h == from then to else h);
      }
    }
  }

  lemma AcquirePartitions(s: State, h: Holder, ids: set<VtxoId>)
    requires Partitioned(s) && h !in s.holders && ids !! s.table
    ensures Partitioned(State(s.table + ids, s.holders[h := ids]))
  {
    var s' := State(s.table + ids, s.holders[h := ids]);
    assert forall k :: Held(s', k) == if k == h then ids else Held(s, k);
    forall id
      ensures id in s'.table <==> exists k :: id in Held(s', k)
    {
      if id in ids {
        assert id in Held(s', h);
      } else if id in s.table {
        var k :| id in Held(s, k);
        assert id in Held(s', k);
      }
    }
  }

  lemma ReleasePartitions(s: State, h: Holder, s': State)
    requires Partitioned(s) && s'.table == s.table - Held(s, h)
    requires forall k :: Held(s', k) == if k == h then {} else Held(s, k)
    ensures Partitioned(s')
  {
    forall id
      ensures id in s'.table <==> exists k :: id in Held(s', k)
    {
      if id in s'.table {
        var k :| id in Held(s, k);
        assert id in Held(s', k);
      }
    }
  }

  lemma StepPartitions(s: State, a: Action)
    requires Partitioned(s) && Enabled(s, a)
    ensures Partitioned(Next(s, a))
  {
    match a
    case CheckPut(c, ids) =>
      if Lockable(s.table, ids) {
        AcquirePartitions(s, MidLock(c), Elements(ids));
      }
    case MakeGuard(c, g) => MovePartitions(s, MidLock(c), Borrowed(g));
    case EmptyLock(g) => AcquirePartitions(s, Borrowed(g), {}); assert s.table + {} == s.table;
    case IntoOwned(g, o) => MovePartitions(s, Borrowed(g), Owned(o));
    case Absorb(o, g) => MovePartitions(s, Borrowed(g), Owned(o));
    case ReleaseAll(o) => ReleasePartitions(s, Owned(o), Next(s, a));
    case Drop(h) => ReleasePartitions(s, h, Next(s, a));
  }

  const START := State({}, map[])

  ghost predicate Run(states: seq<State>, actions: seq<Action>) {
    && |states| == |actions| + 1
    && states[0] == START
    && forall i :: 0 <= i < |actions| ==> Enabled(states[i], actions[i]) && states[i + 1] == Next(states[i], actions[i])
  }

  /** Ownership over whole runs. */
  lemma {:induction false} RunPartitions(states: seq<State>, actions: seq<Action>, i: nat)
    requires Run(states, actions) && i < |states|
    ensures Partitioned(states[i])
  {
    if i > 0 {
      RunPartitions(states, actions, i - 1);
      StepPartitions(states[i - 1], actions[i - 1]);
    }
  }

  /** What every step does to the table and to each holder. */
  ghost predicate StepEffect(s: State, a: Action, s': State) {
    match a
    case CheckPut(c, ids) =>
      if (forall id :: id in ids ==> id !in s.table) && (forall i, j :: 0 <= i < j < |ids| ==> ids[i] != ids[j])
      then && s'.table == s.table + set id | id in ids
           && forall h :: Held(s', h) == if h == MidLock(c) then set id | id in ids else Held(s, h)
      else s' == s
    case MakeGuard(c, g) => Transferred(s, MidLock(c), Borrowed(g), s')
    case EmptyLock(g) => s'.table == s.table && forall h :: Held(s', h) == Held(s, h)
    case IntoOwned(g, o) => Transferred(s, Borrowed(g), Owned(o), s')
    case Absorb(o, g) => Transferred(s, Borrowed(g), Owned(o), s')
    case ReleaseAll(o) => Freed(s, Owned(o), s')
    case Drop(h) => Freed(s, h, s')
  }

  /** Everything `from` held is now held by `to` besides what that held, and nothing
      else changed. */
  ghost predicate Transferred(s: State, from: Holder, to: Holder, s': State) {
    && s'.table == s.table && to in s'.holders && from !in s'.holders
    && forall h :: Held(s', h) ==
         if h == from then {} else if h == to then Held(s, to) + Held(s, from) else Held(s, h)
  }

  /** What the holder held is neither held nor locked any more, and nothing else changed. */
  ghost predicate Freed(s: State, holder: Holder, s': State) {
    && s'.table == s.table - Held(s, holder)
    && forall h :: Held(s', h) == if h == holder then {} else Held(s, h)
  }

  lemma MoveExact(s: State, from: Holder, to: Holder)
    requires from != to
    ensures Transferred(s, from, to, Move(s, from, to))
  {
  }

  lemma StepExact(s: State, a: Action)
    requires Enabled(s, a)
    ensures StepEffect(s, a, Next(s, a))
  {
    match a
    case CheckPut(c, ids) =>
      LockableExact(s.table, ids);
    case MakeGuard(c, g) => MoveExact(s, MidLock(c), Borrowed(g));
    case IntoOwned(g, o) => MoveExact(s, Borrowed(g), Owned(o));
    case Absorb(o, g) => MoveExact(s, Borrowed(g), Owned(o));
    case _ =>
  }

  /** What a holder releases, or holds when it is dropped, can be locked again at once. */
  lemma ReleasedIsFree(states: seq<State>, actions: seq<Action>, i: nat, h: Holder, ids: seq<VtxoId>)
    requires Run(states, actions) && i < |actions|
    requires actions[i] == Drop(h) || (h.Owned? && actions[i] == ReleaseAll(h.guard))
    requires forall id :: id in ids ==> id in Held(states[i], h)
    requires forall i, j :: 0 <= i < j < |ids| ==> ids[i] != ids[j]
    ensures Lockable(states[i + 1].table, ids)
    ensures states[i + 1].table == states[i].table - Held(states[i], h)
  {
    StepExact(states[i], actions[i]);
    LockableExact(states[i + 1].table, ids);
  }

  /** While an id is held, no request containing it gets anything, and only its
      own holder's release or drop takes it out of the table. */
  lemma HeldStaysLocked(states: seq<State>, actions: seq<Action>, i: nat, h: Holder, id: VtxoId)
    requires Run(states, actions) && i < |actions| && id in Held(states[i], h)
    ensures actions[i].CheckPut? && id in actions[i].ids ==> states[i + 1] == states[i]
    ensures id !in states[i + 1].table ==>
              actions[i] == Drop(h) || (h.Owned? && actions[i] == ReleaseAll(h.guard))
  {
    var s, a := states[i], actions[i];
    RunPartitions(states, actions, i);
    assert id in s.table;
    if a.CheckPut? && id in a.ids {
      var k :| 0 <= k < |a.ids| && a.ids[k] == id;
      assert !Lockable(s.table, a.ids);
    }
    if id !in states[i + 1].table {
      assert id in Held(s, if a.Drop? then a.holder else Owned(a.owned));
    }
  }

  /** Two guards never hold the same id at the same time, in any run. */
  lemma GuardsDisjoint(states: seq<State>, actions: seq<Action>, i: nat, h: Holder, k: Holder)
    requires Run(states, actions) && i < |states| && h != k
    ensures Held(states[i], h) !! Held(states[i], k)
    ensures Held(states[i], h) <= states[i].table
  {
    RunPartitions(states, actions, i);
  }
}
