/** Storing and loading of round states (bark/src/round.rs). A call works on a copy
    of the stored state and writes it back; when a write fails, or the process dies
    before it, the next call starts over from what was stored before. */
module RoundStore {
  import opened Collections
  import opened Basics
  import opened Tracking
  import opened Round

  /** The state in memory with its history, and what is stored. */
  datatype Wallet = Wallet(h: History, db: Option<State>)

  /** A step of the state machine on the copy in memory, an attempt to write it back
      or to remove it from the database, or starting over from what is stored. */
  datatype Step = Act(a: Action) | Store(ok: bool) | Remove(ok: bool) | Load

  ghost predicate Can(w: Wallet, st: Step, required: nat) {
    match st
    case Act(a) => Enabled(w.h, a, required)
    case Load => w.db.Some?
    case _ => true
  }

  ghost function Then(w: Wallet, st: Step, required: nat): Wallet
    requires Can(w, st, required)
  {
    match st
    case Act(a) => w.(h := Next(w.h, a, required))
    case Store(ok) => if ok then w.(db := Some(w.h.s)) else w
    case Remove(ok) => if ok then w.(db := None) else w
    case Load => w.(h := w.h.(s := w.db.value))
  }

  /** Joining stores the new state and locks the inputs in one transaction. */
  const FIRST := Wallet(BEGIN, Some(START))

  ghost predicate RunFrom(ws: seq<Wallet>, steps: seq<Step>, required: nat) {
    && |ws| == |steps| + 1
    && forall i :: 0 <= i < |steps| ==> Can(ws[i], steps[i], required) && ws[i + 1] == Then(ws[i], steps[i], required)
  }

  ghost predicate StoreRun(ws: seq<Wallet>, steps: seq<Step>, required: nat) {
    RunFrom(ws, steps, required) && ws[0] == FIRST
  }

  // ----- what has to be remembered

  /** Unlock safety: once unlocking was attempted, everything whose signatures were
      handed out has been judged double spent. */
  ghost predicate Safe(h: History) {
    h.unlocked ==> forall x :: x in h.released ==> x in h.dropped
  }

  /** The state tracks everything handed out and not judged double spent. */
  ghost predicate Covers(h: History, s: State) {
    forall x :: x in h.released && x !in h.dropped ==> x in Ids(s.tracked)
  }

  /** A state as the state machine leaves it. */
  ghost predicate WellShaped(s: State) {
    && AllWellformed(s.tracked)
    && (s.flow.WaitingToStart? || s.flow.Canceled? ==> s.tracked == [])
  }

  /** The stored state may take over: it forgets no attempt, and does not hand out
      signatures for inputs that have been unlocked. */
  ghost predicate LoadSafe(h: History, s: State) {
    Covers(h, s) && (h.unlocked ==> Terminal(s.flow))
  }

  ghost predicate Sound(w: Wallet) {
    && Safe(w.h) && WellShaped(w.h.s) && LoadSafe(w.h, w.h.s)
    && (w.db.Some? ==> WellShaped(w.db.value))
  }

  // ----- every step

  lemma EventSound(h: History, ev: Event, env: Env, required: nat)
    requires Safe(h) && WellShaped(h.s) && LoadSafe(h, h.s) && Enabled(h, OnEvent(ev, env), required)
    ensures var h' := Next(h, OnEvent(ev, env), required); Safe(h') && WellShaped(h'.s) && LoadSafe(h', h'.s)
  {
    var h' := Next(h, OnEvent(ev, env), required);
    EventTracked(h.s, ev, env);
    EventFlow(h.s, ev, env);
    if Submits(h.s.flow, ev, env) {
      var t := NewTracked(h.s.flow.state.tx, env.forfeits.value);
      assert Ids(h'.s.tracked) == Ids(h.s.tracked) + [t.tx.txid];
    }
  }

  lemma SyncCovers(h: History, a: Action, required: nat)
    requires a.OnSync? && Enabled(h, a, required) && Covers(h, h.s)
    ensures Covers(Next(h, a, required), Next(h, a, required).s)
  {
    SameIds(a.asked, h.s.tracked);
    SyncLedger(a.asked, a.views, required);
    var h' := Next(h, a, required);
    forall x | x in h'.released && x !in h'.dropped
      ensures x in Ids(h'.s.tracked)
    {
      assert x in Ids(h.s.tracked);
      assert x in multiset(Ids(h.s.tracked));
      assert x in multiset(Ids(h'.s.tracked));
    }
  }

  lemma SyncSound(h: History, a: Action, required: nat)
    requires Safe(h) && WellShaped(h.s) && LoadSafe(h, h.s) && a.OnSync? && Enabled(h, a, required)
    ensures var h' := Next(h, a, required); Safe(h') && WellShaped(h'.s) && LoadSafe(h', h'.s)
  {
    SyncCovers(h, a, required);
    SurvivorsWellformed(a.asked, a.views, required);
    SyncUnlocksExactly(h.s.flow, a.asked, a.views, a.stored, required);
    if h.s.tracked == [] {
      assert |multiset(a.asked)| == 0;
    }
  }

  lemma StepSound(w: Wallet, st: Step, required: nat)
    requires Sound(w) && Can(w, st, required) && (st.Load? ==> LoadSafe(w.h, w.db.value))
    ensures Sound(Then(w, st, required))
  {
    match st
    case Act(a) =>
      match a {
        case OnEvent(ev, env) => EventSound(w.h, ev, env, required);
        case OnSync(_, _, _) => SyncSound(w.h, a, required);
        case OnCancel =>
      }
    case _ =>
  }

  /** Every load of the run finds a stored state that may take over. */
  ghost predicate LoadsSafely(ws: seq<Wallet>, steps: seq<Step>) {
    forall i :: 0 <= i < |steps| && i < |ws| && steps[i].Load? && ws[i].db.Some? ==> LoadSafe(ws[i].h, ws[i].db.value)
  }

  lemma {:induction false} RunSound(ws: seq<Wallet>, steps: seq<Step>, required: nat, i: nat)
    requires RunFrom(ws, steps, required) && Sound(ws[0]) && LoadsSafely(ws, steps) && i < |ws|
    ensures Sound(ws[i])
  {
    if i > 0 {
      RunSound(ws, steps, required, i - 1);
      StepSound(ws[i - 1], steps[i - 1], required);
    }
  }

  /** Unlock safety survives storing, failing to store, dying and loading, in every
      run in which each stored state that is loaded may take over. */
  lemma UnlockSafeStored(ws: seq<Wallet>, steps: seq<Step>, required: nat, i: nat)
    requires StoreRun(ws, steps, required) && LoadsSafely(ws, steps) && i < |ws|
    ensures Safe(ws[i].h)
  {
    RunSound(ws, steps, required, i);
  }

  /** Whatever was stored without changes since may take over. */
  lemma SavedLoadsSafely(w: Wallet)
    requires Sound(w) && w.db == Some(w.h.s)
    ensures LoadSafe(w.h, w.db.value)
  {
  }

  /** What the database steps do: a write stores exactly what is in memory, a load brings
      back what was stored and nothing else, and what was removed cannot be loaded. */
  lemma StorageExact(w: Wallet, required: nat)
    ensures Then(w, Store(true), required).db == Some(w.h.s) && Then(w, Store(true), required).h == w.h
    ensures Then(w, Store(false), required) == w && Then(w, Remove(false), required) == w
    ensures !Can(Then(w, Remove(true), required), Load, required) && Then(w, Remove(true), required).h == w.h
    ensures w.db.Some? ==> var w' := Then(w, Load, required);
              && w'.h.s == w.db.value && w'.db == w.db && w'.h.released == w.h.released
              && w'.h.dropped == w.h.dropped && w'.h.unlocked == w.h.unlocked
  {
  }

  // ----- and only then

  /** A transaction has inputs; without any it could not be double spent. */
  ghost predicate HaveInputs(ts: seq<Tracked>) {
    forall t :: t in ts ==> t.tx.prevs != []
  }

  /** Our transaction is missing and a foreign one spends all its inputs, deeply. */
  ghost function Stolen(t: Tracked, required: nat): View {
    View(Got(NotFound), Got(required), None,
         Esplora(_ => Got(Confirmed(0)), _ => Got(Some(OutputInfo(true, Some(t.tx.txid + 1), Some(Some(0)))))))
  }

  lemma StolenDrops(t: Tracked, required: nat)
    requires Wellformed(t) && t.tx.prevs != []
    ensures var r := Sync(t, Stolen(t, required), required).1; r.Got? && r.value.DoubleSpent?
  {
    var v := Stolen(t, required);
    var seen := LookAt(t.tx.txid, t.tx.prevs[0], t.spenders[0], v.source).seen;
    assert SeenAt(t, v.source, 0, seen.value);
    EsploraConflictExact(t, v, required);
  }

  ghost function AllStolen(ts: seq<Tracked>, required: nat): (vs: seq<View>)
    ensures |vs| == |ts|
  {
    seq(|ts|, i requires 0 <= i < |ts| => Stolen(ts[i], required))
  }

  lemma {:induction false} StolenLeavesNone(ts: seq<Tracked>, required: nat)
    requires AllWellformed(ts) && HaveInputs(ts)
    ensures Survivors(ts, AllStolen(ts, required), required) == []
  {
    if ts != [] {
      var k := |ts| - 1;
      StolenLeavesNone(ts[..k], required);
      assert AllStolen(ts, required)[..k] == AllStolen(ts[..k], required);
      StolenDrops(ts[k], required);
    }
  }

  /** A sync that finds every tracked attempt double spent. */
  ghost function LoseAll(s: State, required: nat): Action {
    OnSync(s.tracked, AllStolen(s.tracked, required), seq(|s.tracked|, _ => true))
  }

  /** After such a sync nothing is tracked, and nothing else was judged. */
  lemma LosesAll(h: History, required: nat)
    requires WellShaped(h.s) && HaveInputs(h.s.tracked)
    ensures Enabled(h, LoseAll(h.s, required), required)
    ensures var h' := Next(h, LoseAll(h.s, required), required);
            && h'.s == State(h.s.flow, []) && h'.released == h.released
            && h'.dropped == h.dropped + multiset(Ids(h.s.tracked))
            && (h'.unlocked <==> h.unlocked || Terminal(h.s.flow))
  {
    var ts, a := h.s.tracked, LoseAll(h.s, required);
    StolenLeavesNone(ts, required);
    SyncLedger(ts, a.views, required);
    SyncUnlocksExactly(h.s.flow, ts, a.views, a.stored, required);
  }

  /** An attempt that the state does not know is no reason to keep the inputs locked. */
  lemma ForgottenUnlocks(w: Wallet, required: nat, x: Txid) returns (ws: seq<Wallet>, steps: seq<Step>)
    requires WellShaped(w.h.s) && HaveInputs(w.h.s.tracked)
    requires x in w.h.released && x !in w.h.dropped && x !in Ids(w.h.s.tracked)
    ensures RunFrom(ws, steps, required) && ws[0] == w && NoLoad(steps) && !Safe(ws[|ws| - 1].h)
  {
    var a := LoseAll(w.h.s, required);
    LosesAll(w.h, required);
    var w1 := Then(w, Act(a), required);
    assert x !in w1.h.dropped;
    if Terminal(w.h.s.flow) {
      ws, steps := [w, w1], [Act(a)];
    } else {
      ws, steps := [w, w1, Then(w1, Act(OnCancel), required)], [Act(a), Act(OnCancel)];
    }
  }

  lemma FreshTxid(m: multiset<Txid>) returns (x: Txid)
    ensures x !in m
  {
    var all := set y | y in m;
    x := if all == {} then 0 else Greatest(all) + 1;
    assert x !in all;
  }

  /** The events of a new attempt, up to handing out its signatures. */
  ghost function Attempts(f: Flow, x: Txid): (Event, Event, Event) {
    var r := if f.Ongoing? then f.round else 0;
    var n := if f.Ongoing? then f.attempt + 1 else 0;
    (Attempt(r, n), VtxoProposal(r, n, FundingTx(x, [OutPoint(0, 0)], [false])), RoundProposal(r, n))
  }

  lemma AttemptReleases(h: History, required: nat, x: Txid) returns (h1: History, h2: History, h3: History)
    requires !Terminal(h.s.flow)
    ensures var (e1, e2, e3) := Attempts(h.s.flow, x);
            && Enabled(h, OnEvent(e1, ALL_WELL), required) && h1 == Next(h, OnEvent(e1, ALL_WELL), required)
            && Enabled(h1, OnEvent(e2, ALL_WELL), required) && h2 == Next(h1, OnEvent(e2, ALL_WELL), required)
            && Enabled(h2, OnEvent(e3, ALL_WELL), required) && h3 == Next(h2, OnEvent(e3, ALL_WELL), required)
    ensures x in h3.released && h3.dropped == h.dropped && h3.unlocked == h.unlocked
  {
    var (e1, e2, e3) := Attempts(h.s.flow, x);
    h1 := Next(h, OnEvent(e1, ALL_WELL), required);
    h2 := Next(h1, OnEvent(e2, ALL_WELL), required);
    h3 := Next(h2, OnEvent(e3, ALL_WELL), required);
  }

  /** A state that has not ended hands out signatures for inputs already unlocked. */
  lemma UnlockedReleases(w: Wallet, required: nat) returns (ws: seq<Wallet>, steps: seq<Step>)
    requires w.h.unlocked && !Terminal(w.h.s.flow)
    ensures RunFrom(ws, steps, required) && ws[0] == w && NoLoad(steps) && !Safe(ws[|ws| - 1].h)
  {
    var x := FreshTxid(w.h.dropped);
    var h1, h2, h3 := AttemptReleases(w.h, required, x);
    var (e1, e2, e3) := Attempts(w.h.s.flow, x);
    ws := [w, w.(h := h1), w.(h := h2), w.(h := h3)];
    steps := [Act(OnEvent(e1, ALL_WELL)), Act(OnEvent(e2, ALL_WELL)), Act(OnEvent(e3, ALL_WELL))];
  }

  ghost predicate NoLoad(steps: seq<Step>) {
    forall i :: 0 <= i < |steps| ==> !steps[i].Load?
  }

  /** Whatever happens from this state on, unlocking stays safe until the next load. */
  ghost predicate SafeOnwards(w: Wallet, required: nat) {
    forall ws: seq<Wallet>, steps: seq<Step> :: RunFrom(ws, steps, required) && ws[0] == w && NoLoad(steps) ==>
      Safe(ws[|ws| - 1].h)
  }

  /** Loading is safe exactly if the stored state tracks everything handed out and not
      judged double spent, and has ended if the inputs have been unlocked. */
  lemma LoadExact(w: Wallet, required: nat)
    requires Sound(w) && w.db.Some? && HaveInputs(w.db.value.tracked)
    ensures SafeOnwards(Then(w, Load, required), required) <==> LoadSafe(w.h, w.db.value)
  {
    var w' := Then(w, Load, required);
    if LoadSafe(w.h, w.db.value) {
      forall ws: seq<Wallet>, steps: seq<Step> | RunFrom(ws, steps, required) && ws[0] == w' && NoLoad(steps)
        ensures Safe(ws[|ws| - 1].h)
      {
        RunSound(ws, steps, required, |ws| - 1);
      }
    } else if !Covers(w.h, w.db.value) {
      var x :| x in w.h.released && x !in w.h.dropped && x !in Ids(w.db.value.tracked);
      var ws, steps := ForgottenUnlocks(w', required, x);
    } else {
      var ws, steps := UnlockedReleases(w', required);
    }
  }

  /** The signatures are handed out, storing that fails, and the next call cancels the
      round: the inputs are unlocked while the attempt may still confirm. */
  lemma FailedStoreUnlocks() returns (ws: seq<Wallet>, steps: seq<Step>)
    ensures StoreRun(ws, steps, 6) && !Safe(ws[|ws| - 1].h)
  {
    FirstSteps();
    steps := [Act(OnEvent(Attempt(0, 0), ALL_WELL)), Store(true), Act(OnEvent(VtxoProposal(0, 0, STOLEN), ALL_WELL)),
              Store(true), Act(OnEvent(RoundProposal(0, 0), ALL_WELL)), Store(false), Load, Act(OnCancel)];
    var stored := Some(PROPOSED.s);
    var back := SIGNED.(s := PROPOSED.s);
    ws := [FIRST, Wallet(JOINED, Some(START)), Wallet(JOINED, Some(JOINED.s)), Wallet(PROPOSED, Some(JOINED.s)),
           Wallet(PROPOSED, stored), Wallet(SIGNED, stored), Wallet(SIGNED, stored), Wallet(back, stored),
           Wallet(Next(back, OnCancel, 6), stored)];
    assert 7 in SIGNED.released && 7 !in SIGNED.dropped;
  }

  /** The round is canceled and the inputs are unlocked, removing it from the database
      fails, and the next calls take part with the same inputs. */
  lemma FailedRemovalReleases() returns (ws: seq<Wallet>, steps: seq<Step>)
    ensures StoreRun(ws, steps, 6) && !Safe(ws[|ws| - 1].h)
  {
    var canceled := Next(BEGIN, OnCancel, 6);
    var back := Wallet(canceled.(s := START), Some(START));
    var more, acts := UnlockedReleases(back, 6);
    ws := [FIRST, Wallet(canceled, Some(START)), Wallet(canceled, Some(START))] + more;
    steps := [Act(OnCancel), Remove(false), Load] + acts;
    forall i | 0 <= i < |steps|
      ensures Can(ws[i], steps[i], 6) && ws[i + 1] == Then(ws[i], steps[i], 6)
    {
      if i >= 3 {
        assert ws[i] == more[i - 3] && ws[i + 1] == more[i - 2] && steps[i] == acts[i - 3];
      }
    }
  }
}
