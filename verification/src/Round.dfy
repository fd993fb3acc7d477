/** The client's round state machine (`RoundState` in bark/src/round.rs): events
    from the server, synchronisation with the chain and cancellation, in any
    order. What the server, the chain and the database answer is an input. */
module Round {
  import opened Collections
  import opened Basics
  import opened Tracking

  // ----- states and events

  datatype AttemptState =
    | AwaitingAttempt
    | AwaitingUnsignedVtxoTree
    | AwaitingRoundProposal(tx: FundingTx)
    | AwaitingFinishedRound(tx: FundingTx, vtxos: seq<nat>)

  datatype Flow =
    | WaitingToStart
    | Ongoing(round: nat, attempt: nat, state: AttemptState)
    | Success
    | Failed
    | Canceled

  datatype Event =
    | Attempt(round: nat, attempt: nat)
    | VtxoProposal(round: nat, attempt: nat, tx: FundingTx)
    | RoundProposal(round: nat, attempt: nat)
    | Finished(round: nat, attempt: nat, signedTx: FundingTx)

  /** How the calls made while processing an event turn out: submitting our
      participation, signing the tree, signing the forfeits (which yields the new
      vtxos) and submitting the forfeit signatures. */
  datatype Env = Env(startOk: bool, treeOk: bool, forfeits: Option<seq<nat>>, submitOk: bool)

  datatype State = State(flow: Flow, tracked: seq<Tracked>)

  const START := State(WaitingToStart, [])

  // ----- processing an event

  datatype Progress =
    | NotUpdated
    | Updated(state: AttemptState, newRound: Option<Tracked>)
    | AttemptFailed
    | AttemptFinished(signedTx: FundingTx)

  function ProgressAttempt(st: AttemptState, ev: Event, env: Env): Progress {
    if st.AwaitingUnsignedVtxoTree? && ev.VtxoProposal? then
      if env.treeOk then Updated(AwaitingRoundProposal(ev.tx), None) else AttemptFailed
    else if st.AwaitingRoundProposal? && ev.RoundProposal? then
      if env.forfeits.None? then AttemptFailed
      else
        var round := NewTracked(st.tx, env.forfeits.value);
        if env.submitOk
        then Updated(AwaitingFinishedRound(st.tx, env.forfeits.value), Some(round))
        else Updated(AwaitingAttempt, Some(round))
    else if st.AwaitingFinishedRound? && ev.Finished? then
      if st.tx.txid != ev.signedTx.txid then AttemptFailed else AttemptFinished(ev.signedTx)
    else if ev.Finished? then AttemptFailed
    else NotUpdated
  }

  function TryStartAttempt(s: State, ev: Event, env: Env): State {
    if env.startOk
    then s.(flow := Ongoing(ev.round, ev.attempt, AwaitingUnsignedVtxoTree))
    else s.(flow := Failed)
  }

  /** The index of the first tracked round with this id, or the number of rounds. */
  function Find(tracked: seq<Tracked>, txid: Txid): (i: nat)
    ensures i <= |tracked|
    ensures i < |tracked| ==> tracked[i].tx.txid == txid
    ensures forall j :: 0 <= j < i ==> tracked[j].tx.txid != txid
  {
    if tracked == [] || tracked[0].tx.txid == txid then 0
    else
      var i := Find(tracked[1..], txid);
      assert forall j :: 1 <= j < i + 1 ==> tracked[j] == tracked[1..][j - 1];
      i + 1
  }

  /** The tracked transaction replaced by the signed one of the same id, which can
      differ only in its witnesses. */
  function Witnessed(t: Tracked, signedTx: FundingTx): (r: Tracked)
    ensures r.tx.signed == signedTx.signed && r.tx.txid == t.tx.txid && r.tx.prevs == t.tx.prevs
    ensures r.vtxos == t.vtxos && r.spenders == t.spenders && r.firstAt == t.firstAt
  {
    t.(tx := t.tx.(signed := signedTx.signed))
  }

  datatype Outcome = Done(state: State, updated: bool) | Panic

  function Conclude(s: State, signedTx: FundingTx): Outcome {
    if s.tracked == [] then Panic
    else
      var i := Find(s.tracked, signedTx.txid);
      if i < |s.tracked|
      then Done(State(Success, s.tracked[i := Witnessed(s.tracked[i], signedTx)]), true)
      else Done(s.(flow := Failed), true)
  }

  /** The event gets past the checks for a wrong round or attempt. */
  predicate Reaches(flow: Flow, ev: Event) {
    && flow.Ongoing?
    && ev.round <= flow.round
    && flow.attempt <= ev.attempt
    && !(ev.Attempt? && ev.attempt > flow.attempt)
  }

  function ProcessEvent(s: State, ev: Event, env: Env): Outcome {
    match s.flow
    case WaitingToStart =>
      if ev.Attempt? && ev.attempt == 0 then Done(TryStartAttempt(s, ev, env), true) else Done(s, false)
    case Ongoing(round, attempt, state) =>
      if ev.round > round then Done(s.(flow := Failed), true)
      else if ev.attempt < attempt then Done(s, false)
      else if ev.Attempt? && ev.attempt > attempt then Done(TryStartAttempt(s, ev, env), true)
      else (match ProgressAttempt(state, ev, env)
        case NotUpdated => Done(s, false)
        case Updated(newState, newRound) =>
          Done(State(Ongoing(round, attempt, newState),
                     if newRound.Some? then s.tracked + [newRound.value] else s.tracked), true)
        case AttemptFailed => Done(s.(flow := Failed), true)
        case AttemptFinished(signedTx) => Conclude(s, signedTx))
    case _ => Done(s, false)
  }

  // ----- progress

  /** (flow, attempt, stage within the attempt) */
  function Rank(f: Flow): (nat, nat, nat) {
    match f
    case WaitingToStart => (0, 0, 0)
    case Ongoing(_, attempt, st) =>
      (1, attempt, if st.AwaitingUnsignedVtxoTree? then 0 else if st.AwaitingRoundProposal? then 1 else 2)
    case _ => (2, 0, 0)
  }

  predicate LexLess(a: (nat, nat, nat), b: (nat, nat, nat)) {
    a.0 < b.0 || (a.0 == b.0 && (a.1 < b.1 || (a.1 == b.1 && a.2 < b.2)))
  }

  /** The result says truthfully whether progress was made, and progress is strict:
      no event can take the machine back or around. */
  lemma EventProgress(s: State, ev: Event, env: Env)
    requires ProcessEvent(s, ev, env).Done?
    ensures var r := ProcessEvent(s, ev, env);
            && (r.updated <==> LexLess(Rank(s.flow), Rank(r.state.flow)))
            && (!r.updated ==> r.state == s)
            && (s.flow.Ongoing? && r.state.flow.Ongoing? ==> r.state.flow.round <= s.flow.round)
  {
  }

  /** The event makes the round fail. */
  ghost predicate Fails(s: State, ev: Event, env: Env) {
    match s.flow
    case WaitingToStart => ev.Attempt? && ev.attempt == 0 && !env.startOk
    case Ongoing(round, attempt, st) =>
      || ev.round > round
      || (ev.round <= round && ev.Attempt? && ev.attempt > attempt && !env.startOk)
      || (Reaches(s.flow, ev) &&
          match ev
          case Attempt(_, _) => false
          case VtxoProposal(_, _, _) => st.AwaitingUnsignedVtxoTree? && !env.treeOk
          case RoundProposal(_, _) => st.AwaitingRoundProposal? && env.forfeits.None?
          case Finished(_, _, tx) =>
            st.AwaitingFinishedRound? ==>
              tx.txid != st.tx.txid || (s.tracked != [] && forall t :: t in s.tracked ==> t.tx.txid != tx.txid))
    case _ => false
  }

  /** The event completes the round. */
  ghost predicate Succeeds(s: State, ev: Event) {
    && Reaches(s.flow, ev) && ev.Finished? && s.flow.state.AwaitingFinishedRound?
    && ev.signedTx.txid == s.flow.state.tx.txid
    && exists t :: t in s.tracked && t.tx.txid == ev.signedTx.txid
  }

  /** The event makes us join an attempt. */
  ghost predicate Joins(flow: Flow, ev: Event, env: Env) {
    && ev.Attempt? && env.startOk
    && ((flow.WaitingToStart? && ev.attempt == 0)
        || (flow.Ongoing? && ev.round <= flow.round && ev.attempt > flow.attempt))
  }

  /** Processing the event reaches `submit_forfeit_sigs`. */
  ghost predicate Submits(flow: Flow, ev: Event, env: Env) {
    Reaches(flow, ev) && flow.state.AwaitingRoundProposal? && ev.RoundProposal? && env.forfeits.Some?
  }

  /** The event makes us sign the proposed tree. */
  ghost predicate SignsTree(flow: Flow, ev: Event, env: Env) {
    Reaches(flow, ev) && flow.state.AwaitingUnsignedVtxoTree? && ev.VtxoProposal? && env.treeOk
  }

  /** The first tracked round with this id is the one of index `i`. */
  ghost predicate Earliest(tracked: seq<Tracked>, txid: Txid, i: int) {
    0 <= i < |tracked| && tracked[i].tx.txid == txid && forall j :: 0 <= j < i ==> tracked[j].tx.txid != txid
  }

  /** Every event has exactly one of these effects, or none at all. */
  lemma EventExact(s: State, ev: Event, env: Env)
    requires ProcessEvent(s, ev, env).Done?
    ensures var s' := ProcessEvent(s, ev, env).state;
            && (Fails(s, ev, env) ==> s' == s.(flow := Failed))
            && (Joins(s.flow, ev, env) ==> s' == s.(flow := Ongoing(ev.round, ev.attempt, AwaitingUnsignedVtxoTree)))
            && (SignsTree(s.flow, ev, env) ==> s' == s.(flow := s.flow.(state := AwaitingRoundProposal(ev.tx))))
            && (Submits(s.flow, ev, env) ==>
                  var st := s.flow.state;
                  s' == State(s.flow.(state := if env.submitOk then AwaitingFinishedRound(st.tx, env.forfeits.value)
                                               else AwaitingAttempt),
                              s.tracked + [NewTracked(st.tx, env.forfeits.value)]))
            && (Succeeds(s, ev) ==> exists i :: Earliest(s.tracked, ev.signedTx.txid, i)
                                      && s' == State(Success, s.tracked[i := Witnessed(s.tracked[i], ev.signedTx)]))
            && (ProcessEvent(s, ev, env).updated <==>
                  Fails(s, ev, env) || Joins(s.flow, ev, env) || SignsTree(s.flow, ev, env)
                    || Submits(s.flow, ev, env) || Succeeds(s, ev))
  {
    if ev.Finished? {
      var i := Find(s.tracked, ev.signedTx.txid);
      if i < |s.tracked| {
        assert s.tracked[i] in s.tracked && Earliest(s.tracked, ev.signedTx.txid, i);
      }
    }
  }

  // ----- synchronisation

  /** The verdicts of one `sync`, in the order in which the rounds were asked. */
  ghost function Dropped(asked: seq<Tracked>, views: seq<View>, required: nat, k: nat): bool
    requires k < |asked| == |views| && Wellformed(asked[k])
  {
    var r := Sync(asked[k], views[k], required).1;
    r.Got? && r.value.DoubleSpent?
  }

  ghost predicate AllWellformed(ts: seq<Tracked>) {
    forall t :: t in ts ==> Wellformed(t)
  }

  /** Exactly the rounds that were not judged double spent, as updated, in order. */
  ghost function Survivors(asked: seq<Tracked>, views: seq<View>, required: nat): seq<Tracked>
    requires |asked| == |views| && AllWellformed(asked)
  {
    if asked == [] then [] else
      var k := |asked| - 1;
      Survivors(asked[..k], views[..k], required)
      + (if Dropped(asked, views, required, k) then [] else [Sync(asked[k], views[k], required).0])
  }

  datatype Status =
    | ConfirmedStatus(txid: Txid)
    | UnconfirmedStatus(txid: Txid)
    | PendingStatus(txids: seq<Txid>)
    | FailedStatus
    | CanceledStatus

  function Ids(ts: seq<Tracked>): (r: seq<Txid>)
    ensures |r| == |ts|
  {
    seq(|ts|, i requires 0 <= i < |ts| => ts[i].tx.txid)
  }

  function FirstSigned(ts: seq<Tracked>): Option<Txid> {
    if ts == [] then None else if ts[0].tx.IsSigned() then Some(ts[0].tx.txid) else FirstSigned(ts[1..])
  }

  /** The status reported, and whether the inputs get unlocked. */
  function StatusOf(flow: Flow, tracked: seq<Tracked>, confirmed: Option<Txid>): (Status, bool) {
    if confirmed.Some? then (ConfirmedStatus(confirmed.value), false)
    else if tracked == [] then
      match flow
      case WaitingToStart => (PendingStatus([]), false)
      case Ongoing(_, _, _) => (PendingStatus([]), false)
      case Canceled => (CanceledStatus, true)
      case _ => (FailedStatus, true)
    else if FirstSigned(tracked).Some? then (UnconfirmedStatus(FirstSigned(tracked).value), false)
    else (PendingStatus(Ids(tracked)), false)
  }

  /** Reporting the status goes along with a write to the database. */
  predicate Writes(status: Status) {
    !status.PendingStatus?
  }

  // ----- cancellation

  /** The new state and whether the round counts as canceled, which unlocks the inputs. */
  function TryCancel(s: State): (State, bool) {
    match s.flow
    case Canceled => (s, true)
    case Success => (s, false)
    case WaitingToStart => (s.(flow := Canceled), true)
    case Failed => (s, s.tracked == [])
    case Ongoing(_, _, _) => if s.tracked == [] then (s.(flow := Canceled), true) else (s, false)
  }

  // ----- every run

  /** The id of a round that counts as confirmed; it does not count if storing its
      freshly seen signed transaction failed. */
  ghost function Counted(t: Tracked, v: View, stored: bool, required: nat): Option<Txid>
    requires Wellformed(t)
  {
    var (now, r) := Sync(t, v, required);
    if r == Got(RoundConfirmed) && (!t.tx.IsSigned() && now.tx.IsSigned() ==> stored) then Some(now.tx.txid) else None
  }

  ghost function LastConfirmed(asked: seq<Tracked>, views: seq<View>, stored: seq<bool>, required: nat): Option<Txid>
    requires |asked| == |views| == |stored| && AllWellformed(asked)
  {
    if asked == [] then None else
      var k := |asked| - 1;
      var last := Counted(asked[k], views[k], stored[k], required);
      if last.Some? then last else LastConfirmed(asked[..k], views[..k], stored[..k], required)
  }

  datatype Action =
    | OnEvent(ev: Event, env: Env)
    | OnSync(asked: seq<Tracked>, views: seq<View>, stored: seq<bool>)
    | OnCancel

  /** The state together with what happened so far: the funding transactions whose
      forfeit signatures were handed out, those judged double spent, how many
      attempts were joined, and whether unlocking the inputs was attempted. */
  datatype History = History(s: State, released: multiset<Txid>, dropped: multiset<Txid>, joined: nat, unlocked: bool)

  ghost predicate Enabled(h: History, a: Action, required: nat) {
    match a
    case OnEvent(ev, env) => ProcessEvent(h.s, ev, env).Done?
    case OnSync(asked, views, stored) =>
      && |asked| == |views| == |stored|
      && multiset(asked) == multiset(h.s.tracked)
      && AllWellformed(asked)
    case OnCancel => true
  }

  ghost function DroppedIds(asked: seq<Tracked>, views: seq<View>, required: nat): multiset<Txid>
    requires |asked| == |views| && AllWellformed(asked)
  {
    if asked == [] then multiset{} else
      var k := |asked| - 1;
      DroppedIds(asked[..k], views[..k], required)
      + (if Dropped(asked, views, required, k) then multiset{asked[k].tx.txid} else multiset{})
  }

  ghost function Next(h: History, a: Action, required: nat): History
    requires Enabled(h, a, required)
  {
    match a
    case OnEvent(ev, env) =>
      h.(s := ProcessEvent(h.s, ev, env).state,
         released := if Submits(h.s.flow, ev, env) then h.released + multiset{h.s.flow.state.tx.txid} else h.released,
         joined := if Joins(h.s.flow, ev, env) then h.joined + 1 else h.joined)
    case OnSync(asked, views, stored) =>
      var tracked := Survivors(asked, views, required);
      h.(s := h.s.(tracked := tracked),
         dropped := h.dropped + DroppedIds(asked, views, required),
         unlocked := h.unlocked || StatusOf(h.s.flow, tracked, LastConfirmed(asked, views, stored, required)).1)
    case OnCancel =>
      var (s, canceled) := TryCancel(h.s);
      h.(s := s, unlocked := h.unlocked || canceled)
  }

  const BEGIN := History(START, multiset{}, multiset{}, 0, false)

  ghost predicate Run(hs: seq<History>, actions: seq<Action>, required: nat) {
    && |hs| == |actions| + 1
    && hs[0] == BEGIN
    && forall i :: 0 <= i < |actions| ==>
         Enabled(hs[i], actions[i], required) && hs[i + 1] == Next(hs[i], actions[i], required)
  }

  predicate Terminal(f: Flow) {
    f.Success? || f.Failed? || f.Canceled?
  }

  /** Nothing handed out is forgotten: it is tracked or was judged double spent. */
  ghost predicate Ledger(h: History) {
    AllWellformed(h.s.tracked) && h.released == multiset(Ids(h.s.tracked)) + h.dropped
  }

  ghost predicate Shape(h: History) {
    && (h.s.flow.WaitingToStart? || h.s.flow.Canceled? ==> h.s.tracked == [])
    && (h.unlocked ==> h.s.tracked == [] && Terminal(h.s.flow))
  }

  /** At most one handed-out attempt per joined attempt. */
  ghost predicate OnePerAttempt(h: History) {
    |h.released| + (if Early(h.s.flow) then 1 else 0) <= h.joined
  }

  ghost predicate Inv(h: History) {
    Ledger(h) && Shape(h) && OnePerAttempt(h)
  }

  lemma IdsSnoc(ts: seq<Tracked>, t: Tracked)
    ensures multiset(Ids(ts + [t])) == multiset(Ids(ts)) + multiset{t.tx.txid}
  {
    assert Ids(ts + [t]) == Ids(ts) + [t.tx.txid];
  }

  lemma {:induction false} SurvivorsWellformed(asked: seq<Tracked>, views: seq<View>, required: nat)
    requires |asked| == |views| && AllWellformed(asked)
    ensures AllWellformed(Survivors(asked, views, required))
  {
    if asked != [] {
      var k := |asked| - 1;
      SurvivorsWellformed(asked[..k], views[..k], required);
      SyncKeeps(asked[k], views[k], required);
    }
  }

  lemma IdsFront(ts: seq<Tracked>)
    requires ts != []
    ensures multiset(Ids(ts)) == multiset(Ids(ts[..|ts| - 1])) + multiset{ts[|ts| - 1].tx.txid}
  {
    IdsSnoc(ts[..|ts| - 1], ts[|ts| - 1]);
    assert ts == ts[..|ts| - 1] + [ts[|ts| - 1]];
  }

  /** What the last round asked contributes to the survivors. */
  lemma SurvivorIds(asked: seq<Tracked>, views: seq<View>, required: nat)
    requires |asked| == |views| > 0 && AllWellformed(asked)
    ensures var k := |asked| - 1;
            multiset(Ids(Survivors(asked, views, required))) ==
              multiset(Ids(Survivors(asked[..k], views[..k], required)))
              + (if Dropped(asked, views, required, k) then multiset{} else multiset{asked[k].tx.txid})
  {
    var k := |asked| - 1;
    var kept := Survivors(asked[..k], views[..k], required);
    if Dropped(asked, views, required, k) {
      assert kept + [] == kept;
    } else {
      SyncKeeps(asked[k], views[k], required);
      IdsSnoc(kept, Sync(asked[k], views[k], required).0);
    }
  }

  /** One `sync` splits what was tracked into what still is and what was dropped. */
  lemma {:induction false} SyncLedger(asked: seq<Tracked>, views: seq<View>, required: nat)
    requires |asked| == |views| && AllWellformed(asked)
    ensures multiset(Ids(asked)) ==
              multiset(Ids(Survivors(asked, views, required))) + DroppedIds(asked, views, required)
  {
    if asked != [] {
      var k := |asked| - 1;
      SyncLedger(asked[..k], views[..k], required);
      IdsFront(asked);
      SurvivorIds(asked, views, required);
    }
  }

  lemma IdsWithout(b: seq<Tracked>, j: nat)
    requires j < |b|
    ensures multiset(SwapRemove(b, j)) == multiset(b) - multiset{b[j]}
    ensures multiset(Ids(b)) == multiset(Ids(SwapRemove(b, j))) + multiset{b[j].tx.txid}
  {
    SwapRemoveMultiset(b, j);
    SwapRemoveMultiset(Ids(b), j);
    assert Ids(SwapRemove(b, j)) == SwapRemove(Ids(b), j);
    assert Ids(b)[j] in multiset(Ids(b));
  }

  lemma {:induction false} SameIds(a: seq<Tracked>, b: seq<Tracked>)
    requires multiset(a) == multiset(b)
    ensures multiset(Ids(a)) == multiset(Ids(b))
  {
    if a == [] {
      assert |multiset(b)| == 0;
    } else {
      var n := |a| - 1;
      assert a == a[..n] + [a[n]];
      assert a[n] in multiset(b);
      var j :| 0 <= j < |b| && b[j] == a[n];
      IdsWithout(b, j);
      SameIds(a[..n], SwapRemove(b, j));
      IdsFront(a);
    }
  }

  // ----- the invariant is kept by every step

  /** The stage of an attempt in which its signatures are not handed out yet. */
  predicate Early(f: Flow) {
    f.Ongoing? && Rank(f).2 < 2
  }

  lemma ConcludeKeeps(s: State, signedTx: FundingTx)
    requires Conclude(s, signedTx).Done?
    ensures var s' := Conclude(s, signedTx).state;
            && Terminal(s'.flow) && !s'.flow.Canceled?
            && Ids(s'.tracked) == Ids(s.tracked)
            && (AllWellformed(s.tracked) ==> AllWellformed(s'.tracked))
  {
    var s' := Conclude(s, signedTx).state;
    var i := Find(s.tracked, signedTx.txid);
    if i < |s.tracked| {
      assert s.tracked[i] in s.tracked;
    }
  }

  /** What an event does to the tracked rounds. */
  lemma EventTracked(s: State, ev: Event, env: Env)
    requires ProcessEvent(s, ev, env).Done?
    ensures var s' := ProcessEvent(s, ev, env).state;
            if Submits(s.flow, ev, env)
            then s'.tracked == s.tracked + [NewTracked(s.flow.state.tx, env.forfeits.value)]
            else Ids(s'.tracked) == Ids(s.tracked) && (AllWellformed(s.tracked) ==> AllWellformed(s'.tracked))
  {
    if Reaches(s.flow, ev) && ProgressAttempt(s.flow.state, ev, env).AttemptFinished? {
      ConcludeKeeps(s, ev.signedTx);
    }
  }

  /** What an event does to the flow. */
  lemma EventFlow(s: State, ev: Event, env: Env)
    requires ProcessEvent(s, ev, env).Done?
    ensures var f, f' := s.flow, ProcessEvent(s, ev, env).state.flow;
            && (Terminal(f) ==> ProcessEvent(s, ev, env).state == s)
            && (f'.WaitingToStart? || f'.Canceled? ==> ProcessEvent(s, ev, env).state == s)
            && (Submits(f, ev, env) ==> Early(f) && !Early(f') && !Joins(f, ev, env))
            && (Early(f') && !Joins(f, ev, env) ==> Early(f))
  {
    if Reaches(s.flow, ev) && ProgressAttempt(s.flow.state, ev, env).AttemptFinished? {
      ConcludeKeeps(s, ev.signedTx);
    }
  }

  lemma EventInv(h: History, ev: Event, env: Env, required: nat)
    requires Inv(h) && Enabled(h, OnEvent(ev, env), required)
    ensures Inv(Next(h, OnEvent(ev, env), required))
  {
    EventTracked(h.s, ev, env);
    EventFlow(h.s, ev, env);
    if Submits(h.s.flow, ev, env) {
      IdsSnoc(h.s.tracked, NewTracked(h.s.flow.state.tx, env.forfeits.value));
    }
  }

  lemma SyncInv(h: History, a: Action, required: nat)
    requires Inv(h) && a.OnSync? && Enabled(h, a, required)
    ensures Inv(Next(h, a, required))
  {
    SameIds(a.asked, h.s.tracked);
    SyncLedger(a.asked, a.views, required);
    SurvivorsWellformed(a.asked, a.views, required);
    if h.s.tracked == [] {
      assert |multiset(a.asked)| == 0;
    }
  }

  lemma StepInv(h: History, a: Action, required: nat)
    requires Inv(h) && Enabled(h, a, required)
    ensures Inv(Next(h, a, required))
  {
    match a
    case OnEvent(ev, env) => EventInv(h, ev, env, required);
    case OnSync(_, _, _) => SyncInv(h, a, required);
    case OnCancel =>
  }

  lemma {:induction false} RunInv(hs: seq<History>, actions: seq<Action>, required: nat, i: nat)
    requires Run(hs, actions, required) && i < |hs|
    ensures Inv(hs[i])
  {
    if i > 0 {
      RunInv(hs, actions, required, i - 1);
      StepInv(hs[i - 1], actions[i - 1], required);
    }
  }

  // ----- what this means

  lemma StaysUnlocked(h: History, a: Action, required: nat)
    requires Inv(h) && Enabled(h, a, required) && h.unlocked
    ensures Next(h, a, required).unlocked && Next(h, a, required).released == h.released
  {
  }

  /** Once unlocking was attempted, this is not forgotten and nothing is handed out. */
  ghost predicate StayUnlocked(hs: seq<History>) {
    forall k :: 0 <= k < |hs| - 1 && hs[k].unlocked ==> hs[k + 1].unlocked && hs[k + 1].released == hs[k].released
  }

  lemma RunStaysUnlocked(hs: seq<History>, actions: seq<Action>, required: nat)
    requires Run(hs, actions, required)
    ensures StayUnlocked(hs)
  {
    forall k | 0 <= k < |hs| - 1 && hs[k].unlocked
      ensures hs[k + 1].unlocked && hs[k + 1].released == hs[k].released
    {
      RunInv(hs, actions, required, k);
      StaysUnlocked(hs[k], actions[k], required);
    }
  }

  lemma {:induction false} RemainsUnlocked(hs: seq<History>, i: nat, j: nat)
    requires StayUnlocked(hs) && i <= j < |hs| && hs[i].unlocked
    ensures hs[j].unlocked && hs[j].released == hs[i].released
  {
    if i < j {
      RemainsUnlocked(hs, i, j - 1);
    }
  }

  /** Unlock safety. When the inputs have been unlocked, every attempt whose forfeit
      signatures were handed out had been judged double spent, and from then on no
      signatures are handed out any more, whatever else happens. */
  lemma UnlockSafe(hs: seq<History>, actions: seq<Action>, required: nat, i: nat, j: nat)
    requires Run(hs, actions, required) && i <= j < |hs| && hs[i].unlocked
    ensures hs[j].unlocked && hs[j].s.tracked == [] && Terminal(hs[j].s.flow)
    ensures hs[j].released == hs[j].dropped == hs[i].released
  {
    RunStaysUnlocked(hs, actions, required);
    RemainsUnlocked(hs, i, j);
    RunInv(hs, actions, required, j);
  }

  /** While an attempt whose signatures were handed out has not been judged double
      spent, it is tracked and the inputs stay locked. */
  lemma StaysTracked(hs: seq<History>, actions: seq<Action>, required: nat, i: nat, x: Txid)
    requires Run(hs, actions, required) && i < |hs| && hs[i].released[x] > hs[i].dropped[x]
    ensures x in Ids(hs[i].s.tracked) && !hs[i].unlocked
  {
    RunInv(hs, actions, required, i);
    assert multiset(Ids(hs[i].s.tracked))[x] > 0;
  }

  /** At most one tracked round is ever added per joined attempt. */
  lemma OneRoundPerAttempt(hs: seq<History>, actions: seq<Action>, required: nat, i: nat)
    requires Run(hs, actions, required) && i < |hs|
    ensures |hs[i].s.tracked| + |hs[i].dropped| == |hs[i].released| <= hs[i].joined
  {
    RunInv(hs, actions, required, i);
  }

  /** `g` is as far as `f` or further, and a final flow stays what it is. */
  predicate Forward(f: Flow, g: Flow) {
    (Rank(f) == Rank(g) || LexLess(Rank(f), Rank(g))) && (Terminal(f) ==> g == f)
  }

  lemma ForwardTransitive(f: Flow, g: Flow, k: Flow)
    requires Forward(f, g) && Forward(g, k)
    ensures Forward(f, k)
  {
  }

  lemma StepForward(hs: seq<History>, actions: seq<Action>, required: nat, i: nat)
    requires Run(hs, actions, required) && i < |actions|
    ensures Forward(hs[i].s.flow, hs[i + 1].s.flow)
  {
    var h, a := hs[i], actions[i];
    if a.OnEvent? {
      EventProgress(h.s, a.ev, a.env);
      EventFlow(h.s, a.ev, a.env);
    }
  }

  ghost predicate Marching(flows: seq<Flow>) {
    forall k :: 0 <= k < |flows| - 1 ==> Forward(flows[k], flows[k + 1])
  }

  lemma {:induction false} MarchingForward(flows: seq<Flow>, i: nat, j: nat)
    requires Marching(flows) && i <= j < |flows|
    ensures Forward(flows[i], flows[j])
  {
    if i < j {
      MarchingForward(flows, i, j - 1);
      ForwardTransitive(flows[i], flows[j - 1], flows[j]);
    }
  }

  lemma RunMarches(hs: seq<History>, actions: seq<Action>, required: nat)
    requires Run(hs, actions, required)
    ensures Marching(seq(|hs|, k requires 0 <= k < |hs| => hs[k].s.flow))
  {
    forall k | 0 <= k < |actions|
      ensures Forward(hs[k].s.flow, hs[k + 1].s.flow)
    {
      StepForward(hs, actions, required, k);
    }
  }

  /** Over a whole run the flow only moves forward, whatever is interleaved: the
      start is never re-entered, and a final flow stays what it is. */
  lemma RunProgress(hs: seq<History>, actions: seq<Action>, required: nat, i: nat, j: nat)
    requires Run(hs, actions, required) && i <= j < |hs|
    ensures Forward(hs[i].s.flow, hs[j].s.flow)
  {
    RunMarches(hs, actions, required);
    MarchingForward(seq(|hs|, k requires 0 <= k < |hs| => hs[k].s.flow), i, j);
  }

  /** Nothing is dropped without grounds: our transaction was not found and, in
      Esplora mode, a conflicting spender of one of its inputs has the required
      confirmations, or in bitcoind mode, an input is spent and the remembered first
      sighting of that is long enough ago. */
  lemma DropJustified(hs: seq<History>, actions: seq<Action>, required: nat, i: nat, k: nat)
    requires Run(hs, actions, required) && i < |actions| && actions[i].OnSync?
    requires k < |actions[i].asked| && Dropped(actions[i].asked, actions[i].views, required, k)
    ensures var t, v := actions[i].asked[k], actions[i].views[k];
            && t in hs[i].s.tracked
            && v.own == Got(NotFound)
            && (v.source.Esplora? ==>
                  && v.tip.Got?
                  && exists j: nat, s :: SeenAt(t, v.source, j, s) && s.1 != t.tx.txid
                                      && v.tip.value - s.0 + 1 >= required)
            && (v.source.Bitcoind? ==>
                  && AnySpent(t.tx.prevs, v.source, 0) == Got(true)
                  && t.firstAt.Some? && v.source.now - t.firstAt.value > 2 * required * BLOCK_TIME)
  {
    var t, v := actions[i].asked[k], actions[i].views[k];
    assert t in multiset(actions[i].asked);
    assert t in multiset(hs[i].s.tracked);
    if v.source.Esplora? {
      EsploraConflict(t, v, required);
    }
  }

  // ----- the calls behind a verdict

  /** The step asked about the entry, and this is what it saw. */
  ghost predicate AskedAbout(a: Action, t: Tracked, v: View) {
    && a.OnSync? && |a.asked| == |a.views|
    && exists k :: 0 <= k < |a.asked| && SameMemory(a.asked[k], t) && a.views[k] == v
  }

  /** What the syncs among the steps `b` to `i` saw about the attempt that started
      out as `t`: one view each, in order. */
  ghost predicate CallsAbout(actions: seq<Action>, required: nat, b: nat, i: nat, t: Tracked, calls: seq<View>)
    requires Wellformed(t) && i <= |actions|
    decreases i
  {
    if i <= b then i == b && calls == []
    else if actions[i - 1].OnSync? then
      calls != [] &&
      var n := |calls| - 1;
      && AskedAbout(actions[i - 1], After(t, calls, required, n), calls[n])
      && CallsAbout(actions, required, b, i - 1, t, calls[..n])
    else CallsAbout(actions, required, b, i - 1, t, calls)
  }

  /** The step handed out forfeit signatures and started to track `t`. */
  ghost predicate StartsTracking(h: History, a: Action, t: Tracked) {
    a.OnEvent? && Submits(h.s.flow, a.ev, a.env) && t == NewTracked(h.s.flow.state.tx, a.env.forfeits.value)
  }

  /** The entry `now` of state `i` goes back to the entry `t`, tracked from step `b` on:
      it is what the calls since then made of it. */
  ghost predicate Stems(hs: seq<History>, actions: seq<Action>, required: nat, i: nat, now: Tracked,
                        b: nat, t: Tracked, calls: seq<View>) {
    && 0 < b <= i <= |actions| <= |hs| && StartsTracking(hs[b - 1], actions[b - 1], t)
    && CallsAbout(actions, required, b, i, t, calls)
    && SameMemory(After(t, calls, required, |calls|), now)
  }

  lemma EventOrigin(s: State, ev: Event, env: Env, now: Tracked) returns (was: Tracked)
    requires ProcessEvent(s, ev, env).Done? && now in ProcessEvent(s, ev, env).state.tracked
    requires !(Submits(s.flow, ev, env) && now == NewTracked(s.flow.state.tx, env.forfeits.value))
    ensures was in s.tracked && SameMemory(was, now)
  {
    was := now;
    if now !in s.tracked {
      var s' := ProcessEvent(s, ev, env).state;
      var i := Find(s.tracked, ev.signedTx.txid);
      was := s.tracked[i];
      assert s'.tracked == s.tracked[i := Witnessed(was, ev.signedTx)];
    }
  }

  lemma {:induction false} SurvivorOrigin(asked: seq<Tracked>, views: seq<View>, required: nat, now: Tracked)
    returns (k: nat)
    requires |asked| == |views| && AllWellformed(asked) && now in Survivors(asked, views, required)
    ensures k < |asked| && !Dropped(asked, views, required, k) && now == Sync(asked[k], views[k], required).0
  {
    var n := |asked| - 1;
    if now in Survivors(asked[..n], views[..n], required) {
      k := SurvivorOrigin(asked[..n], views[..n], required, now);
    } else {
      k := n;
    }
  }

  /** One more call extends the series. */
  lemma StemsAsked(hs: seq<History>, actions: seq<Action>, required: nat, i: nat, was: Tracked, k: nat,
                   b: nat, t: Tracked, calls: seq<View>)
    requires i < |actions| < |hs| && Stems(hs, actions, required, i, was, b, t, calls)
    requires actions[i].OnSync? && |actions[i].asked| == |actions[i].views| && k < |actions[i].asked|
    requires SameMemory(actions[i].asked[k], was) && Wellformed(actions[i].asked[k])
    ensures CallsAbout(actions, required, b, i + 1, t, calls + [actions[i].views[k]])
    ensures Stems(hs, actions, required, i + 1, Sync(actions[i].asked[k], actions[i].views[k], required).0,
                  b, t, calls + [actions[i].views[k]])
    ensures VerdictAt(t, calls + [actions[i].views[k]], required, |calls|) ==
              Sync(actions[i].asked[k], actions[i].views[k], required).1
  {
    var n, v, u := |calls|, actions[i].views[k], actions[i].asked[k];
    var more := calls + [v];
    assert more[..n] == calls;
    AfterPrefix(t, calls, more, required, n);
    assert AskedAbout(actions[i], After(t, more, required, n), more[n]);
    SyncSameMemory(After(t, more, required, n), u, v, required);
  }

  lemma StemsStarts(hs: seq<History>, actions: seq<Action>, required: nat, i: nat, now: Tracked)
    requires i < |actions| < |hs| && StartsTracking(hs[i], actions[i], now)
    ensures Stems(hs, actions, required, i + 1, now, i + 1, now, [])
  {
  }

  /** Other steps leave the memory alone. */
  lemma StemsKept(hs: seq<History>, actions: seq<Action>, required: nat, i: nat, was: Tracked, now: Tracked,
                  b: nat, t: Tracked, calls: seq<View>)
    requires i < |actions| < |hs| && Stems(hs, actions, required, i, was, b, t, calls)
    requires !actions[i].OnSync? && SameMemory(was, now)
    ensures Stems(hs, actions, required, i + 1, now, b, t, calls)
  {
  }

  lemma AskedTracked(h: History, a: Action, required: nat, k: nat)
    requires a.OnSync? && Enabled(h, a, required) && k < |a.asked|
    ensures a.asked[k] in h.s.tracked && Wellformed(a.asked[k])
  {
    assert a.asked[k] in multiset(a.asked);
    assert a.asked[k] in multiset(h.s.tracked);
  }

  /** Where an entry was before the last step. */
  lemma StepOrigin(h: History, a: Action, required: nat, now: Tracked) returns (was: Tracked, k: nat)
    requires Enabled(h, a, required) && now in Next(h, a, required).s.tracked && !StartsTracking(h, a, now)
    ensures was in h.s.tracked
    ensures !a.OnSync? ==> SameMemory(was, now)
    ensures a.OnSync? ==>
              && k < |a.asked| && was == a.asked[k] && Wellformed(was)
              && now == Sync(was, a.views[k], required).0
  {
    was, k := now, 0;
    if a.OnEvent? {
      was := EventOrigin(h.s, a.ev, a.env, now);
    } else if a.OnSync? {
      k := SurvivorOrigin(a.asked, a.views, required, now);
      AskedTracked(h, a, required, k);
      was := a.asked[k];
    }
  }

  /** Every tracked entry of every run is what the syncs since its signatures were
      handed out made of it. */
  lemma {:induction false} Lineage(hs: seq<History>, actions: seq<Action>, required: nat, i: nat, now: Tracked)
    returns (b: nat, t: Tracked, calls: seq<View>)
    requires Run(hs, actions, required) && i < |hs| && now in hs[i].s.tracked
    ensures Stems(hs, actions, required, i, now, b, t, calls)
  {
    assert i > 0;
    var h, a := hs[i - 1], actions[i - 1];
    assert Enabled(h, a, required) && hs[i] == Next(h, a, required);
    if StartsTracking(h, a, now) {
      StemsStarts(hs, actions, required, i - 1, now);
      b, t, calls := i, now, [];
    } else {
      var was, k := StepOrigin(h, a, required, now);
      b, t, calls := Lineage(hs, actions, required, i - 1, was);
      if a.OnSync? {
        StemsAsked(hs, actions, required, i - 1, was, k, b, t, calls);
        calls := calls + [a.views[k]];
      } else {
        StemsKept(hs, actions, required, i - 1, was, now, b, t, calls);
      }
    }
  }

  /** All the syncs of the run use bitcoind. */
  ghost predicate BitcoindOnly(actions: seq<Action>) {
    forall i, v :: 0 <= i < |actions| && actions[i].OnSync? && v in actions[i].views ==> v.source.Bitcoind?
  }

  lemma {:induction false} CallsBitcoind(actions: seq<Action>, required: nat, b: nat, i: nat, t: Tracked,
                                         calls: seq<View>)
    requires BitcoindOnly(actions) && Wellformed(t) && i <= |actions| && CallsAbout(actions, required, b, i, t, calls)
    ensures AllBitcoind(calls)
    decreases i
  {
    if i > b {
      if actions[i - 1].OnSync? {
        var n := |calls| - 1;
        CallsBitcoind(actions, required, b, i - 1, t, calls[..n]);
        assert calls == calls[..n] + [calls[n]];
      } else {
        CallsBitcoind(actions, required, b, i - 1, t, calls);
      }
    }
  }

  /** The calls that led to an attempt being dropped, from the handing out of its
      signatures to the verdict. */
  lemma LineageOfDrop(hs: seq<History>, actions: seq<Action>, required: nat, i: nat, k: nat)
    returns (b: nat, t: Tracked, calls: seq<View>)
    requires Run(hs, actions, required) && i < |actions| && actions[i].OnSync?
    requires k < |actions[i].asked| && Dropped(actions[i].asked, actions[i].views, required, k)
    ensures DroppedAfter(hs, actions, required, i, k, b, t, calls)
    ensures var verdict := VerdictAt(t, calls, required, |calls| - 1); verdict.Got? && verdict.value.DoubleSpent?
    ensures SameMemory(After(t, calls, required, |calls| - 1), actions[i].asked[k])
  {
    var u, v := actions[i].asked[k], actions[i].views[k];
    AskedTracked(hs[i], actions[i], required, k);
    b, t, calls := Lineage(hs, actions, required, i, u);
    StemsAsked(hs, actions, required, i, u, k, b, t, calls);
    AfterPrefix(t, calls, calls + [v], required, |calls|);
    calls := calls + [v];
  }

  /** The attempt that sync `i` drops was tracked as `t` from step `b` on, and `calls` is
      what every sync since then, up to this one, saw about it. */
  ghost predicate DroppedAfter(hs: seq<History>, actions: seq<Action>, required: nat, i: nat, k: nat,
                               b: nat, t: Tracked, calls: seq<View>)
    requires i < |actions| < |hs| && actions[i].OnSync? && k < |actions[i].asked| == |actions[i].views|
  {
    && 0 < b <= i && StartsTracking(hs[b - 1], actions[b - 1], t) && t.tx.txid == actions[i].asked[k].tx.txid
    && CallsAbout(actions, required, b, i + 1, t, calls)
    && calls != [] && calls[|calls| - 1] == actions[i].views[k]
  }

  /** With bitcoind, an attempt is dropped in a run only if the calls about it since
      its signatures were handed out contain one from which on every completed call,
      up to the one that drops it, saw our transaction missing and an input spent, for
      more than twice the expected time. */
  lemma DropBitcoind(hs: seq<History>, actions: seq<Action>, required: nat, i: nat, k: nat)
    returns (b: nat, t: Tracked, calls: seq<View>, j: nat)
    requires Run(hs, actions, required) && i < |actions| && actions[i].OnSync? && BitcoindOnly(actions)
    requires k < |actions[i].asked| && Dropped(actions[i].asked, actions[i].views, required, k)
    ensures DroppedAfter(hs, actions, required, i, k, b, t, calls)
    ensures j < |calls| && AllBitcoind(calls) && SawConflict(t, calls[j]) && ConflictThroughout(t, calls, j, |calls|)
    ensures calls[|calls| - 1].source.now - calls[j].source.now > 2 * required * BLOCK_TIME
  {
    b, t, calls := LineageOfDrop(hs, actions, required, i, k);
    CallsBitcoind(actions, required, b, i + 1, t, calls);
    j := BitcoindVerdict(t, calls, required, |calls| - 1);
  }

  /** With Esplora, an attempt is dropped in a run only if some call about it since
      its signatures were handed out was told of a spender of one of its inputs that
      is not our transaction and has the required confirmations in the call that
      drops it. */
  lemma DropEsplora(hs: seq<History>, actions: seq<Action>, required: nat, i: nat, k: nat)
    returns (b: nat, t: Tracked, calls: seq<View>, j: nat, input: nat, height: nat, x: Txid)
    requires Run(hs, actions, required) && i < |actions| && actions[i].OnSync? && k < |actions[i].asked|
    requires Dropped(actions[i].asked, actions[i].views, required, k) && actions[i].views[k].source.Esplora?
    ensures DroppedAfter(hs, actions, required, i, k, b, t, calls)
    ensures j < |calls| && input < |t.tx.prevs| && Reported(calls[j].source, t.tx.prevs[input], x) && x != t.tx.txid
    ensures SeenAt(actions[i].asked[k], actions[i].views[k].source, input, (height, x))
    ensures actions[i].views[k].tip.Got? && actions[i].views[k].tip.value - height + 1 >= required
  {
    b, t, calls := LineageOfDrop(hs, actions, required, i, k);
    input, j, height, x := EsploraVerdict(t, calls, required, |calls| - 1);
  }

  // ----- unlocking

  /** A round that counts as confirmed is still tracked afterwards. */
  lemma {:induction false} ConfirmedSurvives(asked: seq<Tracked>, views: seq<View>, stored: seq<bool>, required: nat)
    requires |asked| == |views| == |stored| && AllWellformed(asked)
    requires LastConfirmed(asked, views, stored, required).Some?
    ensures Survivors(asked, views, required) != []
  {
    var k := |asked| - 1;
    if Counted(asked[k], views[k], stored[k], required).None? {
      ConfirmedSurvives(asked[..k], views[..k], stored[..k], required);
    }
  }

  /** A `sync` unlocks the inputs exactly when nothing is tracked after it and the
      interactive part is over. */
  lemma SyncUnlocksExactly(flow: Flow, asked: seq<Tracked>, views: seq<View>, stored: seq<bool>, required: nat)
    requires |asked| == |views| == |stored| && AllWellformed(asked)
    ensures StatusOf(flow, Survivors(asked, views, required), LastConfirmed(asked, views, stored, required)).1
       <==> Survivors(asked, views, required) == [] && Terminal(flow)
  {
    if LastConfirmed(asked, views, stored, required).Some? {
      ConfirmedSurvives(asked, views, stored, required);
    }
  }

  // ----- what a sync reports

  /** The call finds the attempt double spent: it is missing, and conflicted deeply or
      for long enough. */
  ghost predicate JudgedDoubleSpent(t: Tracked, v: View, required: nat)
    requires Wellformed(t)
  {
    && v.own == Got(NotFound)
    && if v.source.Esplora? then DeepConflict(t, v, required) else LongConflict(t, v, required)
  }

  lemma DroppedExact(asked: seq<Tracked>, views: seq<View>, required: nat, k: nat)
    requires k < |asked| == |views| && Wellformed(asked[k])
    ensures Dropped(asked, views, required, k) <==> JudgedDoubleSpent(asked[k], views[k], required)
  {
    SyncVerdict(asked[k], views[k], required);
    var r := Sync(asked[k], views[k], required).1;
    if Dropped(asked, views, required, k) {
      assert r == Got(DoubleSpent(r.value.spender));
    }
  }

  /** The entry is what became of the attempt of index `k`, which was not dropped. */
  ghost predicate SurvivesAs(asked: seq<Tracked>, views: seq<View>, required: nat, k: int, now: Tracked) {
    && 0 <= k < |asked| == |views| && Wellformed(asked[k])
    && !Dropped(asked, views, required, k) && now == Sync(asked[k], views[k], required).0
  }

  lemma SurvivesInFront(asked: seq<Tracked>, views: seq<View>, required: nat, k: int, now: Tracked)
    requires |asked| == |views| > 0 && k < |asked| - 1
    ensures var n := |asked| - 1;
            SurvivesAs(asked, views, required, k, now) <==> SurvivesAs(asked[..n], views[..n], required, k, now)
  {
  }

  /** What is tracked after a sync are the attempts not found double spent, updated. */
  lemma {:induction false} SurvivorsExact(asked: seq<Tracked>, views: seq<View>, required: nat, now: Tracked)
    requires |asked| == |views| && AllWellformed(asked)
    ensures now in Survivors(asked, views, required) <==> exists k :: SurvivesAs(asked, views, required, k, now)
  {
    if asked != [] {
      var n := |asked| - 1;
      SurvivorsExact(asked[..n], views[..n], required, now);
      if now in Survivors(asked[..n], views[..n], required) {
        var k :| SurvivesAs(asked[..n], views[..n], required, k, now);
        SurvivesInFront(asked, views, required, k, now);
      } else if now in Survivors(asked, views, required) {
        assert SurvivesAs(asked, views, required, n, now);
      } else {
        forall k
          ensures !SurvivesAs(asked, views, required, k, now)
        {
          if k < n {
            SurvivesInFront(asked, views, required, k, now);
          }
        }
      }
    }
  }

  /** The attempt has the required confirmations, and if this call brought its last
      witnesses, the new vtxos could be stored. */
  ghost predicate CountsAsConfirmed(t: Tracked, v: View, stored: bool, required: nat) {
    && v.own.Got? && v.own.value.Confirmed? && v.tip.Got? && v.tip.value - v.own.value.height + 1 >= required
    && (false in t.tx.signed && v.fetched.Some? && false !in v.fetched.value ==> stored)
  }

  lemma CountedExact(t: Tracked, v: View, stored: bool, required: nat)
    requires Wellformed(t)
    ensures Counted(t, v, stored, required) ==
              if CountsAsConfirmed(t, v, stored, required) then Some(t.tx.txid) else None
  {
    SyncVerdict(t, v, required);
    SyncMemory(t, v, required);
  }

  /** The attempt of index `k` counts as confirmed. */
  ghost predicate CountsAt(asked: seq<Tracked>, views: seq<View>, stored: seq<bool>, required: nat, k: int) {
    && 0 <= k < |asked| && k < |views| && k < |stored|
    && CountsAsConfirmed(asked[k], views[k], stored[k], required)
  }

  /** The confirmed attempt reported is the last one asked that counts. */
  lemma {:induction false} ConfirmedExact(asked: seq<Tracked>, views: seq<View>, stored: seq<bool>, required: nat)
    returns (k: int)
    requires |asked| == |views| == |stored| && AllWellformed(asked)
    ensures -1 <= k < |asked| && forall m :: k < m < |asked| ==> !CountsAt(asked, views, stored, required, m)
    ensures k >= 0 ==> CountsAt(asked, views, stored, required, k)
    ensures LastConfirmed(asked, views, stored, required) == if k >= 0 then Some(asked[k].tx.txid) else None
  {
    k := |asked| - 1;
    if asked != [] {
      CountedExact(asked[k], views[k], stored[k], required);
      if !CountsAt(asked, views, stored, required, k) {
        var n := k;
        k := ConfirmedExact(asked[..n], views[..n], stored[..n], required);
        forall m | k < m < |asked|
          ensures !CountsAt(asked, views, stored, required, m)
        {
          if m < n {
            assert !CountsAt(asked[..n], views[..n], stored[..n], required, m);
          }
        }
      }
    }
  }

  /** The first tracked attempt with all its witnesses has this id. */
  ghost predicate FirstSignedIs(ts: seq<Tracked>, x: Txid) {
    exists i :: 0 <= i < |ts| && ts[i].tx.txid == x && false !in ts[i].tx.signed
                && forall j :: 0 <= j < i ==> false in ts[j].tx.signed
  }

  lemma {:induction false} FirstSignedExact(ts: seq<Tracked>)
    ensures FirstSigned(ts).None? <==> forall i :: 0 <= i < |ts| ==> false in ts[i].tx.signed
    ensures FirstSigned(ts).Some? ==> FirstSignedIs(ts, FirstSigned(ts).value)
  {
    if ts != [] && false in ts[0].tx.signed {
      FirstSignedExact(ts[1..]);
      if FirstSigned(ts[1..]).Some? {
        var i :| 0 <= i < |ts[1..]| && ts[1..][i].tx.txid == FirstSigned(ts).value && false !in ts[1..][i].tx.signed
                 && forall j :: 0 <= j < i ==> false in ts[1..][j].tx.signed;
        assert forall j :: 0 <= j < i + 1 ==> false in ts[j].tx.signed by {
          assert forall j :: 1 <= j < i + 1 ==> ts[j] == ts[1..][j - 1];
        }
        assert ts[i + 1] == ts[1..][i];
      } else {
        assert forall i :: 1 <= i < |ts| ==> ts[i] == ts[1..][i - 1];
      }
    }
  }

  /** Each status by what is confirmed, what is tracked and where the flow stands. */
  lemma StatusExact(flow: Flow, tracked: seq<Tracked>, confirmed: Option<Txid>)
    ensures match StatusOf(flow, tracked, confirmed).0
            case ConfirmedStatus(x) => confirmed == Some(x)
            case UnconfirmedStatus(x) => confirmed.None? && FirstSignedIs(tracked, x)
            case PendingStatus(xs) =>
              && confirmed.None? && (forall t :: t in tracked ==> false in t.tx.signed)
              && (tracked == [] ==> !Terminal(flow))
              && |xs| == |tracked| && forall i :: 0 <= i < |xs| ==> xs[i] == tracked[i].tx.txid
            case FailedStatus => confirmed.None? && tracked == [] && (flow.Failed? || flow.Success?)
            case CanceledStatus => confirmed.None? && tracked == [] && flow.Canceled?
    ensures confirmed.Some? ==> StatusOf(flow, tracked, confirmed).0.ConfirmedStatus?
    ensures StatusOf(flow, tracked, confirmed).1 <==> confirmed.None? && tracked == [] && Terminal(flow)
  {
    FirstSignedExact(tracked);
  }

  /** A cancellation succeeds exactly when nothing is tracked and the round did not
      succeed, in every reachable state. */
  lemma CancelExactly(hs: seq<History>, actions: seq<Action>, required: nat, i: nat)
    requires Run(hs, actions, required) && i < |hs|
    ensures TryCancel(hs[i].s).1 <==> hs[i].s.tracked == [] && !hs[i].s.flow.Success?
    ensures TryCancel(hs[i].s).0.tracked == hs[i].s.tracked
    ensures TryCancel(hs[i].s).0.flow ==
              if TryCancel(hs[i].s).1 && !hs[i].s.flow.Failed? then Canceled else hs[i].s.flow
  {
    RunInv(hs, actions, required, i);
  }

  // ----- finishing

  /** The attempt we wait for is tracked. */
  ghost predicate Awaited(s: State) {
    s.flow.Ongoing? && s.flow.state.AwaitingFinishedRound? ==> s.flow.state.tx.txid in Ids(s.tracked)
  }

  /** What the announcement of a finished round leads to is decided by what is
      tracked: the assertion fails exactly if nothing is, and the round succeeds
      exactly if the announced transaction is. */
  lemma FinishOutcome(s: State, ev: Event, env: Env)
    requires Reaches(s.flow, ev) && ev.Finished? && s.flow.state.AwaitingFinishedRound?
    requires ev.signedTx.txid == s.flow.state.tx.txid
    ensures ProcessEvent(s, ev, env).Panic? <==> s.tracked == []
    ensures ProcessEvent(s, ev, env).Done? && ProcessEvent(s, ev, env).state.flow.Success? <==>
              ev.signedTx.txid in Ids(s.tracked)
  {
    var i := Find(s.tracked, ev.signedTx.txid);
    if i < |s.tracked| {
      assert Ids(s.tracked)[i] == ev.signedTx.txid;
    }
    if ev.signedTx.txid in Ids(s.tracked) {
      var j :| 0 <= j < |s.tracked| && Ids(s.tracked)[j] == ev.signedTx.txid;
      assert i <= j;
    }
  }

  lemma EventNeverPanics(s: State, ev: Event, env: Env)
    requires Awaited(s)
    ensures ProcessEvent(s, ev, env).Done?
  {
    if ProcessEvent(s, ev, env).Panic? {
      FinishOutcome(s, ev, env);
    }
  }

  lemma EventAwaited(s: State, ev: Event, env: Env)
    requires Awaited(s) && ProcessEvent(s, ev, env).Done?
    ensures Awaited(ProcessEvent(s, ev, env).state)
  {
    var s' := ProcessEvent(s, ev, env).state;
    if Submits(s.flow, ev, env) {
      assert Ids(s'.tracked)[|s.tracked|] == s.flow.state.tx.txid;
    }
  }

  /** The step does not drop the attempt we wait for. */
  ghost predicate KeepsAwaited(h: History, a: Action, required: nat)
    requires Enabled(h, a, required)
  {
    a.OnSync? ==> Awaited(Next(h, a, required).s)
  }

  /** In every run in which `sync` keeps the attempt we wait for, in particular in
      every run of events alone, no event can make the assertion fail. */
  lemma {:induction false} FinishSound(hs: seq<History>, actions: seq<Action>, required: nat, i: nat)
    requires Run(hs, actions, required) && i < |hs|
    requires forall k :: 0 <= k < i ==> KeepsAwaited(hs[k], actions[k], required)
    ensures Awaited(hs[i].s)
    ensures forall ev, env :: ProcessEvent(hs[i].s, ev, env).Done?
  {
    if i > 0 {
      FinishSound(hs, actions, required, i - 1);
      var h, a := hs[i - 1], actions[i - 1];
      if a.OnEvent? {
        EventAwaited(h.s, a.ev, a.env);
      }
    }
    forall ev, env
      ensures ProcessEvent(hs[i].s, ev, env).Done?
    {
      EventNeverPanics(hs[i].s, ev, env);
    }
  }

  /** A funding transaction whose only input a conflicting transaction spends. */
  const STOLEN := FundingTx(7, [OutPoint(1, 0)], [false])

  const CONFLICTED := View(Got(NotFound), Got(200), None,
    Esplora(_ => Got(NotFound), _ => Got(Some(OutputInfo(true, Some(8), Some(Some(100)))))))

  lemma StolenDropped()
    ensures Survivors([NewTracked(STOLEN, [])], [CONFLICTED], 6) == []
  {
    var t := NewTracked(STOLEN, []);
    assert LookAt(7, OutPoint(1, 0), t.spenders[0], CONFLICTED.source) == Looked(Some(8), Some((100, 8)));
    assert Pass(t, CONFLICTED.source, 1, t.spenders[0 := Some(8)], Some((100, 8))).1 == Got(Some((100, 8)));
    assert Pass(t, CONFLICTED.source, 0, t.spenders, None).1 == Got(Some((100, 8)));
    assert Sync(t, CONFLICTED, 6).1 == Got(DoubleSpent(Some(8)));
    assert Dropped([t], [CONFLICTED], 6, 0);
    assert Survivors([t][..0], [CONFLICTED][..0], 6) == [];
  }

  const ALL_WELL := Env(true, true, Some([]), true)
  const JOINED := History(State(Ongoing(0, 0, AwaitingUnsignedVtxoTree), []), multiset{}, multiset{}, 1, false)
  const PROPOSED := JOINED.(s := State(Ongoing(0, 0, AwaitingRoundProposal(STOLEN)), []))
  const SIGNED := History(
    State(Ongoing(0, 0, AwaitingFinishedRound(STOLEN, [])), [NewTracked(STOLEN, [])]),
    multiset{7}, multiset{}, 1, false)

  lemma FirstSteps()
    ensures Enabled(BEGIN, OnEvent(Attempt(0, 0), ALL_WELL), 6)
    ensures Next(BEGIN, OnEvent(Attempt(0, 0), ALL_WELL), 6) == JOINED
    ensures Enabled(JOINED, OnEvent(VtxoProposal(0, 0, STOLEN), ALL_WELL), 6)
    ensures Next(JOINED, OnEvent(VtxoProposal(0, 0, STOLEN), ALL_WELL), 6) == PROPOSED
    ensures Enabled(PROPOSED, OnEvent(RoundProposal(0, 0), ALL_WELL), 6)
    ensures Next(PROPOSED, OnEvent(RoundProposal(0, 0), ALL_WELL), 6) == SIGNED
  {
  }

  lemma LastStep()
    ensures Enabled(SIGNED, OnSync([NewTracked(STOLEN, [])], [CONFLICTED], [true]), 6)
    ensures Next(SIGNED, OnSync([NewTracked(STOLEN, [])], [CONFLICTED], [true]), 6).s == SIGNED.s.(tracked := [])
  {
    StolenDropped();
  }

  lemma FourSteps(hs: seq<History>, actions: seq<Action>, required: nat)
    requires |hs| == 5 && |actions| == 4 && hs[0] == BEGIN
    requires Enabled(hs[0], actions[0], required) && hs[1] == Next(hs[0], actions[0], required)
    requires Enabled(hs[1], actions[1], required) && hs[2] == Next(hs[1], actions[1], required)
    requires Enabled(hs[2], actions[2], required) && hs[3] == Next(hs[2], actions[2], required)
    requires Enabled(hs[3], actions[3], required) && hs[4] == Next(hs[3], actions[3], required)
    ensures Run(hs, actions, required)
  {
    forall i | 0 <= i < |actions|
      ensures Enabled(hs[i], actions[i], required) && hs[i + 1] == Next(hs[i], actions[i], required)
    {
      assert i == 0 || i == 1 || i == 2 || i == 3;
    }
  }

  /** Without that proviso the assertion can fail: a `sync` between handing out the
      signatures and the announcement may drop the only tracked round. */
  lemma FinishCanPanic() returns (hs: seq<History>, actions: seq<Action>, ev: Event)
    ensures Run(hs, actions, 6) && ProcessEvent(hs[|hs| - 1].s, ev, ALL_WELL).Panic?
  {
    FirstSteps();
    LastStep();
    var sync := OnSync([NewTracked(STOLEN, [])], [CONFLICTED], [true]);
    actions := [OnEvent(Attempt(0, 0), ALL_WELL), OnEvent(VtxoProposal(0, 0, STOLEN), ALL_WELL),
                OnEvent(RoundProposal(0, 0), ALL_WELL), sync];
    var last := Next(SIGNED, sync, 6);
    hs := [BEGIN, JOINED, PROPOSED, SIGNED, last];
    FourSteps(hs, actions, 6);
    ev := Finished(0, 0, STOLEN);
    FinishOutcome(last.s, ev, ALL_WELL);
  }

  // ----- the loop of sync

  lemma SurvivorsStep(asked: seq<Tracked>, views: seq<View>, required: nat, t: Tracked, v: View)
    requires |asked| == |views| && AllWellformed(asked) && Wellformed(t)
    ensures AllWellformed(asked + [t])
    ensures Survivors(asked + [t], views + [v], required) == Survivors(asked, views, required)
              + (var r := Sync(t, v, required); if r.1.Got? && r.1.value.DoubleSpent? then [] else [r.0])
  {
    assert (asked + [t])[..|asked|] == asked && (views + [v])[..|views|] == views;
  }

  /** One answer per round asked so far. */
  ghost predicate Answered(ask: nat -> View, asked: seq<Tracked>, views: seq<View>, stored: seq<bool>, call: nat) {
    && |asked| == |views| == |stored| == call
    && AllWellformed(asked)
    && forall k :: 0 <= k < call ==> views[k] == ask(k)
  }

  lemma AnsweredStep(ask: nat -> View, asked: seq<Tracked>, views: seq<View>, stored: seq<bool>, call: nat,
                     required: nat, t: Tracked, ok: bool)
    requires Answered(ask, asked, views, stored, call) && Wellformed(t)
    ensures Answered(ask, asked + [t], views + [ask(call)], stored + [ok], call + 1)
    ensures LastConfirmed(asked + [t], views + [ask(call)], stored + [ok], required) ==
              if Counted(t, ask(call), ok, required).Some? then Counted(t, ask(call), ok, required)
              else LastConfirmed(asked, views, stored, required)
  {
    assert (asked + [t])[..call] == asked && (views + [ask(call)])[..call] == views
      && (stored + [ok])[..call] == stored;
  }

  /** Where the loop stands: the rounds before `idx` are the survivors of those
      asked, the others are still to be asked. */
  ghost predicate Halfway(before: seq<Tracked>, tracked: seq<Tracked>, idx: nat, asked: seq<Tracked>,
                          views: seq<View>, required: nat) {
    && idx <= |tracked| && |asked| == |views|
    && AllWellformed(asked) && AllWellformed(tracked[idx..])
    && tracked[..idx] == Survivors(asked, views, required)
    && multiset(asked) + multiset(tracked[idx..]) == multiset(before)
  }

  lemma HalfwayKeep(before: seq<Tracked>, tracked: seq<Tracked>, idx: nat, asked: seq<Tracked>, views: seq<View>,
                    required: nat, v: View)
    requires Halfway(before, tracked, idx, asked, views, required) && idx < |tracked| && Wellformed(tracked[idx])
    requires var r := Sync(tracked[idx], v, required).1; !(r.Got? && r.value.DoubleSpent?)
    ensures Halfway(before, tracked[idx := Sync(tracked[idx], v, required).0], idx + 1,
                    asked + [tracked[idx]], views + [v], required)
  {
    var t := tracked[idx];
    var tracked' := tracked[idx := Sync(t, v, required).0];
    SurvivorsStep(asked, views, required, t, v);
    assert tracked'[..idx + 1] == tracked[..idx] + [Sync(t, v, required).0];
    assert tracked'[idx + 1..] == tracked[idx + 1..] == tracked[idx..][1..];
    MultisetSplit(tracked, idx);
  }

  lemma HalfwayDrop(before: seq<Tracked>, tracked: seq<Tracked>, idx: nat, asked: seq<Tracked>, views: seq<View>,
                    required: nat, v: View)
    requires Halfway(before, tracked, idx, asked, views, required) && idx < |tracked| && Wellformed(tracked[idx])
    requires var r := Sync(tracked[idx], v, required).1; r.Got? && r.value.DoubleSpent?
    ensures Halfway(before, SwapRemove(tracked, idx), idx, asked + [tracked[idx]], views + [v], required)
  {
    var t := tracked[idx];
    SurvivorsStep(asked, views, required, t, v);
    SwapRemoveTail(tracked, idx);
    assert t in multiset(tracked[idx..]) by { assert t == tracked[idx..][0]; }
    var tail := SwapRemove(tracked, idx)[idx..];
    forall x | x in tail
      ensures Wellformed(x)
    {
      assert x in multiset(tail);
      assert x in multiset(tracked[idx..]);
    }
  }

  class RoundState {
    const required: nat
    var flow: Flow
    var tracked: seq<Tracked>
    ghost var history: History

    ghost function Now(): State
      reads this
    {
      State(flow, tracked)
    }

    ghost predicate Valid()
      reads this
    {
      history.s == Now() && Inv(history)
    }

    constructor (required: nat)
      ensures Valid() && Now() == START && history == BEGIN
    {
      this.required := required;
      flow, tracked, history := WaitingToStart, [], BEGIN;
    }

    method TryStart(ev: Event, env: Env)
      modifies this`flow
      ensures Now() == TryStartAttempt(old(Now()), ev, env)
    {
      flow := if env.startOk then Ongoing(ev.round, ev.attempt, AwaitingUnsignedVtxoTree) else Failed;
    }

    method HandleEvent(ev: Event, env: Env) returns (updated: bool, panicked: bool)
      requires Valid()
      modifies this
      ensures Valid()
      ensures panicked ==> ProcessEvent(old(Now()), ev, env) == Panic && Now() == old(Now())
      ensures !panicked ==> ProcessEvent(old(Now()), ev, env) == Done(Now(), updated)
      ensures !panicked ==> Enabled(old(history), OnEvent(ev, env), required)
      ensures !panicked ==> history == Next(old(history), OnEvent(ev, env), required)
    {
      updated, panicked := Progressed(ev, env);
      if !panicked {
        StepInv(history, OnEvent(ev, env), required);
        history := Next(history, OnEvent(ev, env), required);
      }
    }

    method Progressed(ev: Event, env: Env) returns (updated: bool, panicked: bool)
      modifies this`flow, this`tracked
      ensures panicked ==> ProcessEvent(old(Now()), ev, env) == Panic && Now() == old(Now())
      ensures !panicked ==> ProcessEvent(old(Now()), ev, env) == Done(Now(), updated)
    {
      updated, panicked := false, false;
      match flow {
        case WaitingToStart =>
          if ev.Attempt? && ev.attempt == 0 {
            TryStart(ev, env);
            updated := true;
          }
        case Ongoing(round, attempt, state) =>
          if ev.round > round {
            flow := Failed;
            return true, false;
          }
          if ev.attempt < attempt {
            return;
          }
          if ev.Attempt? && ev.attempt > attempt {
            TryStart(ev, env);
            return true, false;
          }
          match ProgressAttempt(state, ev, env) {
            case NotUpdated =>
            case Updated(newState, newRound) =>
              if newRound.Some? {
                tracked := tracked + [newRound.value];
              }
              flow := Ongoing(round, attempt, newState);
              updated := true;
            case AttemptFailed =>
              flow := Failed;
              updated := true;
            case AttemptFinished(signedTx) =>
              if tracked == [] {
                return false, true;
              }
              var i := Find(tracked, signedTx.txid);
              if i < |tracked| {
                tracked := tracked[i := Witnessed(tracked[i], signedTx)];
                flow := Success;
              } else {
                flow := Failed;
              }
              updated := true;
          }
        case _ =>
      }
    }

    /** One round of the loop: asks about the entry at `idx`, which then survives in
        place or is swapped out. */
    method AskOne(idx: nat, v: View, store: bool, required: nat,
                  ghost before: seq<Tracked>, ghost asked: seq<Tracked>, ghost views: seq<View>)
      returns (next: nat, counted: Option<Txid>)
      requires Halfway(before, tracked, idx, asked, views, required) && idx < |tracked| && Wellformed(tracked[idx])
      modifies this`tracked
      ensures Halfway(before, tracked, next, asked + [old(tracked)[idx]], views + [v], required)
      ensures |tracked| - next < |old(tracked)| - idx
      ensures counted == Counted(old(tracked)[idx], v, store, required)
    {
      var t := tracked[idx];
      var now, r := SyncEntry(t, v, required);
      if r.Got? && r.value.DoubleSpent? {
        HalfwayDrop(before, tracked, idx, asked, views, required, v);
      } else {
        HalfwayKeep(before, tracked, idx, asked, views, required, v);
      }
      tracked := tracked[idx := now];
      next, counted := idx + 1, None;
      if !t.tx.IsSigned() && now.tx.IsSigned() {
        SignedNotDropped(t, v, required);
        if !store {
          return;
        }
      }
      if r == Got(RoundConfirmed) {
        counted := Some(now.tx.txid);
      } else if r.Got? && r.value.DoubleSpent? {
        assert SwapRemove(tracked, idx) == SwapRemove(old(tracked), idx);
        tracked, next := SwapRemove(tracked, idx), idx;
      }
    }

    /** Asks the chain about every tracked round once. `ask` and `store` give the
        answers and the outcomes of storing, by the number of the call. */
    method AskAll(ask: nat -> View, store: nat -> bool, required: nat)
      returns (confirmed: Option<Txid>, ghost asked: seq<Tracked>, ghost views: seq<View>, ghost stored: seq<bool>)
      requires AllWellformed(tracked)
      modifies this`tracked
      ensures Answered(ask, asked, views, stored, |asked|) && multiset(asked) == multiset(old(tracked))
      ensures tracked == Survivors(asked, views, required)
      ensures confirmed == LastConfirmed(asked, views, stored, required)
    {
      asked, views, stored, confirmed := [], [], [], None;
      var idx: nat, call: nat := 0, 0;
      assert tracked[0..] == tracked;
      while idx < |tracked|
        invariant Halfway(old(tracked), tracked, idx, asked, views, required)
        invariant Answered(ask, asked, views, stored, call)
        invariant confirmed == LastConfirmed(asked, views, stored, required)
        decreases |tracked| - idx
      {
        ghost var t := tracked[idx];
        assert Wellformed(t) by { assert t == tracked[idx..][0]; }
        var counted;
        idx, counted := AskOne(idx, ask(call), store(call), required, old(tracked), asked, views);
        AnsweredStep(ask, asked, views, stored, call, required, t, store(call));
        asked, views, stored := asked + [t], views + [ask(call)], stored + [store(call)];
        confirmed := if counted.Some? then counted else confirmed;
        call := call + 1;
      }
      assert tracked[..idx] == tracked;
    }

    /** The whole of `sync`: the status, and whether unlocking the inputs is attempted,
        which happens only when all attempts handed out have been judged double spent.
        `written` says how the database write that goes with the status turns out; if
        it fails, an error is reported, but the tracked rounds are updated all the same. */
    method SyncRounds(ask: nat -> View, store: nat -> bool, written: bool)
      returns (status: Answer<Status>, unlock: bool,
               ghost asked: seq<Tracked>, ghost views: seq<View>, ghost stored: seq<bool>)
      requires Valid()
      modifies this`tracked, this`history
      ensures Valid()
      ensures Answered(ask, asked, views, stored, |asked|) && multiset(asked) == multiset(old(tracked))
      ensures history == Next(old(history), OnSync(asked, views, stored), required)
      ensures var st := StatusOf(flow, tracked, LastConfirmed(asked, views, stored, required));
              unlock == st.1 && status == if Writes(st.0) && !written then NoAnswer else Got(st.0)
      ensures unlock ==> tracked == [] && Terminal(flow) && history.released == history.dropped
    {
      var confirmed;
      confirmed, asked, views, stored := AskAll(ask, store, required);
      var st := StatusOf(flow, tracked, confirmed);
      status, unlock := if Writes(st.0) && !written then NoAnswer else Got(st.0), st.1;
      StepInv(history, OnSync(asked, views, stored), required);
      history := Next(history, OnSync(asked, views, stored), required);
    }

    /** If storing the cancellation fails, an error is reported, but the flow stays
        canceled. */
    method Cancel(written: bool) returns (r: Answer<bool>)
      requires Valid()
      modifies this`flow, this`history
      ensures Valid()
      ensures Now() == TryCancel(old(Now())).0
      ensures r == if TryCancel(old(Now())).1 && !written then NoAnswer else Got(TryCancel(old(Now())).1)
      ensures history == Next(old(history), OnCancel, required)
      ensures r == NoAnswer || r == Got(true) ==> tracked == [] && Terminal(flow) && history.released == history.dropped
    {
      var canceled := false;
      match flow {
        case Canceled => canceled := true;
        case Success =>
        case WaitingToStart =>
          flow := Canceled;
          canceled := true;
        case Failed => canceled := tracked == [];
        case Ongoing(_, _, _) =>
          if tracked == [] {
            flow := Canceled;
            canceled := true;
          }
      }
      r := if canceled && !written then NoAnswer else Got(canceled);
      StepInv(history, OnCancel, required);
      history := Next(history, OnCancel, required);
    }
  }
}
