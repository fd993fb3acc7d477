/** Building round participations (bark/src/lib.rs) and the movement record they
    give rise to (bark/src/round.rs). Amounts are unbounded naturals. */
module Participation {
  import opened Collections
  import opened Basics

  type Key = Bytes

  datatype Vtxo = Vtxo(id: VtxoId, amount: nat, expiry: nat)
  datatype OffboardRequest = OffboardRequest(script: Script, amount: nat)

  datatype Participation = Participation(
    inputs: seq<Vtxo>, outputs: seq<VtxoRequest>, offboards: seq<OffboardRequest>)

  datatype Result<+T> = Ok(value: T) | Err

  // ----- sums

  ghost function InputSum(vs: seq<Vtxo>): nat {
    if vs == [] then 0 else vs[0].amount + InputSum(vs[1..])
  }

  ghost function OutputSum(rs: seq<VtxoRequest>): nat {
    if rs == [] then 0 else rs[0].amount + OutputSum(rs[1..])
  }

  ghost function OffboardSum(os: seq<OffboardRequest>): nat {
    if os == [] then 0 else os[0].amount + OffboardSum(os[1..])
  }

  lemma {:induction false} InputSumConcat(a: seq<Vtxo>, b: seq<Vtxo>)
    ensures InputSum(a + b) == InputSum(a) + InputSum(b)
  {
    if a == [] {
      assert a + b == b;
    } else {
      InputSumConcat(a[1..], b);
      assert (a + b)[1..] == a[1..] + b;
    }
  }

  lemma {:induction false} OutputSumSnoc(a: seq<VtxoRequest>, r: VtxoRequest)
    ensures OutputSum(a + [r]) == OutputSum(a) + r.amount
  {
    if a == [] {
      assert a + [r] == [r];
    } else {
      OutputSumSnoc(a[1..], r);
      assert (a + [r])[1..] == a[1..] + [r];
    }
  }

  lemma {:induction false} OffboardSumSnoc(a: seq<OffboardRequest>, o: OffboardRequest)
    ensures OffboardSum(a + [o]) == OffboardSum(a) + o.amount
  {
    if a == [] {
      assert a + [o] == [o];
    } else {
      OffboardSumSnoc(a[1..], o);
      assert (a + [o])[1..] == a[1..] + [o];
    }
  }

  /** The sums of nothing and of one. */
  lemma SumsOfOne(v: Vtxo, r: VtxoRequest, o: OffboardRequest)
    ensures InputSum([]) == 0 && OutputSum([]) == 0 && OffboardSum([]) == 0
    ensures InputSum([v]) == v.amount && OutputSum([r]) == r.amount && OffboardSum([o]) == o.amount
  {
    assert InputSum([v][1..]) == 0 && OutputSum([r][1..]) == 0 && OffboardSum([o][1..]) == 0;
  }

  method SumInputs(vs: seq<Vtxo>) returns (sum: nat)
    ensures sum == InputSum(vs)
  {
    sum := 0;
    for i := 0 to |vs|
      invariant sum + InputSum(vs[i..]) == InputSum(vs)
    {
      assert vs[i..][1..] == vs[i + 1..];
      sum := sum + vs[i].amount;
    }
  }

  method SumOutputs(rs: seq<VtxoRequest>) returns (sum: nat)
    ensures sum == OutputSum(rs)
  {
    sum := 0;
    for i := 0 to |rs|
      invariant sum + OutputSum(rs[i..]) == OutputSum(rs)
    {
      assert rs[i..][1..] == rs[i + 1..];
      sum := sum + rs[i].amount;
    }
  }

  method SumOffboards(os: seq<OffboardRequest>) returns (sum: nat)
    ensures sum == OffboardSum(os)
  {
    sum := 0;
    for i := 0 to |os|
      invariant sum + OffboardSum(os[i..]) == OffboardSum(os)
    {
      assert os[i..][1..] == os[i + 1..];
      sum := sum + os[i].amount;
    }
  }

  // ----- what the builders owe

  /** The participation balances with the given fee. */
  ghost predicate Pays(p: Participation, fee: nat) {
    InputSum(p.inputs) == OutputSum(p.outputs) + OffboardSum(p.offboards) + fee
  }

  ghost predicate DistinctIds(vs: seq<Vtxo>) {
    forall i, j :: 0 <= i < j < |vs| ==> vs[i].id != vs[j].id
  }

  // ----- coin selection

  function Lasts(threshold: Option<nat>): Vtxo -> bool {
    (v: Vtxo) => threshold.None? || threshold.value <= v.expiry
  }

  /** The vtxos that do not expire before the threshold, in order. */
  ghost function Lasting(vs: seq<Vtxo>, threshold: Option<nat>): seq<Vtxo> {
    Kept(Lasts(threshold), vs)
  }

  lemma LastingExact(vs: seq<Vtxo>, threshold: Option<nat>)
    ensures forall v :: v in Lasting(vs, threshold) <==> v in vs && !(threshold.Some? && v.expiry < threshold.value)
  {
    KeptMembers(Lasts(threshold), vs);
  }

  /** `r` is the shortest nonempty prefix of `vs` that reaches the amount. */
  ghost predicate MinimalCover(vs: seq<Vtxo>, amount: nat, r: seq<Vtxo>) {
    && r != [] && r <= vs
    && amount <= InputSum(r)
    && (|r| > 1 ==> InputSum(r[..|r| - 1]) < amount)
  }

  /** Takes lasting vtxos until the amount is reached; even for the amount zero it
      takes one, and fails if there is none. */
  method SelectVtxosToCover(inputs: seq<Vtxo>, amount: nat, threshold: Option<nat>) returns (r: Result<seq<Vtxo>>)
    ensures r.Ok? <==> Lasting(inputs, threshold) != [] && amount <= InputSum(Lasting(inputs, threshold))
    ensures r.Ok? ==> MinimalCover(Lasting(inputs, threshold), amount, r.value)
  {
    var result: seq<Vtxo> := [];
    var total := 0;
    for i := 0 to |inputs|
      invariant result + Lasting(inputs[i..], threshold) == Lasting(inputs, threshold)
      invariant total == InputSum(result)
      invariant result != [] ==> total < amount
    {
      KeptNext(result, Lasts(threshold), inputs, i);
      if threshold.Some? && inputs[i].expiry < threshold.value {
        continue;
      }
      InputSumConcat(result, [inputs[i]]);
      total := total + inputs[i].amount;
      result := result + [inputs[i]];
      if total >= amount {
        CoverFound(result, Lasting(inputs[i + 1..], threshold), amount);
        return Ok(result);
      }
    }
    assert result + [] == result;
    r := Err;
  }

  lemma CoverFound(r: seq<Vtxo>, more: seq<Vtxo>, amount: nat)
    requires r != [] && amount <= InputSum(r)
    requires |r| > 1 ==> InputSum(r[..|r| - 1]) < amount
    ensures MinimalCover(r + more, amount, r) && amount <= InputSum(r + more)
  {
    InputSumConcat(r, more);
  }

  // ----- the builders

  function NotAmong(ids: set<VtxoId>): Vtxo -> bool {
    (v: Vtxo) => v.id !in ids
  }

  function InputIds(p: Participation): set<VtxoId> {
    set v | v in p.inputs :: v.id
  }

  /** The vtxos that should be refreshed and are not inputs yet. */
  ghost function Extra(p: Participation, shouldRefresh: seq<Vtxo>): seq<Vtxo> {
    Kept(NotAmong(InputIds(p)), shouldRefresh)
  }

  lemma ExtraExact(p: Participation, shouldRefresh: seq<Vtxo>)
    ensures forall v :: v in Extra(p, shouldRefresh) <==>
              v in shouldRefresh && forall u :: u in p.inputs ==> u.id != v.id
  {
    KeptMembers(NotAmong(InputIds(p)), shouldRefresh);
  }

  lemma {:induction false} KeptDistinct(keep: Vtxo -> bool, vs: seq<Vtxo>)
    requires DistinctIds(vs)
    ensures DistinctIds(Kept(keep, vs))
  {
    if vs != [] {
      KeptDistinct(keep, vs[1..]);
      KeptMembers(keep, vs[1..]);
      assert forall v :: v in vs[1..] ==> v.id != vs[0].id;
    }
  }

  lemma DistinctTogether(p: Participation, shouldRefresh: seq<Vtxo>)
    requires DistinctIds(p.inputs) && DistinctIds(shouldRefresh)
    ensures DistinctIds(p.inputs + Extra(p, shouldRefresh))
  {
    var extra := Extra(p, shouldRefresh);
    KeptDistinct(NotAmong(InputIds(p)), shouldRefresh);
    KeptMembers(NotAmong(InputIds(p)), shouldRefresh);
    forall i, j | 0 <= i < |p.inputs| && 0 <= j < |extra|
      ensures p.inputs[i].id != extra[j].id
    {
      assert extra[j] in extra && p.inputs[i] in p.inputs;
    }
  }

  /** The participation with more inputs and one output of their total. */
  function Extended(p: Participation, extra: seq<Vtxo>, req: VtxoRequest): Participation {
    Participation(p.inputs + extra, p.outputs + [req], p.offboards)
  }

  /** The participation with the vtxos to refresh, if together they exceed dust. */
  ghost function Refreshed(p: Participation, shouldRefresh: seq<Vtxo>, key: Key): Participation {
    var extra := Extra(p, shouldRefresh);
    if InputSum(extra) > P2TR_DUST then Extended(p, extra, VtxoRequest(Pubkey(key), InputSum(extra))) else p
  }

  lemma ExtendedPays(p: Participation, extra: seq<Vtxo>, req: VtxoRequest, fee: nat)
    requires Pays(p, fee) && req.amount == InputSum(extra)
    ensures Pays(Extended(p, extra, req), fee)
  {
    InputSumConcat(p.inputs, extra);
    OutputSumSnoc(p.outputs, req);
  }

  /** Adds the vtxos that should be refreshed and are not inputs yet, with one
      output of the same total, if that total exceeds dust. */
  method AddShouldRefresh(p: Participation, shouldRefresh: seq<Vtxo>, key: Key) returns (q: Participation)
    ensures q == Refreshed(p, shouldRefresh, key)
    ensures var extra := Extra(p, shouldRefresh);
            if InputSum(extra) > 330
            then && q.inputs == p.inputs + extra && q.offboards == p.offboards
                 && q.outputs == p.outputs + [VtxoRequest(Pubkey(key), InputSum(extra))]
            else q == p
    ensures forall fee :: Pays(p, fee) ==> Pays(q, fee)
    ensures DistinctIds(p.inputs) && DistinctIds(shouldRefresh) ==> DistinctIds(q.inputs)
  {
    var extra := Retain(NotAmong(InputIds(p)), shouldRefresh);
    if DistinctIds(p.inputs) && DistinctIds(shouldRefresh) {
      DistinctTogether(p, shouldRefresh);
    }
    var total := SumInputs(extra);
    if total > P2TR_DUST {
      var req := VtxoRequest(Pubkey(key), total);
      forall fee | Pays(p, fee)
        ensures Pays(Extended(p, extra, req), fee)
      {
        ExtendedPays(p, extra, req, fee);
      }
      q := Extended(p, extra, req);
    } else {
      q := p;
    }
  }

  /** Looks the ids up, refusing unknown and repeated ones. Nothing to do for no
      ids; otherwise one output of the full value and no fee. */
  method BuildRefresh(ids: seq<VtxoId>, wallet: map<VtxoId, Vtxo>, key: Key) returns (r: Result<Option<Participation>>)
    requires forall id :: id in wallet ==> wallet[id].id == id
    ensures r.Ok? <==>
              && (forall id :: id in ids ==> id in wallet)
              && (forall i, j :: 0 <= i < j < |ids| ==> ids[i] != ids[j])
    ensures r.Ok? ==> (r.value.None? <==> ids == [])
    ensures r.Ok? && r.value.Some? ==> Pays(r.value.value, 0) && DistinctIds(r.value.value.inputs)
    ensures r.Ok? && r.value.Some? ==> r.value.value.offboards == []
    ensures r.Ok? && r.value.Some? ==>
              r.value.value.outputs == [VtxoRequest(Pubkey(key), InputSum(r.value.value.inputs))]
    ensures r.Ok? && r.value.Some? ==> forall v :: v in r.value.value.inputs <==> v.id in ids && v == wallet[v.id]
  {
    var vtxos: map<VtxoId, Vtxo> := map[];
    for i := 0 to |ids|
      invariant vtxos.Keys == set id | id in ids[..i]
      invariant forall id :: id in vtxos ==> id in wallet && vtxos[id] == wallet[id]
      invariant forall j, k :: 0 <= j < k < i ==> ids[j] != ids[k]
    {
      assert ids[..i + 1] == ids[..i] + [ids[i]];
      if ids[i] !in wallet {
        return Err;
      }
      if ids[i] in vtxos {
        return Err;
      }
      vtxos := vtxos[ids[i] := wallet[ids[i]]];
    }
    assert ids[..|ids|] == ids;
    assert ids != [] ==> ids[0] in vtxos.Keys;
    if vtxos.Keys == {} {
      return Ok(None);
    }
    var inputs := Values(vtxos);
    var total := SumInputs(inputs);
    var req := VtxoRequest(Pubkey(key), total);
    assert OutputSum([req]) == total;
    r := Ok(Some(Participation(inputs, [req], [])));
  }

  /** The values of the map in some order. */
  method Values(m: map<VtxoId, Vtxo>) returns (vs: seq<Vtxo>)
    requires forall id :: id in m ==> m[id].id == id
    ensures DistinctIds(vs)
    ensures forall v :: v in vs <==> v.id in m && v == m[v.id]
  {
    vs := [];
    var left := m.Keys;
    while left != {}
      invariant left <= m.Keys
      invariant DistinctIds(vs)
      invariant forall v :: v in vs <==> v.id in m && v.id !in left && v == m[v.id]
      decreases left
    {
      var id :| id in left;
      left := left - {id};
      vs := vs + [m[id]];
    }
  }

  /** Sends everything minus the fee to the destination. */
  method BuildOffboard(vtxos: seq<Vtxo>, destination: Script, fee: nat) returns (r: Result<Participation>)
    ensures r.Ok? <==> vtxos != [] && fee <= InputSum(vtxos)
    ensures r.Ok? ==> r.value == Participation(vtxos, [], [OffboardRequest(destination, InputSum(vtxos) - fee)])
    ensures r.Ok? ==> Pays(r.value, fee)
  {
    if vtxos == [] {
      return Err;
    }
    var sum := SumInputs(vtxos);
    if fee > sum {
      return Err;
    }
    var offb := OffboardRequest(destination, sum - fee);
    assert OffboardSum([offb]) == sum - fee;
    r := Ok(Participation(vtxos, [], [offb]));
  }

  /** Pays the amount on chain, with a change output unless the change would not
      exceed dust, in which case it goes to the fee. */
  method BuildOnchainPayment(spendable: seq<Vtxo>, destination: Script, amount: nat, fee: nat, key: Key)
    returns (r: Result<Participation>)
    ensures r.Ok? <==> spendable != [] && amount + fee <= InputSum(spendable)
    ensures r.Ok? ==> exists paid :: fee <= paid <= fee + P2TR_DUST && Pays(r.value, paid)
    ensures r.Ok? && r.value.outputs != [] ==> Pays(r.value, fee)
    ensures r.Ok? ==> r.value.offboards == [OffboardRequest(destination, amount)]
    ensures r.Ok? ==> MinimalCover(spendable, amount + fee, r.value.inputs)
    ensures r.Ok? ==> var change := InputSum(r.value.inputs) - amount - fee;
              r.value.outputs == if change > P2TR_DUST then [VtxoRequest(Pubkey(key), change)] else []
  {
    var offb := OffboardRequest(destination, amount);
    var required := amount + fee;
    LastingAll(spendable);
    var selected := SelectVtxosToCover(spendable, required, None);
    if selected.Err? {
      return Err;
    }
    var inputs := selected.value;
    var sum := SumInputs(inputs);
    assert OffboardSum([offb]) == amount;
    if sum <= required + P2TR_DUST {
      r := Ok(Participation(inputs, [], [offb]));
      assert Pays(r.value, sum - amount);
    } else {
      var change := VtxoRequest(Pubkey(key), sum - required);
      assert OutputSum([change]) == sum - required;
      r := Ok(Participation(inputs, [change], [offb]));
      assert Pays(r.value, fee);
    }
  }

  lemma {:induction false} LastingAll(vs: seq<Vtxo>)
    ensures Lasting(vs, None) == vs
  {
    if vs != [] {
      LastingAll(vs[1..]);
      assert vs == [vs[0]] + vs[1..];
    }
  }

  // ----- the movement record

  datatype MovementUpdate = MovementUpdate(
    consumed: seq<Vtxo>, intended: int, effective: int, fee: nat, sentTo: seq<(Script, nat)>)

  /** The subtraction of amounts in the source panics on underflow; a participation
      that balances with some fee does not. */
  method ToMovementUpdate(p: Participation) returns (m: MovementUpdate)
    requires OutputSum(p.outputs) + OffboardSum(p.offboards) <= InputSum(p.inputs)
    ensures Pays(p, m.fee)
    ensures m.effective == OutputSum(p.outputs) as int - InputSum(p.inputs)
    ensures m.intended == 0 - OffboardSum(p.offboards) && m.intended - m.effective == m.fee
    ensures m.consumed == p.inputs && |m.sentTo| == |p.offboards|
    ensures forall i :: 0 <= i < |p.offboards| ==> m.sentTo[i] == (p.offboards[i].script, p.offboards[i].amount)
  {
    var inputAmount := SumInputs(p.inputs);
    var outputAmount := SumOutputs(p.outputs);
    var offboardAmount := SumOffboards(p.offboards);
    var fee := inputAmount - outputAmount - offboardAmount;
    var intended: int := -(offboardAmount as int);
    var sentTo: seq<(Script, nat)> := [];
    for i := 0 to |p.offboards|
      invariant |sentTo| == i
      invariant forall j :: 0 <= j < i ==> sentTo[j] == (p.offboards[j].script, p.offboards[j].amount)
    {
      sentTo := sentTo + [(p.offboards[i].script, p.offboards[i].amount)];
    }
    m := MovementUpdate(p.inputs, intended, intended - fee, fee, sentTo);
  }

  /** From any balanced participation to its record: the extra refresh changes
      neither the fee nor what is sent, and nothing underflows. */
  method Record(p: Participation, fee: nat, shouldRefresh: seq<Vtxo>, key: Key) returns (m: MovementUpdate)
    requires Pays(p, fee)
    ensures m.fee == fee && m.intended == 0 - OffboardSum(p.offboards)
    ensures m.effective == m.intended - fee
    ensures m.consumed == Refreshed(p, shouldRefresh, key).inputs
  {
    var q := AddShouldRefresh(p, shouldRefresh, key);
    m := ToMovementUpdate(q);
  }
}
