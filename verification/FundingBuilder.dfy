/** The off-chain builder that funds a channel from the vault: it spends the vault cell and a capacity
    request and puts back both with the request's amount moved from reserved to deployed. */
module FundingBuilder {
  import opened Cells
  import opened OutpointText
  import opened Wrappers

  const U128_MAX := 0xFFFF_FFFF_FFFF_FFFF_FFFF_FFFF_FFFF_FFFF
  const DEPLOYED := 2

  /** The matched request, the live cells and what the node asks to be funded. `needsGroup` says that
      the executor lock is the default lock, whose code comes from a dep group. */
  datatype Order = Order(amount: nat, vault: Cell, request: Cell, executor: Script, fundingLock: Script,
                         localAmount: nat, localReserve: nat, scriptDeps: seq<string>, defaultDep: string, needsGroup: bool)

  /** The occupied capacity of a cell with `length` bytes of data. */
  function Occupied(c: Cell, length: nat): nat {
    (8 + 33 + |c.lock.args| + (if c.kind.Some? then 33 + |c.kind.value.args| else 0) + length) * SHANNONS
  }

  function NextVault(vault: Cell, shannons: nat): Option<Cell> {
    if |vault.data| != 33 || vault.data[0] != VERSION || vault.capacity < shannons then None
    else
      var (v, amount) := (VaultFields(vault.data), shannons / SHANNONS);
      var left := vault.(capacity := vault.capacity - shannons);
      if left.capacity < Occupied(left, 33) || v.reserved < amount || !IsU64(v.deployed + amount) then None
      else Some(left.(data := EncodeVault(v.(reserved := v.reserved - amount, deployed := v.deployed + amount))))
  }

  function NextRequest(request: Cell, fee: nat): Option<Cell> {
    if |request.data| != 26 || request.data[0] != VERSION || request.capacity < fee then None
    else
      var left := request.(capacity := request.capacity - fee);
      if left.capacity < Occupied(left, 26) then None
      else Some(left.(data := EncodeRequest(RequestFields(request.data).(status := DEPLOYED))))
  }

  /** What the node asks for, in shannons; None beyond the word sizes. */
  function Asked(o: Order): Option<nat> {
    if o.localAmount + o.localReserve <= U128_MAX && IsU64(o.localAmount + o.localReserve)
    then Some(o.localAmount + o.localReserve) else None
  }

  predicate HasDep(deps: seq<Dep>, outPoint: string) {
    exists k :: 0 <= k < |deps| && deps[k].outPoint == outPoint
  }

  predicate NoRepeats(deps: seq<Dep>) {
    forall i, j :: 0 <= i < j < |deps| ==> deps[i].outPoint != deps[j].outPoint
  }

  function WithDep(deps: seq<Dep>, dep: Dep): seq<Dep> {
    if HasDep(deps, dep.outPoint) then deps else deps + [dep]
  }

  function WithDeps(deps: seq<Dep>, outPoints: seq<string>): seq<Dep> {
    if outPoints == [] then deps
    else WithDep(WithDeps(deps, outPoints[..|outPoints| - 1]), Dep(outPoints[|outPoints| - 1], false))
  }

  /** One blank witness for every base input that has none. */
  function Padded(witnesses: seq<Witness>, count: nat): (padded: seq<Witness>)
    ensures |padded| == if count < |witnesses| then |witnesses| else count
    ensures witnesses <= padded
    decreases count - |witnesses|
  {
    if |witnesses| < count then Padded(witnesses + [Blank], count) else witnesses
  }

  /** The transaction handed to the signer. */
  function Built(o: Order, base: Transaction): Option<Transaction> {
    if o.request.lock.hash != o.executor.hash || Asked(o).None? || !IsU64(o.amount * SHANNONS)
       || Asked(o).value != o.amount * SHANNONS || |base.outputs| > 1 then None
    else
      match (NextVault(o.vault, Asked(o).value), NextRequest(o.request, 0))
      case (Some(vault), Some(request)) =>
        var scripts := WithDeps(base.deps, o.scriptDeps);
        Some(Transaction(
          base.inputs + [o.vault, o.request],
          [Cell(Asked(o).value, o.fundingLock, None, []), vault, request],
          if o.needsGroup then WithDep(scripts, Dep(o.defaultDep, true)) else scripts,
          Padded(base.witnesses, |base.inputs|) + [Blank, Placeholder]))
      case _ => None
  }

  method PushDep(deps: seq<Dep>, dep: Dep) returns (after: seq<Dep>)
    ensures after == WithDep(deps, dep)
  {
    for i := 0 to |deps|
      invariant forall k :: 0 <= k < i ==> deps[k].outPoint != dep.outPoint
    {
      if deps[i].outPoint == dep.outPoint { return deps; }
    }
    return deps + [dep];
  }

  method BuildTransaction(o: Order, base: Transaction) returns (tx: Option<Transaction>)
    ensures tx == Built(o, base)
  {
    hide NextVault, NextRequest;
    if o.request.lock.hash != o.executor.hash { return None; }
    if U128_MAX < o.localAmount + o.localReserve || !IsU64(o.localAmount + o.localReserve) { return None; }
    var local := o.localAmount + o.localReserve;
    assert Asked(o) == Some(local);
    if !IsU64(o.amount * SHANNONS) || local != o.amount * SHANNONS { return None; }
    if |base.outputs| > 1 { return None; }
    var funding := Cell(local, o.fundingLock, None, []);
    var vault := NextVault(o.vault, local);
    if vault.None? { return None; }
    var request := NextRequest(o.request, 0);
    if request.None? { return None; }
    var inputs := base.inputs + [o.vault];
    inputs := inputs + [o.request];
    var deps := base.deps;
    for i := 0 to |o.scriptDeps|
      invariant deps == WithDeps(base.deps, o.scriptDeps[..i])
    {
      assert o.scriptDeps[..i + 1][..i] == o.scriptDeps[..i];
      deps := PushDep(deps, Dep(o.scriptDeps[i], false));
    }
    assert o.scriptDeps[..|o.scriptDeps|] == o.scriptDeps;
    if o.needsGroup { deps := PushDep(deps, Dep(o.defaultDep, true)); }
    var witnesses := base.witnesses;
    while |witnesses| < |base.inputs|
      invariant Padded(witnesses, |base.inputs|) == Padded(base.witnesses, |base.inputs|)
    {
      witnesses := witnesses + [Blank];
    }
    witnesses := witnesses + [Blank];
    witnesses := witnesses + [Placeholder];
    assert inputs == base.inputs + [o.vault, o.request];
    assert witnesses == Padded(base.witnesses, |base.inputs|) + [Blank, Placeholder];
    return Some(Transaction(inputs, [funding, vault.value, request.value], deps, witnesses));
  }

  // What a build guarantees by itself.

  lemma FieldsFit(data: seq<byte>)
    requires |data| == 33
    ensures FitsVault(VaultFields(data))
  {}

  lemma WholeUnits(amount: nat)
    ensures amount * SHANNONS / SHANNONS == amount
  {}

  lemma VaultMoves(vault: Cell, amount: nat)
    requires NextVault(vault, amount * SHANNONS).Some?
    ensures var next := NextVault(vault, amount * SHANNONS).value;
      && next == vault.(capacity := vault.capacity - amount * SHANNONS, data := next.data) && |vault.data| == 33
      && var before := VaultFields(vault.data);
      && amount <= before.reserved && IsU64(before.deployed + amount)
      && next.data == EncodeVault(before.(reserved := before.reserved - amount, deployed := before.deployed + amount))
      && VaultFields(next.data) == before.(reserved := before.reserved - amount, deployed := before.deployed + amount)
  {
    hide Occupied, VaultFields, EncodeVault;
    WholeUnits(amount);
    FieldsFit(vault.data);
    var v := VaultFields(vault.data);
    VaultRoundTrip(v.(reserved := v.reserved - amount, deployed := v.deployed + amount));
  }

  /** Exactly when the vault cell can fund an amount: well-formed data, the amount reserved, and enough
      capacity left to occupy its own cell. */
  lemma NextVaultIff(vault: Cell, amount: nat)
    ensures NextVault(vault, amount * SHANNONS).Some? <==>
      && |vault.data| == 33 && vault.data[0] == VERSION
      && amount * SHANNONS + Occupied(vault, 33) <= vault.capacity
      && amount <= VaultFields(vault.data).reserved && IsU64(VaultFields(vault.data).deployed + amount)
  {
    hide VaultFields, EncodeVault;
    WholeUnits(amount);
    if amount * SHANNONS <= vault.capacity {
      assert Occupied(vault.(capacity := vault.capacity - amount * SHANNONS), 33) == Occupied(vault, 33);
    }
  }

  lemma RequestDeploys(request: Cell)
    requires NextRequest(request, 0).Some?
    ensures var next := NextRequest(request, 0).value;
      && next == request.(data := next.data) && |request.data| == |next.data| == 26
      && next.data[0] == VERSION && request.data[0] == VERSION
      && RequestFields(next.data) == RequestFields(request.data).(status := DEPLOYED)
  {
    hide Occupied;
    RequestRoundTrip(RequestFields(request.data).(status := DEPLOYED));
  }

  /** Capacity is conserved over the three outputs; the request's amount moves from reserved to
      deployed and nothing else in the two cells' data changes but the request's status. */
  lemma BuildConserves(o: Order, base: Transaction)
    requires Built(o, base).Some?
    ensures var outputs := Built(o, base).value.outputs;
      && |outputs| == 3
      && outputs[0].capacity + outputs[1].capacity + outputs[2].capacity == o.vault.capacity + o.request.capacity
      && outputs[0] == Cell(o.amount * SHANNONS, o.fundingLock, None, [])
      && outputs[1] == o.vault.(capacity := outputs[1].capacity, data := outputs[1].data)
      && outputs[2] == o.request.(data := outputs[2].data)
      && |outputs[1].data| == |o.vault.data| == 33 && |outputs[2].data| == |o.request.data| == 26
      && var (before, after) := (VaultFields(o.vault.data), VaultFields(outputs[1].data));
      && o.amount <= before.reserved
      && after == before.(reserved := before.reserved - o.amount, deployed := before.deployed + o.amount)
      && RequestFields(outputs[2].data) == RequestFields(o.request.data).(status := DEPLOYED)
  {
    hide NextVault, NextRequest, VaultFields, RequestFields, WithDep, WithDeps, Padded;
    VaultMoves(o.vault, o.amount);
    RequestDeploys(o.request);
  }

  /** The signer's witness lies at the request input exactly when the base transaction had no more
      witnesses than inputs. */
  lemma WitnessAtRequest(o: Order, base: Transaction)
    requires Built(o, base).Some?
    ensures var tx := Built(o, base).value;
      && (|tx.witnesses| == |tx.inputs| <==> |base.witnesses| <= |base.inputs|)
      && tx.witnesses[|tx.witnesses| - 1] == Placeholder
      && (|base.witnesses| <= |base.inputs| ==> tx.witnesses[|base.inputs| + 1] == Placeholder && tx.inputs[|base.inputs| + 1] == o.request)
  {}

  lemma DepAdded(deps: seq<Dep>, dep: Dep)
    ensures deps <= WithDep(deps, dep) && HasDep(WithDep(deps, dep), dep.outPoint)
    ensures NoRepeats(deps) ==> NoRepeats(WithDep(deps, dep))
  {
    if !HasDep(deps, dep.outPoint) { assert (deps + [dep])[|deps|] == dep; }
  }

  /** Every script dependency is present once, after the ones the base transaction came with. */
  lemma {:induction false} DepsAreComplete(deps: seq<Dep>, outPoints: seq<string>)
    ensures deps <= WithDeps(deps, outPoints)
    ensures forall i :: 0 <= i < |outPoints| ==> HasDep(WithDeps(deps, outPoints), outPoints[i])
    ensures NoRepeats(deps) ==> NoRepeats(WithDeps(deps, outPoints))
  {
    if outPoints != [] {
      var n := |outPoints| - 1;
      var before, after := WithDeps(deps, outPoints[..n]), WithDeps(deps, outPoints);
      DepsAreComplete(deps, outPoints[..n]);
      DepAdded(before, Dep(outPoints[n], false));
      forall i | 0 <= i < n ensures HasDep(after, outPoints[i]) {
        assert HasDep(before, outPoints[..n][i]);
        var k :| 0 <= k < |before| && before[k].outPoint == outPoints[i];
        assert after[k] == before[k];
      }
    }
  }
}
