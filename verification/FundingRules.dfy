/** When the builder makes a transaction at all, and what it spends. */
module FundingRules {
  import opened Cells
  import opened FundingBuilder
  import opened OutpointText
  import opened Wrappers

  /** What a cell occupies on the chain: eight bytes for its capacity, 32 and one for each script beside its
      arguments, and its data, a unit for each byte. */
  function Footprint(c: Cell, length: nat): nat {
    100_000_000 * (8 + 33 + |c.lock.args| + length + if c.kind.None? then 0 else 33 + |c.kind.value.args|)
  }

  /** An order is built exactly when its request is locked by the executor, the node asks for the request's
      amount, the base adds at most a change output, the vault can pay, and both cells keep what they occupy. */
  lemma BuiltIff(o: Order, base: Transaction)
    ensures Built(o, base).Some? <==>
      && o.request.lock.hash == o.executor.hash && |base.outputs| <= 1
      && o.localAmount + o.localReserve == o.amount * 100_000_000 && IsU64(o.amount * 100_000_000)
      && |o.vault.data| == 33 && o.vault.data[0] == 1 && |o.request.data| == 26 && o.request.data[0] == 1
      && o.amount <= VaultFields(o.vault.data).reserved && IsU64(VaultFields(o.vault.data).deployed + o.amount)
      && o.amount * 100_000_000 + Footprint(o.vault, 33) <= o.vault.capacity && Footprint(o.request, 26) <= o.request.capacity
  {
    NextVaultIff(o.vault, o.amount);
    NextRequestIff(o.request);
    assert Occupied(o.vault, 33) == Footprint(o.vault, 33) && Occupied(o.request, 26) == Footprint(o.request, 26);
    hide NextVault, NextRequest, VaultFields, Occupied, Footprint, WithDeps, WithDep, Padded;
  }

  lemma NextRequestIff(request: Cell)
    ensures NextRequest(request, 0).Some? <==>
      |request.data| == 26 && request.data[0] == 1 && Occupied(request, 26) <= request.capacity
  {
    assert Occupied(request.(capacity := request.capacity - 0), 26) == Occupied(request, 26);
    hide EncodeRequest;
  }

  /** The vault and the request are spent after the base inputs, every dependency is there, and the default
      lock's group when the executor needs it. */
  lemma BuildSpends(o: Order, base: Transaction)
    requires Built(o, base).Some?
    ensures var tx := Built(o, base).value;
      && tx.inputs == base.inputs + [o.vault, o.request] && base.deps <= tx.deps
      && (forall k :: 0 <= k < |o.scriptDeps| ==> HasDep(tx.deps, o.scriptDeps[k]))
      && (o.needsGroup ==> HasDep(tx.deps, o.defaultDep))
      && (NoRepeats(base.deps) ==> NoRepeats(tx.deps))
  {
    var scripts, group := WithDeps(base.deps, o.scriptDeps), Dep(o.defaultDep, true);
    DepsAreComplete(base.deps, o.scriptDeps);
    DepAdded(scripts, group);
    forall k | 0 <= k < |o.scriptDeps| ensures HasDep(WithDep(scripts, group), o.scriptDeps[k]) {
      var i :| 0 <= i < |scripts| && scripts[i].outPoint == o.scriptDeps[k];
      assert WithDep(scripts, group)[i] == scripts[i];
    }
    hide NextVault, NextRequest, WithDeps, WithDep, Padded, HasDep, NoRepeats;
  }
}
