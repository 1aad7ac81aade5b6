/** When the chain accepts what the builder built: the builder and three separately written validators
    agree exactly under conditions that can be read off the cells. */
module FundingAccepted {
  import opened Cells
  import opened FundingBuilder
  import opened OutpointText
  import opened VaultScripts
  import opened Wrappers

  /** The scripts of one deployment refer to each other: the vault's type and lock name the request
      code, the request's type names the vault's type, and the families are distinct. */
  predicate Deployed(o: Order) {
    && o.vault.kind.Some? && o.request.kind.Some?
    && var (vault, request) := (o.vault.kind.value, o.request.kind.value);
    && vault.hash != request.hash
    && VaultTypeArgs(vault.args).Some? && Families(VaultTypeArgs(vault.args).value, vault.codeHash, request.codeHash)
    && RequestTypeArgs(request.args).Some? && RequestTypeArgs(request.args).value.vault == vault.hash
    && VaultLockArgs(o.vault.lock.args).Some?
    && VaultLockArgs(o.vault.lock.args).value.vault == vault.hash && VaultLockArgs(o.vault.lock.args).value.request == request.codeHash
  }

  predicate Families(a: VaultArgs, vault: Hash, request: Hash) {
    && a.request == request && request != vault
    && a.receipt != request && a.receipt != vault && a.claim != request && a.claim != vault
    && a.funding != request && a.funding != vault
  }

  /** A cell of no LiquidLane family: the node brings its own plain inputs. */
  predicate Foreign(c: Cell, o: Order) {
    c.kind.Some? && o.vault.kind.Some? && o.request.kind.Some? && VaultTypeArgs(o.vault.kind.value.args).Some? ==>
      && c.kind.value.hash != o.vault.kind.value.hash && c.kind.value.hash != o.request.kind.value.hash
      && var a := VaultTypeArgs(o.vault.kind.value.args).value;
      c.kind.value.codeHash !in [a.receipt, a.request, a.funding, a.claim]
  }

  /** What makes the vault's type script accept: sound live data and a request cell for at least the
      amount, small enough to be compared in shannons. */
  predicate VaultAgrees(o: Order)
    requires |o.vault.data| == 33 && |o.request.data| == 26
  {
    var (v, r) := (VaultFields(o.vault.data), RequestFields(o.request.data));
    v.reserved + v.deployed <= v.total && o.amount <= r.amount && IsU64(r.amount * SHANNONS)
  }

  /** What makes the request's type script accept. */
  predicate RequestAgrees(o: Order, base: Transaction)
    requires |o.request.data| == 26 && o.request.kind.Some? && RequestTypeArgs(o.request.kind.value.args).Some?
  {
    var (r, a) := (RequestFields(o.request.data), RequestTypeArgs(o.request.kind.value.args).value);
    && r.status <= DEPLOYED && r.amount != 0 && r.leaseFee != 0 && r.expiry != 0
    && (HasInputLock(base, a.operator) || o.vault.lock.hash == a.operator || o.executor.hash == a.operator)
  }

  /** What makes the vault's lock accept: no other output is locked by it. */
  predicate LockAgrees(o: Order) {
    o.fundingLock.hash != o.vault.lock.hash && o.executor.hash != o.vault.lock.hash
  }

  // Scans of the built transaction.

  lemma {:induction false} GroupOfForeign(cells: seq<Cell>, hash: Hash)
    requires forall i :: 0 <= i < |cells| && cells[i].kind.Some? ==> cells[i].kind.value.hash != hash
    ensures Group(cells, hash) == []
  {
    if cells != [] { GroupOfForeign(cells[..|cells| - 1], hash); }
  }

  lemma {:induction false} SumOfForeign(cells: seq<Cell>, code: Hash, offset: nat, length: nat)
    requires offset + 8 <= length && forall i :: 0 <= i < |cells| ==> !OfCode(cells[i], code)
    ensures SumField(cells, code, offset, length) == Success(0)
  {
    if cells != [] { SumOfForeign(cells[..|cells| - 1], code, offset, length); }
  }

  lemma GroupOfOneMore(cells: seq<Cell>, c: Cell, hash: Hash)
    ensures Group(cells + [c], hash)
      == Group(cells, hash) + if c.kind.Some? && c.kind.value.hash == hash then [c] else []
  {
    assert (cells + [c])[..|cells|] == cells;
  }

  lemma GroupOfTwoMore(cells: seq<Cell>, a: Cell, b: Cell, hash: Hash)
    requires forall i :: 0 <= i < |cells| && cells[i].kind.Some? ==> cells[i].kind.value.hash != hash
    ensures Group(cells + [a, b], hash)
      == (if a.kind.Some? && a.kind.value.hash == hash then [a] else []) + (if b.kind.Some? && b.kind.value.hash == hash then [b] else [])
  {
    GroupOfForeign(cells, hash);
    hide Group;
    GroupOfOneMore(cells, a, hash);
    GroupOfOneMore(cells + [a], b, hash);
    assert cells + [a, b] == cells + [a] + [b];
  }

  lemma SumOfForeignMore(cells: seq<Cell>, c: Cell, code: Hash, offset: nat, length: nat)
    requires offset + 8 <= length && !OfCode(c, code)
    ensures SumField(cells + [c], code, offset, length) == SumField(cells, code, offset, length)
  {
    assert (cells + [c])[..|cells|] == cells;
  }

  lemma SumOfServiceMore(cells: seq<Cell>, c: Cell, code: Hash)
    requires SumField(cells, code, 2, 26) == Success(0) && OfCode(c, code) && ExactData(c.data, 26)
    ensures SumField(cells + [c], code, 2, 26) == Success(RequestFields(c.data).amount)
  {
    assert (cells + [c])[..|cells|] == cells;
    hide OfCode;
  }

  lemma SumOfTwoMore(cells: seq<Cell>, a: Cell, b: Cell, code: Hash)
    requires (forall i :: 0 <= i < |cells| ==> !OfCode(cells[i], code)) && !OfCode(a, code) && OfCode(b, code) && ExactData(b.data, 26)
    ensures SumField(cells + [a, b], code, 2, 26) == Success(RequestFields(b.data).amount)
  {
    hide SumField, OfCode, RequestFields;
    SumOfForeign(cells, code, 2, 26);
    SumOfForeignMore(cells, a, code, 2, 26);
    SumOfServiceMore(cells + [a], b, code);
    assert cells + [a, b] == cells + [a] + [b];
  }

  /** A successful build for a positive amount, in one deployment, over foreign base inputs. */
  predicate Applies(o: Order, base: Transaction) {
    && 0 < o.amount && Deployed(o) && Built(o, base).Some?
    && forall i :: 0 <= i < |base.inputs| ==> Foreign(base.inputs[i], o)
  }

  /** What the scans of the built transaction find: each of the two cells alone in its group, and the
      request as the only service. */
  ghost predicate Scanned(o: Order, tx: Transaction)
    requires Deployed(o) && |o.request.data| == 26
  {
    var (vault, request, a) := (o.vault.kind.value, o.request.kind.value, VaultTypeArgs(o.vault.kind.value.args).value);
    var amount := RequestFields(o.request.data).amount;
    && |tx.outputs| == 3
    && Group(tx.inputs, vault.hash) == [o.vault] && Group(tx.outputs, vault.hash) == [tx.outputs[1]]
    && Group(tx.inputs, request.hash) == [o.request] && Group(tx.outputs, request.hash) == [tx.outputs[2]]
    && Involves(tx, a.request) && !Involves(tx, a.receipt) && !Involves(tx, a.claim) && !Involves(tx, a.funding)
    && MaxField(tx, a.request, 2, 26) == Success(amount) && MaxField(tx, a.funding, 2, 10) == Success(0)
    && InvolvesKind(tx, vault.hash)
  }

  /** What the scans find on one side: foreign cells, then the vault, then the request. */
  ghost predicate Side(cells: seq<Cell>, v: Cell, r: Cell, vault: Script, request: Script, a: VaultArgs)
    requires |r.data| == 26
  {
    && Group(cells, vault.hash) == [v] && Group(cells, request.hash) == [r]
    && HasCode(cells, a.request) && !HasCode(cells, a.receipt) && !HasCode(cells, a.claim) && !HasCode(cells, a.funding)
    && SumField(cells, a.request, 2, 26) == Success(RequestFields(r.data).amount) && SumField(cells, a.funding, 2, 10) == Success(0)
    && HasKind(cells, vault.hash)
  }

  predicate Outside(c: Cell, vault: Script, request: Script, a: VaultArgs) {
    && (c.kind.Some? ==> c.kind.value.hash != vault.hash && c.kind.value.hash != request.hash)
    && !OfCode(c, a.receipt) && !OfCode(c, a.request) && !OfCode(c, a.funding) && !OfCode(c, a.claim)
  }

  lemma SideScans(cells: seq<Cell>, v: Cell, r: Cell, vault: Script, request: Script, a: VaultArgs)
    requires forall i :: 0 <= i < |cells| ==> Outside(cells[i], vault, request, a)
    requires v.kind == Some(vault) && r.kind == Some(request) && vault.hash != request.hash
    requires Families(a, vault.codeHash, request.codeHash) && ExactData(r.data, 26)
    ensures Side(cells + [v, r], v, r, vault, request, a)
  {
    var all := cells + [v, r];
    GroupOfTwoMore(cells, v, r, vault.hash);
    GroupOfTwoMore(cells, v, r, request.hash);
    SumOfTwoMore(cells, v, r, a.request);
    forall i | 0 <= i < |all| ensures !OfCode(all[i], a.receipt) && !OfCode(all[i], a.claim) && !OfCode(all[i], a.funding) {
      assert all[i] == v || all[i] == r || Outside(all[i], vault, request, a);
    }
    SumOfForeign(all, a.funding, 2, 10);
    assert all[|cells|] == v && all[|cells| + 1] == r;
  }

  lemma InputSide(o: Order, base: Transaction)
    requires Applies(o, base)
    ensures |o.request.data| == 26
    ensures Side(Built(o, base).value.inputs, o.vault, o.request, o.vault.kind.value, o.request.kind.value,
                 VaultTypeArgs(o.vault.kind.value.args).value)
  {
    var (vault, request, a) := (o.vault.kind.value, o.request.kind.value, VaultTypeArgs(o.vault.kind.value.args).value);
    assert Families(a, vault.codeHash, request.codeHash) && vault.hash != request.hash;
    forall i | 0 <= i < |base.inputs| ensures Outside(base.inputs[i], vault, request, a) {
      ForeignIsOutside(base.inputs[i], o);
    }
    hide *;
    RequestDataIsExact(o, base);
    Exact(o.request.data, 26);
    BuiltSides(o, base);
    SideScans(base.inputs, o.vault, o.request, vault, request, a);
  }

  lemma OutputSide(o: Order, base: Transaction)
    requires Applies(o, base)
    ensures var outputs := Built(o, base).value.outputs;
      |outputs| == 3 && |outputs[2].data| == 26
      && Side(outputs, outputs[1], outputs[2], o.vault.kind.value, o.request.kind.value, VaultTypeArgs(o.vault.kind.value.args).value)
  {
    var (vault, request, a) := (o.vault.kind.value, o.request.kind.value, VaultTypeArgs(o.vault.kind.value.args).value);
    assert Families(a, vault.codeHash, request.codeHash) && vault.hash != request.hash;
    hide *;
    var outputs := Built(o, base).value.outputs;
    RequestDataIsExact(o, base);
    BuiltSides(o, base);
    Exact(outputs[2].data, 26);
    PlainIsOutside(outputs[0], vault, request, a);
    SideScans([outputs[0]], outputs[1], outputs[2], vault, request, a);
  }

  lemma ScansFind(o: Order, base: Transaction)
    requires Applies(o, base)
    ensures |o.request.data| == 26 && Scanned(o, Built(o, base).value)
  {
    InputSide(o, base);
    OutputSide(o, base);
    BuildConserves(o, base);
    assert Deployed(o);
    hide *;
    SidesAreScanned(o, Built(o, base).value);
  }

  lemma SidesAreScanned(o: Order, tx: Transaction)
    requires Deployed(o) && |tx.outputs| == 3 && |o.request.data| == 26 && |tx.outputs[2].data| == 26
    requires RequestFields(tx.outputs[2].data).amount == RequestFields(o.request.data).amount
    requires var (vault, request, a) := (o.vault.kind.value, o.request.kind.value, VaultTypeArgs(o.vault.kind.value.args).value);
      Side(tx.inputs, o.vault, o.request, vault, request, a) && Side(tx.outputs, tx.outputs[1], tx.outputs[2], vault, request, a)
    ensures Scanned(o, tx)
  {
    hide Group, SumField, HasCode, HasKind, VaultTypeArgs, RequestFields;
  }

  lemma BuiltSides(o: Order, base: Transaction)
    requires Built(o, base).Some?
    ensures var tx := Built(o, base).value;
      && tx.inputs == base.inputs + [o.vault, o.request] && |tx.outputs| == 3
      && tx.outputs == [tx.outputs[0]] + [tx.outputs[1], tx.outputs[2]] && tx.outputs[0].kind.None?
      && tx.outputs[1].kind == o.vault.kind && tx.outputs[2].kind == o.request.kind
  {
    hide NextVault, NextRequest;
    VaultMoves(o.vault, o.amount);
    RequestDeploys(o.request);
  }

  lemma ForeignIsOutside(c: Cell, o: Order)
    requires Deployed(o) && Foreign(c, o)
    ensures Outside(c, o.vault.kind.value, o.request.kind.value, VaultTypeArgs(o.vault.kind.value.args).value)
  {}

  lemma PlainIsOutside(c: Cell, vault: Script, request: Script, a: VaultArgs)
    requires c.kind.None?
    ensures Outside(c, vault, request, a)
  {}

  lemma RequestDataIsExact(o: Order, base: Transaction)
    requires Built(o, base).Some?
    ensures ExactData(o.request.data, 26) && ExactData(Built(o, base).value.outputs[2].data, 26)
    ensures ExactData(o.vault.data, 33) && ExactData(Built(o, base).value.outputs[1].data, 33)
  {
    VaultMoves(o.vault, o.amount);
    RequestDeploys(o.request);
  }

  // The three verdicts.

  lemma WithinLimitIff(amount: nat, limit: nat)
    ensures WithinLimit(true, amount * SHANNONS, Success(limit)) == Success(true) <==> IsU64(limit * SHANNONS) && amount <= limit
    ensures var within := WithinLimit(true, amount * SHANNONS, Success(limit)); within.Failure? || within.value == (amount <= limit)
  {}

  /** An update that moves an amount from reserved to deployed and takes it out of the vault, with a
      request as the only service, is accepted exactly up to the request's amount. */
  lemma VaultUpdateIff(tx: Transaction, hash: Hash, a: VaultArgs, before: VaultData, after: VaultData, amount: nat, limit: nat)
    requires Involves(tx, a.request) && !Involves(tx, a.receipt) && !Involves(tx, a.claim) && !Involves(tx, a.funding)
    requires MaxField(tx, a.request, 2, 26) == Success(limit) && MaxField(tx, a.funding, 2, 10) == Success(0)
    requires SumCapacity(Group(tx.inputs, hash)) == SumCapacity(Group(tx.outputs, hash)) + amount * SHANNONS
    requires 0 < amount <= before.reserved && IsU64(before.reserved + before.deployed)
    requires after == before.(reserved := before.reserved - amount, deployed := before.deployed + amount)
    ensures VaultUpdate(tx, hash, a, before, after) == Accepted <==> IsU64(limit * SHANNONS) && amount <= limit
  {
    hide Group, SumCapacity, MaxField, Involves, HasInputLock;
    WithinLimitIff(amount, limit);
    assert AccountingDelta(tx, a, before, after) == Accepted;
    assert WithinLimit(Involves(tx, a.funding), amount * SHANNONS, MaxField(tx, a.funding, 2, 10)) == Success(false);
  }

  lemma VaultTypeUpdates(tx: Transaction, script: Script, input: seq<byte>, output: seq<byte>)
    requires VaultTypeArgs(script.args).Some? && ExactData(input, 33) && ExactData(output, 33)
    requires SingleGroupData(tx.inputs, script.hash) == Success(Some(input))
    requires SingleGroupData(tx.outputs, script.hash) == Success(Some(output))
    requires VaultFields(output).reserved + VaultFields(output).deployed == VaultFields(input).reserved + VaultFields(input).deployed
    requires VaultFields(output).total == VaultFields(input).total
    ensures var (before, after) := (VaultFields(input), VaultFields(output));
      if before.reserved + before.deployed <= before.total
      then VaultType(tx, script) == VaultUpdate(tx, script.hash, VaultTypeArgs(script.args).value, before, after)
      else VaultType(tx, script).Rejected?
  {
    TotalIsU64(input);
    hide SingleGroupData, VaultUpdate, VaultFields, VaultTypeArgs, HasInputLock;
  }

  /** What the vault's type script finds in its group. */
  lemma VaultGroup(o: Order, base: Transaction)
    requires Applies(o, base)
    ensures var (tx, hash) := (Built(o, base).value, o.vault.kind.value.hash);
      && |tx.outputs| == 3
      && SingleGroupData(tx.inputs, hash) == Success(Some(o.vault.data))
      && SingleGroupData(tx.outputs, hash) == Success(Some(tx.outputs[1].data))
      && SumCapacity(Group(tx.inputs, hash)) == o.vault.capacity && SumCapacity(Group(tx.outputs, hash)) == tx.outputs[1].capacity
  {
    Basics(o, base);
    ScansFind(o, base);
    hide Applies, Deployed, Built, MaxField, Involves, InvolvesKind, VaultTypeArgs, RequestFields, Group;
    SumOfOne(o.vault);
    SumOfOne(Built(o, base).value.outputs[1]);
  }

  /** What it finds of the services. */
  lemma VaultServices(o: Order, base: Transaction)
    requires Applies(o, base) && |o.request.data| == 26
    ensures var (tx, a) := (Built(o, base).value, VaultTypeArgs(o.vault.kind.value.args).value);
      && Involves(tx, a.request) && !Involves(tx, a.receipt) && !Involves(tx, a.claim) && !Involves(tx, a.funding)
      && MaxField(tx, a.request, 2, 26) == Success(RequestFields(o.request.data).amount) && MaxField(tx, a.funding, 2, 10) == Success(0)
  {
    ScansFind(o, base);
    hide Built, MaxField, Involves, InvolvesKind, VaultTypeArgs, RequestFields, Group;
  }

  lemma VaultDelta(o: Order, base: Transaction)
    requires Built(o, base).Some?
    ensures var next := Built(o, base).value.outputs[1];
      && |o.vault.data| == 33 && |next.data| == 33 && o.vault.capacity == next.capacity + o.amount * SHANNONS
      && o.amount <= VaultFields(o.vault.data).reserved
      && VaultFields(next.data) == VaultFields(o.vault.data).(
           reserved := VaultFields(o.vault.data).reserved - o.amount, deployed := VaultFields(o.vault.data).deployed + o.amount)
  {
    hide NextVault, NextRequest, VaultFields, EncodeVault;
    VaultMoves(o.vault, o.amount);
    RequestDeploys(o.request);
  }

  lemma VaultAgreesMeans(o: Order)
    requires |o.vault.data| == 33 && |o.request.data| == 26
    ensures var (v, limit) := (VaultFields(o.vault.data), RequestFields(o.request.data).amount);
      && (VaultAgrees(o) <==> v.reserved + v.deployed <= v.total && o.amount <= limit && IsU64(limit * SHANNONS))
      && (v.reserved + v.deployed <= v.total ==> IsU64(v.reserved + v.deployed))
  {
    TotalIsU64(o.vault.data);
  }

  /** The vault's type script accepts exactly when the live data is sound and the request cell covers
      the amount that leaves. */
  lemma VaultTypeIff(o: Order, base: Transaction)
    requires Applies(o, base)
    ensures |o.vault.data| == 33 && |o.request.data| == 26
    ensures VaultType(Built(o, base).value, o.vault.kind.value) == Accepted <==> VaultAgrees(o)
  {
    Basics(o, base);
    hide *;
    var tx, vault := Built(o, base).value, o.vault.kind.value;
    VaultGroup(o, base);
    VaultServices(o, base);
    VaultDelta(o, base);
    RequestDataIsExact(o, base);
    VaultAgreesMeans(o);
    VaultTypeUpdates(tx, vault, o.vault.data, tx.outputs[1].data);
    var before, after := VaultFields(o.vault.data), VaultFields(tx.outputs[1].data);
    if before.reserved + before.deployed <= before.total {
      VaultUpdateIff(tx, vault.hash, VaultTypeArgs(vault.args).value, before, after, o.amount, RequestFields(o.request.data).amount);
    }
  }

  lemma Basics(o: Order, base: Transaction)
    requires Applies(o, base)
    ensures Built(o, base).Some? && o.vault.kind.Some? && o.request.kind.Some? && 0 < o.amount
    ensures |o.vault.data| == 33 && |o.request.data| == 26
    ensures VaultTypeArgs(o.vault.kind.value.args).Some? && RequestTypeArgs(o.request.kind.value.args).Some?
  {
    hide VaultTypeArgs, RequestTypeArgs, VaultLockArgs, Foreign;
    BuildConserves(o, base);
  }

  lemma SumOfOne(c: Cell)
    ensures SumCapacity([c]) == c.capacity
  {
    assert [c][..0] == [];
  }

  lemma TotalIsU64(data: seq<byte>)
    requires |data| == 33
    ensures IsU64(VaultFields(data).total)
  {}

  lemma RequestTypeUpdates(tx: Transaction, script: Script, input: seq<byte>, output: seq<byte>)
    requires RequestTypeArgs(script.args).Some? && ExactData(input, 26) && ExactData(output, 26)
    requires SingleGroupData(tx.inputs, script.hash) == Success(Some(input))
    requires SingleGroupData(tx.outputs, script.hash) == Success(Some(output))
    requires RequestFields(output) == RequestFields(input).(status := DEPLOYED)
    requires InvolvesKind(tx, RequestTypeArgs(script.args).value.vault)
    ensures var r := RequestFields(input);
      RequestType(tx, script) == Accepted <==>
        r.status <= DEPLOYED && r.amount != 0 && r.leaseFee != 0 && r.expiry != 0
        && HasInputLock(tx, RequestTypeArgs(script.args).value.operator)
  {
    hide SingleGroupData, RequestFields, RequestTypeArgs, HasInputLock, InvolvesKind;
  }

  /** The request's type script accepts exactly when the request is well formed, not beyond deployed,
      and its operator's lock is among the inputs. */
  lemma RequestTypeIff(o: Order, base: Transaction)
    requires Applies(o, base)
    ensures |o.request.data| == 26
    ensures RequestType(Built(o, base).value, o.request.kind.value) == Accepted <==> RequestAgrees(o, base)
  {
    var tx, request := Built(o, base).value, o.request.kind.value;
    BuildConserves(o, base);
    RequestDataIsExact(o, base);
    ScansFind(o, base);
    BuiltSides(o, base);
    LocksOfTwoMore(base, tx, o.vault, o.request, RequestTypeArgs(request.args).value.operator);
    assert o.request.lock.hash == o.executor.hash;
    hide Built, Group, HasInputLock, InvolvesKind, RequestTypeArgs, RequestFields, Involves, MaxField, VaultFields, RequestType;
    RequestTypeUpdates(tx, request, o.request.data, tx.outputs[2].data);
  }

  lemma LocksOfTwoMore(base: Transaction, tx: Transaction, a: Cell, b: Cell, lock: Hash)
    requires tx.inputs == base.inputs + [a, b]
    ensures HasInputLock(tx, lock) <==> HasInputLock(base, lock) || a.lock.hash == lock || b.lock.hash == lock
  {
    assert tx.inputs[|base.inputs|] == a && tx.inputs[|base.inputs| + 1] == b;
    if HasInputLock(base, lock) {
      var i :| 0 <= i < |base.inputs| && base.inputs[i].lock.hash == lock;
      assert tx.inputs[i] == base.inputs[i];
    }
  }

  lemma VaultLockOn(tx: Transaction, lock: Script)
    requires VaultLockArgs(lock.args).Some? && AuthorizedSpend(tx, VaultLockArgs(lock.args).value) && |tx.outputs| == 3
    requires tx.outputs[0].kind.None? && tx.outputs[1].kind.Some? && tx.outputs[2].kind.Some?
    requires tx.outputs[1].kind.value.hash == VaultLockArgs(lock.args).value.vault != tx.outputs[2].kind.value.hash
    ensures VaultLock(tx, lock) == Accepted <==> tx.outputs[0].lock.hash != lock.hash && tx.outputs[2].lock.hash != lock.hash
  {
    hide VaultLockArgs, AuthorizedSpend;
  }

  /** The vault's lock accepts exactly when nothing else is locked by it. */
  lemma VaultLockIff(o: Order, base: Transaction)
    requires Applies(o, base)
    ensures VaultLock(Built(o, base).value, o.vault.lock) == Accepted <==> LockAgrees(o)
  {
    var tx := Built(o, base).value;
    BuildConserves(o, base);
    ScansFind(o, base);
    assert o.request.lock.hash == o.executor.hash;
    hide Built, Group, HasInputLock, Involves, InvolvesKind, VaultLockArgs, VaultTypeArgs, MaxField, VaultLock, RequestFields, VaultFields;
    VaultLockOn(tx, o.vault.lock);
  }

  /** The builder's transaction is accepted by all three validators exactly under the conditions above;
      under any other the chain rejects what the builder signed. */
  lemma AcceptedIff(o: Order, base: Transaction)
    requires Applies(o, base)
    ensures |o.vault.data| == 33 && |o.request.data| == 26
    ensures var tx := Built(o, base).value;
      (&& VaultType(tx, o.vault.kind.value) == Accepted
       && RequestType(tx, o.request.kind.value) == Accepted
       && VaultLock(tx, o.vault.lock) == Accepted)
      <==> VaultAgrees(o) && RequestAgrees(o, base) && LockAgrees(o)
  {
    VaultTypeIff(o, base);
    RequestTypeIff(o, base);
    VaultLockIff(o, base);
  }

  // A deployment in which all of this happens.

  function Fill(k: byte): (hash: Hash)
    ensures |hash| == 32 && hash[0] == k
  {
    seq(32, _ => k)
  }

  function Packed(hashes: seq<Hash>): seq<byte> {
    if hashes == [] then [] else Packed(hashes[..|hashes| - 1]) + hashes[|hashes| - 1]
  }

  lemma {:induction false} PackedLength(hashes: seq<Hash>)
    requires forall i :: 0 <= i < |hashes| ==> |hashes[i]| == 32
    ensures |Packed(hashes)| == 32 * |hashes|
  {
    if hashes != [] { PackedLength(hashes[..|hashes| - 1]); }
  }

  lemma {:induction false} PackedAt(hashes: seq<Hash>, k: nat)
    requires k < |hashes| && forall i :: 0 <= i < |hashes| ==> |hashes[i]| == 32
    ensures |Packed(hashes)| == 32 * |hashes| && HashAt(Packed(hashes), k) == hashes[k]
  {
    var n := |hashes| - 1;
    if n > 0 { PackedAt(hashes[..n], if k < n then k else 0); }
    if k < n {
      assert Packed(hashes)[32 * k..32 * (k + 1)] == Packed(hashes[..n])[32 * k..32 * (k + 1)];
    } else {
      assert hashes[..0] == [];
      assert Packed(hashes)[32 * n..32 * (n + 1)] == hashes[n];
    }
  }

  const ADMIN := Fill(1)
  const RECEIPT := Fill(2)
  const REQUEST := Fill(3)
  const FUNDING := Fill(4)
  const CLAIM := Fill(5)
  const VAULT := Fill(6)
  const OPERATOR := Fill(7)

  function ExampleOrder(): Order {
    var vaultType := Script(Fill(8), Packed([ADMIN, RECEIPT, REQUEST, FUNDING, CLAIM]), VAULT);
    var vaultLock := Script(Fill(9), Packed([ADMIN, VAULT, RECEIPT, REQUEST, FUNDING, CLAIM]), Fill(10));
    var requestType := Script(REQUEST, Packed([VAULT, Fill(11), OPERATOR, Fill(12)]), Fill(13));
    var executor := Script(Fill(14), [], OPERATOR);
    Order(100,
      Cell(10_000 * SHANNONS, vaultLock, Some(vaultType), EncodeVault(VaultData(1000, 200, 0, 0))),
      Cell(1_000 * SHANNONS, executor, Some(requestType), EncodeRequest(RequestData(1, 100, 1, 1))),
      executor, Script(Fill(15), [], Fill(16)), 100 * SHANNONS, 0, [], "", false)
  }

  lemma ExampleArgs()
    ensures VaultTypeArgs(Packed([ADMIN, RECEIPT, REQUEST, FUNDING, CLAIM])) == Some(VaultArgs(ADMIN, RECEIPT, REQUEST, FUNDING, CLAIM))
    ensures VaultLockArgs(Packed([ADMIN, VAULT, RECEIPT, REQUEST, FUNDING, CLAIM]))
         == Some(LockArgs(ADMIN, VAULT, RECEIPT, REQUEST, FUNDING, CLAIM))
    ensures RequestTypeArgs(Packed([VAULT, Fill(11), OPERATOR, Fill(12)])) == Some(RequestArgs(VAULT, Fill(11), OPERATOR))
  {
    hide HashAt, Packed, Fill;
    var five, four := [ADMIN, RECEIPT, REQUEST, FUNDING, CLAIM], [VAULT, Fill(11), OPERATOR, Fill(12)];
    var six := [ADMIN, VAULT, RECEIPT, REQUEST, FUNDING, CLAIM];
    PackedAt(five, 0); PackedAt(five, 1); PackedAt(five, 2); PackedAt(five, 3); PackedAt(five, 4);
    PackedAt(six, 0); PackedAt(six, 1); PackedAt(six, 2); PackedAt(six, 3); PackedAt(six, 4); PackedAt(six, 5);
    PackedAt(four, 0); PackedAt(four, 1); PackedAt(four, 2);
  }

  lemma FillsDiffer(j: byte, k: byte)
    ensures j != k ==> Fill(j) != Fill(k)
  {
    assert Fill(j)[0] == j && Fill(k)[0] == k;
  }

  lemma ExampleIsDeployed()
    ensures Deployed(ExampleOrder())
  {
    hide VaultTypeArgs, VaultLockArgs, RequestTypeArgs, Packed, Fill, EncodeVault, EncodeRequest;
    ExampleArgs();
    FillsDiffer(3, 8); FillsDiffer(6, 13);
    FillsDiffer(2, 3); FillsDiffer(2, 8); FillsDiffer(5, 3); FillsDiffer(5, 8); FillsDiffer(4, 3); FillsDiffer(4, 8);
  }

  lemma ExampleApplies()
    ensures Applies(ExampleOrder(), Transaction([], [], [], []))
  {
    ExampleIsDeployed();
    ExampleIsBuilt();
    hide Deployed, Built, Packed, Fill, EncodeVault, EncodeRequest;
  }

  lemma ExampleVaultAgrees()
    ensures VaultAgrees(ExampleOrder())
  {
    hide ReadU64, Packed, Fill, EncodeVault, EncodeRequest, VaultFields, RequestFields;
    VaultRoundTrip(VaultData(1000, 200, 0, 0));
    RequestRoundTrip(RequestData(1, 100, 1, 1));
  }

  lemma ExampleRequestAgrees()
    ensures RequestTypeArgs(ExampleOrder().request.kind.value.args).Some?
    ensures RequestAgrees(ExampleOrder(), Transaction([], [], [], []))
  {
    hide RequestTypeArgs, Packed, Fill, EncodeVault, EncodeRequest, RequestFields;
    ExampleArgs();
    RequestRoundTrip(RequestData(1, 100, 1, 1));
  }

  lemma ExampleLockAgrees()
    ensures LockAgrees(ExampleOrder())
  {
    FillsDiffer(16, 10); FillsDiffer(7, 10);
    hide Packed, Fill, EncodeVault, EncodeRequest;
  }

  /** The builder's order above is built, and the chain accepts it. */
  lemma ExampleIsAccepted()
    ensures var (o, base) := (ExampleOrder(), Transaction([], [], [], []));
      && |o.vault.data| == 33 && |o.request.data| == 26
      && o.request.kind.Some? && RequestTypeArgs(o.request.kind.value.args).Some?
      && Applies(o, base) && VaultAgrees(o) && RequestAgrees(o, base) && LockAgrees(o)
  {
    ExampleApplies();
    ExampleVaultAgrees();
    ExampleRequestAgrees();
    ExampleLockAgrees();
    hide Applies, VaultAgrees, RequestAgrees, LockAgrees, RequestTypeArgs, Packed, Fill, EncodeVault, EncodeRequest;
  }

  lemma ExampleOccupies()
    ensures Occupied(ExampleOrder().vault, 33) == 459 * SHANNONS
  {
    hide Packed, Fill, EncodeVault, EncodeRequest;
    PackedLength([ADMIN, RECEIPT, REQUEST, FUNDING, CLAIM]);
    PackedLength([ADMIN, VAULT, RECEIPT, REQUEST, FUNDING, CLAIM]);
  }

  lemma ExampleVaultMoves()
    ensures NextVault(ExampleOrder().vault, 100 * SHANNONS).Some?
  {
    VaultRoundTrip(VaultData(1000, 200, 0, 0));
    ExampleOccupies();
    hide Packed, Fill, EncodeVault, EncodeRequest, VaultFields, NextVault, Occupied;
    NextVaultIff(ExampleOrder().vault, 100);
  }

  lemma ExampleRequestDeploys()
    ensures NextRequest(ExampleOrder().request, 0).Some?
  {
    var request := ExampleOrder().request;
    hide Packed, Fill, EncodeVault, EncodeRequest, RequestFields;
    PackedLength([VAULT, Fill(11), OPERATOR, Fill(12)]);
    assert |request.lock.args| == 0 && |request.kind.value.args| == 128;
  }

  lemma ExampleIsBuilt()
    ensures Built(ExampleOrder(), Transaction([], [], [], [])).Some?
  {
    ExampleVaultMoves();
    ExampleRequestDeploys();
    hide NextVault, NextRequest, Packed, Fill, EncodeVault, EncodeRequest;
  }
}
