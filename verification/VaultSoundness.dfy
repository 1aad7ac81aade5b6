/** What the validators let through, over every transaction and in plain numbers on the cells. */
module VaultSoundness {
  import opened Cells
  import opened OutpointText
  import opened VaultScripts
  import opened Wrappers

  // The cells of a script and of a code family.

  predicate HasType(c: Cell, hash: Hash) { c.kind.Some? && c.kind.value.hash == hash }

  /** `cells[i]` is the only cell with this type script. */
  ghost predicate Alone(cells: seq<Cell>, hash: Hash, i: nat) {
    i < |cells| && forall k :: 0 <= k < |cells| ==> (HasType(cells[k], hash) <==> k == i)
  }

  ghost predicate Nowhere(cells: seq<Cell>, hash: Hash) {
    forall k :: 0 <= k < |cells| ==> !HasType(cells[k], hash)
  }

  lemma {:induction false} NowhereIff(cells: seq<Cell>, hash: Hash)
    ensures Nowhere(cells, hash) <==> Group(cells, hash) == []
  {
    if cells != [] {
      var n := |cells| - 1;
      NowhereIff(cells[..n], hash);
      assert forall k :: 0 <= k < n ==> cells[..n][k] == cells[k];
    }
  }

  lemma {:induction false} AloneGroup(cells: seq<Cell>, hash: Hash, i: nat)
    requires Alone(cells, hash, i)
    ensures Group(cells, hash) == [cells[i]]
  {
    var n := |cells| - 1;
    assert forall k :: 0 <= k < n ==> cells[..n][k] == cells[k];
    if i == n { NowhereIff(cells[..n], hash); } else { AloneGroup(cells[..n], hash, i); }
  }

  lemma {:induction false} GroupAlone(cells: seq<Cell>, hash: Hash) returns (i: nat)
    requires |Group(cells, hash)| == 1
    ensures Alone(cells, hash, i)
  {
    var n := |cells| - 1;
    assert forall k :: 0 <= k < n ==> cells[..n][k] == cells[k];
    if HasType(cells[n], hash) {
      NowhereIff(cells[..n], hash);
      i := n;
    } else {
      i := GroupAlone(cells[..n], hash);
    }
  }

  predicate InFamily(c: Cell, code: Hash) { c.kind.Some? && c.kind.value.codeHash == code }

  /** A cell of the family takes part in the transaction. */
  ghost predicate TakesPart(tx: Transaction, code: Hash) {
    (exists c <- tx.inputs :: InFamily(c, code)) || exists c <- tx.outputs :: InFamily(c, code)
  }

  ghost predicate LockedIn(tx: Transaction, lock: Hash) { exists c <- tx.inputs :: c.lock.hash == lock }

  lemma PartIff(tx: Transaction, code: Hash)
    ensures Involves(tx, code) <==> TakesPart(tx, code)
  {
    forall cells: seq<Cell> ensures HasCode(cells, code) <==> exists c <- cells :: InFamily(c, code) { HasCodeIff(cells, code); }
  }

  lemma HasCodeIff(cells: seq<Cell>, code: Hash)
    ensures HasCode(cells, code) <==> exists c <- cells :: InFamily(c, code)
  {
    if c :| c in cells && InFamily(c, code) {
      var i :| 0 <= i < |cells| && cells[i] == c;
      assert OfCode(cells[i], code);
    }
    if HasCode(cells, code) {
      var i :| 0 <= i < |cells| && OfCode(cells[i], code);
      assert cells[i] in cells;
    }
  }

  lemma LockIff(tx: Transaction, lock: Hash)
    ensures HasInputLock(tx, lock) <==> LockedIn(tx, lock)
  {
    if HasInputLock(tx, lock) {
      var i :| 0 <= i < |tx.inputs| && tx.inputs[i].lock.hash == lock;
      assert tx.inputs[i] in tx.inputs;
    }
  }

  /** The number in a cell's data at an offset. */
  function FieldOf(c: Cell, offset: nat): nat {
    if offset + 8 <= |c.data| then LittleEndian(c.data[offset..offset + 8]) else 0
  }

  /** The family's cells add up to this, without any bound. */
  function FieldTotal(cells: seq<Cell>, code: Hash, offset: nat): nat {
    if cells == [] then 0
    else
      var c := cells[|cells| - 1];
      FieldTotal(cells[..|cells| - 1], code, offset) + if InFamily(c, code) then FieldOf(c, offset) else 0
  }

  ghost predicate Readable(cells: seq<Cell>, code: Hash, offset: nat, length: nat) {
    && (forall c <- cells :: InFamily(c, code) ==> |c.data| == length > 0 && c.data[0] == 1)
    && IsU64(FieldTotal(cells, code, offset))
  }

  /** A sum is read exactly when every cell of the family has the length and version and it fits; it is
      then the plain sum. */
  lemma {:induction false} SumIsTotal(cells: seq<Cell>, code: Hash, offset: nat, length: nat)
    requires offset + 8 <= length
    ensures SumField(cells, code, offset, length).Success? <==> Readable(cells, code, offset, length)
    ensures SumField(cells, code, offset, length).Success? ==>
      SumField(cells, code, offset, length).value == FieldTotal(cells, code, offset)
  {
    if cells != [] {
      var n := |cells| - 1;
      SumIsTotal(cells[..n], code, offset, length);
      assert cells == cells[..n] + [cells[n]];
      hide ReadU64;
      if InFamily(cells[n], code) && |cells[n].data| == length { ReadIsField(cells[n], offset); }
    }
  }

  lemma ReadIsField(c: Cell, offset: nat)
    requires offset + 8 <= |c.data|
    ensures ReadU64(c.data, offset) == Some(FieldOf(c, offset))
  {}

  /** The larger of a family's sums before and after. */
  function Most(tx: Transaction, code: Hash, offset: nat): nat {
    var (before, after) := (FieldTotal(tx.inputs, code, offset), FieldTotal(tx.outputs, code, offset));
    if before < after then after else before
  }

  ghost predicate ReadableBoth(tx: Transaction, code: Hash, offset: nat, length: nat) {
    Readable(tx.inputs, code, offset, length) && Readable(tx.outputs, code, offset, length)
  }

  lemma MaxIsMost(tx: Transaction, code: Hash, offset: nat, length: nat)
    requires offset + 8 <= length
    ensures MaxField(tx, code, offset, length).Success? <==> ReadableBoth(tx, code, offset, length)
    ensures MaxField(tx, code, offset, length).Success? ==> MaxField(tx, code, offset, length).value == Most(tx, code, offset)
  {
    hide SumField, Readable;
    SumIsTotal(tx.inputs, code, offset, length);
    SumIsTotal(tx.outputs, code, offset, length);
  }

  // The vault.

  /** A vault cell's data: its length and version, and nothing locked beyond the total. */
  ghost predicate SoundVault(c: Cell) {
    |c.data| == 33 && c.data[0] == 1 && FieldOf(c, 9) + FieldOf(c, 17) <= FieldOf(c, 1)
  }

  lemma ParseIff(c: Cell)
    ensures ParseVault(c.data).Success? <==> SoundVault(c)
    ensures ParseVault(c.data).Success? ==>
      ParseVault(c.data).value == VaultData(FieldOf(c, 1), FieldOf(c, 9), FieldOf(c, 17), FieldOf(c, 25))
  {
    if |c.data| == 33 {
      ReadIsField(c, 1);
      ReadIsField(c, 9);
      ReadIsField(c, 17);
      ReadIsField(c, 25);
      assert IsU64(ReadU64(c.data, 1).value);
      hide ReadU64;
    }
  }

  /** The service families, as the script's arguments name them: 32 bytes each after the administrator. */
  function ArgAt(args: seq<byte>, k: nat): Hash {
    if 32 * (k + 1) <= |args| then args[32 * k..32 * (k + 1)] else []
  }

  /** What may change in the accounts of the vault, and how far. */
  ghost predicate AccountsMove(tx: Transaction, args: seq<byte>, v: Cell, w: Cell) {
    var (receipt, request, claim) := (ArgAt(args, 1), ArgAt(args, 2), ArgAt(args, 4));
    && (FieldOf(w, 1) != FieldOf(v, 1) ==>
          && TakesPart(tx, receipt)
          && FieldOf(w, 1) - FieldOf(v, 1) == FieldTotal(tx.outputs, receipt, 1) - FieldTotal(tx.inputs, receipt, 1))
    && (FieldOf(w, 9) != FieldOf(v, 9) || FieldOf(w, 17) != FieldOf(v, 17) ==>
          && TakesPart(tx, request)
          && FieldOf(v, 9) + FieldOf(v, 17) - Most(tx, request, 2) <= FieldOf(w, 9) + FieldOf(w, 17)
          && FieldOf(w, 9) + FieldOf(w, 17) <= FieldOf(v, 9) + FieldOf(v, 17) + Most(tx, request, 2))
    && (FieldOf(v, 25) < FieldOf(w, 25) ==> TakesPart(tx, request) && FieldOf(w, 25) - FieldOf(v, 25) <= Most(tx, request, 10))
    && (FieldOf(w, 25) < FieldOf(v, 25) ==> TakesPart(tx, claim) && FieldOf(v, 25) - FieldOf(w, 25) <= Most(tx, claim, 2))
  }

  /** How capacity may leave the vault. */
  ghost predicate CapacityMoves(tx: Transaction, args: seq<byte>, v: Cell, w: Cell) {
    w.capacity < v.capacity ==>
      || TakesPart(tx, ArgAt(args, 1)) || TakesPart(tx, ArgAt(args, 4))
      || (TakesPart(tx, ArgAt(args, 2)) && v.capacity - w.capacity <= Most(tx, ArgAt(args, 2), 2) * 100_000_000)
      || (TakesPart(tx, ArgAt(args, 3)) && v.capacity - w.capacity <= Most(tx, ArgAt(args, 3), 2) * 100_000_000)
  }

  ghost predicate Authorized(tx: Transaction, args: seq<byte>) {
    LockedIn(tx, ArgAt(args, 0)) || exists k: nat :: 1 <= k <= 4 && TakesPart(tx, ArgAt(args, k))
  }

  /** The families' cells can be read, and the limits can be compared with capacities. */
  ghost predicate ReadableServices(tx: Transaction, args: seq<byte>) {
    && ReadableBoth(tx, ArgAt(args, 1), 1, 41)
    && ReadableBoth(tx, ArgAt(args, 2), 2, 26) && ReadableBoth(tx, ArgAt(args, 2), 10, 26)
    && ReadableBoth(tx, ArgAt(args, 3), 2, 10) && ReadableBoth(tx, ArgAt(args, 4), 2, 10)
    && IsU64(Most(tx, ArgAt(args, 2), 2) * 100_000_000) && IsU64(Most(tx, ArgAt(args, 3), 2) * 100_000_000)
  }

  lemma AuthorizedIff(tx: Transaction, args: seq<byte>)
    requires VaultTypeArgs(args).Some?
    ensures HasInputLock(tx, VaultTypeArgs(args).value.admin) || AnyService(tx, VaultTypeArgs(args).value) <==> Authorized(tx, args)
  {
    hide HasInputLock, LockedIn, Involves, TakesPart;
    var a := VaultTypeArgs(args).value;
    assert a == VaultArgs(ArgAt(args, 0), ArgAt(args, 1), ArgAt(args, 2), ArgAt(args, 3), ArgAt(args, 4));
    LockIff(tx, ArgAt(args, 0));
    forall k: nat | 1 <= k <= 4 ensures Involves(tx, ArgAt(args, k)) <==> TakesPart(tx, ArgAt(args, k)) { PartIff(tx, ArgAt(args, k)); }
  }

  lemma ReceiptMeans(tx: Transaction, a: VaultArgs, before: nat, after: nat)
    ensures ReceiptDelta(tx, a, before, after) == Accepted <==>
      && TakesPart(tx, a.receipt) && ReadableBoth(tx, a.receipt, 1, 41)
      && after - before == FieldTotal(tx.outputs, a.receipt, 1) - FieldTotal(tx.inputs, a.receipt, 1)
  {
    hide Involves, TakesPart, SumField, FieldTotal, Readable;
    PartIff(tx, a.receipt);
    SumIsTotal(tx.inputs, a.receipt, 1, 41);
    SumIsTotal(tx.outputs, a.receipt, 1, 41);
  }

  lemma LockMeans(tx: Transaction, a: VaultArgs, v: VaultData, w: VaultData)
    requires IsU64(v.reserved + v.deployed) && IsU64(w.reserved + w.deployed)
    ensures RequestLockDelta(tx, a, v, w) == Accepted <==>
      && TakesPart(tx, a.request) && ReadableBoth(tx, a.request, 2, 26)
      && v.reserved + v.deployed - Most(tx, a.request, 2) <= w.reserved + w.deployed <= v.reserved + v.deployed + Most(tx, a.request, 2)
  {
    hide Involves, TakesPart, MaxField, Most, ReadableBoth;
    PartIff(tx, a.request);
    MaxIsMost(tx, a.request, 2, 26);
  }

  lemma FeeMeans(tx: Transaction, a: VaultArgs, before: nat, after: nat)
    requires before != after
    ensures FeeDelta(tx, a, before, after) == Accepted <==>
      if before < after then TakesPart(tx, a.request) && ReadableBoth(tx, a.request, 10, 26) && after - before <= Most(tx, a.request, 10)
      else TakesPart(tx, a.claim) && ReadableBoth(tx, a.claim, 2, 10) && before - after <= Most(tx, a.claim, 2)
  {
    hide Involves, TakesPart, MaxField, Most, ReadableBoth;
    PartIff(tx, a.request);
    PartIff(tx, a.claim);
    MaxIsMost(tx, a.request, 10, 26);
    MaxIsMost(tx, a.claim, 2, 10);
  }

  lemma AccountingMeans(tx: Transaction, args: seq<byte>, v: Cell, w: Cell)
    requires VaultTypeArgs(args).Some? && SoundVault(v) && SoundVault(w)
    ensures var (input, output) := (ParseVault(v.data), ParseVault(w.data));
      && input.Success? && output.Success?
      && (AccountingDelta(tx, VaultTypeArgs(args).value, input.value, output.value) == Accepted ==> AccountsMove(tx, args, v, w))
      && (ReadableServices(tx, args) && AccountsMove(tx, args, v, w) ==>
            AccountingDelta(tx, VaultTypeArgs(args).value, input.value, output.value) == Accepted)
  {
    var a := VaultTypeArgs(args).value;
    ParseIff(v);
    ParseIff(w);
    var (input, output) := (ParseVault(v.data).value, ParseVault(w.data).value);
    LockFits(v);
    LockFits(w);
    ReceiptMeans(tx, a, input.total, output.total);
    LockMeans(tx, a, input, output);
    if input.fees != output.fees { FeeMeans(tx, a, input.fees, output.fees); }
    hide Involves, TakesPart, MaxField, Most, ReadableBoth, SumField, FieldTotal, FieldOf, ParseVault, ReceiptDelta, RequestLockDelta, FeeDelta;
  }

  lemma LockFits(c: Cell)
    requires SoundVault(c)
    ensures IsU64(FieldOf(c, 9) + FieldOf(c, 17))
  {
    ReadIsField(c, 1);
    assert IsU64(ReadU64(c.data, 1).value);
  }

  lemma CapacityMeans(tx: Transaction, args: seq<byte>, hash: Hash, v: Cell, w: Cell)
    requires VaultTypeArgs(args).Some? && Group(tx.inputs, hash) == [v] && Group(tx.outputs, hash) == [w]
    ensures CapacityDelta(tx, hash, VaultTypeArgs(args).value) == Accepted ==> CapacityMoves(tx, args, v, w)
    ensures ReadableServices(tx, args) && CapacityMoves(tx, args, v, w) ==> CapacityDelta(tx, hash, VaultTypeArgs(args).value) == Accepted
  {
    var a := VaultTypeArgs(args).value;
    assert [v][..0] == [] && [w][..0] == [];
    assert SumCapacity([v]) == v.capacity && SumCapacity([w]) == w.capacity;
    forall code: Hash ensures Involves(tx, code) <==> TakesPart(tx, code) { PartIff(tx, code); }
    MaxIsMost(tx, a.request, 2, 26);
    MaxIsMost(tx, a.funding, 2, 10);
    hide Involves, TakesPart, MaxField, Most, ReadableBoth, Group, SumCapacity;
  }

  /** What the vault's type script accepts with one vault cell before and one after: both sound, someone
      entitled takes part, and capacity and accounts move only as the services of the transaction allow.
      Nothing else is accepted, and with readable services nothing else is needed. */
  lemma VaultUpdateSound(tx: Transaction, script: Script, i: nat, j: nat)
    requires Alone(tx.inputs, script.hash, i) && Alone(tx.outputs, script.hash, j)
    ensures var (v, w) := (tx.inputs[i], tx.outputs[j]);
      VaultType(tx, script) == Accepted ==>
        && |script.args| == 160 && SoundVault(v) && SoundVault(w) && Authorized(tx, script.args)
        && CapacityMoves(tx, script.args, v, w) && AccountsMove(tx, script.args, v, w)
    ensures var (v, w) := (tx.inputs[i], tx.outputs[j]);
      && |script.args| == 160 && SoundVault(v) && SoundVault(w) && Authorized(tx, script.args)
      && CapacityMoves(tx, script.args, v, w) && AccountsMove(tx, script.args, v, w) && ReadableServices(tx, script.args)
      ==> VaultType(tx, script) == Accepted
  {
    var (v, w) := (tx.inputs[i], tx.outputs[j]);
    AloneGroup(tx.inputs, script.hash, i);
    AloneGroup(tx.outputs, script.hash, j);
    ParseIff(v);
    ParseIff(w);
    if |script.args| == 160 && SoundVault(v) && SoundVault(w) {
      AuthorizedIff(tx, script.args);
      CapacityMeans(tx, script.args, script.hash, v, w);
      AccountingMeans(tx, script.args, v, w);
    }
    hide Alone, Group, ParseVault, SoundVault, HasInputLock, AnyService, Authorized, CapacityDelta, AccountingDelta;
    hide CapacityMoves, AccountsMove, ReadableServices;
  }

  /** A total that stays says nothing about receipts: a vault that does not change is accepted beside any
      change of the receipt cells, once someone entitled takes part. */
  lemma ReceiptsAreFree(tx: Transaction, script: Script, i: nat, j: nat)
    requires Alone(tx.inputs, script.hash, i) && Alone(tx.outputs, script.hash, j) && tx.outputs[j] == tx.inputs[i]
    requires |script.args| == 160 && SoundVault(tx.inputs[i]) && Authorized(tx, script.args)
    ensures VaultType(tx, script) == Accepted
  {
    var v := tx.inputs[i];
    AloneGroup(tx.inputs, script.hash, i);
    AloneGroup(tx.outputs, script.hash, j);
    ParseIff(v);
    AuthorizedIff(tx, script.args);
    hide Alone, Group, ParseVault, SoundVault, HasInputLock, AnyService, Authorized, SumCapacity;
  }

  ghost predicate EmptyVault(c: Cell) {
    |c.data| == 33 && c.data[0] == 1 && FieldOf(c, 1) == FieldOf(c, 9) == FieldOf(c, 17) == FieldOf(c, 25) == 0
  }

  /** A vault appears only empty and with the administrator's lock among the inputs. */
  lemma VaultCreationIff(tx: Transaction, script: Script, j: nat)
    requires Nowhere(tx.inputs, script.hash) && Alone(tx.outputs, script.hash, j)
    ensures VaultType(tx, script) == Accepted
      <==> |script.args| == 160 && EmptyVault(tx.outputs[j]) && LockedIn(tx, ArgAt(script.args, 0))
  {
    NowhereIff(tx.inputs, script.hash);
    AloneGroup(tx.outputs, script.hash, j);
    ParseIff(tx.outputs[j]);
    LockIff(tx, ArgAt(script.args, 0));
    hide Alone, Group, ParseVault, HasInputLock, LockedIn, FieldOf;
  }

  /** And disappears only so. */
  lemma VaultClosingIff(tx: Transaction, script: Script, i: nat)
    requires Alone(tx.inputs, script.hash, i) && Nowhere(tx.outputs, script.hash)
    ensures VaultType(tx, script) == Accepted
      <==> |script.args| == 160 && EmptyVault(tx.inputs[i]) && LockedIn(tx, ArgAt(script.args, 0))
  {
    AloneGroup(tx.inputs, script.hash, i);
    NowhereIff(tx.outputs, script.hash);
    ParseIff(tx.inputs[i]);
    LockIff(tx, ArgAt(script.args, 0));
    hide Alone, Group, ParseVault, HasInputLock, LockedIn, FieldOf;
  }

  /** A script that accepts has at most one cell on each side, and one at all. */
  ghost predicate OneOrNone(cells: seq<Cell>, hash: Hash) {
    Nowhere(cells, hash) || exists i: nat :: Alone(cells, hash, i)
  }

  lemma SingleIff(cells: seq<Cell>, hash: Hash)
    ensures SingleGroupData(cells, hash).Success? <==> OneOrNone(cells, hash)
    ensures SingleGroupData(cells, hash) == Success(None) <==> Nowhere(cells, hash)
  {
    NowhereIff(cells, hash);
    if |Group(cells, hash)| == 1 {
      var i := GroupAlone(cells, hash);
      assert Alone(cells, hash, i);
    }
    if i: nat :| Alone(cells, hash, i) { AloneGroup(cells, hash, i); }
    hide Nowhere, Alone, Group;
  }

  lemma VaultIsSingle(tx: Transaction, script: Script)
    requires VaultType(tx, script) == Accepted
    ensures OneOrNone(tx.inputs, script.hash) && OneOrNone(tx.outputs, script.hash)
    ensures !(Nowhere(tx.inputs, script.hash) && Nowhere(tx.outputs, script.hash))
  {
    SingleIff(tx.inputs, script.hash);
    SingleIff(tx.outputs, script.hash);
    hide SingleGroupData, OneOrNone, Nowhere, VaultUpdate, HasInputLock;
  }

  // The capacity request.

  ghost predicate SoundRequest(c: Cell) {
    && |c.data| == 26 && c.data[0] == 1 && c.data[1] <= 3
    && FieldOf(c, 2) != 0 && FieldOf(c, 10) != 0 && FieldOf(c, 18) != 0
  }

  lemma RequestParseIff(c: Cell)
    ensures ParseRequest(c.data).Success? <==> SoundRequest(c)
    ensures ParseRequest(c.data).Success? ==>
      ParseRequest(c.data).value == RequestData(c.data[1], FieldOf(c, 2), FieldOf(c, 10), FieldOf(c, 18))
  {
    if |c.data| == 26 {
      ReadIsField(c, 2);
      ReadIsField(c, 10);
      ReadIsField(c, 18);
      hide ReadU64;
    }
  }

  ghost predicate TypePresent(tx: Transaction, hash: Hash) {
    !Nowhere(tx.inputs, hash) || !Nowhere(tx.outputs, hash)
  }

  lemma PresentIff(tx: Transaction, hash: Hash)
    ensures InvolvesKind(tx, hash) <==> TypePresent(tx, hash)
  {
    KindIff(tx.inputs, hash);
    KindIff(tx.outputs, hash);
  }

  lemma KindIff(cells: seq<Cell>, hash: Hash)
    ensures HasKind(cells, hash) <==> !Nowhere(cells, hash)
  {
    if k :| 0 <= k < |cells| && HasType(cells[k], hash) { assert cells[k].kind.value.hash == hash; }
  }

  /** A request is created by its merchant beside the vault, not yet beyond pending. */
  lemma RequestCreationIff(tx: Transaction, script: Script, j: nat)
    requires Nowhere(tx.inputs, script.hash) && Alone(tx.outputs, script.hash, j)
    ensures var c := tx.outputs[j];
      VaultScripts.RequestType(tx, script) == Accepted <==>
        && |script.args| == 128 && SoundRequest(c) && c.data[1] <= 1
        && LockedIn(tx, ArgAt(script.args, 1)) && TypePresent(tx, ArgAt(script.args, 0))
  {
    NowhereIff(tx.inputs, script.hash);
    AloneGroup(tx.outputs, script.hash, j);
    RequestParseIff(tx.outputs[j]);
    LockIff(tx, ArgAt(script.args, 1));
    PresentIff(tx, ArgAt(script.args, 0));
    hide Alone, Nowhere, Group, ParseRequest, HasInputLock, LockedIn, InvolvesKind, TypePresent, FieldOf;
  }

  /** It disappears when its merchant withdraws it untouched, or beside the vault when it is finished. */
  lemma RequestClosingIff(tx: Transaction, script: Script, i: nat)
    requires Alone(tx.inputs, script.hash, i) && Nowhere(tx.outputs, script.hash)
    ensures var c := tx.inputs[i];
      VaultScripts.RequestType(tx, script) == Accepted <==>
        && |script.args| == 128 && SoundRequest(c)
        && ((c.data[1] == 0 && LockedIn(tx, ArgAt(script.args, 1))) || (c.data[1] == 3 && TypePresent(tx, ArgAt(script.args, 0))))
  {
    AloneGroup(tx.inputs, script.hash, i);
    NowhereIff(tx.outputs, script.hash);
    RequestParseIff(tx.inputs[i]);
    LockIff(tx, ArgAt(script.args, 1));
    PresentIff(tx, ArgAt(script.args, 0));
    hide Alone, Nowhere, Group, ParseRequest, HasInputLock, LockedIn, InvolvesKind, TypePresent, FieldOf;
  }

  /** A request keeps its terms for ever; its status never falls, moves only beside the vault, and becomes
      deployed only with the operator's lock. */
  lemma RequestUpdateIff(tx: Transaction, script: Script, i: nat, j: nat)
    requires Alone(tx.inputs, script.hash, i) && Alone(tx.outputs, script.hash, j)
    ensures var (c, d) := (tx.inputs[i], tx.outputs[j]);
      VaultScripts.RequestType(tx, script) == Accepted <==>
        && |script.args| == 128 && SoundRequest(c) && SoundRequest(d)
        && (LockedIn(tx, ArgAt(script.args, 1)) || LockedIn(tx, ArgAt(script.args, 2)))
        && FieldOf(d, 2) == FieldOf(c, 2) && FieldOf(d, 10) == FieldOf(c, 10) && FieldOf(d, 18) == FieldOf(c, 18)
        && c.data[1] <= d.data[1] && (d.data[1] != 0 ==> TypePresent(tx, ArgAt(script.args, 0)))
        && (d.data[1] == 2 ==> LockedIn(tx, ArgAt(script.args, 2)))
  {
    AloneGroup(tx.inputs, script.hash, i);
    AloneGroup(tx.outputs, script.hash, j);
    RequestParseIff(tx.inputs[i]);
    RequestParseIff(tx.outputs[j]);
    LockIff(tx, ArgAt(script.args, 1));
    LockIff(tx, ArgAt(script.args, 2));
    PresentIff(tx, ArgAt(script.args, 0));
    hide Alone, Nowhere, Group, ParseRequest, HasInputLock, LockedIn, InvolvesKind, TypePresent, FieldOf;
  }

  // The vault's lock.

  /** The vault's lock opens for its administrator, or for any of four services while the vault itself
      takes part; and no output may carry the lock without being the vault. */
  lemma VaultLockSound(tx: Transaction, script: Script)
    ensures VaultLock(tx, script) == Accepted <==>
      && |script.args| == 192
      && (|| LockedIn(tx, ArgAt(script.args, 0))
          || (TypePresent(tx, ArgAt(script.args, 1)) && exists k: nat :: 2 <= k <= 5 && TakesPart(tx, ArgAt(script.args, k))))
      && forall c <- tx.outputs :: c.lock.hash == script.hash ==> HasType(c, ArgAt(script.args, 1))
  {
    var args := script.args;
    LockIff(tx, ArgAt(args, 0));
    PresentIff(tx, ArgAt(args, 1));
    forall k: nat | 2 <= k <= 5 ensures Involves(tx, ArgAt(args, k)) <==> TakesPart(tx, ArgAt(args, k)) { PartIff(tx, ArgAt(args, k)); }
    if |args| == 192 {
      assert VaultLockArgs(args) == Some(LockArgs(ArgAt(args, 0), ArgAt(args, 1), ArgAt(args, 2), ArgAt(args, 3), ArgAt(args, 4), ArgAt(args, 5)));
    }
    assert forall i :: 0 <= i < |tx.outputs| ==> tx.outputs[i] in tx.outputs;
    hide HasInputLock, LockedIn, InvolvesKind, TypePresent, Involves, TakesPart, ArgAt;
  }
}
