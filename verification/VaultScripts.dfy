/** The on-chain validators that judge a transaction by scanning its cells. */
module VaultScripts {
  import opened Cells
  import opened OutpointText
  import opened Wrappers

  datatype ScriptError = InvalidArgs | InvalidData | Unauthorized | MissingVault | ValueMismatch | BadTransition
                       | DuplicateCell | Arithmetic

  datatype Verdict = Accepted | Rejected(error: ScriptError)

  // Cell scans.

  predicate HasInputLock(tx: Transaction, hash: Hash) {
    exists i :: 0 <= i < |tx.inputs| && tx.inputs[i].lock.hash == hash
  }

  predicate HasKind(cells: seq<Cell>, hash: Hash) {
    exists i :: 0 <= i < |cells| && cells[i].kind.Some? && cells[i].kind.value.hash == hash
  }

  predicate HasCode(cells: seq<Cell>, code: Hash) {
    exists i :: 0 <= i < |cells| && OfCode(cells[i], code)
  }

  predicate OfCode(c: Cell, code: Hash) { c.kind.Some? && c.kind.value.codeHash == code }

  predicate Involves(tx: Transaction, code: Hash) { HasCode(tx.inputs, code) || HasCode(tx.outputs, code) }

  predicate InvolvesKind(tx: Transaction, hash: Hash) { HasKind(tx.inputs, hash) || HasKind(tx.outputs, hash) }

  /** The cells of a script's own group. */
  function Group(cells: seq<Cell>, hash: Hash): seq<Cell> {
    if cells == [] then []
    else
      var (rest, c) := (Group(cells[..|cells| - 1], hash), cells[|cells| - 1]);
      if c.kind.Some? && c.kind.value.hash == hash then rest + [c] else rest
  }

  function SingleGroupData(cells: seq<Cell>, hash: Hash): Result<Option<seq<byte>>, ScriptError> {
    var group := Group(cells, hash);
    if |group| == 0 then Success(None) else if |group| == 1 then Success(Some(group[0].data)) else Failure(DuplicateCell)
  }

  function SumCapacity(cells: seq<Cell>): nat {
    if cells == [] then 0 else SumCapacity(cells[..|cells| - 1]) + cells[|cells| - 1].capacity
  }

  predicate ExactData(data: seq<byte>, length: nat) { |data| == length && length > 0 && data[0] == VERSION }

  function Add(a: nat, b: nat): Result<nat, ScriptError> {
    if IsU64(a + b) then Success(a + b) else Failure(Arithmetic)
  }

  /** One 64-bit field summed over the cells of a code family; a malformed cell is an error. */
  function SumField(cells: seq<Cell>, code: Hash, offset: nat, length: nat): Result<nat, ScriptError>
    requires offset + 8 <= length
  {
    if cells == [] then Success(0)
    else
      var (rest, c) := (SumField(cells[..|cells| - 1], code, offset, length), cells[|cells| - 1]);
      if rest.Failure? || !OfCode(c, code) then rest
      else if !ExactData(c.data, length) then Failure(InvalidData)
      else Add(rest.value, ReadU64(c.data, offset).value)
  }

  lemma {:induction false} SumErrorSticks(cells: seq<Cell>, code: Hash, offset: nat, length: nat, i: nat)
    requires offset + 8 <= length && i <= |cells| && SumField(cells[..i], code, offset, length).Failure?
    ensures SumField(cells, code, offset, length) == SumField(cells[..i], code, offset, length)
    decreases |cells| - i
  {
    if i < |cells| {
      assert cells[..i + 1][..i] == cells[..i];
      SumErrorSticks(cells, code, offset, length, i + 1);
    } else {
      assert cells[..i] == cells;
    }
  }

  method SumTypeCodeField(cells: seq<Cell>, code: Hash, offset: nat, length: nat) returns (r: Result<nat, ScriptError>)
    requires offset + 8 <= length
    ensures r == SumField(cells, code, offset, length)
  {
    hide OfCode, ExactData;
    var total := 0;
    for i := 0 to |cells|
      invariant SumField(cells[..i], code, offset, length) == Success(total)
    {
      assert cells[..i + 1][..i] == cells[..i];
      if OfCode(cells[i], code) {
        if !ExactData(cells[i].data, length) {
          SumErrorSticks(cells, code, offset, length, i + 1);
          return Failure(InvalidData);
        }
        assert |cells[i].data| == length by { Exact(cells[i].data, length); }
        var next := Add(total, ReadU64(cells[i].data, offset).value);
        if next.Failure? {
          SumErrorSticks(cells, code, offset, length, i + 1);
          return next;
        }
        total := next.value;
      }
    }
    assert cells[..|cells|] == cells;
    return Success(total);
  }

  lemma Exact(data: seq<byte>, length: nat)
    requires ExactData(data, length)
    ensures |data| == length
  {}

  function MaxField(tx: Transaction, code: Hash, offset: nat, length: nat): Result<nat, ScriptError>
    requires offset + 8 <= length
  {
    var (input, output) := (SumField(tx.inputs, code, offset, length), SumField(tx.outputs, code, offset, length));
    if input.Failure? then input
    else if output.Failure? then output
    else Success(if input.value < output.value then output.value else input.value)
  }

  function HashAt(args: seq<byte>, k: nat): Hash
    requires 32 * (k + 1) <= |args|
  {
    args[32 * k..32 * (k + 1)]
  }

  // The vault's type script.

  datatype VaultArgs = VaultArgs(admin: Hash, receipt: Hash, request: Hash, funding: Hash, claim: Hash)

  function VaultTypeArgs(args: seq<byte>): Option<VaultArgs> {
    if |args| != 160 then None
    else Some(VaultArgs(HashAt(args, 0), HashAt(args, 1), HashAt(args, 2), HashAt(args, 3), HashAt(args, 4)))
  }

  function ParseVault(data: seq<byte>): Result<VaultData, ScriptError> {
    if !ExactData(data, 33) then Failure(InvalidData)
    else
      var v := VaultFields(data);
      match Add(v.reserved, v.deployed)
      case Failure(error) => Failure(error)
      case Success(locked) => if locked > v.total then Failure(InvalidData) else Success(v)
  }

  predicate AnyService(tx: Transaction, a: VaultArgs) {
    Involves(tx, a.receipt) || Involves(tx, a.request) || Involves(tx, a.funding) || Involves(tx, a.claim)
  }

  predicate IsEmpty(v: VaultData) { v == VaultData(0, 0, 0, 0) }

  function ToShannons(amount: nat): Result<nat, ScriptError> {
    if IsU64(amount * SHANNONS) then Success(amount * SHANNONS) else Failure(Arithmetic)
  }

  /** A limit on how much capacity may leave: `None` when it does not apply or is too small. */
  function WithinLimit(present: bool, delta: nat, limit: Result<nat, ScriptError>): Result<bool, ScriptError> {
    match limit
    case Failure(error) => Failure(error)
    case Success(amount) =>
      if !present then Success(false)
      else match ToShannons(amount)
        case Failure(error) => Failure(error)
        case Success(shannons) => Success(delta <= shannons)
  }

  function CapacityDelta(tx: Transaction, hash: Hash, a: VaultArgs): Verdict {
    var (input, output) := (SumCapacity(Group(tx.inputs, hash)), SumCapacity(Group(tx.outputs, hash)));
    if output >= input || Involves(tx, a.receipt) || Involves(tx, a.claim) then Accepted
    else
      match WithinLimit(Involves(tx, a.request), input - output, MaxField(tx, a.request, 2, 26))
      case Failure(error) => Rejected(error)
      case Success(true) => Accepted
      case Success(false) =>
        match WithinLimit(Involves(tx, a.funding), input - output, MaxField(tx, a.funding, 2, 10))
        case Failure(error) => Rejected(error)
        case Success(true) => Accepted
        case Success(false) => Rejected(ValueMismatch)
  }

  predicate SameDelta(input: nat, output: nat, serviceInput: nat, serviceOutput: nat) {
    (output as int) - input == serviceOutput - serviceInput
  }

  function ReceiptDelta(tx: Transaction, a: VaultArgs, input: nat, output: nat): Verdict {
    if !Involves(tx, a.receipt) then Rejected(BadTransition)
    else
      match (SumField(tx.inputs, a.receipt, 1, 41), SumField(tx.outputs, a.receipt, 1, 41))
      case (Failure(error), _) => Rejected(error)
      case (_, Failure(error)) => Rejected(error)
      case (Success(i), Success(o)) => if SameDelta(input, output, i, o) then Accepted else Rejected(ValueMismatch)
  }

  function RequestLockDelta(tx: Transaction, a: VaultArgs, input: VaultData, output: VaultData): Verdict {
    if !Involves(tx, a.request) then Rejected(BadTransition)
    else
      match (Add(input.reserved, input.deployed), Add(output.reserved, output.deployed), MaxField(tx, a.request, 2, 26))
      case (Failure(error), _, _) => Rejected(error)
      case (_, Failure(error), _) => Rejected(error)
      case (_, _, Failure(error)) => Rejected(error)
      case (Success(i), Success(o), Success(limit)) =>
        if (if i < o then o - i else i - o) <= limit then Accepted else Rejected(ValueMismatch)
  }

  function FeeDelta(tx: Transaction, a: VaultArgs, input: nat, output: nat): Verdict {
    var (code, delta) := if output > input then (a.request, output - input) else (a.claim, input - output);
    match if output > input then MaxField(tx, code, 10, 26) else MaxField(tx, code, 2, 10)
    case Failure(error) => Rejected(error)
    case Success(limit) => if Involves(tx, code) && delta <= limit then Accepted else Rejected(ValueMismatch)
  }

  function AccountingDelta(tx: Transaction, a: VaultArgs, input: VaultData, output: VaultData): Verdict {
    var receipt := if input.total != output.total then ReceiptDelta(tx, a, input.total, output.total) else Accepted;
    if receipt.Rejected? then receipt
    else
      var lock := if input.reserved != output.reserved || input.deployed != output.deployed
                  then RequestLockDelta(tx, a, input, output) else Accepted;
      if lock.Rejected? then lock
      else if input.fees != output.fees then FeeDelta(tx, a, input.fees, output.fees) else Accepted
  }

  function VaultUpdate(tx: Transaction, hash: Hash, a: VaultArgs, input: VaultData, output: VaultData): Verdict {
    if !HasInputLock(tx, a.admin) && !AnyService(tx, a) then Rejected(Unauthorized)
    else
      var capacity := CapacityDelta(tx, hash, a);
      if capacity.Rejected? then capacity else AccountingDelta(tx, a, input, output)
  }

  function ParsedVault(data: Option<seq<byte>>): Result<Option<VaultData>, ScriptError> {
    if data.None? then Success(None)
    else match ParseVault(data.value)
      case Failure(error) => Failure(error)
      case Success(v) => Success(Some(v))
  }

  function VaultType(tx: Transaction, script: Script): Verdict {
    match (VaultTypeArgs(script.args), SingleGroupData(tx.inputs, script.hash), SingleGroupData(tx.outputs, script.hash))
    case (None, _, _) => Rejected(InvalidArgs)
    case (_, Failure(error), _) => Rejected(error)
    case (_, _, Failure(error)) => Rejected(error)
    case (Some(a), Success(i), Success(o)) =>
      match (ParsedVault(i), ParsedVault(o))
      case (Failure(error), _) => Rejected(error)
      case (_, Failure(error)) => Rejected(error)
      case (Success(None), Success(None)) => Rejected(BadTransition)
      case (Success(None), Success(Some(output))) =>
        if HasInputLock(tx, a.admin) && IsEmpty(output) then Accepted else Rejected(Unauthorized)
      case (Success(Some(input)), Success(None)) =>
        if HasInputLock(tx, a.admin) && IsEmpty(input) then Accepted else Rejected(BadTransition)
      case (Success(Some(input)), Success(Some(output))) => VaultUpdate(tx, script.hash, a, input, output)
  }

  // The capacity request's type script.

  datatype RequestArgs = RequestArgs(vault: Hash, merchant: Hash, operator: Hash)

  function RequestTypeArgs(args: seq<byte>): Option<RequestArgs> {
    if |args| != 128 then None else Some(RequestArgs(HashAt(args, 0), HashAt(args, 1), HashAt(args, 2)))
  }

  function ParseRequest(data: seq<byte>): Result<RequestData, ScriptError> {
    if !ExactData(data, 26) then Failure(InvalidData)
    else
      var r := RequestFields(data);
      if r.status > 3 || r.amount == 0 || r.leaseFee == 0 || r.expiry == 0 then Failure(InvalidData) else Success(r)
  }

  function RequestUpdate(tx: Transaction, a: RequestArgs, input: RequestData, output: RequestData): Verdict {
    var (merchant, operator, vault) := (HasInputLock(tx, a.merchant), HasInputLock(tx, a.operator), InvolvesKind(tx, a.vault));
    if !merchant && !operator then Rejected(Unauthorized)
    else if input.amount != output.amount || input.leaseFee != output.leaseFee || input.expiry != output.expiry then Rejected(BadTransition)
    else if output.status < input.status then Rejected(BadTransition)
    else if output.status == 0 then Accepted
    else if output.status == 2 then (if operator && vault then Accepted else Rejected(Unauthorized))
    else if vault then Accepted else Rejected(MissingVault)
  }

  function ParsedRequest(data: Option<seq<byte>>): Result<Option<RequestData>, ScriptError> {
    if data.None? then Success(None)
    else match ParseRequest(data.value)
      case Failure(error) => Failure(error)
      case Success(r) => Success(Some(r))
  }

  function RequestType(tx: Transaction, script: Script): Verdict {
    match (RequestTypeArgs(script.args), SingleGroupData(tx.inputs, script.hash), SingleGroupData(tx.outputs, script.hash))
    case (None, _, _) => Rejected(InvalidArgs)
    case (_, Failure(error), _) => Rejected(error)
    case (_, _, Failure(error)) => Rejected(error)
    case (Some(a), Success(i), Success(o)) =>
      match (ParsedRequest(i), ParsedRequest(o))
      case (Failure(error), _) => Rejected(error)
      case (_, Failure(error)) => Rejected(error)
      case (Success(None), Success(None)) => Rejected(BadTransition)
      case (Success(None), Success(Some(output))) =>
        if HasInputLock(tx, a.merchant) && InvolvesKind(tx, a.vault) && output.status <= 1 then Accepted else Rejected(Unauthorized)
      case (Success(Some(input)), Success(None)) =>
        if (HasInputLock(tx, a.merchant) && input.status == 0) || (InvolvesKind(tx, a.vault) && input.status == 3)
        then Accepted else Rejected(BadTransition)
      case (Success(Some(input)), Success(Some(output))) => RequestUpdate(tx, a, input, output)
  }

  // The vault's lock script.

  datatype LockArgs = LockArgs(admin: Hash, vault: Hash, receipt: Hash, request: Hash, funding: Hash, claim: Hash)

  function VaultLockArgs(args: seq<byte>): Option<LockArgs> {
    if |args| != 192 then None
    else Some(LockArgs(HashAt(args, 0), HashAt(args, 1), HashAt(args, 2), HashAt(args, 3), HashAt(args, 4), HashAt(args, 5)))
  }

  predicate AuthorizedSpend(tx: Transaction, a: LockArgs) {
    || HasInputLock(tx, a.admin)
    || ((Involves(tx, a.receipt) || Involves(tx, a.request) || Involves(tx, a.funding) || Involves(tx, a.claim))
        && InvolvesKind(tx, a.vault))
  }

  predicate StaysTyped(c: Cell, lock: Hash, vault: Hash) {
    c.lock.hash == lock ==> c.kind.Some? && c.kind.value.hash == vault
  }

  function VaultLock(tx: Transaction, script: Script): Verdict {
    match VaultLockArgs(script.args)
    case None => Rejected(InvalidArgs)
    case Some(a) =>
      if !AuthorizedSpend(tx, a) then Rejected(Unauthorized)
      else if forall i :: 0 <= i < |tx.outputs| ==> StaysTyped(tx.outputs[i], script.hash, a.vault) then Accepted
      else Rejected(MissingVault)
  }

  method RequireOutputsTyped(outputs: seq<Cell>, lock: Hash, vault: Hash) returns (verdict: Verdict)
    ensures verdict == if forall i :: 0 <= i < |outputs| ==> StaysTyped(outputs[i], lock, vault) then Accepted else Rejected(MissingVault)
  {
    for i := 0 to |outputs|
      invariant forall k :: 0 <= k < i ==> StaysTyped(outputs[k], lock, vault)
    {
      if outputs[i].lock.hash != lock { continue; }
      if outputs[i].kind.None? || outputs[i].kind.value.hash != vault {
        assert !StaysTyped(outputs[i], lock, vault);
        return Rejected(MissingVault);
      }
    }
    return Accepted;
  }
}
