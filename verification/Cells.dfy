/** Chain cells, scripts and the byte layouts shared by the off-chain builder and the on-chain
    validators. A script carries its own hash. */
module Cells {
  import opened OutpointText
  import opened Wrappers

  type Hash = seq<byte>

  const SHANNONS := 100_000_000
  const VERSION := 1

  datatype Script = Script(codeHash: Hash, args: seq<byte>, hash: Hash)

  datatype Cell = Cell(capacity: nat, lock: Script, kind: Option<Script>, data: seq<byte>)

  datatype Witness = Blank | Placeholder | Given(bytes: seq<byte>)

  datatype Dep = Dep(outPoint: string, group: bool)

  /** A transaction with its inputs resolved to the cells they spend. */
  datatype Transaction = Transaction(inputs: seq<Cell>, outputs: seq<Cell>, deps: seq<Dep>, witnesses: seq<Witness>)

  datatype VaultData = VaultData(total: nat, reserved: nat, deployed: nat, fees: nat)

  datatype RequestData = RequestData(status: nat, amount: nat, leaseFee: nat, expiry: nat)

  predicate IsU64(n: nat) { n <= U64_MAX }

  function ReadU64(data: seq<byte>, offset: nat): (r: Option<nat>)
    ensures r.Some? ==> IsU64(r.value)
  {
    if offset + 8 <= |data| then WidthBound(data[offset..offset + 8]); Some(LittleEndian(data[offset..offset + 8])) else None
  }

  lemma {:induction false} LittleEndianBound(bytes: seq<byte>)
    ensures LittleEndian(bytes) < Power256(|bytes|)
  {
    if bytes != [] { LittleEndianBound(bytes[1..]); }
  }

  lemma PowerOfEight()
    ensures Power256(8) == U64_MAX + 1
  {
    assert Power256(4) == 256 * (256 * (256 * (256 * Power256(0))));
    assert Power256(8) == 256 * (256 * (256 * (256 * Power256(4))));
  }

  lemma WidthBound(bytes: seq<byte>)
    requires |bytes| == 8
    ensures IsU64(LittleEndian(bytes))
  {
    LittleEndianBound(bytes);
    PowerOfEight();
  }

  function U64Bytes(n: nat): (bytes: seq<byte>)
    ensures |bytes| == 8
  {
    LittleEndianBytes(n, 8)
  }

  lemma U64RoundTrip(n: nat)
    requires IsU64(n)
    ensures LittleEndian(U64Bytes(n)) == n
  {
    PowerOfEight();
    LittleEndianRoundTrip(n, 8);
  }

  function EncodeVault(v: VaultData): (data: seq<byte>)
    ensures |data| == 33 && data[0] == VERSION
  {
    [VERSION] + U64Bytes(v.total) + U64Bytes(v.reserved) + U64Bytes(v.deployed) + U64Bytes(v.fees)
  }

  function EncodeRequest(r: RequestData): (data: seq<byte>)
    requires r.status < 256
    ensures |data| == 26 && data[0] == VERSION && data[1] == r.status
  {
    [VERSION, r.status] + U64Bytes(r.amount) + U64Bytes(r.leaseFee) + U64Bytes(r.expiry)
  }

  /** The fields at their offsets, as both sides read them. */
  function VaultFields(data: seq<byte>): VaultData
    requires |data| == 33
  {
    VaultData(ReadU64(data, 1).value, ReadU64(data, 9).value, ReadU64(data, 17).value, ReadU64(data, 25).value)
  }

  function RequestFields(data: seq<byte>): RequestData
    requires |data| == 26
  {
    RequestData(data[1], ReadU64(data, 2).value, ReadU64(data, 10).value, ReadU64(data, 18).value)
  }

  predicate FitsVault(v: VaultData) { IsU64(v.total) && IsU64(v.reserved) && IsU64(v.deployed) && IsU64(v.fees) }

  predicate FitsRequest(r: RequestData) { r.status < 256 && IsU64(r.amount) && IsU64(r.leaseFee) && IsU64(r.expiry) }

  lemma FieldReads(data: seq<byte>, offset: nat, n: nat)
    requires offset + 8 <= |data| && data[offset..offset + 8] == U64Bytes(n) && IsU64(n)
    ensures ReadU64(data, offset) == Some(n)
  {
    U64RoundTrip(n);
    hide U64Bytes;
  }

  /** A field between what stands before and after it. */
  lemma FieldBetween(before: seq<byte>, n: nat, after: seq<byte>)
    requires IsU64(n)
    ensures ReadU64(before + U64Bytes(n) + after, |before|) == Some(n)
  {
    hide U64Bytes, ReadU64;
    var data := before + U64Bytes(n) + after;
    assert data[|before|..|before| + 8] == U64Bytes(n);
    FieldReads(data, |before|, n);
  }

  lemma VaultTotal(v: VaultData)
    requires FitsVault(v)
    ensures ReadU64(EncodeVault(v), 1) == Some(v.total)
  {
    hide U64Bytes, ReadU64;
    var rest := U64Bytes(v.reserved) + U64Bytes(v.deployed) + U64Bytes(v.fees);
    FieldBetween([VERSION], v.total, rest);
    assert EncodeVault(v) == [VERSION] + U64Bytes(v.total) + rest;
  }

  lemma VaultReserved(v: VaultData)
    requires FitsVault(v)
    ensures ReadU64(EncodeVault(v), 9) == Some(v.reserved)
  {
    hide U64Bytes, ReadU64;
    var rest := U64Bytes(v.deployed) + U64Bytes(v.fees);
    FieldBetween([VERSION] + U64Bytes(v.total), v.reserved, rest);
    assert EncodeVault(v) == [VERSION] + U64Bytes(v.total) + U64Bytes(v.reserved) + rest;
  }

  lemma VaultDeployed(v: VaultData)
    requires FitsVault(v)
    ensures ReadU64(EncodeVault(v), 17) == Some(v.deployed)
  {
    hide U64Bytes, ReadU64;
    FieldBetween([VERSION] + U64Bytes(v.total) + U64Bytes(v.reserved), v.deployed, U64Bytes(v.fees));
  }

  lemma VaultFees(v: VaultData)
    requires FitsVault(v)
    ensures ReadU64(EncodeVault(v), 25) == Some(v.fees)
  {
    hide U64Bytes, ReadU64;
    var before := [VERSION] + U64Bytes(v.total) + U64Bytes(v.reserved) + U64Bytes(v.deployed);
    FieldBetween(before, v.fees, []);
    assert EncodeVault(v) == before + U64Bytes(v.fees) + [];
  }

  /** What the builder encodes the scripts read back. */
  lemma VaultRoundTrip(v: VaultData)
    requires FitsVault(v)
    ensures VaultFields(EncodeVault(v)) == v
  {
    hide U64Bytes, ReadU64, EncodeVault;
    VaultTotal(v);
    VaultReserved(v);
    VaultDeployed(v);
    VaultFees(v);
  }

  lemma RequestAmount(r: RequestData)
    requires FitsRequest(r)
    ensures ReadU64(EncodeRequest(r), 2) == Some(r.amount)
  {
    hide U64Bytes, ReadU64;
    var rest := U64Bytes(r.leaseFee) + U64Bytes(r.expiry);
    FieldBetween([VERSION, r.status], r.amount, rest);
    assert EncodeRequest(r) == [VERSION, r.status] + U64Bytes(r.amount) + rest;
  }

  lemma RequestFee(r: RequestData)
    requires FitsRequest(r)
    ensures ReadU64(EncodeRequest(r), 10) == Some(r.leaseFee)
  {
    hide U64Bytes, ReadU64;
    FieldBetween([VERSION, r.status] + U64Bytes(r.amount), r.leaseFee, U64Bytes(r.expiry));
  }

  lemma RequestExpiry(r: RequestData)
    requires FitsRequest(r)
    ensures ReadU64(EncodeRequest(r), 18) == Some(r.expiry)
  {
    hide U64Bytes, ReadU64;
    var before := [VERSION, r.status] + U64Bytes(r.amount) + U64Bytes(r.leaseFee);
    FieldBetween(before, r.expiry, []);
    assert EncodeRequest(r) == before + U64Bytes(r.expiry) + [];
  }

  lemma RequestRoundTrip(r: RequestData)
    requires FitsRequest(r)
    ensures RequestFields(EncodeRequest(r)) == r
  {
    hide U64Bytes, ReadU64, EncodeRequest;
    RequestAmount(r);
    RequestFee(r);
    RequestExpiry(r);
  }
}
