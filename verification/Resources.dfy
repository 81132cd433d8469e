/** The user_resources table, shared by staking, REX loans, powerup and the RAM market. */
module Resources {
  import opened Tables

  /** An account name, as its 64-bit code. */
  type Name = nat

  const B1: Name := 0x3840_0000_0000_0000

  datatype Row = Row(net: int, cpu: int, ram: int) {
    predicate IsEmpty() {
      net == 0 && cpu == 0 && ram == 0
    }
  }

  type ResourceTable = map<Name, Row>

  function NetOf(res: ResourceTable, account: Name): int {
    if account in res then res[account].net else 0
  }

  function CpuOf(res: ResourceTable, account: Name): int {
    if account in res then res[account].cpu else 0
  }

  function RamOf(res: ResourceTable, account: Name): int {
    if account in res then res[account].ram else 0
  }

  /** Resources that others than the subsystem at hand have granted to each account. */
  datatype Claims = Claims(net: Name -> int, cpu: Name -> int, ram: Name -> int)

  ghost predicate NonNegativeClaims(o: Claims) {
    forall a: Name :: 0 <= o.net(a) && 0 <= o.cpu(a)
  }

  /** Nothing but the claims is granted. */
  ghost predicate Granted(res: ResourceTable, o: Claims) {
    && NonNegativeClaims(o)
    && forall a: Name :: NetOf(res, a) == o.net(a) && CpuOf(res, a) == o.cpu(a) && RamOf(res, a) == o.ram(a)
  }

  /** Moves an account's NET and CPU; an emptied row is erased, and neither may go below zero. */
  function Adjust(res: ResourceTable, account: Name, net: int, cpu: int): Option<ResourceTable> {
    if net == 0 && cpu == 0 then Some(res) else
    var row := Row(NetOf(res, account) + net, CpuOf(res, account) + cpu, RamOf(res, account));
    if row.net < 0 || row.cpu < 0 then None
    else Some(if row.IsEmpty() then res - {account} else res[account := row])
  }

  /** What Adjust does to every account, and exactly when it aborts. */
  lemma AdjustMeaning(res: ResourceTable, account: Name, net: int, cpu: int)
    ensures Adjust(res, account, net, cpu).None? <==>
            (net != 0 || cpu != 0) && (NetOf(res, account) + net < 0 || CpuOf(res, account) + cpu < 0)
    ensures var r := Adjust(res, account, net, cpu); r.Some? ==> forall a: Name ::
              && NetOf(r.value, a) == NetOf(res, a) + (if a == account then net else 0)
              && CpuOf(r.value, a) == CpuOf(res, a) + (if a == account then cpu else 0)
              && RamOf(r.value, a) == RamOf(res, a)
  {
  }
}
