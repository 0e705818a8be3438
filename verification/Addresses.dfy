/** IP addresses as numbers, and networks in prefix notation. */
module Addresses {
  type Address = nat

  /** `width` is the number of address bits: 32 for IPv4, 128 for IPv6. */
  datatype Net = Net(addr: Address, prefix: nat, width: nat)

  function Pow2(n: nat): (r: nat)
    ensures r >= 1
  {
    if n == 0 then 1 else 2 * Pow2(n - 1)
  }

  /** The two addresses agree on the network's leading bits. */
  predicate Inside(net: Net, a: Address) {
    net.prefix <= net.width && a / Pow2(net.width - net.prefix) == net.addr / Pow2(net.width - net.prefix)
  }

  function IPv4(a: nat, b: nat, c: nat, d: nat): Address {
    a * 0x100_0000 + b * 0x1_0000 + c * 0x100 + d
  }
}
