/** The bridge address and the DHCP pool carved out of the realm network. */
module AddressPool {
  import opened Addresses

  /** A network as its type admits it: IPv4 or IPv6, any host bits. */
  predicate IsNet(net: Net) {
    (net.width == 32 || net.width == 128) && net.prefix <= net.width && net.addr < Pow2(net.width)
  }

  function SaturatingAdd(a: Address, offset: nat, width: nat): Address {
    if a + offset < Pow2(width) then a + offset else Pow2(width) - 1
  }

  /** The network `offset` addresses further on. */
  function NextAddr(net: Net, offset: nat): Net {
    net.(addr := SaturatingAdd(net.addr, offset, net.width))
  }

  function BridgeAddr(net: Net): Net {
    NextAddr(net, 1)
  }

  /** First and last address handed out. */
  function Range(bridge: Net, clients: nat): (Address, Address) {
    (NextAddr(bridge, 1).addr, NextAddr(bridge, clients).addr)
  }

  function HostBits(net: Net): nat
    requires net.prefix <= net.width
  {
    net.width - net.prefix
  }

  function HostPart(net: Net): nat
    requires net.prefix <= net.width
  {
    net.addr % Pow2(HostBits(net))
  }

  function Lowest(net: Net): int
    requires net.prefix <= net.width
  {
    net.addr - HostPart(net)
  }

  function Highest(net: Net): int
    requires net.prefix <= net.width
  {
    Lowest(net) + Pow2(HostBits(net)) - 1
  }

  /** As many addresses as clients, all in the network, none of them taken or reserved. */
  ghost predicate GoodPool(net: Net, clients: nat)
    requires net.prefix <= net.width
  {
    var (first, last) := Range(BridgeAddr(net), clients);
    && first <= last && last - first + 1 == clients
    && forall a | first <= a <= last :: Inside(net, a) && a != Lowest(net) && a != BridgeAddr(net).addr && a != Highest(net)
  }

  lemma {:induction false} Pow2Split(a: nat, b: nat)
    ensures Pow2(a + b) == Pow2(a) * Pow2(b)
  {
    if a > 0 { Pow2Split(a - 1, b); }
  }

  lemma {:induction false} Pow2Grows(a: nat, b: nat)
    requires a <= b
    ensures Pow2(a) <= Pow2(b)
    decreases b
  {
    if a < b { Pow2Grows(a, b - 1); }
  }

  lemma SameBlock(m: nat, a: nat, b: nat)
    requires m > 0
    ensures a / m == b / m <==> b - b % m <= a < b - b % m + m
  {
    var qa, qb := a / m, b / m;
    assert a == qa * m + a % m && b == qb * m + b % m;
    if qa < qb {
      assert (qa + 1) * m <= qb * m;
    } else if qa > qb {
      assert (qb + 1) * m <= qa * m;
    }
  }

  /** A network is the run of addresses from its lowest to its highest. */
  lemma InsideIsRange(net: Net, a: Address)
    requires net.prefix <= net.width
    ensures Inside(net, a) <==> Lowest(net) <= a <= Highest(net)
  {
    SameBlock(Pow2(HostBits(net)), a, net.addr);
  }

  lemma BlockFits(m: nat, q: nat, a: nat)
    requires m > 0 && a < m * q
    ensures a - a % m + m <= m * q
  {
    assert a == (a / m) * m + a % m;
    assert a / m < q;
    assert (a / m + 1) * m <= q * m;
  }

  lemma NetworkFits(net: Net)
    requires IsNet(net)
    ensures Highest(net) < Pow2(net.width)
  {
    Pow2Split(HostBits(net), net.prefix);
    BlockFits(Pow2(HostBits(net)), Pow2(net.prefix), net.addr);
  }

  lemma NoSaturation(net: Net, clients: nat)
    requires clients > 0 && net.addr + 1 + clients < Pow2(net.width)
    ensures BridgeAddr(net).addr == net.addr + 1
    ensures Range(BridgeAddr(net), clients) == (net.addr + 2, net.addr + 1 + clients)
  {}

  lemma RoomMakesGoodPool(net: Net, clients: nat)
    requires net.prefix <= net.width && clients > 0
    requires Lowest(net) <= net.addr && net.addr + 1 + clients < Highest(net) < Pow2(net.width)
    ensures GoodPool(net, clients)
  {
    NoSaturation(net, clients);
    forall a: Address | net.addr + 2 <= a <= net.addr + 1 + clients ensures Inside(net, a) { InsideIsRange(net, a); }
  }

  /** The pool is good exactly when the network has room for it above the configured address. */
  lemma GoodPoolIff(net: Net, clients: nat)
    requires IsNet(net) && clients > 0
    ensures GoodPool(net, clients) <==> HostPart(net) + 1 + clients < Pow2(HostBits(net)) - 1
  {
    if HostPart(net) + 1 + clients < Pow2(HostBits(net)) - 1 {
      NetworkFits(net);
      RoomMakesGoodPool(net, clients);
    } else if GoodPool(net, clients) {
      NetworkFits(net);
      var last := Range(BridgeAddr(net), clients).1;
      InsideIsRange(net, last);
      assert false;
    }
  }

  /** Where the pool is good no addition saturated. */
  lemma NothingSaturates(net: Net, clients: nat)
    requires IsNet(net) && clients > 0 && GoodPool(net, clients)
    ensures BridgeAddr(net).addr == net.addr + 1
    ensures Range(BridgeAddr(net), clients) == (net.addr + 2, net.addr + 1 + clients)
  {
    GoodPoolIff(net, clients);
    NetworkFits(net);
    NoSaturation(net, clients);
  }

  /** The permitted client counts fit every network address with at least eight host bits, all zero. */
  lemma PermittedClientsFit(net: Net, clients: nat)
    requires IsNet(net) && HostPart(net) == 0 && net.prefix <= net.width - 8 && 2 <= clients <= 252
    ensures GoodPool(net, clients)
  {
    Pow2Grows(8, HostBits(net));
    assert Pow2(8) == 256;
    GoodPoolIff(net, clients);
  }

  /** A longer prefix is accepted as well, and then the pool can leave the network. */
  lemma LongPrefixOverflows()
    ensures var net := Net(IPv4(192, 168, 100, 0), 25, 32); IsNet(net) && HostPart(net) == 0 && !GoodPool(net, 200)
  {
    var net := Net(IPv4(192, 168, 100, 0), 25, 32);
    assert Pow2(7) == 128;
    assert Pow2(32) == 0x1_0000_0000 by { Pow2Split(16, 16); Pow2Split(8, 8); assert Pow2(8) == 256; }
    GoodPoolIff(net, 200);
  }
}
