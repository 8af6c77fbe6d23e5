/** The tls-virt naming scheme: opted-in names, handle addresses, destinations. */
module Handles {
  import opened Basics

  /** An address byte as the number it stands for. */
  type Octet = b: int | 0 <= b < 256

  // ---------------------------------------------------------------- opt-in by name

  const SUFFIX := ".tls-virt.alt"

  /** The real name of an opted-in one, and nothing for any other. */
  function StripSuffix(name: string): (r: Option<string>)
    ensures forall host: string :: r == Some(host) <==> name == host + SUFFIX
  {
    var n := |name| - |SUFFIX|;
    if 0 <= n && name[n..] == SUFFIX then
      assert name == name[..n] + SUFFIX;
      assert forall host: string :: name == host + SUFFIX ==> host == name[..n];
      Some(name[..n])
    else
      assert forall host: string :: (host + SUFFIX)[|host|..] == SUFFIX;
      None
  }

  // ---------------------------------------------------------------- addresses

  type V6 = a: seq<Octet> | |a| == 16 witness seq(16, i => 0)

  type V4 = a: seq<Octet> | |a| == 4 witness seq(4, i => 0)

  datatype IpAddr = Ipv4(v4: V4) | Ipv6(v6: V6)

  type Port = p: nat | p < 0x1_0000

  datatype SocketAddr = SocketAddr(ip: IpAddr, port: Port)

  datatype Entry = Entry(hostname: string, addrs: seq<IpAddr>)

  function FirstIpv6(addrs: seq<IpAddr>): (k: nat)
    ensures k <= |addrs|
    ensures forall i :: 0 <= i < k ==> addrs[i].Ipv4?
    ensures k < |addrs| ==> addrs[k].Ipv6?
  {
    if addrs == [] || addrs[0].Ipv6? then 0 else 1 + FirstIpv6(addrs[1..])
  }

  /** The first IPv6 address, failing that the first address, failing that none. */
  function PickAddr(addrs: seq<IpAddr>, port: Port): (r: Option<SocketAddr>)
    ensures r == None <==> addrs == []
    ensures r.Some? ==> r.value.port == port && r.value.ip in addrs
    ensures forall i :: 0 <= i < |addrs| && addrs[i].Ipv6? && (forall j :: 0 <= j < i ==> addrs[j].Ipv4?) ==>
              r == Some(SocketAddr(addrs[i], port))
    ensures r.Some? && r.value.ip.Ipv4? ==> r.value.ip == addrs[0] && forall a :: a in addrs ==> a.Ipv4?
  {
    var k := FirstIpv6(addrs);
    if k < |addrs| then Some(SocketAddr(addrs[k], port))
    else if addrs != [] then Some(SocketAddr(addrs[0], port))
    else None
  }

  // ---------------------------------------------------------------- the handle table

  type Octets8 = s: seq<Octet> | |s| == 8 witness seq(8, i => 0)

  function FromBigEndian(bytes: seq<Octet>): nat {
    if bytes == [] then 0 else 256 * FromBigEndian(bytes[..|bytes| - 1]) + bytes[|bytes| - 1]
  }

  lemma {:induction false} BigEndianInjective(a: seq<Octet>, b: seq<Octet>)
    requires |a| == |b| && FromBigEndian(a) == FromBigEndian(b)
    ensures a == b
  {
    if a != [] {
      var k := |a| - 1;
      BigEndianInjective(a[..k], b[..k]);
      assert a == a[..k] + [a[k]] && b == b[..k] + [b[k]];
    }
  }

  function HandleAddress(prefix: Octets8, suffix: Octets8): V6 {
    prefix + suffix
  }

  function Lookup(prefix: Octets8, entries: map<nat, Entry>, addr: V6): Option<Entry> {
    if addr[..8] != prefix then None
    else
      var key := FromBigEndian(addr[8..]);
      if key in entries then Some(entries[key]) else None
  }

  /** One mint: the random suffix drawn and the destination stored under it. */
  datatype Mint = Mint(suffix: Octets8, entry: Entry)

  function EntriesAfter(mints: seq<Mint>): map<nat, Entry> {
    if mints == [] then map[]
    else
      var m := mints[|mints| - 1];
      EntriesAfter(mints[..|mints| - 1])[FromBigEndian(m.suffix) := m.entry]
  }

  /** The newest mint whose handle is this very address. */
  function NewestFor(prefix: Octets8, mints: seq<Mint>, addr: V6): Option<Entry> {
    if mints == [] then None
    else
      var m := mints[|mints| - 1];
      if HandleAddress(prefix, m.suffix) == addr then Some(m.entry)
      else NewestFor(prefix, mints[..|mints| - 1], addr)
  }

  /** After any mints, looking an address up finds the newest entry minted as exactly
      that address, and nothing for any address that was never minted. */
  lemma {:induction false} LookupIsNewest(prefix: Octets8, mints: seq<Mint>, addr: V6)
    ensures Lookup(prefix, EntriesAfter(mints), addr) == NewestFor(prefix, mints, addr)
  {
    if mints != [] {
      var m := mints[|mints| - 1];
      LookupIsNewest(prefix, mints[..|mints| - 1], addr);
      var handle := HandleAddress(prefix, m.suffix);
      assert handle[..8] == prefix && handle[8..] == m.suffix;
      assert addr == addr[..8] + addr[8..];
      if addr[..8] == prefix && FromBigEndian(addr[8..]) == FromBigEndian(m.suffix) {
        BigEndianInjective(addr[8..], m.suffix);
      }
    }
  }

  /** A mint changes what its own handle means and nothing else. */
  lemma MintLeaves(prefix: Octets8, entries: map<nat, Entry>, suffix: Octets8, entry: Entry, addr: V6)
    requires addr != HandleAddress(prefix, suffix)
    ensures Lookup(prefix, entries[FromBigEndian(suffix) := entry], addr) == Lookup(prefix, entries, addr)
  {
    assert addr == addr[..8] + addr[8..];
    if addr[..8] == prefix && FromBigEndian(addr[8..]) == FromBigEndian(suffix) {
      BigEndianInjective(addr[8..], suffix);
    }
  }

  /** Tables under different prefixes never recognise each other's handles. */
  lemma ForeignHandle(mine: Octets8, theirs: Octets8, mints: seq<Mint>, suffix: Octets8)
    requires mine != theirs
    ensures Lookup(mine, EntriesAfter(mints), HandleAddress(theirs, suffix)) == None
  {
    assert HandleAddress(theirs, suffix)[..8] == theirs;
  }

  class HandleTable {
    const prefix: Octets8
    var entries: map<nat, Entry>
    ghost var mints: seq<Mint>

    /** The prefix lies in fd00::/8 (section 3.1 of RFC 4193). */
    ghost predicate Valid()
      reads this
    {
      prefix[0] == 0xfd && entries == EntriesAfter(mints)
    }

    constructor (random: Octets8)
      ensures Valid() && mints == [] && prefix[1..] == random[1..]
    {
      prefix := [0xfd] + random[1..];
      entries := map[];
      mints := [];
    }

    method MintHandle(entry: Entry, suffix: Octets8) returns (handle: V6)
      requires Valid()
      modifies this
      ensures Valid() && mints == old(mints) + [Mint(suffix, entry)]
      ensures handle == HandleAddress(prefix, suffix) && handle[0] == 0xfd
      ensures Lookup(prefix, entries, handle) == Some(entry)
      ensures forall addr: V6 :: addr != handle ==> Lookup(prefix, entries, addr) == Lookup(prefix, old(entries), addr)
    {
      entries := entries[FromBigEndian(suffix) := entry];
      mints := mints + [Mint(suffix, entry)];
      assert mints[..|mints| - 1] == old(mints);
      handle := prefix + suffix;
      assert handle[..8] == prefix && handle[8..] == suffix;
      forall addr: V6 | addr != handle
        ensures Lookup(prefix, entries, addr) == Lookup(prefix, old(entries), addr)
      {
        MintLeaves(prefix, old(entries), suffix, entry, addr);
      }
    }

    method LookupHandle(addr: V6) returns (r: Option<Entry>)
      requires Valid()
      ensures r == NewestFor(prefix, mints, addr)
    {
      LookupIsNewest(prefix, mints, addr);
      if addr[..8] != prefix {
        return None;
      }
      var key := FromBigEndian(addr[8..]);
      if key in entries {
        r := Some(entries[key]);
      } else {
        r := None;
      }
    }
  }
}
