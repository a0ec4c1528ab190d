/**
 Wake-on-LAN networks: the server works on the four octets of an address and a mask, the dashboard on one
 32-bit word. Both are measured against the plain reading of a CIDR block as a range of addresses.
 */
module WakeOnLan {
  import opened Basics

  type Prefix = p: bv32 | p <= 32

  type Octets = o: seq<bv8> | |o| == 4 witness [0, 0, 0, 0]

  /** A CIDR as written: the address need not be the network address. */
  datatype Cidr = Cidr(address: bv32, prefix: Prefix)

  /** subnet is None when the text is not an IPv4 CIDR. */
  datatype Profile = Profile(name: string, subnet: Option<Cidr>)

  datatype IPNet = IPNet(ip: Octets, mask: Octets)

  datatype Address = Unparsable | V4(word: bv32) | V6

  // ---------------------------------------------------------------- words and octets

  function Word(o: Octets): bv32 {
    ((o[0] as bv32) << 24) | ((o[1] as bv32) << 16) | ((o[2] as bv32) << 8) | (o[3] as bv32)
  }

  function ToOctets(w: bv32): Octets {
    [((w >> 24) & 255) as bv8, ((w >> 16) & 255) as bv8, ((w >> 8) & 255) as bv8, (w & 255) as bv8]
  }

  /** The dashboard's conversions undo each other. */
  lemma WordRoundTrip(w: bv32, o: Octets)
    ensures Word(ToOctets(w)) == w
    ensures ToOctets(Word(o)) == o
  {
    OctetsOf(o[0], o[1], o[2], o[3]);
    assert o == [o[0], o[1], o[2], o[3]];
  }

  lemma OctetsOf(a: bv8, b: bv8, c: bv8, d: bv8)
    ensures ToOctets(Word([a, b, c, d])) == [a, b, c, d]
  {
    hide Word;
    var w := Word([a, b, c, d]);
    FirstOctets(a, b, c, d);
    LastOctets(a, b, c, d);
    assert ToOctets(w) == [((w >> 24) & 255) as bv8, ((w >> 16) & 255) as bv8,
                           ((w >> 8) & 255) as bv8, (w & 255) as bv8];
  }

  lemma FirstOctets(a: bv8, b: bv8, c: bv8, d: bv8)
    ensures ((Word([a, b, c, d]) >> 24) & 255) as bv8 == a
    ensures ((Word([a, b, c, d]) >> 16) & 255) as bv8 == b
  {
  }

  lemma LastOctets(a: bv8, b: bv8, c: bv8, d: bv8)
    ensures ((Word([a, b, c, d]) >> 8) & 255) as bv8 == c
    ensures (Word([a, b, c, d]) & 255) as bv8 == d
  {
  }

  /** The dashboard's mask. */
  function Mask(p: Prefix): bv32 {
    if p == 0 then 0 else (0xFFFF_FFFF as bv32) << (32 - p)
  }

  /** Octet i of the server's mask: p leading ones, dealt out eight at a time. */
  function MaskOctet(p: Prefix, i: bv32): bv8
    requires i < 4
  {
    if p >= 8 * i + 8 then 0xff
    else if p <= 8 * i then 0
    else !((0xff as bv8) >> ((p - 8 * i) as bv8))
  }

  function MaskOctets(p: Prefix): Octets {
    [MaskOctet(p, 0), MaskOctet(p, 1), MaskOctet(p, 2), MaskOctet(p, 3)]
  }

  lemma MasksAgree(p: Prefix)
    ensures Word(MaskOctets(p)) == Mask(p)
  {
  }

  function And(a: Octets, b: Octets): Octets {
    [a[0] & b[0], a[1] & b[1], a[2] & b[2], a[3] & b[3]]
  }

  lemma AndWord(a: Octets, b: Octets)
    ensures Word(And(a, b)) == Word(a) & Word(b)
  {
  }

  lemma OrNotWord(a: Octets, m: Octets, b: Octets)
    requires forall k :: 0 <= k < 4 ==> b[k] == a[k] | !m[k]
    ensures Word(b) == Word(a) | !Word(m)
  {
  }

  lemma WordInjective(a: Octets, b: Octets)
    ensures a == b <==> Word(a) == Word(b)
  {
    hide Word, ToOctets;
    WordRoundTrip(0, a);
    WordRoundTrip(0, b);
  }

  // ---------------------------------------------------------------- blocks as ranges

  /** An address with its host bits cleared, and with its host bits set. */
  function Masked(x: bv32, p: Prefix): bv32 { x & Mask(p) }
  function Filled(x: bv32, p: Prefix): bv32 { x | !Mask(p) }

  function Network(c: Cidr): bv32 { Masked(c.address, c.prefix) }

  /** The dashboard's broadcast address. */
  function Broadcast(c: Cidr): bv32 { Filled(Network(c), c.prefix) }

  /** The dashboard's aligned flag. */
  predicate Aligned(c: Cidr) { Network(c) == c.address }

  /** Unsigned order on addresses. */
  predicate Below(a: bv32, b: bv32) { a <= b }

  // Order is carried over one bit at a time: a goal about all 32 bits at once is out of a solver's reach.

  function Halved(a: bv32): bv32 { a >> 1 }
  function Doubled(a: bv32): bv32 { a << 1 }

  /** The host bits of a block. */
  function Hosts(p: Prefix): bv32 { !Mask(p) }

  predicate TopBitClear(a: bv32) { a < 0x8000_0000 }

  lemma HalvedBelow(a: bv32, b: bv32)
    requires Below(a, b)
    ensures Below(Halved(a), Halved(b)) && TopBitClear(Halved(b))
  {
  }

  lemma DoubledBelow(a: bv32, b: bv32)
    requires Below(a, b) && TopBitClear(b)
    ensures Below(Doubled(a), Doubled(b))
  {
  }

  lemma LowBit(a: bv32, b: bv32)
    requires Below(a, b) && Below(b, a) && Halved(a) == Halved(b)
    ensures a == b
  {
  }

  lemma HalvedHosts(p: Prefix)
    requires p < 32
    ensures Halved(Hosts(p)) == Hosts(p + 1)
  {
  }

  lemma NoHosts(a: bv32)
    requires Below(a, Hosts(32))
    ensures a == 0
  {
  }

  lemma AllHosts(a: bv32)
    ensures Below(a, Hosts(0))
  {
  }

  lemma {:induction false} AntisymmetricBits(a: bv32, b: bv32, p: Prefix)
    requires Below(a, b) && Below(b, a) && Below(a, Hosts(p)) && Below(b, Hosts(p))
    ensures a == b
    decreases 32 - p
  {
    hide Below, Halved, Hosts, TopBitClear;
    if p == 32 {
      NoHosts(a);
      NoHosts(b);
    } else {
      HalvedBelow(a, b);
      HalvedBelow(b, a);
      HalvedBelow(a, Hosts(p));
      HalvedBelow(b, Hosts(p));
      HalvedHosts(p);
      AntisymmetricBits(Halved(a), Halved(b), p + 1);
      LowBit(a, b);
    }
  }

  lemma BelowAntisymmetric(a: bv32, b: bv32)
    requires Below(a, b) && Below(b, a)
    ensures a == b
  {
    hide Below, Hosts;
    AllHosts(a);
    AllHosts(b);
    AntisymmetricBits(a, b, 0);
  }

  predicate InRange(c: Cidr, x: bv32) { Below(Network(c), x) && Below(x, Broadcast(c)) }

  ghost predicate Disjoint(c: Cidr, d: Cidr) {
    forall x :: !(InRange(c, x) && InRange(d, x))
  }

  lemma MaskedAll(x: bv32)
    ensures Masked(x, 32) == x
  {
  }

  lemma MaskedByHalf(x: bv32, p: Prefix)
    requires p < 32
    ensures Masked(x, p) == Doubled(Masked(Halved(x), p + 1))
  {
  }

  lemma MaskedTopBit(x: bv32, p: Prefix)
    requires TopBitClear(x)
    ensures TopBitClear(Masked(x, p))
  {
    hide Mask;
  }

  /** Clearing host bits keeps the order of addresses. */
  lemma {:induction false} MaskMonotone(a: bv32, x: bv32, p: Prefix)
    requires Below(a, x)
    ensures Below(Masked(a, p), Masked(x, p))
    decreases 32 - p
  {
    hide Mask, Masked, Below, Halved, Doubled, TopBitClear;
    if p == 32 {
      MaskedAll(a);
      MaskedAll(x);
    } else {
      HalvedBelow(a, x);
      MaskMonotone(Halved(a), Halved(x), p + 1);
      MaskedTopBit(Halved(x), p + 1);
      DoubledBelow(Masked(Halved(a), p + 1), Masked(Halved(x), p + 1));
      MaskedByHalf(a, p);
      MaskedByHalf(x, p);
    }
  }

  lemma MaskedTwice(x: bv32, p: Prefix)
    ensures Masked(Masked(x, p), p) == Masked(x, p)
    ensures Masked(Filled(Masked(x, p), p), p) == Masked(x, p)
  {
    hide Mask;
    var m := Mask(p);
    assert (x & m) & m == x & m;
    assert ((x & m) | !m) & m == x & m;
  }

  lemma MaskedBounds(x: bv32, p: Prefix)
    ensures Below(Masked(x, p), x) && Below(x, Filled(Masked(x, p), p))
  {
    hide Mask;
    BitsBelow(x, Mask(p));
  }

  lemma BitsBelow(x: bv32, m: bv32)
    ensures x & m <= x <= (x & m) | !m
  {
    assert (x & m) | !m == x | !m;
  }

  lemma MasksNest(p: Prefix, q: Prefix, x: bv32)
    requires p <= q
    ensures Masked(Masked(x, q), p) == Masked(x, p)
  {
  }

  /** The addresses that share a block's leading bits are exactly a range. */
  lemma PrefixIsRange(c: Cidr, x: bv32)
    ensures Masked(x, c.prefix) == Network(c) <==> InRange(c, x)
  {
    hide Mask, Masked, Filled, Below;
    MaskedBounds(x, c.prefix);
    MaskedTwice(c.address, c.prefix);
    if InRange(c, x) {
      MaskMonotone(Network(c), x, c.prefix);
      MaskMonotone(x, Broadcast(c), c.prefix);
      BelowAntisymmetric(Masked(x, c.prefix), Network(c));
    }
  }

  /** The broadcast address is the greatest address of its block, the network address the least. */
  lemma BroadcastIsGreatest(c: Cidr)
    ensures InRange(c, Broadcast(c)) && Masked(Broadcast(c), c.prefix) == Network(c)
    ensures InRange(c, Network(c))
    ensures forall x :: Masked(x, c.prefix) == Network(c) ==> Below(x, Broadcast(c))
  {
    hide Mask, Masked, Filled, Below;
    MaskedTwice(c.address, c.prefix);
    PrefixIsRange(c, Broadcast(c));
    PrefixIsRange(c, Network(c));
    forall x | Masked(x, c.prefix) == Network(c)
      ensures InRange(c, x)
    {
      PrefixIsRange(c, x);
    }
  }

  /** Two blocks meet exactly when one of them holds the other's network address. */
  lemma MeetIff(c: Cidr, d: Cidr)
    ensures !Disjoint(c, d) <==> InRange(c, Network(d)) || InRange(d, Network(c))
  {
    hide Mask, Masked, Filled, InRange, Network;
    BroadcastIsGreatest(c);
    BroadcastIsGreatest(d);
    if x :| InRange(c, x) && InRange(d, x) {
      PrefixIsRange(c, x);
      PrefixIsRange(d, x);
      if c.prefix <= d.prefix {
        MasksNest(c.prefix, d.prefix, x);
        PrefixIsRange(c, Network(d));
      } else {
        MasksNest(d.prefix, c.prefix, x);
        PrefixIsRange(d, Network(c));
      }
    }
  }

  // ---------------------------------------------------------------- the server's octets

  lemma MaskedOctets(ip: Octets, p: Prefix)
    ensures Word(And(ip, MaskOctets(p))) == Masked(Word(ip), p)
  {
    hide Word, MaskOctets, And, Mask;
    AndWord(ip, MaskOctets(p));
    MasksAgree(p);
  }

  /** parseWoLSubnet. */
  function ParseSubnet(subnet: Option<Cidr>): Option<IPNet> {
    if subnet.None? then None
    else
      var ip := ToOctets(subnet.value.address);
      var mask := MaskOctets(subnet.value.prefix);
      if ip == And(ip, mask) then Some(IPNet(And(ip, mask), mask)) else None
  }

  /** net.IPNet.Contains on two IPv4 values. */
  predicate Contains(n: IPNet, ip: Octets) {
    And(n.ip, n.mask) == And(ip, n.mask)
  }

  predicate Usable(subnet: Option<Cidr>) {
    subnet.Some? && Aligned(subnet.value)
  }

  /** A subnet is accepted exactly when it is written with its network address, and is then that block. */
  lemma ParseSubnetMeans(subnet: Option<Cidr>)
    ensures ParseSubnet(subnet).Some? <==> Usable(subnet)
    ensures Usable(subnet) ==>
              && ParseSubnet(subnet).value == IPNet(ToOctets(Network(subnet.value)), MaskOctets(subnet.value.prefix))
              && Word(ParseSubnet(subnet).value.ip) == Network(subnet.value)
  {
    hide Word, ToOctets, MaskOctets, And, Masked;
    if subnet.Some? {
      var c := subnet.value;
      var ip := ToOctets(c.address);
      WordRoundTrip(c.address, ip);
      MaskedOctets(ip, c.prefix);
      WordInjective(ip, And(ip, MaskOctets(c.prefix)));
    }
  }

  /** Octet-wise containment is membership of the range. */
  lemma ContainsMeans(subnet: Option<Cidr>, ip: Octets)
    requires Usable(subnet)
    ensures ParseSubnet(subnet).Some?
    ensures Contains(ParseSubnet(subnet).value, ip) <==> InRange(subnet.value, Word(ip))
  {
    hide Word, ToOctets, MaskOctets, And, Masked, InRange, ParseSubnet;
    ParseSubnetMeans(subnet);
    var c := subnet.value;
    var n := ParseSubnet(subnet).value;
    MaskedOctets(n.ip, c.prefix);
    MaskedOctets(ip, c.prefix);
    WordInjective(And(n.ip, n.mask), And(ip, n.mask));
    PrefixIsRange(c, Word(ip));
    MaskedTwice(c.address, c.prefix);
  }

  /** cidrBroadcast. */
  method CidrBroadcast(n: IPNet) returns (b: Octets)
    ensures Word(b) == Word(n.ip) | !Word(n.mask)
  {
    hide Word;
    var out := new bv8[4](_ => 0);
    for i := 0 to 4
      invariant forall k :: 0 <= k < i ==> out[k] == n.ip[k] | !n.mask[k]
    {
      out[i] := n.ip[i] | !n.mask[i];
    }
    b := out[..];
    OrNotWord(n.ip, n.mask, b);
  }

  // ---------------------------------------------------------------- validation

  lemma MaskInjective(p: Prefix, q: Prefix)
    requires Mask(p) == Mask(q)
    ensures p == q
  {
  }

  function MaskBetween(network: bv32, broadcast: bv32): bv32 { !(broadcast & !network) }

  /** A block's two ends give its mask back. */
  lemma EndsGiveMask(c: Cidr)
    ensures MaskBetween(Network(c), Broadcast(c)) == Mask(c.prefix)
  {
    hide Mask;
    var m := Mask(c.prefix);
    var n := c.address & m;
    assert !((n | !m) & !n) == m;
  }

  /** Two blocks are the same range exactly when their octets agree: the server's comparison of texts. */
  lemma SameRangeIff(c: Cidr, d: Cidr)
    ensures (forall x :: InRange(c, x) <==> InRange(d, x)) <==> Network(c) == Network(d) && c.prefix == d.prefix
    ensures Network(c) == Network(d) && c.prefix == d.prefix
            <==> ToOctets(Network(c)) == ToOctets(Network(d)) && MaskOctets(c.prefix) == MaskOctets(d.prefix)
  {
    hide Mask, Masked, Filled, Below, Word, ToOctets, MaskOctets;
    BroadcastIsGreatest(c);
    BroadcastIsGreatest(d);
    if forall x :: InRange(c, x) <==> InRange(d, x) {
      BelowAntisymmetric(Network(c), Network(d));
      BelowAntisymmetric(Broadcast(c), Broadcast(d));
      SameEnds(c, d);
    }
    WordRoundTrip(Network(c), [0, 0, 0, 0]);
    WordRoundTrip(Network(d), [0, 0, 0, 0]);
    MasksAgree(c.prefix);
    MasksAgree(d.prefix);
    if MaskOctets(c.prefix) == MaskOctets(d.prefix) {
      MaskInjective(c.prefix, d.prefix);
    }
  }

  lemma SameEnds(c: Cidr, d: Cidr)
    requires Network(c) == Network(d) && Broadcast(c) == Broadcast(d)
    ensures c.prefix == d.prefix
  {
    hide Mask, Masked, Filled, MaskBetween;
    EndsGiveMask(c);
    EndsGiveMask(d);
    MaskInjective(c.prefix, d.prefix);
  }

  datatype Verdict =
    | Accepted
    | MissingName(i: nat)
    | BadSubnet(i: nat)
    | Duplicate(i: nat, j: nat)
    | Overlapping(i: nat, j: nat)

  predicate WellNamed(p: Profile) { p.name != "" && Usable(p.subnet) }

  ghost predicate Apart(p: Profile, q: Profile) {
    p.subnet.Some? && q.subnet.Some? && Disjoint(p.subnet.value, q.subnet.value)
  }

  /** What validation is for: named, aligned profiles whose address ranges do not meet. */
  ghost predicate Sound(profiles: seq<Profile>) {
    && (forall i :: 0 <= i < |profiles| ==> WellNamed(profiles[i]))
    && (forall i, j :: 0 <= i < j < |profiles| ==> Apart(profiles[i], profiles[j]))
  }

  ghost predicate SameRange(p: Profile, q: Profile) {
    p.subnet.Some? && q.subnet.Some? && forall x :: InRange(p.subnet.value, x) <==> InRange(q.subnet.value, x)
  }

  /** One step of the pair loop decides whether two profiles meet, and whether they are one range. */
  lemma PairTest(p: Profile, q: Profile)
    requires Usable(p.subnet) && Usable(q.subnet)
    ensures ParseSubnet(p.subnet).Some? && ParseSubnet(q.subnet).Some?
    ensures var m, n := ParseSubnet(p.subnet).value, ParseSubnet(q.subnet).value;
      && (m == n <==> SameRange(p, q))
      && (m == n || Contains(m, n.ip) || Contains(n, m.ip) <==> !Apart(p, q))
  {
    hide Mask, Masked, Filled, Below, Word, ToOctets, MaskOctets, And, ParseSubnet, Contains, InRange, Network;
    var c, d := p.subnet.value, q.subnet.value;
    ParseSubnetMeans(p.subnet);
    ParseSubnetMeans(q.subnet);
    SameRangeIff(c, d);
    MeetIff(c, d);
    ContainsMeans(p.subnet, ParseSubnet(q.subnet).value.ip);
    ContainsMeans(q.subnet, ParseSubnet(p.subnet).value.ip);
    BroadcastIsGreatest(c);
  }

  /** validateWoLNetworks. */
  method ValidateNetworks(profiles: seq<Profile>) returns (v: Verdict)
    ensures v.Accepted? <==> Sound(profiles)
    ensures v.MissingName? ==> v.i < |profiles| && profiles[v.i].name == ""
    ensures v.BadSubnet? ==> v.i < |profiles| && !Usable(profiles[v.i].subnet)
    ensures v.Duplicate? ==> v.i < v.j < |profiles| && SameRange(profiles[v.i], profiles[v.j])
    ensures v.Overlapping? ==> v.i < v.j < |profiles| && !SameRange(profiles[v.i], profiles[v.j])
                               && !Apart(profiles[v.i], profiles[v.j])
  {
    hide ParseSubnet, Usable, Contains, Apart, SameRange;
    var nets: seq<IPNet> := [];
    for i := 0 to |profiles|
      invariant |nets| == i
      invariant forall k :: 0 <= k < i ==> WellNamed(profiles[k]) && ParseSubnet(profiles[k].subnet) == Some(nets[k])
    {
      if profiles[i].name == "" {
        return MissingName(i);
      }
      var net := ParseSubnet(profiles[i].subnet);
      ParseSubnetMeans(profiles[i].subnet);
      if net.None? {
        return BadSubnet(i);
      }
      nets := nets + [net.value];
    }
    for i := 0 to |nets|
      invariant forall a, b :: 0 <= a < i && a < b < |nets| ==> Apart(profiles[a], profiles[b])
    {
      for j := i + 1 to |nets|
        invariant forall b :: i < b < j ==> Apart(profiles[i], profiles[b])
      {
        PairTest(profiles[i], profiles[j]);
        if nets[i] == nets[j] {
          return Duplicate(i, j);
        }
        if Contains(nets[i], nets[j].ip) || Contains(nets[j], nets[i].ip) {
          return Overlapping(i, j);
        }
      }
    }
    v := Accepted;
  }

  // ---------------------------------------------------------------- lookup

  datatype Lookup = Found(net: IPNet) | NoAddress | NoMatch

  predicate Holds(p: Profile, ip: bv32) {
    Usable(p.subnet) && InRange(p.subnet.value, ip)
  }

  function NetOf(p: Profile): IPNet
    requires Usable(p.subnet)
  {
    IPNet(ToOctets(Network(p.subnet.value)), MaskOctets(p.subnet.value.prefix))
  }

  function LookupIn(ip: Address, profiles: seq<Profile>): Lookup {
    if ip.Unparsable? then NoAddress
    else if ip.V6? || profiles == [] then NoMatch
    else if Holds(profiles[0], ip.word) then Found(NetOf(profiles[0]))
    else LookupIn(ip, profiles[1..])
  }

  /** findWoLNetwork; profiles that do not parse are skipped. */
  method FindNetwork(ip: Address, profiles: seq<Profile>) returns (r: Lookup)
    ensures r == LookupIn(ip, profiles)
  {
    hide ParseSubnet, Usable, Contains, InRange, NetOf, Word, ToOctets;
    if ip.Unparsable? {
      return NoAddress;
    }
    for i := 0 to |profiles|
      invariant LookupIn(ip, profiles) == LookupIn(ip, profiles[i..])
    {
      var net := ParseSubnet(profiles[i].subnet);
      ParseSubnetMeans(profiles[i].subnet);
      if net.Some? && ip.V4? {
        ContainsMeans(profiles[i].subnet, ToOctets(ip.word));
        WordRoundTrip(ip.word, [0, 0, 0, 0]);
        if Contains(net.value, ToOctets(ip.word)) {
          NetOfParsed(profiles[i]);
          return Found(net.value);
        }
      }
      assert profiles[i..][1..] == profiles[i + 1..];
    }
    r := NoMatch;
  }

  lemma NetOfParsed(p: Profile)
    requires Usable(p.subnet)
    ensures ParseSubnet(p.subnet) == Some(NetOf(p))
  {
    hide ParseSubnet, Network, ToOctets, MaskOctets;
    ParseSubnetMeans(p.subnet);
  }

  /** A lookup answers with some profile that holds the address, and fails only when none does. */
  lemma {:induction false} LookupMeans(ip: bv32, profiles: seq<Profile>)
    ensures LookupIn(V4(ip), profiles).NoMatch? <==> forall p :: p in profiles ==> !Holds(p, ip)
    ensures LookupIn(V4(ip), profiles).Found? ==>
              exists p :: p in profiles && Holds(p, ip) && LookupIn(V4(ip), profiles) == Found(NetOf(p))
    ensures !LookupIn(V4(ip), profiles).NoAddress?
  {
    hide Usable, InRange, NetOf;
    if profiles != [] {
      assert profiles[0] in profiles;
      LookupMeans(ip, profiles[1..]);
      assert forall p :: p in profiles <==> p == profiles[0] || p in profiles[1..];
    }
  }

  /** In a validated list at most one profile holds any address. */
  lemma AtMostOneHolds(profiles: seq<Profile>, i: nat, j: nat, ip: bv32)
    requires Sound(profiles) && i < |profiles| && j < |profiles|
    requires Holds(profiles[i], ip) && Holds(profiles[j], ip)
    ensures i == j
  {
    hide Usable, InRange;
    assert i < j ==> Apart(profiles[i], profiles[j]);
    assert j < i ==> Apart(profiles[j], profiles[i]);
  }

  lemma HolderIsUnique(profiles: seq<Profile>, p: Profile, q: Profile, ip: bv32)
    requires Sound(profiles) && p in profiles && q in profiles && Holds(p, ip) && Holds(q, ip)
    ensures p == q
  {
    hide Usable, InRange, Sound, Holds;
    var i :| 0 <= i < |profiles| && profiles[i] == p;
    var j :| 0 <= j < |profiles| && profiles[j] == q;
    AtMostOneHolds(profiles, i, j, ip);
  }

  /** Reordering a validated list changes no lookup. */
  lemma LookupOrderIndependent(ip: Address, a: seq<Profile>, b: seq<Profile>)
    requires Sound(a) && forall p :: p in a <==> p in b
    ensures LookupIn(ip, a) == LookupIn(ip, b)
  {
    hide Usable, InRange, NetOf, Sound;
    if ip.V4? {
      LookupMeans(ip.word, a);
      LookupMeans(ip.word, b);
      if LookupIn(ip, a).Found? {
        var p :| p in a && Holds(p, ip.word) && LookupIn(ip, a) == Found(NetOf(p));
        var q :| q in b && Holds(q, ip.word) && LookupIn(ip, b) == Found(NetOf(q));
        HolderIsUnique(a, p, q, ip.word);
      }
    }
  }

  /** resolveWoLBroadcast: the dashboard's broadcast address of the profile that holds the PC, or nothing
      when no profile does. */
  method ResolveBroadcast(profiles: seq<Profile>, ip: Address) returns (b: Option<Octets>)
    ensures b.Some? <==> ip.V4? && exists p :: p in profiles && Holds(p, ip.word)
    ensures b.Some? ==> exists p :: p in profiles && Holds(p, ip.word) && Word(b.value) == Broadcast(p.subnet.value)
  {
    hide Word, InRange, NetOf, Mask, Masked, Filled, ToOctets, MaskOctets;
    var r := FindNetwork(ip, profiles);
    if ip.V4? {
      LookupMeans(ip.word, profiles);
    }
    if !r.Found? {
      return None;
    }
    var octets := CidrBroadcast(r.net);
    ghost var p :| p in profiles && Holds(p, ip.word) && r == Found(NetOf(p));
    BroadcastOctets(p, octets);
    b := Some(octets);
  }

  lemma BroadcastOctets(p: Profile, b: Octets)
    requires Usable(p.subnet) && Word(b) == Word(NetOf(p).ip) | !Word(NetOf(p).mask)
    ensures Word(b) == Broadcast(p.subnet.value)
  {
    hide Word, ToOctets, MaskOctets, Mask, Masked;
    WordRoundTrip(Network(p.subnet.value), [0, 0, 0, 0]);
    MasksAgree(p.subnet.value.prefix);
  }
}
