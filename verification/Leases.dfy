/** Addresses of VPN devices: bin/client-access.sh, docker-entrypoint.sh and the checks of ui/app/network.py. */
module Leases {
  import opened Wrappers

  // ---- addresses ----------------------------------------------------------

  datatype Ip = Ip(a: int, b: int, c: int, d: int)

  predicate IsIp(x: Ip) { 0 <= x.a < 256 && 0 <= x.b < 256 && 0 <= x.c < 256 && 0 <= x.d < 256 }

  const SPACE := 0x1_0000_0000

  /** bin/client-access.sh:28-29, docker-entrypoint.sh:337-338 */
  function Ip2Int(x: Ip): int { x.a * 0x100_0000 + x.b * 0x1_0000 + x.c * 0x100 + x.d }

  function Int2Ip(n: int): Ip { Ip(n / 0x100_0000 % 256, n / 0x1_0000 % 256, n / 0x100 % 256, n % 256) }

  /** Lease files named by address are leases numbered by address. */
  lemma TextRoundTrip(n: int)
    requires 0 <= n < SPACE
    ensures IsIp(Int2Ip(n)) && Ip2Int(Int2Ip(n)) == n
  {
    var h, l := n / 0x1_0000, n % 0x1_0000;
    assert n / 0x100_0000 == h / 256 && n / 0x100 == h * 256 + l / 256;
    assert (h * 256 + l / 256) % 256 == l / 256;
  }

  lemma NumberRoundTrip(x: Ip)
    requires IsIp(x)
    ensures 0 <= Ip2Int(x) < SPACE && Int2Ip(Ip2Int(x)) == x
  {
    var n := Ip2Int(x);
    Digit(0, x.a);
    Digit(x.a, x.b);
    Digit(x.a * 256 + x.b, x.c);
    Digit((x.a * 256 + x.b) * 256 + x.c, x.d);
    assert n / 0x1_0000 == n / 256 / 256 && n / 0x100_0000 == n / 256 / 256 / 256;
  }

  /** The last of the digits to the base 256, and the rest of them. */
  lemma Digit(rest: int, d: int)
    requires 0 <= d < 256
    ensures (rest * 256 + d) / 256 == rest && (rest * 256 + d) % 256 == d
  {
  }

  function Size(bits: int): (size: int)
    requires 0 <= bits <= 32
    ensures size >= 1
    decreases 32 - bits
  {
    if bits == 32 then 1 else 2 * Size(bits + 1)
  }

  /** n is a multiple of the size. */
  predicate Multiple(n: nat, size: int)
    requires size >= 1
  {
    n == 0 || (n >= size && Multiple(n - size, size))
  }

  lemma {:induction false} MultipleIs(n: nat, size: int)
    requires size >= 1
    ensures Multiple(n, size) <==> n % size == 0
  {
    if n >= size {
      MultipleIs(n - size, size);
      var q, r := n / size, n % size;
      assert n - size == (q - 1) * size + r;
      Remainder(n - size, size, q - 1, r);
    }
  }

  lemma Remainder(n: int, size: int, q: int, r: int)
    requires size >= 1 && n == q * size + r && 0 <= r < size
    ensures n % size == r
  {
    var k := n / size - q;
    assert k * size == r - n % size;
    Scaled(k, size);
  }

  lemma Scaled(k: int, size: int)
    requires size >= 1
    ensures (k >= 1 ==> k * size >= size) && (k <= -1 ==> k * size <= -size)
  {
  }

  /** Networks, the pool of full clients and the number of devices per name. */
  datatype Settings = Settings(net: nat, bits: int, guest: nat, guestBits: int, poolFirst: nat, poolLast: nat, maxDevices: int) {
    predicate Shaped() { 0 <= bits <= 32 && 0 <= guestBits <= 32 }

    function Broadcast(): int
      requires Shaped()
    {
      net + Size(bits) - 1
    }

    function GuestBroadcast(): int
      requires Shaped()
    {
      guest + Size(guestBits) - 1
    }

    /** ui/app/network.py:243-253; a strict network is a multiple of its size. */
    predicate Valid() {
      && Shaped() && Multiple(net, Size(bits)) && Multiple(guest, Size(guestBits)) && Broadcast() < SPACE
      && bits <= 28 && net <= guest && GuestBroadcast() <= Broadcast() && bits < guestBits <= 30
      && net + 1 < poolFirst <= poolLast < Broadcast()
      && !(poolFirst <= GuestBroadcast() && poolLast >= guest)
      && !(guest <= net + 1 <= GuestBroadcast())
    }

    predicate InPool(ip: int) { poolFirst <= ip <= poolLast }

    /** docker-entrypoint.sh:340-346 */
    function GuestFirst(): nat { guest + 1 }

    function GuestLast(): int
      requires Shaped()
    {
      guest + Size(guestBits) - 2
    }

    predicate IsGuest(ip: int)
      requires Shaped()
    {
      GuestFirst() <= ip <= GuestLast()
    }

    predicate InGuestNet(ip: int)
      requires Shaped()
    {
      guest <= ip <= GuestBroadcast()
    }

    /** A rule for the guest network compares the leading bits of an address. */
    predicate Matches(ip: nat)
      requires Shaped()
    {
      ip / Size(guestBits) == guest / Size(guestBits)
    }

    /** ui/app/network.py:258-262, ui/app/pki.py:236-242 */
    predicate StaticOk(ip: int)
      requires Shaped()
    {
      net + 1 < ip < Broadcast() && !InPool(ip) && !InGuestNet(ip)
    }
  }

  lemma {:induction false} SizeGrows(a: int, b: int)
    requires 0 <= a <= b <= 32
    ensures Size(a) >= Size(b)
    decreases b - a
  {
    if a < b { SizeGrows(a + 1, b); }
  }

  /** The guest range has room, and every address in it is one that the network can give to a client. */
  lemma GuestRange(cfg: Settings, ip: int)
    requires cfg.Valid()
    ensures cfg.GuestLast() - cfg.GuestFirst() >= 1
    ensures cfg.IsGuest(ip) ==> cfg.net + 1 < ip < cfg.Broadcast() && !cfg.InPool(ip) && !cfg.StaticOk(ip)
  {
    SizeGrows(cfg.guestBits, 30);
    assert Size(30) == 4;
    SizeGrows(cfg.bits, 28);
  }

  // ---- leases -------------------------------------------------------------

  datatype Device = Device(name: string, endpoint: string)

  datatype Lease = Lease(owner: Device, born: int)

  type Leases = map<nat, Lease>

  predicate NameChar(c: char) {
    'A' <= c <= 'Z' || 'a' <= c <= 'z' || '0' <= c <= '9' || c == '_' || c == '.' || c == '@' || c == '-'
  }

  /** bin/client-access.sh:25 */
  predicate NameOk(name: string) {
    && 1 <= |name| <= 64 && (forall i :: 0 <= i < |name| ==> NameChar(name[i]))
    && name[0] !in ['_', '.', '@', '-']
  }

  function Held(leases: Leases, name: string): set<nat> { set ip | ip in leases && leases[ip].owner.name == name }

  datatype Decision = TooMany | NoFree | Push(ip: nat) | Pool

  predicate Limited(leases: Leases, name: string, max: int) { max > 0 && |Held(leases, name)| >= max }

  /** The first address from a to b that has no lease. */
  function FirstFree(leases: Leases, a: nat, b: int): (r: Option<nat>)
    ensures r.None? ==> forall ip: nat :: a <= ip <= b ==> ip in leases
    ensures r.Some? ==> a <= r.value <= b && r.value !in leases && forall ip: nat :: a <= ip < r.value ==> ip in leases
    decreases b - a
  {
    if a > b then None else if a !in leases then Some(a) else FirstFree(leases, a + 1, b)
  }

  /** bin/client-access.sh:33-47 */
  function Decide(cfg: Settings, leases: Leases, name: string, guest: bool, fixed: Option<nat>): Decision
    requires cfg.Shaped()
  {
    if Limited(leases, name, cfg.maxDevices) then TooMany
    else if guest then
      var free := FirstFree(leases, cfg.GuestFirst(), cfg.GuestLast());
      if free.Some? then Push(free.value) else NoFree
    else if fixed.Some? && fixed.value !in leases then Push(fixed.value)
    else Pool
  }

  /** The address that the device gets. */
  function Given(decision: Decision, offer: Option<nat>): Option<nat> {
    match decision
    case Push(ip) => Some(ip)
    case Pool => offer
    case _ => None
  }

  /** bin/client-access.sh:48-58 */
  function Leased(leases: Leases, d: Device, ip: Option<nat>, now: int): Leases {
    if ip.Some? then leases[ip.value := Lease(d, now)] else leases
  }

  /** bin/client-access.sh:61 */
  function Released(leases: Leases, d: Device): Leases {
    map ip | ip in leases && leases[ip].owner != d :: leases[ip]
  }

  /** docker-entrypoint.sh:356-370, against a client list written less than a minute ago. */
  function Reaped(leases: Leases, listed: set<nat>, now: int): Leases {
    map ip | ip in leases && !(leases[ip].born < now - 60 && ip !in listed) :: leases[ip]
  }

  // ---- the server ---------------------------------------------------------

  /** A device with its address; `pooled` if the address is from OpenVPN's own pool. */
  datatype Connection = Connection(ip: nat, guest: bool, pooled: bool, since: int)

  /** Leases, the devices that are connected, and the client list as OpenVPN last wrote it. */
  datatype Server = Server(leases: Leases, live: map<Device, Connection>, listed: set<nat>, writtenAt: int, now: int)

  datatype Event =
    | Tick(seconds: nat)
    | Connect(d: Device, guest: bool, fixed: Option<nat>, offer: Option<nat>, aborted: bool)
    | Disconnect(d: Device)
    | WriteStatus(extra: set<nat>)
    | Reap
    | Start

  /** A device that is not connected; a static address that the checks allow; and a pool address that no device holds. */
  ghost predicate Offered(cfg: Settings, s: Server, e: Event)
    requires cfg.Shaped() && e.Connect?
  {
    && e.d !in s.live && (e.fixed.Some? ==> cfg.StaticOk(e.fixed.value))
    && (e.offer.Some? ==> cfg.InPool(e.offer.value) && forall x <- s.live :: s.live[x].pooled ==> s.live[x].ip != e.offer.value)
  }

  /** Names that are not well formed pass without a lease. */
  function Verdict(cfg: Settings, s: Server, e: Event): Decision
    requires cfg.Shaped() && e.Connect?
  {
    if NameOk(e.d.name) then Decide(cfg, s.leases, e.d.name, e.guest, e.fixed) else Pool
  }

  /** What client-connect does: leases, and the device if OpenVPN goes on with it. */
  function Joined(cfg: Settings, s: Server, e: Event): Server
    requires cfg.Shaped() && e.Connect?
  {
    var decision := Verdict(cfg, s, e);
    var ip := Given(decision, e.offer);
    var conn :=
      if ip.Some? && !e.aborted then s.live[e.d := Connection(ip.value, e.guest && NameOk(e.d.name), decision.Pool?, s.now)]
      else s.live;
    s.(leases := if NameOk(e.d.name) then Leased(s.leases, e.d, ip, s.now) else s.leases, live := conn)
  }

  ghost function Addresses(live: map<Device, Connection>): set<nat> { set d | d in live :: live[d].ip }

  ghost predicate Step(cfg: Settings, a: Server, e: Event, b: Server)
    requires cfg.Shaped()
  {
    match e
    case Tick(seconds) => b == a.(now := a.now + seconds)
    case Connect(_, _, _, _, _) => Offered(cfg, a, e) && b == Joined(cfg, a, e)
    case Disconnect(d) => b == a.(leases := if NameOk(d.name) then Released(a.leases, d) else a.leases, live := a.live - {d})
    case WriteStatus(extra) => b == a.(listed := Addresses(a.live) + extra, writtenAt := a.now)
    case Reap => b == if a.writtenAt > a.now - 60 then a.(leases := Reaped(a.leases, a.listed, a.now)) else a
    case Start => b == a.(leases := map[], live := map[])
  }

  // ---- the invariant ------------------------------------------------------

  /** A connected device holds the lease of its address. */
  ghost predicate Backed(s: Server, d: Device)
    requires d in s.live
  {
    var c := s.live[d];
    && (NameOk(d.name) ==> c.ip in s.leases && s.leases[c.ip] == Lease(d, c.since))
    && c.since <= s.now && (c.since < s.writtenAt ==> c.ip in s.listed)
  }

  /** Guests are in the guest range, pool addresses in the pool, and the rest in neither. */
  ghost predicate Placed(cfg: Settings, d: Device, c: Connection)
    requires cfg.Shaped()
  {
    && c.pooled == cfg.InPool(c.ip) && (if c.guest then cfg.IsGuest(c.ip) else !cfg.InGuestNet(c.ip))
    && (!c.pooled ==> NameOk(d.name)) && cfg.net + 1 < c.ip < cfg.Broadcast()
  }

  ghost predicate Apart(s: Server) {
    forall d, e | d in s.live && e in s.live && d != e :: s.live[d].ip != s.live[e].ip
  }

  ghost predicate Inv(cfg: Settings, s: Server) {
    && cfg.Valid() && s.writtenAt <= s.now
    && (forall d <- s.live :: Backed(s, d))
    && (forall d <- s.live :: Placed(cfg, d, s.live[d]))
    && Apart(s)
    && (cfg.maxDevices > 0 ==> forall name :: |Held(s.leases, name)| <= cfg.maxDevices)
  }

  // ---- each step keeps it -------------------------------------------------

  /** What a named device is given: no lease on it, or the pool's offer. */
  lemma GivenIs(cfg: Settings, leases: Leases, e: Event)
    requires cfg.Valid() && e.Connect?
    requires (e.fixed.Some? ==> cfg.StaticOk(e.fixed.value)) && (e.offer.Some? ==> cfg.InPool(e.offer.value))
    ensures var decision := Decide(cfg, leases, e.d.name, e.guest, e.fixed);
      && (decision.Push? ==> decision.ip !in leases && !cfg.InPool(decision.ip) && cfg.net + 1 < decision.ip < cfg.Broadcast())
      && (decision.Push? ==> if e.guest then cfg.IsGuest(decision.ip) else !cfg.InGuestNet(decision.ip))
      && (decision.Pool? ==> !e.guest)
  {
    var decision := Decide(cfg, leases, e.d.name, e.guest, e.fixed);
    if decision.Push? { GuestRange(cfg, decision.ip); }
  }

  lemma LeasedHeld(leases: Leases, d: Device, ip: nat, now: int, name: string)
    ensures |Held(Leased(leases, d, Some(ip), now), name)| <= |Held(leases, name)| + if name == d.name then 1 else 0
  {
    var before, after := Held(leases, name), Held(Leased(leases, d, Some(ip), now), name);
    if name == d.name {
      assert forall x <- after :: x in before + {ip};
      SubsetSize(after, before + {ip});
    } else {
      assert forall x <- after :: x in before;
      SubsetSize(after, before);
    }
  }

  lemma FewerHeld(a: Leases, b: Leases, name: string)
    requires forall ip <- a :: ip in b && a[ip] == b[ip]
    ensures |Held(a, name)| <= |Held(b, name)|
  {
    assert forall x <- Held(a, name) :: x in Held(b, name);
    SubsetSize(Held(a, name), Held(b, name));
  }

  /** A new device does not get the address of another. */
  lemma GivenIsFree(cfg: Settings, s: Server, e: Event)
    requires Inv(cfg, s) && e.Connect? && Offered(cfg, s, e)
    ensures var ip := Given(Verdict(cfg, s, e), e.offer); ip.Some? ==> forall x <- s.live :: s.live[x].ip != ip.value
  {
    hide Decide, NameOk, Apart;
    GivenIs(cfg, s.leases, e);
    var ip := Given(Verdict(cfg, s, e), e.offer);
    if ip.Some? {
      forall x | x in s.live ensures s.live[x].ip != ip.value {
        assert Backed(s, x) && Placed(cfg, x, s.live[x]);
      }
    }
  }

  /** Devices stay apart, and those connected keep their leases. */
  lemma JoinedApart(cfg: Settings, s: Server, e: Event)
    requires Inv(cfg, s) && e.Connect? && Offered(cfg, s, e)
    ensures Apart(Joined(cfg, s, e))
    ensures forall d <- s.live :: s.live[d].ip in s.leases && NameOk(d.name) ==>
      s.live[d].ip in Joined(cfg, s, e).leases && Joined(cfg, s, e).leases[s.live[d].ip] == s.leases[s.live[d].ip]
  {
    hide Decide, NameOk, Backed, Placed;
    GivenIsFree(cfg, s, e);
  }

  lemma JoinedBacked(cfg: Settings, s: Server, e: Event)
    requires Inv(cfg, s) && e.Connect? && Offered(cfg, s, e)
    ensures forall d <- Joined(cfg, s, e).live :: Backed(Joined(cfg, s, e), d)
  {
    hide Apart;
    var t := Joined(cfg, s, e);
    JoinedApart(cfg, s, e);
    forall d | d in t.live ensures Backed(t, d) {
      if d in s.live { assert Backed(s, d); }
    }
  }

  lemma JoinedPlaced(cfg: Settings, s: Server, e: Event)
    requires Inv(cfg, s) && e.Connect? && Offered(cfg, s, e)
    ensures forall d <- Joined(cfg, s, e).live :: Placed(cfg, d, Joined(cfg, s, e).live[d])
  {
    hide Apart, Decide;
    var t := Joined(cfg, s, e);
    GivenIs(cfg, s.leases, e);
    forall d | d in t.live ensures Placed(cfg, d, t.live[d]) {
      if d in s.live { assert Placed(cfg, d, s.live[d]); } else { GuestRange(cfg, t.live[d].ip); }
    }
  }

  lemma JoinedHeld(cfg: Settings, s: Server, e: Event, name: string)
    requires Inv(cfg, s) && e.Connect? && cfg.maxDevices > 0
    ensures |Held(Joined(cfg, s, e).leases, name)| <= cfg.maxDevices
  {
    hide Apart, FirstFree, Leased, Held;
    var ip := Given(Verdict(cfg, s, e), e.offer);
    if ip.Some? { LeasedHeld(s.leases, e.d, ip.value, s.now, name); } else { NotLeased(s.leases, e.d, s.now); }
  }

  lemma NotLeased(leases: Leases, d: Device, now: int)
    ensures Leased(leases, d, None, now) == leases
  {
  }

  lemma ConnectKeeps(cfg: Settings, s: Server, e: Event)
    requires Inv(cfg, s) && e.Connect? && Offered(cfg, s, e)
    ensures Inv(cfg, Joined(cfg, s, e))
  {
    hide Backed, Placed, Apart, Decide, Held;
    JoinedApart(cfg, s, e);
    JoinedBacked(cfg, s, e);
    JoinedPlaced(cfg, s, e);
    if cfg.maxDevices > 0 {
      forall name ensures |Held(Joined(cfg, s, e).leases, name)| <= cfg.maxDevices {
        JoinedHeld(cfg, s, e, name);
      }
    }
  }

  /** Leases are only given up, and none that a connected device holds. */
  lemma FewerKeeps(cfg: Settings, s: Server, t: Server)
    requires Inv(cfg, s) && t == s.(leases := t.leases, live := t.live)
    requires forall ip <- t.leases :: ip in s.leases && t.leases[ip] == s.leases[ip]
    requires forall d <- t.live :: d in s.live && t.live[d] == s.live[d]
    requires forall d <- t.live :: s.live[d].ip in s.leases && NameOk(d.name) ==> s.live[d].ip in t.leases
    ensures Inv(cfg, t)
  {
    forall d | d in t.live ensures Backed(t, d) && Placed(cfg, d, t.live[d]) {
      assert Backed(s, d) && Placed(cfg, d, s.live[d]);
    }
    if cfg.maxDevices > 0 {
      forall name ensures |Held(t.leases, name)| <= cfg.maxDevices {
        FewerHeld(t.leases, s.leases, name);
      }
    }
  }

  lemma StepKeeps(cfg: Settings, a: Server, e: Event, b: Server)
    requires Inv(cfg, a) && Step(cfg, a, e, b)
    ensures Inv(cfg, b)
  {
    hide Held;
    match e
    case Tick(_) =>
      forall d | d in b.live ensures Backed(b, d) { assert Backed(a, d); }
    case Connect(_, _, _, _, _) => ConnectKeeps(cfg, a, e);
    case Disconnect(d) =>
      assert forall x <- b.live :: Backed(a, x);
      FewerKeeps(cfg, a, b);
    case WriteStatus(_) =>
      forall d | d in b.live ensures Backed(b, d) { assert Backed(a, d); }
    case Reap =>
      if a.writtenAt > a.now - 60 {
        assert forall x <- b.live :: Backed(a, x);
        FewerKeeps(cfg, a, b);
      }
    case Start =>
      FewerKeeps(cfg, a, b);
  }

  // ---- over whole runs ----------------------------------------------------

  datatype Run = Run(cfg: Settings, events: seq<Event>, states: seq<Server>) {
    ghost predicate Valid() {
      && cfg.Valid() && |states| == |events| + 1
      && states[0].leases == map[] && states[0].live == map[] && states[0].writtenAt <= states[0].now
      && forall i :: 0 <= i < |events| ==> StepAt(i)
    }

    ghost predicate StepAt(i: nat)
      requires i < |events| && |states| == |events| + 1 && cfg.Valid()
    {
      Step(cfg, states[i], events[i], states[i + 1])
    }
  }

  lemma {:induction false} Reachable(run: Run, n: nat)
    requires run.Valid() && n < |run.states|
    ensures Inv(run.cfg, run.states[n])
  {
    if n == 0 {
      assert forall name :: Held(run.states[0].leases, name) == {};
    } else {
      Reachable(run, n - 1);
      assert run.StepAt(n - 1);
      StepKeeps(run.cfg, run.states[n - 1], run.events[n - 1], run.states[n]);
    }
  }

  /** No two connected devices have the same address. */
  lemma NoSharedAddress(run: Run, n: nat, d: Device, e: Device)
    requires run.Valid() && n < |run.states| && d in run.states[n].live && e in run.states[n].live && d != e
    ensures run.states[n].live[d].ip != run.states[n].live[e].ip
  {
    Reachable(run, n);
  }

  /** Guests have addresses of the guest range, other devices none of the guest network, pool clients those of the pool. */
  lemma GuestsApart(run: Run, n: nat, d: Device)
    requires run.Valid() && n < |run.states| && d in run.states[n].live
    ensures var c := run.states[n].live[d];
      && (if c.guest then run.cfg.IsGuest(c.ip) else !run.cfg.InGuestNet(c.ip))
      && (c.pooled <==> run.cfg.poolFirst <= c.ip <= run.cfg.poolLast)
      && run.cfg.net + 1 < c.ip < run.cfg.Broadcast()
  {
    Reachable(run, n);
    assert Placed(run.cfg, d, run.states[n].live[d]);
  }

  /** A rule for the guest network applies to the connected guests, and to no other device. */
  lemma RulesMatchGuests(run: Run, n: nat, d: Device)
    requires run.Valid() && n < |run.states| && d in run.states[n].live
    ensures run.states[n].live[d].guest <==> run.cfg.Matches(run.states[n].live[d].ip)
  {
    GuestsApart(run, n, d);
    var cfg := run.cfg;
    MultipleIs(cfg.guest, Size(cfg.guestBits));
    SameQuotient(cfg.guest, Size(cfg.guestBits), run.states[n].live[d].ip);
  }

  /** The leading bits of a number are those of an aligned block just if it is in the block. */
  lemma SameQuotient(base: nat, size: int, n: nat)
    requires size >= 1 && base % size == 0
    ensures n / size == base / size <==> base <= n < base + size
  {
    var q, k := base / size, n / size - base / size;
    assert base == q * size;
    assert n == n / size * size + n % size;
    assert k * size == n - n % size - base;
    Scaled(k, size);
  }

  /** The addresses of a network are those with its leading bits; the last is its broadcast address. */
  lemma NetworkIs(cfg: Settings, ip: nat)
    requires cfg.Valid()
    ensures ip / Size(cfg.bits) == cfg.net / Size(cfg.bits) <==> cfg.net <= ip <= cfg.Broadcast()
    ensures cfg.Matches(ip) <==> cfg.guest <= ip <= cfg.GuestBroadcast()
  {
    MultipleIs(cfg.net, Size(cfg.bits));
    SameQuotient(cfg.net, Size(cfg.bits), ip);
    MultipleIs(cfg.guest, Size(cfg.guestBits));
    SameQuotient(cfg.guest, Size(cfg.guestBits), ip);
  }

  /** The last 32 bits of the IPv6 address that goes with an address; bin/client-access.sh:53-55. */
  function V6Host(ip: nat): (nat, nat) { (ip / 0x1_0000, ip % 0x1_0000) }

  /** Different devices have different IPv6 hosts, too, of two groups that make up the address. */
  lemma NoSharedHost(run: Run, n: nat, d: Device, e: Device)
    requires run.Valid() && n < |run.states| && d in run.states[n].live && e in run.states[n].live && d != e
    ensures V6Host(run.states[n].live[d].ip) != V6Host(run.states[n].live[e].ip)
    ensures var ip := run.states[n].live[d].ip;
      var (high, low) := V6Host(ip);
      ip == high * 0x1_0000 + low && high < 0x1_0000 && low < 0x1_0000
  {
    NoSharedAddress(run, n, d, e);
    GuestsApart(run, n, d);
    var x, y := run.states[n].live[d].ip, run.states[n].live[e].ip;
    assert x == x / 0x1_0000 * 0x1_0000 + x % 0x1_0000 && y == y / 0x1_0000 * 0x1_0000 + y % 0x1_0000;
  }

  ghost function Devices(live: map<Device, Connection>, name: string): set<Device> {
    set d | d in live && d.name == name
  }

  lemma {:induction false} InjectionSize(s: Server, devices: set<Device>, held: set<nat>)
    requires Apart(s) && devices <= s.live.Keys && forall d <- devices :: s.live[d].ip in held
    ensures |devices| <= |held|
  {
    if d :| d in devices {
      InjectionSize(s, devices - {d}, held - {s.live[d].ip});
    } else {
      assert devices == {};
    }
  }

  /** A name has at most so many leases, and at most so many devices. */
  lemma DevicesLimited(run: Run, n: nat, name: string)
    requires run.Valid() && n < |run.states| && run.cfg.maxDevices > 0 && NameOk(name)
    ensures |Devices(run.states[n].live, name)| <= |Held(run.states[n].leases, name)| <= run.cfg.maxDevices
  {
    Reachable(run, n);
    var s := run.states[n];
    forall d | d in Devices(s.live, name) ensures s.live[d].ip in Held(s.leases, name) {
      assert Backed(s, d);
    }
    InjectionSize(s, Devices(s.live, name), Held(s.leases, name));
  }

  /** A guest is refused exactly if its name has all its devices or every address of the range has a lease. */
  lemma GuestRefused(cfg: Settings, leases: Leases, name: string, fixed: Option<nat>)
    requires cfg.Valid()
    ensures var decision := Decide(cfg, leases, name, true, fixed);
      decision.TooMany? || decision.NoFree? <==>
      Limited(leases, name, cfg.maxDevices) || forall ip: nat :: cfg.GuestFirst() <= ip <= cfg.GuestLast() ==> ip in leases
  {
  }

  /** A full client is refused exactly if its name has all its devices. */
  lemma FullRefused(cfg: Settings, leases: Leases, name: string, fixed: Option<nat>)
    requires cfg.Valid()
    ensures var decision := Decide(cfg, leases, name, false, fixed);
      decision.TooMany? || decision.NoFree? <==> Limited(leases, name, cfg.maxDevices)
  {
  }

  // ---- which leases there are ---------------------------------------------

  /** The name may have one more device. */
  ghost predicate MayConnect(cfg: Settings, leases: Leases, name: string) {
    cfg.maxDevices > 0 ==> |set ip | ip in leases && leases[ip].owner.name == name| < cfg.maxDevices
  }

  /**
   * The address that a connecting device is to have: for a guest the lowest free one of the guest range, for a full client
   * its static address if that is free, and else the one that OpenVPN offers.
   */
  ghost predicate Due(cfg: Settings, leases: Leases, e: Event, ip: nat)
    requires cfg.Shaped() && e.Connect?
  {
    && MayConnect(cfg, leases, e.d.name)
    && if e.guest then
         cfg.guest < ip < cfg.GuestBroadcast() && ip !in leases && forall x: nat :: cfg.guest < x < ip ==> x in leases
       else if e.fixed.Some? && e.fixed.value !in leases then e.fixed == Some(ip)
       else e.offer == Some(ip)
  }

  /** A device gets the address that it is to have, with the lease of it, or nothing. */
  lemma GetsItsDue(run: Run, n: nat, ip: nat)
    requires run.Valid() && n < |run.events| && run.events[n].Connect? && NameOk(run.events[n].d.name)
    ensures var a, e, b := run.states[n], run.events[n], run.states[n + 1];
      if Due(run.cfg, a.leases, e, ip)
      then b.leases == a.leases[ip := Lease(e.d, a.now)]
           && b.live == if e.aborted then a.live else a.live[e.d := Connection(ip, e.guest, run.cfg.InPool(ip), a.now)]
      else (forall x: nat :: !Due(run.cfg, a.leases, e, x)) ==> b.leases == a.leases && b.live == a.live
  {
    assert run.StepAt(n);
    var a, e := run.states[n], run.events[n];
    assert Held(a.leases, e.d.name) == set x | x in a.leases && a.leases[x].owner.name == e.d.name;
    var given := Given(Decide(run.cfg, a.leases, e.d.name, e.guest, e.fixed), e.offer);
    if given.Some? { assert Due(run.cfg, a.leases, e, given.value); }
    if Due(run.cfg, a.leases, e, ip) {
      OneDue(run.cfg, a.leases, e, ip);
      GivenIs(run.cfg, a.leases, e);
    }
  }

  lemma OneDue(cfg: Settings, leases: Leases, e: Event, ip: nat)
    requires cfg.Valid() && e.Connect? && Due(cfg, leases, e, ip)
    ensures Given(Decide(cfg, leases, e.d.name, e.guest, e.fixed), e.offer) == Some(ip)
  {
    assert Held(leases, e.d.name) == set x | x in leases && leases[x].owner.name == e.d.name;
  }

  /** The event writes the lease. */
  ghost predicate Writes(cfg: Settings, a: Server, e: Event, ip: nat, lease: Lease)
    requires cfg.Shaped()
  {
    e.Connect? && NameOk(e.d.name) && Due(cfg, a.leases, e, ip) && lease == Lease(e.d, a.now)
  }

  /**
   * The event takes a lease away: its device disconnects, OpenVPN starts anew, or the address is missing from a client list
   * that is less than a minute old, and the lease is older than a minute.
   */
  ghost predicate Drops(a: Server, e: Event, ip: nat, lease: Lease) {
    || e == Disconnect(lease.owner) || e.Start?
    || (e.Reap? && a.writtenAt > a.now - 60 && lease.born < a.now - 60 && ip !in a.listed)
  }

  /** Another device gets the address. */
  ghost predicate Replaces(cfg: Settings, a: Server, e: Event, ip: nat)
    requires cfg.Shaped()
  {
    e.Connect? && NameOk(e.d.name) && Due(cfg, a.leases, e, ip)
  }

  ghost predicate HasLease(s: Server, ip: nat, lease: Lease) { ip in s.leases && s.leases[ip] == lease }

  lemma LeaseStep(run: Run, n: nat, ip: nat, lease: Lease)
    requires run.Valid() && n < |run.events| && NameOk(lease.owner.name)
    ensures var a, e, b := run.states[n], run.events[n], run.states[n + 1];
      HasLease(b, ip, lease) <==>
        Writes(run.cfg, a, e, ip, lease) || (HasLease(a, ip, lease) && !Drops(a, e, ip, lease) && !Replaces(run.cfg, a, e, ip))
  {
    hide Due, NameOk, Step;
    assert run.StepAt(n);
    var a, e := run.states[n], run.events[n];
    if e.Connect? {
      if NameOk(e.d.name) {
        GetsItsDue(run, n, ip);
        if x: nat :| Due(run.cfg, a.leases, e, x) { GetsItsDue(run, n, x); }
      } else {
        Unnamed(run, n);
      }
    } else {
      OtherLeases(run.cfg, a, e, run.states[n + 1], ip, lease);
    }
  }

  lemma Unnamed(run: Run, n: nat)
    requires run.Valid() && n < |run.events| && run.events[n].Connect? && !NameOk(run.events[n].d.name)
    ensures run.states[n + 1].leases == run.states[n].leases
  {
    assert run.StepAt(n);
  }

  lemma OtherLeases(cfg: Settings, a: Server, e: Event, b: Server, ip: nat, lease: Lease)
    requires cfg.Shaped() && Step(cfg, a, e, b) && !e.Connect? && NameOk(lease.owner.name)
    ensures HasLease(b, ip, lease) <==> HasLease(a, ip, lease) && !Drops(a, e, ip, lease)
  {
  }

  /** The lease was written by event m, and nothing took it away up to event n. */
  ghost predicate LeasedSince(run: Run, m: nat, n: nat, ip: nat, lease: Lease)
    requires run.Valid() && m < n <= |run.events|
  {
    && Writes(run.cfg, run.states[m], run.events[m], ip, lease)
    && forall k: nat :: m < k < n ==>
         !Drops(run.states[k], run.events[k], ip, lease) && !Replaces(run.cfg, run.states[k], run.events[k], ip)
  }

  ghost predicate WasLeased(run: Run, n: nat, ip: nat, lease: Lease)
    requires run.Valid() && n <= |run.events|
  {
    exists m: nat :: m < n && LeasedSince(run, m, n, ip, lease)
  }

  /** In every run there is a lease exactly if a connection wrote it and nothing took it away since. */
  lemma {:induction false} LeasesAre(run: Run, n: nat, ip: nat, lease: Lease)
    requires run.Valid() && n < |run.states| && NameOk(lease.owner.name)
    ensures HasLease(run.states[n], ip, lease) <==> WasLeased(run, n, ip, lease)
  {
    hide Writes, Drops, Replaces, NameOk;
    if n > 0 {
      LeasesAre(run, n - 1, ip, lease);
      LeaseStep(run, n - 1, ip, lease);
      if HasLease(run.states[n], ip, lease) {
        if Writes(run.cfg, run.states[n - 1], run.events[n - 1], ip, lease) {
          assert LeasedSince(run, n - 1, n, ip, lease);
        } else {
          var m: nat :| m < n - 1 && LeasedSince(run, m, n - 1, ip, lease);
          assert LeasedSince(run, m, n, ip, lease);
        }
      }
      if m: nat :| m < n && LeasedSince(run, m, n, ip, lease) {
        if m < n - 1 { assert LeasedSince(run, m, n - 1, ip, lease); }
      }
    }
  }

  // ---- as the scripts run it ----------------------------------------------

  /** bin/client-access.sh:34 */
  method CountHeld(leases: Leases, name: string) returns (n: nat)
    ensures n == |Held(leases, name)|
  {
    n := 0;
    var rest := leases.Keys;
    ghost var done: set<nat> := {};
    while rest != {}
      invariant rest <= leases.Keys && done == Held(leases, name) - rest && n == |done|
      decreases |rest|
    {
      var ip :| ip in rest;
      rest := rest - {ip};
      if leases[ip].owner.name == name {
        done, n := done + {ip}, n + 1;
      }
    }
    assert done == Held(leases, name);
  }

  /** bin/client-access.sh:39-41 */
  method FindFree(leases: Leases, first: nat, last: int) returns (ip: Option<nat>)
    ensures ip == FirstFree(leases, first, last)
  {
    var i := first;
    while i <= last
      invariant FirstFree(leases, i, last) == FirstFree(leases, first, last)
    {
      if i !in leases { return Some(i); }
      i := i + 1;
    }
    return None;
  }

  class LeaseDirectory {
    var leases: Leases

    /** docker-entrypoint.sh:348-349 */
    method PrepareAccess()
      modifies this
      ensures leases == map[]
    {
      leases := map[];
    }

    /** bin/client-access.sh:25-58; `pushed` and `host` are the IPv4 and IPv6 addresses written for OpenVPN, if any. */
    method ClientConnect(cfg: Settings, d: Device, guest: bool, fixed: Option<nat>, offer: Option<nat>, v6: bool, now: int)
      returns (accepted: bool, pushed: Option<nat>, host: Option<(nat, nat)>)
      requires cfg.Valid()
      modifies this
      ensures host == if pushed.Some? && v6 then Some(V6Host(pushed.value)) else None
      ensures !NameOk(d.name) ==> accepted && pushed.None? && leases == old(leases)
      ensures NameOk(d.name) ==>
        var decision := Decide(cfg, old(leases), d.name, guest, fixed);
        && accepted == (decision.Push? || decision.Pool?) && pushed == (if decision.Push? then Some(decision.ip) else None)
        && leases == Leased(old(leases), d, Given(decision, offer), now)
    {
      if !NameOk(d.name) { return true, None, None; }
      if cfg.maxDevices > 0 {
        var n := CountHeld(leases, d.name);
        if n >= cfg.maxDevices { return false, None, None; }
      }
      var ip := None;
      host := None;
      if guest {
        ip := FindFree(leases, cfg.GuestFirst(), cfg.GuestLast());
        if ip.None? { return false, None, None; }
      } else if fixed.Some? && fixed.value !in leases {
        ip := fixed;
      }
      if ip.Some? {
        leases := leases[ip.value := Lease(d, now)];
        if v6 { host := Some((ip.value / 0x1_0000, ip.value % 0x1_0000)); }
      } else if offer.Some? {
        leases := leases[offer.value := Lease(d, now)];
      }
      return true, ip, host;
    }

    /** bin/client-access.sh:60-62 */
    method ClientDisconnect(d: Device)
      modifies this
      ensures leases == if NameOk(d.name) then Released(old(leases), d) else old(leases)
    {
      if !NameOk(d.name) { return; }
      var rest := leases.Keys;
      while rest != {}
        invariant rest <= old(leases).Keys && leases.Keys <= old(leases).Keys
        invariant forall ip <- old(leases) :: ip in leases <==> ip in rest || old(leases)[ip].owner != d
        invariant forall ip <- leases :: leases[ip] == old(leases)[ip]
        decreases |rest|
      {
        var ip :| ip in rest;
        rest := rest - {ip};
        if leases[ip].owner == d { leases := leases - {ip}; }
      }
    }

    /** docker-entrypoint.sh:356-370; `writtenAt` is the time of the client list. */
    method ReapLeases(listed: set<nat>, writtenAt: int, now: int)
      modifies this
      ensures leases == if writtenAt > now - 60 then Reaped(old(leases), listed, now) else old(leases)
    {
      if writtenAt <= now - 60 { return; }
      var rest := leases.Keys;
      while rest != {}
        invariant rest <= old(leases).Keys && leases.Keys <= old(leases).Keys
        invariant forall ip <- old(leases) :: ip in leases <==> ip in rest || !(old(leases)[ip].born < now - 60 && ip !in listed)
        invariant forall ip <- leases :: leases[ip] == old(leases)[ip]
        decreases |rest|
      {
        var ip :| ip in rest;
        rest := rest - {ip};
        if leases[ip].born < now - 60 && ip !in listed { leases := leases - {ip}; }
      }
    }
  }
}
