/** The ports of a Sandbox's Service: one for each declared port and protocol,
    sorted, each with a name of its own. */
module ServicePorts {
  import KeyList

  datatype ContainerPort = ContainerPort(name: string, port: int, protocol: string)

  // always: an init container that keeps running beside the others.
  datatype Container = Container(ports: seq<ContainerPort>, always: bool)

  datatype Pair = Pair(port: int, protocol: string)

  datatype ServicePort = ServicePort(name: string, pair: Pair)

  const TCP := "TCP"

  function PairOf(p: ContainerPort): Pair {
    Pair(p.port, if p.protocol == "" then TCP else p.protocol)
  }

  function Declared(containers: seq<Container>): seq<ContainerPort> {
    if containers == [] then []
    else Declared(containers[..|containers| - 1]) + containers[|containers| - 1].ports
  }

  // Of init containers only those that keep running count.
  function DeclaredByInits(inits: seq<Container>): seq<ContainerPort> {
    if inits == [] then []
    else
      var last := inits[|inits| - 1];
      DeclaredByInits(inits[..|inits| - 1]) + if last.always then last.ports else []
  }

  // All port declarations that count, in the order they are looked at.
  function AllPorts(containers: seq<Container>, inits: seq<Container>): seq<ContainerPort> {
    Declared(containers) + DeclaredByInits(inits)
  }

  // ----- Explicit names -----

  ghost predicate Declares(ports: seq<ContainerPort>, pair: Pair) {
    exists i :: 0 <= i < |ports| && ports[i].port != 0 && PairOf(ports[i]) == pair
  }

  ghost predicate NamedBy(ports: seq<ContainerPort>, pair: Pair, name: string) {
    exists i :: 0 <= i < |ports| && ports[i].port != 0 && PairOf(ports[i]) == pair && ports[i].name == name
  }

  /** Which pair has which explicit name, empty for none: every declared pair
      is there, a name is one that was declared for its pair and belongs to
      no other, and a pair is without one only when other pairs have all the
      names declared for it. */
  ghost predicate Named(ports: seq<ContainerPort>, names: map<Pair, string>) {
    && (forall pair :: pair in names <==> Declares(ports, pair))
    && (forall pair | pair in names && names[pair] != "" :: NamedBy(ports, pair, names[pair]))
    && Apart(names)
    && (forall i | 0 <= i < |ports| && ports[i].port != 0 && ports[i].name != "" ::
          PairOf(ports[i]) in names && (names[PairOf(ports[i])] == "" ==> Has(names, ports[i].name)))
  }

  ghost predicate Apart(names: map<Pair, string>) {
    forall a, b | a in names && b in names && a != b && names[a] != "" :: names[a] != names[b]
  }

  ghost predicate Has(names: map<Pair, string>, name: string) {
    exists pair :: pair in names && names[pair] == name
  }

  // The names that are taken.
  ghost predicate Reserves(names: map<Pair, string>, reserved: set<string>) {
    forall name | name != "" :: name in reserved <==> Has(names, name)
  }

  // What one declaration adds.
  function WithPort(names: map<Pair, string>, reserved: set<string>, p: ContainerPort): (map<Pair, string>, set<string>) {
    if p.port == 0 then (names, reserved)
    else
      var pair := PairOf(p);
      var known := if pair in names then names else names[pair := ""];
      if p.name == "" || known[pair] != "" || p.name in reserved then (known, reserved)
      else (known[pair := p.name], reserved + {p.name})
  }

  function Collected(ports: seq<ContainerPort>): (map<Pair, string>, set<string>) {
    if ports == [] then (map[], {})
    else
      var (names, reserved) := Collected(ports[..|ports| - 1]);
      WithPort(names, reserved, ports[|ports| - 1])
  }

  lemma {:induction false} DeclaresMore(ports: seq<ContainerPort>, p: ContainerPort, pair: Pair, name: string)
    ensures Declares(ports + [p], pair) <==> Declares(ports, pair) || (p.port != 0 && PairOf(p) == pair)
    ensures NamedBy(ports, pair, name) || (p.port != 0 && PairOf(p) == pair && p.name == name)
       ==> NamedBy(ports + [p], pair, name)
  {
    var all := ports + [p];
    assert all[|ports|] == p && forall i | 0 <= i < |ports| :: all[i] == ports[i];
    if Declares(ports, pair) {
      var i :| 0 <= i < |ports| && ports[i].port != 0 && PairOf(ports[i]) == pair;
      assert all[i] == ports[i];
    }
    if NamedBy(ports, pair, name) {
      var i :| 0 <= i < |ports| && ports[i].port != 0 && PairOf(ports[i]) == pair && ports[i].name == name;
      assert all[i] == ports[i];
    }
  }

  // A pair that is only made known changes no name.
  lemma {:induction false} HasMore(names: map<Pair, string>, pair: Pair, name: string, other: string)
    requires (pair !in names || names[pair] == "") && other != ""
    ensures Has(names[pair := name], other) <==> Has(names, other) || other == name
  {
    var more := names[pair := name];
    if Has(names, other) {
      var q :| q in names && names[q] == other;
      assert q in more && more[q] == other;
    }
    if other == name {
      assert pair in more && more[pair] == other;
    }
  }

  lemma {:induction false} ReservesMore(names: map<Pair, string>, reserved: set<string>, p: ContainerPort)
    requires Reserves(names, reserved)
    ensures var (more, taken) := WithPort(names, reserved, p);
      && Reserves(more, taken)
      && (forall name | name != "" && Has(names, name) :: Has(more, name))
      && (p.port != 0 && p.name != "" && more[PairOf(p)] == "" ==> Has(more, p.name))
  {
    var pair := PairOf(p);
    var known := if pair in names then names else names[pair := ""];
    var (more, taken) := WithPort(names, reserved, p);
    forall other | other != ""
      ensures Has(known, other) <==> Has(names, other)
      ensures p.port != 0 && known[pair] == "" ==> (Has(known[pair := p.name], other) <==> Has(known, other) || other == p.name)
    {
      if pair !in names {
        HasMore(names, pair, "", other);
      }
      if known[pair] == "" {
        HasMore(known, pair, p.name, other);
      }
    }
  }

  lemma {:induction false} ApartMore(names: map<Pair, string>, reserved: set<string>, p: ContainerPort)
    requires Reserves(names, reserved) && Apart(names)
    ensures Apart(WithPort(names, reserved, p).0)
  {
    var pair := PairOf(p);
    var more := WithPort(names, reserved, p).0;
    forall a, b | a in more && b in more && a != b && more[a] != ""
      ensures more[a] != more[b]
    {
      assert b in names && names[b] == p.name && p.name != "" ==> Has(names, p.name);
      assert a in names && names[a] == p.name && p.name != "" ==> Has(names, p.name);
    }
  }

  lemma {:induction false} NamedMore(ports: seq<ContainerPort>, names: map<Pair, string>, reserved: set<string>,
                                     p: ContainerPort)
    requires Named(ports, names) && Reserves(names, reserved)
    ensures Named(ports + [p], WithPort(names, reserved, p).0)
  {
    var all, more := ports + [p], WithPort(names, reserved, p).0;
    ReservesMore(names, reserved, p);
    ApartMore(names, reserved, p);
    forall pair
      ensures pair in more <==> Declares(all, pair)
      ensures pair in more && more[pair] != "" ==> NamedBy(all, pair, more[pair])
    {
      DeclaresMore(ports, p, pair, if pair in more then more[pair] else "");
    }
    forall i | 0 <= i < |all| && all[i].port != 0 && all[i].name != ""
      ensures PairOf(all[i]) in more && (more[PairOf(all[i])] == "" ==> Has(more, all[i].name))
    {
      if i < |ports| {
        assert all[i] == ports[i];
      }
    }
  }

  // Every declared pair is named as it should be.
  lemma {:induction false} CollectedIsNamed(ports: seq<ContainerPort>)
    ensures var (names, reserved) := Collected(ports); Named(ports, names) && Reserves(names, reserved)
  {
    if ports != [] {
      var last := |ports| - 1;
      var rest := ports[..last];
      assert ports == rest + [ports[last]];
      var (names, reserved) := Collected(rest);
      CollectedIsNamed(rest);
      NamedMore(rest, names, reserved, ports[last]);
      ReservesMore(names, reserved, ports[last]);
    }
  }

  // A name once given is kept, whatever is declared later.
  lemma {:induction false} FirstNameStays(ports: seq<ContainerPort>, n: nat, pair: Pair)
    requires n <= |ports| && pair in Collected(ports[..n]).0 && Collected(ports[..n]).0[pair] != ""
    ensures pair in Collected(ports).0 && Collected(ports).0[pair] == Collected(ports[..n]).0[pair]
    decreases |ports|
  {
    if n == |ports| {
      assert ports[..n] == ports;
    } else {
      assert ports[..|ports| - 1][..n] == ports[..n];
      FirstNameStays(ports[..|ports| - 1], n, pair);
    }
  }

  // ----- Generated names -----

  function Decimal(n: nat): (d: string)
    ensures d != ""
  {
    var last := ['0' + (n % 10) as char];
    if n < 10 then last else Decimal(n / 10) + last
  }

  lemma {:induction false} DecimalsDiffer(a: nat, b: nat)
    requires Decimal(a) == Decimal(b)
    ensures a == b
  {
    var d := Decimal(a);
    assert d[|d| - 1] == '0' + (a % 10) as char == '0' + (b % 10) as char;
    assert a % 10 == b % 10;
    assert a >= 10 <==> |d| > 1;
    assert b >= 10 <==> |Decimal(b)| > 1;
    if a >= 10 {
      assert Decimal(a / 10) == d[..|d| - 1] == Decimal(b / 10);
      DecimalsDiffer(a / 10, b / 10);
    }
  }

  // Read as a number, digit by digit.
  function Read(d: string): int {
    if d == "" then 0 else 10 * Read(d[..|d| - 1]) + (d[|d| - 1] as int - '0' as int)
  }

  lemma {:induction false} DecimalReads(n: nat)
    ensures Read(Decimal(n)) == n && (n > 0 ==> Decimal(n)[0] != '0')
    ensures forall i | 0 <= i < |Decimal(n)| :: '0' <= Decimal(n)[i] <= '9'
  {
    var d := Decimal(n);
    if n >= 10 {
      DecimalReads(n / 10);
      assert d[..|d| - 1] == Decimal(n / 10);
    } else {
      assert d[..|d| - 1] == "";
    }
  }

  function Lower(s: string): string {
    if s == "" then "" else [if 'A' <= s[0] <= 'Z' then s[0] - 'A' + 'a' else s[0]] + Lower(s[1..])
  }

  function Number(n: int): string { if n < 0 then "-" + Decimal(-n) else Decimal(n) }

  function BaseName(pair: Pair): string { "p-" + Number(pair.port) + "-" + Lower(pair.protocol) }

  function Suffixed(base: string, k: nat): string { base + "-" + Decimal(k) }

  lemma {:induction false} SuffixesDiffer(base: string, a: nat, b: nat)
    requires Suffixed(base, a) == Suffixed(base, b)
    ensures a == b
  {
    assert Suffixed(base, a)[|base| + 1..] == Decimal(a);
    assert Suffixed(base, b)[|base| + 1..] == Decimal(b);
    DecimalsDiffer(a, b);
  }

  // The first suffix from k on that gives a free name: there are only so many names to be taken.
  function FirstFree(base: string, taken: set<string>, k: nat): (n: nat)
    ensures n >= k && Suffixed(base, n) !in taken
    ensures forall j | k <= j < n :: Suffixed(base, j) in taken
    decreases |taken|
  {
    var name := Suffixed(base, k);
    if name !in taken then k
    else
      var n := FirstFree(base, taken - {name}, k + 1);
      assert Suffixed(base, n) !in taken by {
        if Suffixed(base, n) == name {
          SuffixesDiffer(base, n, k);
        }
      }
      n
  }

  function Generated(pair: Pair, reserved: set<string>): (name: string)
    ensures name !in reserved && name != ""
  {
    var base := BaseName(pair);
    if base !in reserved then base else Suffixed(base, FirstFree(base, reserved, 2))
  }

  lemma {:induction false} FirstFreeIs(base: string, taken: set<string>, k: nat, n: nat)
    requires k <= n && Suffixed(base, n) !in taken
    requires forall j | k <= j < n :: Suffixed(base, j) in taken
    ensures FirstFree(base, taken, k) == n
  {
  }

  method GenerateName(pair: Pair, reserved: set<string>) returns (name: string)
    ensures name == Generated(pair, reserved) && name !in reserved
    ensures var base := "p-" + Number(pair.port) + "-" + Lower(pair.protocol);
      && (base !in reserved ==> name == base)
      && (base in reserved ==> exists k: nat :: k >= 2 && name == Suffixed(base, k)
                                 && forall j | 2 <= j < k :: Suffixed(base, j) in reserved)
  {
    var base := BaseName(pair);
    if base !in reserved {
      return base;
    }
    var suffix := 2;
    ghost var tried: set<string> := {};
    while Suffixed(base, suffix) in reserved
      invariant forall j | 2 <= j < suffix :: Suffixed(base, j) in reserved
      invariant suffix >= 2 && forall name | name in tried :: exists j :: 2 <= j < suffix && name == Suffixed(base, j)
      decreases |reserved - tried|
    {
      ghost var now := Suffixed(base, suffix);
      assert now !in tried by {
        if now in tried {
          var j :| 2 <= j < suffix && now == Suffixed(base, j);
          SuffixesDiffer(base, j, suffix);
        }
      }
      assert reserved - (tried + {now}) == (reserved - tried) - {now};
      tried := tried + {now};
      suffix := suffix + 1;
    }
    FirstFreeIs(base, reserved, 2, suffix);
    return Suffixed(base, suffix);
  }

  // ----- Sorting -----

  predicate Before(a: Pair, b: Pair) {
    a != b && (a.port < b.port || (a.port == b.port && KeyList.AtMost(a.protocol, b.protocol)))
  }

  predicate Ordered(s: seq<Pair>) {
    forall i, j | 0 <= i < j < |s| :: Before(s[i], s[j])
  }

  lemma {:induction false} BeforeIsAnOrder(a: Pair, b: Pair, c: Pair)
    ensures a != b ==> Before(a, b) || Before(b, a)
    ensures !(Before(a, b) && Before(b, a))
    ensures Before(a, b) && Before(b, c) ==> Before(a, c)
  {
    KeyList.Total(a.protocol, b.protocol);
    if Before(a, b) && Before(b, a) {
      KeyList.Antisymmetric(a.protocol, b.protocol);
    }
    if Before(a, b) && Before(b, c) && a.port == b.port == c.port {
      KeyList.Transitive(a.protocol, b.protocol, c.protocol);
      if a == c {
        KeyList.Antisymmetric(a.protocol, b.protocol);
      }
    }
  }

  method Insert(s: seq<Pair>, p: Pair) returns (r: seq<Pair>)
    requires Ordered(s) && p !in s
    ensures Ordered(r) && forall q :: q in r <==> q in s || q == p
  {
    var i := 0;
    while i < |s| && Before(s[i], p)
      invariant 0 <= i <= |s| && forall j | 0 <= j < i :: Before(s[j], p)
    {
      i := i + 1;
    }
    forall j | i <= j < |s|
      ensures Before(p, s[j])
    {
      BeforeIsAnOrder(p, s[i], s[j]);
    }
    r := s[..i] + [p] + s[i..];
  }

  // Whatever order the pairs come in, they end up in this one.
  method SortPairs(pairs: set<Pair>) returns (s: seq<Pair>)
    ensures Ordered(s) && forall p :: p in s <==> p in pairs
  {
    s := [];
    var rest := pairs;
    while rest != {}
      invariant rest <= pairs && Ordered(s)
      invariant forall p :: p in s <==> p in pairs && p !in rest
      decreases rest
    {
      var p :| p in rest;
      s := Insert(s, p);
      rest := rest - {p};
    }
  }

  lemma {:induction false} FirstIsIn(s: seq<Pair>)
    ensures s == [] || s[0] in s
  {
  }

  lemma {:induction false} OneOrder(s: seq<Pair>, t: seq<Pair>)
    requires Ordered(s) && Ordered(t) && forall p :: p in s <==> p in t
    ensures s == t
    decreases |s|
  {
    FirstIsIn(s);
    FirstIsIn(t);
    if s != [] {
      assert s[0] in t && t[0] in s;
      BeforeIsAnOrder(s[0], t[0], t[0]);
      assert s[0] == t[0];
      forall p
        ensures p in s[1..] <==> p in t[1..]
      {
        assert p in s[1..] ==> Before(s[0], p);
        assert p in t[1..] ==> Before(t[0], p);
        assert p in s <==> p == s[0] || p in s[1..];
        assert p in t <==> p == t[0] || p in t[1..];
      }
      OneOrder(s[1..], t[1..]);
    }
  }

  // ----- The Service's ports -----

  function NameFor(pair: Pair, names: map<Pair, string>, reserved: set<string>): string {
    if pair in names && names[pair] != "" then names[pair] else Generated(pair, reserved)
  }

  // Names the pairs in turn; what one is called is taken for the next.
  function Naming(pairs: seq<Pair>, names: map<Pair, string>, reserved: set<string>): (r: seq<string>)
    ensures |r| == |pairs|
    decreases |pairs|
  {
    if pairs == [] then []
    else
      var name := NameFor(pairs[0], names, reserved);
      [name] + Naming(pairs[1..], names, reserved + {name})
  }

  predicate HasName(names: map<Pair, string>, pair: Pair) {
    pair in names && names[pair] != ""
  }

  /** Names that may stand beside each other: explicit ones are kept, a
      generated one is not among those taken, and no two are the same. */
  ghost predicate WellNamed(pairs: seq<Pair>, names: map<Pair, string>, reserved: set<string>, r: seq<string>) {
    && |r| == |pairs|
    && (forall i | 0 <= i < |r| :: r[i] != "")
    && (forall i | 0 <= i < |r| :: if HasName(names, pairs[i]) then r[i] == names[pairs[i]] else r[i] !in reserved)
    && (forall i, j | 0 <= i < j < |r| :: r[i] != r[j])
  }

  ghost predicate Covers(names: map<Pair, string>, reserved: set<string>) {
    forall name | name != "" && Has(names, name) :: name in reserved
  }

  lemma {:induction false} WellNamedMore(pairs: seq<Pair>, names: map<Pair, string>, reserved: set<string>,
                                         name: string, more: seq<string>)
    requires pairs != [] && Ordered(pairs) && Apart(names) && Covers(names, reserved)
    requires name == NameFor(pairs[0], names, reserved)
    requires WellNamed(pairs[1..], names, reserved + {name}, more)
    ensures WellNamed(pairs, names, reserved, [name] + more)
  {
    var r := [name] + more;
    forall j | 0 <= j < |more|
      ensures more[j] != name
      ensures r[j + 1] == more[j] && pairs[j + 1] == pairs[1..][j]
    {
      var pair := pairs[1..][j];
      assert Before(pairs[0], pairs[j + 1]);
      assert HasName(names, pair) ==> Has(names, names[pair]);
    }
    forall i | 0 < i < |r|
      ensures r[i] == more[i - 1] && pairs[i] == pairs[1..][i - 1]
    {
    }
  }

  lemma {:induction false} NamingIsGood(pairs: seq<Pair>, names: map<Pair, string>, reserved: set<string>)
    requires Ordered(pairs) && Apart(names) && Covers(names, reserved)
    ensures WellNamed(pairs, names, reserved, Naming(pairs, names, reserved))
    decreases |pairs|
  {
    if pairs != [] {
      var name := NameFor(pairs[0], names, reserved);
      NamingIsGood(pairs[1..], names, reserved + {name});
      WellNamedMore(pairs, names, reserved, name, Naming(pairs[1..], names, reserved + {name}));
    }
  }

  // The loop over one container's ports.
  method AddContainerPorts(ports: seq<ContainerPort>, names: map<Pair, string>, reserved: set<string>, ghost before: seq<ContainerPort>)
    returns (more: map<Pair, string>, taken: set<string>)
    requires (names, reserved) == Collected(before)
    ensures (more, taken) == Collected(before + ports)
  {
    more, taken := names, reserved;
    assert before + ports[..0] == before;
    for i := 0 to |ports|
      invariant (more, taken) == Collected(before + ports[..i])
    {
      var p := ports[i];
      ghost var next := before + ports[..i + 1];
      assert next[..|next| - 1] == before + ports[..i] && next[|next| - 1] == p;
      if p.port == 0 {
        continue;
      }
      var pair := PairOf(p);
      if pair !in more {
        more := more[pair := ""];
      }
      if p.name == "" || more[pair] != "" || p.name in taken {
        continue;
      }
      more := more[pair := p.name];
      taken := taken + {p.name};
    }
    assert ports[..|ports|] == ports;
  }

  method CollectNames(containers: seq<Container>, inits: seq<Container>) returns (names: map<Pair, string>, reserved: set<string>)
    ensures (names, reserved) == Collected(AllPorts(containers, inits))
  {
    names, reserved := map[], {};
    for i := 0 to |containers|
      invariant (names, reserved) == Collected(Declared(containers[..i]))
    {
      assert containers[..i + 1][..i] == containers[..i];
      names, reserved := AddContainerPorts(containers[i].ports, names, reserved, Declared(containers[..i]));
    }
    assert containers[..|containers|] == containers;
    names, reserved := CollectInits(inits, names, reserved, Declared(containers));
  }

  method CollectInits(inits: seq<Container>, names: map<Pair, string>, reserved: set<string>, ghost main: seq<ContainerPort>)
    returns (more: map<Pair, string>, taken: set<string>)
    requires (names, reserved) == Collected(main)
    ensures (more, taken) == Collected(main + DeclaredByInits(inits))
  {
    more, taken := names, reserved;
    assert main + DeclaredByInits(inits[..0]) == main;
    for i := 0 to |inits|
      invariant (more, taken) == Collected(main + DeclaredByInits(inits[..i]))
    {
      ghost var before := main + DeclaredByInits(inits[..i]);
      assert inits[..i + 1][..i] == inits[..i];
      if inits[i].always {
        assert main + DeclaredByInits(inits[..i + 1]) == before + inits[i].ports;
        more, taken := AddContainerPorts(inits[i].ports, more, taken, before);
      } else {
        assert DeclaredByInits(inits[..i + 1]) == DeclaredByInits(inits[..i]) + [] == DeclaredByInits(inits[..i]);
      }
    }
    assert inits[..|inits|] == inits;
  }

  method NamePairs(pairs: seq<Pair>, names: map<Pair, string>, reserved: set<string>) returns (r: seq<ServicePort>)
    requires forall pair | pair in pairs :: pair in names
    ensures PairsOf(r) == pairs && NamesOf(r) == Naming(pairs, names, reserved)
  {
    r := [];
    ghost var all := Naming(pairs, names, reserved);
    var taken := reserved;
    for i := 0 to |pairs|
      invariant |r| == i && forall j | 0 <= j < i :: r[j] == ServicePort(all[j], pairs[j])
      invariant Naming(pairs[i..], names, taken) == all[i..]
    {
      var pair := pairs[i];
      var name := names[pair];
      if name == "" {
        name := GenerateName(pair, taken);
      }
      assert name == NameFor(pairs[i..][0], names, taken) == all[i..][0];
      assert pairs[i..][1..] == pairs[i + 1..] && all[i..][1..] == all[i + 1..];
      taken := taken + {name};
      r := r + [ServicePort(name, pair)];
    }
  }

  function PairsOf(r: seq<ServicePort>): (s: seq<Pair>)
    ensures |s| == |r| && forall i | 0 <= i < |r| :: s[i] == r[i].pair
  {
    seq(|r|, i requires 0 <= i < |r| => r[i].pair)
  }

  function NamesOf(r: seq<ServicePort>): (s: seq<string>)
    ensures |s| == |r| && forall i | 0 <= i < |r| :: s[i] == r[i].name
  {
    seq(|r|, i requires 0 <= i < |r| => r[i].name)
  }

  // A container declares this port, with the protocol it names or TCP.
  ghost predicate Offers(c: Container, pair: Pair) {
    exists i :: 0 <= i < |c.ports| && c.ports[i].port != 0 && c.ports[i].port == pair.port
                && pair.protocol == if c.ports[i].protocol == "" then "TCP" else c.ports[i].protocol
  }

  lemma {:induction false} DeclaredBy(containers: seq<Container>, pair: Pair)
    ensures Declares(Declared(containers), pair) <==> exists i :: 0 <= i < |containers| && Offers(containers[i], pair)
    decreases |containers|
  {
    if containers != [] {
      var before, last := containers[..|containers| - 1], containers[|containers| - 1];
      DeclaredBy(before, pair);
      DeclaresBoth(Declared(before), last.ports, pair);
      assert containers == before + [last];
      assert Offers(last, pair) <==> Declares(last.ports, pair);
    }
  }

  lemma {:induction false} DeclaredByInit(inits: seq<Container>, pair: Pair)
    ensures Declares(DeclaredByInits(inits), pair)
       <==> exists i :: 0 <= i < |inits| && inits[i].always && Offers(inits[i], pair)
    decreases |inits|
  {
    if inits != [] {
      var before, last := inits[..|inits| - 1], inits[|inits| - 1];
      DeclaredByInit(before, pair);
      DeclaresBoth(DeclaredByInits(before), if last.always then last.ports else [], pair);
      assert inits == before + [last];
      assert Offers(last, pair) <==> Declares(last.ports, pair);
    }
  }

  lemma {:induction false} DeclaresBoth(a: seq<ContainerPort>, b: seq<ContainerPort>, pair: Pair)
    ensures Declares(a + b, pair) <==> Declares(a, pair) || Declares(b, pair)
  {
    var c := a + b;
    if Declares(a, pair) {
      var i :| 0 <= i < |a| && a[i].port != 0 && PairOf(a[i]) == pair;
      assert c[i] == a[i];
    }
    if Declares(b, pair) {
      var i :| 0 <= i < |b| && b[i].port != 0 && PairOf(b[i]) == pair;
      assert c[|a| + i] == b[i];
    }
  }

  /** A pair is declared if and only if a container offers it, or an init
      container that keeps running does; and a name that the containers give
      it no init container takes away. */
  lemma {:induction false} DeclaredExactly(containers: seq<Container>, inits: seq<Container>, pair: Pair)
    ensures Declares(AllPorts(containers, inits), pair)
       <==> || (exists i :: 0 <= i < |containers| && Offers(containers[i], pair))
            || (exists i :: 0 <= i < |inits| && inits[i].always && Offers(inits[i], pair))
    ensures var main, all := Collected(Declared(containers)).0, Collected(AllPorts(containers, inits)).0;
      pair in main && main[pair] != "" ==> pair in all && all[pair] == main[pair]
  {
    DeclaredBy(containers, pair);
    DeclaredByInit(inits, pair);
    DeclaresBoth(Declared(containers), DeclaredByInits(inits), pair);
    var all := AllPorts(containers, inits);
    assert all[..|Declared(containers)|] == Declared(containers);
    if pair in Collected(Declared(containers)).0 && Collected(Declared(containers)).0[pair] != "" {
      FirstNameStays(all, |Declared(containers)|, pair);
    }
  }

  /** The ports of the Service: exactly the declared pairs, once each and in
      order; explicit names are kept as they were collected, and all names
      are different. */
  method ForSandbox(containers: seq<Container>, inits: seq<Container>) returns (r: seq<ServicePort>)
    ensures Ordered(PairsOf(r)) && forall pair :: pair in PairsOf(r) <==> Declares(AllPorts(containers, inits), pair)
    ensures forall i, j | 0 <= i < j < |r| :: r[i].pair.port <= r[j].pair.port
    ensures forall i, j | 0 <= i < j < |r| && r[i].pair.port == r[j].pair.port ::
      r[i].pair.protocol != r[j].pair.protocol && KeyList.AtMost(r[i].pair.protocol, r[j].pair.protocol)
    ensures var (names, reserved) := Collected(AllPorts(containers, inits));
      NamesOf(r) == Naming(PairsOf(r), names, reserved) && WellNamed(PairsOf(r), names, reserved, NamesOf(r))
  {
    var names, reserved := CollectNames(containers, inits);
    CollectedIsNamed(AllPorts(containers, inits));
    var pairs := SortPairs(names.Keys);
    NamingIsGood(pairs, names, reserved);
    r := NamePairs(pairs, names, reserved);
    assert forall i, j | 0 <= i < j < |r| :: Before(PairsOf(r)[i], PairsOf(r)[j]);
  }

  /** Two results of the same containers are the same, whatever order the
      pairs were met in. */
  lemma {:induction false} OneResult(ports: seq<ContainerPort>, r: seq<ServicePort>, t: seq<ServicePort>)
    requires Ordered(PairsOf(r)) && forall pair :: pair in PairsOf(r) <==> Declares(ports, pair)
    requires Ordered(PairsOf(t)) && forall pair :: pair in PairsOf(t) <==> Declares(ports, pair)
    requires NamesOf(r) == Naming(PairsOf(r), Collected(ports).0, Collected(ports).1)
    requires NamesOf(t) == Naming(PairsOf(t), Collected(ports).0, Collected(ports).1)
    ensures r == t
  {
    OneOrder(PairsOf(r), PairsOf(t));
    forall i | 0 <= i < |r|
      ensures r[i] == t[i]
    {
      assert PairsOf(r)[i] == PairsOf(t)[i] && NamesOf(r)[i] == NamesOf(t)[i];
    }
  }
}
