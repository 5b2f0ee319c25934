/** Checking a list of matrix connections against the known ports. */
module MatrixValidation {
  datatype Connection = Connection(fromPort: string, toPort: string)

  /** Port id to port type. */
  type Ports = map<string, string>

  datatype Problem =
    | SelfLoop(index: nat)
    | UnknownPorts(index: nat, ports: seq<string>)
    | Duplicate(index: nat)
    | SourceToSource(index: nat)

  const SOURCE := "source"

  /** Python's string order. */
  predicate AtMost(a: string, b: string) {
    a == [] || (b != [] && (a[0] < b[0] || (a[0] == b[0] && AtMost(a[1..], b[1..]))))
  }

  lemma {:induction false} OrderIsTotal(a: string, b: string)
    ensures AtMost(a, b) || AtMost(b, a)
    ensures AtMost(a, b) && AtMost(b, a) ==> a == b
  {
    if a != [] && b != [] && a[0] == b[0] {
      OrderIsTotal(a[1..], b[1..]);
      assert a == [a[0]] + a[1..] && b == [b[0]] + b[1..];
    }
  }

  function Normalized(c: Connection): (string, string) {
    if AtMost(c.fromPort, c.toPort) then (c.fromPort, c.toPort) else (c.toPort, c.fromPort)
  }

  /** The same two ports, in either direction. */
  predicate SameRoute(a: Connection, b: Connection) {
    a == b || (a.fromPort == b.toPort && a.toPort == b.fromPort)
  }

  lemma NormalizedIsRoute(a: Connection, b: Connection)
    ensures Normalized(a) == Normalized(b) <==> SameRoute(a, b)
  {
    OrderIsTotal(a.fromPort, a.toPort);
    OrderIsTotal(b.fromPort, b.toPort);
  }

  /** What a connection list must satisfy, said without the algorithm. */
  ghost predicate ValidConnections(ports: Ports, cs: seq<Connection>) {
    && (forall i :: 0 <= i < |cs| ==>
          && cs[i].fromPort != cs[i].toPort
          && cs[i].fromPort in ports && cs[i].toPort in ports
          && !(ports[cs[i].fromPort] == SOURCE && ports[cs[i].toPort] == SOURCE))
    && (forall i, j :: 0 <= i < j < |cs| ==> !SameRoute(cs[i], cs[j]))
  }

  function Unknown(ports: Ports, c: Connection): seq<string> {
    (if c.fromPort in ports then [] else [c.fromPort]) + (if c.toPort in ports then [] else [c.toPort])
  }

  /** The problems reported for one connection, numbered from 1. */
  function ProblemsOf(ports: Ports, c: Connection, number: nat, repeated: bool): seq<Problem> {
    (if c.fromPort == c.toPort then [SelfLoop(number)] else [])
    + (if Unknown(ports, c) != [] then [UnknownPorts(number, Unknown(ports, c))] else [])
    + (if repeated then [Duplicate(number)] else [])
    + (if Unknown(ports, c) == [] && ports[c.fromPort] == SOURCE && ports[c.toPort] == SOURCE
       then [SourceToSource(number)] else [])
  }

  predicate Repeated(cs: seq<Connection>, i: nat)
    requires i < |cs|
  {
    exists j :: 0 <= j < i && SameRoute(cs[j], cs[i])
  }

  function ProblemsAt(ports: Ports, cs: seq<Connection>, i: nat): seq<Problem>
    requires i < |cs|
  {
    ProblemsOf(ports, cs[i], i + 1, Repeated(cs, i))
  }

  function Problems(ports: Ports, cs: seq<Connection>, n: nat): seq<Problem>
    requires n <= |cs|
  {
    if n == 0 then [] else Problems(ports, cs, n - 1) + ProblemsAt(ports, cs, n - 1)
  }

  function AllProblems(ports: Ports, cs: seq<Connection>): seq<Problem> {
    Problems(ports, cs, |cs|)
  }

  lemma {:induction false} NoProblemsUpTo(ports: Ports, cs: seq<Connection>, n: nat)
    requires n <= |cs|
    ensures Problems(ports, cs, n) == [] <==> forall i :: 0 <= i < n ==> ProblemsAt(ports, cs, i) == []
  {
    if n > 0 {
      NoProblemsUpTo(ports, cs, n - 1);
      var before, last := Problems(ports, cs, n - 1), ProblemsAt(ports, cs, n - 1);
      assert |before + last| == |before| + |last|;
    }
  }

  lemma NoProblemsAtIff(ports: Ports, cs: seq<Connection>, i: nat)
    requires i < |cs|
    ensures ProblemsAt(ports, cs, i) == []
      <==> && cs[i].fromPort != cs[i].toPort
           && cs[i].fromPort in ports && cs[i].toPort in ports
           && !(ports[cs[i].fromPort] == SOURCE && ports[cs[i].toPort] == SOURCE)
           && !Repeated(cs, i)
  {
  }

  /** Nothing is reported exactly for the lists with no self loop, unknown port, double route or source pair. */
  lemma NoProblemsIffValid(ports: Ports, cs: seq<Connection>)
    ensures AllProblems(ports, cs) == [] <==> ValidConnections(ports, cs)
  {
    NoProblemsUpTo(ports, cs, |cs|);
    forall i | 0 <= i < |cs|
      ensures ProblemsAt(ports, cs, i) == []
        <==> && cs[i].fromPort != cs[i].toPort
             && cs[i].fromPort in ports && cs[i].toPort in ports
             && !(ports[cs[i].fromPort] == SOURCE && ports[cs[i].toPort] == SOURCE)
             && !Repeated(cs, i)
    {
      NoProblemsAtIff(ports, cs, i);
    }
  }

  /** When a problem is there to be reported; connections are numbered from 1. */
  ghost predicate Wrong(ports: Ports, cs: seq<Connection>, p: Problem) {
    && 1 <= p.index <= |cs|
    && var c := cs[p.index - 1];
    match p
    case SelfLoop(_) => c.fromPort == c.toPort
    case UnknownPorts(_, unknown) =>
      || (c.fromPort !in ports && c.toPort !in ports && unknown == [c.fromPort, c.toPort])
      || (c.fromPort !in ports && c.toPort in ports && unknown == [c.fromPort])
      || (c.fromPort in ports && c.toPort !in ports && unknown == [c.toPort])
    case Duplicate(n) => exists j :: 0 <= j < n - 1 && SameRoute(cs[j], c)
    case SourceToSource(_) =>
      c.fromPort in ports && c.toPort in ports && ports[c.fromPort] == "source" && ports[c.toPort] == "source"
  }

  lemma ReportedAt(ports: Ports, cs: seq<Connection>, i: nat, p: Problem)
    requires i < |cs|
    ensures p in ProblemsAt(ports, cs, i) <==> p.index == i + 1 && Wrong(ports, cs, p)
  {
    var c := cs[i];
    assert [c.fromPort] + [c.toPort] == [c.fromPort, c.toPort];
    assert [c.fromPort] + [] == [c.fromPort] && [] + [c.toPort] == [c.toPort];
    hide SameRoute;
  }

  lemma {:induction false} ReportedUpTo(ports: Ports, cs: seq<Connection>, n: nat, p: Problem)
    requires n <= |cs|
    ensures p in Problems(ports, cs, n) <==> p.index <= n && Wrong(ports, cs, p)
  {
    hide Wrong, ProblemsAt;
    if n > 0 {
      ReportedUpTo(ports, cs, n - 1, p);
      ReportedAt(ports, cs, n - 1, p);
    } else {
      NothingBeforeOne(ports, cs, p);
    }
  }

  lemma NothingBeforeOne(ports: Ports, cs: seq<Connection>, p: Problem)
    ensures Wrong(ports, cs, p) ==> 1 <= p.index <= |cs|
  {
  }

  /** Exactly what is wrong is reported, whatever the list, and in the order of the connections. */
  lemma ReportedIff(ports: Ports, cs: seq<Connection>, p: Problem)
    ensures p in AllProblems(ports, cs) <==> Wrong(ports, cs, p)
    ensures InOrder(AllProblems(ports, cs), |cs|)
  {
    ReportedUpTo(ports, cs, |cs|, p);
    NothingBeforeOne(ports, cs, p);
    ProblemsInOrder(ports, cs, |cs|);
  }

  /** The problems of the first `n` connections, in their order. */
  ghost predicate InOrder(ps: seq<Problem>, n: nat) {
    && (forall i :: 0 <= i < |ps| ==> ps[i].index <= n)
    && (forall i, j :: 0 <= i < j < |ps| ==> ps[i].index <= ps[j].index)
  }

  lemma {:induction false} ProblemsInOrder(ports: Ports, cs: seq<Connection>, n: nat)
    requires n <= |cs|
    ensures InOrder(Problems(ports, cs, n), n)
  {
    hide ProblemsAt;
    if n > 0 {
      ProblemsInOrder(ports, cs, n - 1);
      AllNumbered(ports, cs, n - 1);
      var last := ProblemsAt(ports, cs, n - 1);
      assert forall i :: 0 <= i < |last| ==> last[i] in last;
    }
  }

  lemma AllNumbered(ports: Ports, cs: seq<Connection>, i: nat)
    requires i < |cs|
    ensures forall p :: p in ProblemsAt(ports, cs, i) ==> p.index == i + 1
  {
  }

  ghost predicate Collects(seen: set<(string, string)>, cs: seq<Connection>, n: nat)
    requires n <= |cs|
  {
    forall p :: p in seen <==> exists j :: 0 <= j < n && Normalized(cs[j]) == p
  }

  lemma SeenIsDuplicate(seen: set<(string, string)>, cs: seq<Connection>, n: nat)
    requires n < |cs| && Collects(seen, cs, n)
    ensures Normalized(cs[n]) in seen <==> Repeated(cs, n)
    ensures Collects(seen + {Normalized(cs[n])}, cs, n + 1)
  {
    forall j | 0 <= j < n ensures Normalized(cs[j]) == Normalized(cs[n]) <==> SameRoute(cs[j], cs[n]) {
      NormalizedIsRoute(cs[j], cs[n]);
    }
  }

  /** The check behind creating, updating and validating a profile. */
  method ValidateConnections(ports: Ports, cs: seq<Connection>) returns (errors: seq<Problem>)
    ensures errors == AllProblems(ports, cs)
  {
    errors := [];
    var seen: set<(string, string)> := {};
    var i := 0;
    while i < |cs|
      invariant 0 <= i <= |cs|
      invariant errors == Problems(ports, cs, i)
      invariant Collects(seen, cs, i)
    {
      SeenIsDuplicate(seen, cs, i);
      var found := CheckConnection(ports, cs[i], i + 1, seen);
      errors := errors + found;
      seen := seen + {Normalized(cs[i])};
      i := i + 1;
    }
  }

  /** The body of the loop: what is wrong with one connection, given the routes seen before it. */
  method CheckConnection(ports: Ports, c: Connection, number: nat, seen: set<(string, string)>)
    returns (errors: seq<Problem>)
    ensures errors == ProblemsOf(ports, c, number, Normalized(c) in seen)
  {
    errors := [];
    if c.fromPort == c.toPort {
      errors := errors + [SelfLoop(number)];
    }
    var unknown := Unknown(ports, c);
    if unknown != [] {
      errors := errors + [UnknownPorts(number, unknown)];
    }
    if Normalized(c) in seen {
      errors := errors + [Duplicate(number)];
    }
    if unknown == [] {
      if ports[c.fromPort] == SOURCE && ports[c.toPort] == SOURCE {
        errors := errors + [SourceToSource(number)];
      }
    }
  }
}
