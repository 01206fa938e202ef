/** Static cluster topology, and the counting facts quorums rest on. */
module Topology {

  type Port = int

  datatype Node = Node(host: string, port: Port)

  ghost predicate NoDuplicates<T(!new)>(xs: seq<T>) {
    forall i, j | 0 <= i < j < |xs| :: xs[i] != xs[j]
  }

  function Elements<T>(xs: seq<T>): set<T> {
    set x | x in xs
  }

  function PortSeq(nodes: seq<Node>): (ps: seq<Port>)
    ensures |ps| == |nodes|
    ensures forall i | 0 <= i < |nodes| :: ps[i] == nodes[i].port
  {
    seq(|nodes|, i requires 0 <= i < |nodes| => nodes[i].port)
  }

  function Ports(nodes: seq<Node>): set<Port> {
    Elements(PortSeq(nodes))
  }

  /** Nothing in the configuration loader enforces this; every quorum guarantee needs it. */
  ghost predicate DistinctPorts(nodes: seq<Node>) {
    NoDuplicates(PortSeq(nodes))
  }

  function PeersExcluding(nodes: seq<Node>, ownPort: Port): seq<Node>
    decreases |nodes|
  {
    if nodes == [] then []
    else (if nodes[0].port != ownPort then [nodes[0]] else []) + PeersExcluding(nodes[1..], ownPort)
  }

  lemma ElementsAppend<T>(xs: seq<T>, ys: seq<T>)
    ensures Elements(xs + ys) == Elements(xs) + Elements(ys)
  {
  }

  lemma {:induction false} DistinctCount<T(!new)>(xs: seq<T>)
    ensures |Elements(xs)| <= |xs|
    ensures |Elements(xs)| == |xs| <==> NoDuplicates(xs)
    decreases |xs|
  {
    if xs != [] {
      var init, x := xs[..|xs| - 1], xs[|xs| - 1];
      assert xs == init + [x];
      DistinctCount(init);
      ElementsAppend(init, [x]);
      assert Elements(xs) == Elements(init) + {x};
      if x in init {
        var i :| 0 <= i < |init| && init[i] == x;
        assert xs[i] == xs[|xs| - 1];
        assert Elements(xs) == Elements(init);
      } else {
        assert |Elements(xs)| == |Elements(init)| + 1;
        if NoDuplicates(init) {
          assert NoDuplicates(xs);
        } else {
          var i, j :| 0 <= i < j < |init| && init[i] == init[j];
          assert xs[i] == xs[j];
        }
      }
    }
  }

  lemma {:induction false} SubsetCount<T>(a: set<T>, b: set<T>)
    requires a <= b
    ensures |a| <= |b|
    ensures |a| == |b| ==> a == b
  {
    assert b == a + (b - a);
    assert |b| == |a| + |b - a|;
  }

  lemma {:induction false} PeersAre(nodes: seq<Node>, own: Port)
    ensures Ports(PeersExcluding(nodes, own)) == Ports(nodes) - {own}
    decreases |nodes|
  {
    if nodes == [] {
      assert PortSeq(nodes) == [] && PortSeq(PeersExcluding(nodes, own)) == [];
    } else {
      var rest := PeersExcluding(nodes[1..], own);
      PeersAre(nodes[1..], own);
      assert PortSeq(nodes) == [nodes[0].port] + PortSeq(nodes[1..]);
      ElementsAppend([nodes[0].port], PortSeq(nodes[1..]));
      assert Elements([nodes[0].port]) == {nodes[0].port};
      assert Ports(nodes) == {nodes[0].port} + Ports(nodes[1..]);
      if nodes[0].port != own {
        assert PortSeq([nodes[0]] + rest) == [nodes[0].port] + PortSeq(rest);
        ElementsAppend([nodes[0].port], PortSeq(rest));
        assert PeersExcluding(nodes, own) == [nodes[0]] + rest;
      } else {
        assert PeersExcluding(nodes, own) == rest;
      }
    }
  }

  /** The peers are the nodes with another port, all of them, in the order listed: peer `j`
      is the node at `at[j]`. */
  lemma {:induction false} PeersInOrder(nodes: seq<Node>, own: Port) returns (at: seq<nat>)
    ensures InOrder(nodes, own, PeersExcluding(nodes, own), at)
    decreases |nodes|
  {
    if nodes == [] {
      at := [];
    } else {
      var rest := PeersInOrder(nodes[1..], own);
      PeersUnfold(nodes, own);
      at := OneMoreInOrder(nodes, own, PeersExcluding(nodes[1..], own), rest);
    }
  }

  lemma OneMoreInOrder(nodes: seq<Node>, own: Port, peers: seq<Node>, rest: seq<nat>) returns (at: seq<nat>)
    requires nodes != [] && InOrder(nodes[1..], own, peers, rest)
    ensures InOrder(nodes, own, if nodes[0].port != own then [nodes[0]] + peers else peers, at)
  {
    var later := OrderShifts(nodes, own, peers, rest);
    if nodes[0].port != own {
      HeadInOrder(nodes, own, peers, later);
      at := [0] + later;
    } else {
      TailInOrder(nodes, own, peers, later);
      at := later;
    }
  }

  lemma PeersUnfold(nodes: seq<Node>, own: Port)
    requires nodes != []
    ensures PeersExcluding(nodes, own)
            == if nodes[0].port != own then [nodes[0]] + PeersExcluding(nodes[1..], own)
                else PeersExcluding(nodes[1..], own)
  {
    assert [] + PeersExcluding(nodes[1..], own) == PeersExcluding(nodes[1..], own);
  }

  ghost predicate InOrder(nodes: seq<Node>, own: Port, peers: seq<Node>, at: seq<nat>) {
    && |at| == |peers|
    && (forall j | 0 <= j < |at| :: at[j] < |nodes| && peers[j] == nodes[at[j]])
    && (forall i, j | 0 <= i < j < |at| :: at[i] < at[j])
    && (forall i: nat | i < |nodes| :: i in at <==> nodes[i].port != own)
  }

  /** The order of the tail, seen from the whole list. */
  lemma OrderShifts(nodes: seq<Node>, own: Port, peers: seq<Node>, rest: seq<nat>) returns (later: seq<nat>)
    requires nodes != [] && InOrder(nodes[1..], own, peers, rest)
    ensures |later| == |peers|
    ensures forall j | 0 <= j < |later| :: 0 < later[j] < |nodes| && peers[j] == nodes[later[j]]
    ensures forall i, j | 0 <= i < j < |later| :: later[i] < later[j]
    ensures 0 !in later && forall i: nat | 0 < i < |nodes| :: i in later <==> nodes[i].port != own
  {
    later := Shifted(rest);
    forall j | 0 <= j < |later| ensures 0 < later[j] < |nodes| && peers[j] == nodes[later[j]] {
      assert nodes[1..][rest[j]] == nodes[later[j]];
    }
    forall i: nat | 0 < i < |nodes| ensures i in later <==> nodes[i].port != own {
      assert nodes[1..][i - 1] == nodes[i];
      assert i - 1 in rest <==> i in later;
    }
  }

  lemma TailInOrder(nodes: seq<Node>, own: Port, peers: seq<Node>, later: seq<nat>)
    requires nodes != [] && nodes[0].port == own && |later| == |peers|
    requires forall j | 0 <= j < |later| :: 0 < later[j] < |nodes| && peers[j] == nodes[later[j]]
    requires forall i, j | 0 <= i < j < |later| :: later[i] < later[j]
    requires 0 !in later && forall i: nat | 0 < i < |nodes| :: i in later <==> nodes[i].port != own
    ensures InOrder(nodes, own, peers, later)
  {
  }

  lemma HeadInOrder(nodes: seq<Node>, own: Port, peers: seq<Node>, later: seq<nat>)
    requires nodes != [] && nodes[0].port != own && |later| == |peers|
    requires forall j | 0 <= j < |later| :: 0 < later[j] < |nodes| && peers[j] == nodes[later[j]]
    requires forall i, j | 0 <= i < j < |later| :: later[i] < later[j]
    requires forall i: nat | 0 < i < |nodes| :: i in later <==> nodes[i].port != own
    ensures InOrder(nodes, own, [nodes[0]] + peers, [0] + later)
  {
    var at: seq<nat> := [0] + later;
    forall j | 0 <= j < |at| ensures at[j] < |nodes| && ([nodes[0]] + peers)[j] == nodes[at[j]] {
      if j > 0 { assert at[j] == later[j - 1]; }
    }
    forall i: nat | i < |nodes| ensures i in at <==> nodes[i].port != own {
      assert i in at <==> i == 0 || i in later;
    }
  }

  function Shifted(at: seq<nat>): (later: seq<nat>)
    ensures |later| == |at| && forall j | 0 <= j < |at| :: later[j] == at[j] + 1
    ensures forall i: nat :: i in at <==> i + 1 in later
    ensures 0 !in later
  {
    var later := seq(|at|, j requires 0 <= j < |at| => at[j] + 1);
    assert forall i: nat | i in at :: i + 1 in later by {
      forall i: nat | i in at ensures i + 1 in later {
        var j :| 0 <= j < |at| && at[j] == i;
        assert later[j] == i + 1;
      }
    }
    later
  }

  lemma {:induction false} PeersCount(nodes: seq<Node>, own: Port)
    ensures |PeersExcluding(nodes, own)| == |nodes| - multiset(PortSeq(nodes))[own]
    decreases |nodes|
  {
    if nodes == [] {
      assert PortSeq(nodes) == [];
    } else {
      PeersCount(nodes[1..], own);
      assert PortSeq(nodes) == [nodes[0].port] + PortSeq(nodes[1..]);
    }
  }

  /** A coordinator contacts N-1 peers exactly when its own port is listed exactly once.
      Listed twice, it reaches fewer; not listed, it counts itself on top of all N. */
  lemma PeersAreAllOthersIff(nodes: seq<Node>, own: Port)
    ensures |PeersExcluding(nodes, own)| == |nodes| - 1 <==> multiset(PortSeq(nodes))[own] == 1
  {
    PeersCount(nodes, own);
  }

  /** With distinct ports and the own port listed, the peers are the other N-1 nodes,
      each once. */
  lemma PeersOfMember(nodes: seq<Node>, own: Port)
    requires DistinctPorts(nodes) && own in Ports(nodes)
    ensures |Ports(nodes)| == |nodes|
    ensures |PeersExcluding(nodes, own)| == |nodes| - 1
    ensures DistinctPorts(PeersExcluding(nodes, own))
  {
    DistinctCount(PortSeq(nodes));
    PeersAre(nodes, own);
    DistinctCount(PortSeq(PeersExcluding(nodes, own)));
    PeersCount(nodes, own);
    var m := multiset(PortSeq(nodes))[own];
    assert own in PortSeq(nodes) && m >= 1;
    assert |Ports(nodes) - {own}| == |Ports(nodes)| - 1;
  }

  lemma AnyOf<T>(s: set<T>) returns (p: T)
    requires s != {}
    ensures p in s
  {
    p :| p in s;
  }

  /** Two sets of members whose sizes exceed the whole must share a member. */
  lemma QuorumsIntersect(all: set<Port>, a: set<Port>, b: set<Port>) returns (p: Port)
    requires a <= all && b <= all
    requires |a| + |b| > |all|
    ensures p in a && p in b
  {
    SubsetCount(a + b, all);
    assert |a + b| == |a| + |b| - |a * b|;
    p := AnyOf(a * b);
  }

  /** Some subset of the wanted size, listed without repetition. */
  lemma {:induction false} PickSome(from: set<Port>, n: nat) returns (ps: seq<Port>)
    requires n <= |from|
    ensures |ps| == n && NoDuplicates(ps) && Elements(ps) <= from && |Elements(ps)| == n
    decreases n
  {
    if n == 0 {
      ps := [];
      assert Elements(ps) == {};
    } else {
      var p := AnyOf(from);
      var rest := PickSome(from - {p}, n - 1);
      ps := [p] + rest;
      ConsNew(p, rest);
    }
  }

  lemma ConsNew(p: Port, rest: seq<Port>)
    requires NoDuplicates(rest) && p !in Elements(rest)
    ensures NoDuplicates([p] + rest) && Elements([p] + rest) == {p} + Elements(rest)
  {
    ElementsAppend([p], rest);
    assert Elements([p]) == {p};
    forall i | 0 <= i < |rest| ensures rest[i] != p {
      var r := rest[i];
      assert r in rest;
    }
  }
}
