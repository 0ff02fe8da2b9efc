/** Rendezvous ranking (nestor-client/src/router.rs:35-60). The seed hash is an arbitrary function;
    the ranking is whatever sorting by score, then by address, gives. */
module Rendezvous {

  datatype Node = Node(addr: nat, seed: nat)

  /** The score of a node's seed for one block of one object. */
  type Score = nat -> nat

  predicate Precedes(score: Score, a: Node, b: Node) {
    score(a.seed) > score(b.seed) || (score(a.seed) == score(b.seed) && a.addr < b.addr)
  }

  predicate Distinct(nodes: seq<Node>) { forall i, j :: 0 <= i < j < |nodes| ==> nodes[i].addr != nodes[j].addr }

  predicate Ordered(score: Score, nodes: seq<Node>) {
    forall i, j :: 0 <= i < j < |nodes| ==> Precedes(score, nodes[i], nodes[j])
  }

  ghost predicate Ranks(score: Score, nodes: seq<Node>, ranked: seq<Node>) {
    multiset(ranked) == multiset(nodes) && Ordered(score, ranked)
  }

  /** Where a node goes in a ranking of others. */
  method Insert(score: Score, ranked: seq<Node>, n: Node) returns (r: seq<Node>)
    requires Ordered(score, ranked) && forall k :: 0 <= k < |ranked| ==> ranked[k].addr != n.addr
    ensures Ordered(score, r) && multiset(r) == multiset(ranked) + multiset{n}
  {
    var k := 0;
    while k < |ranked| && Precedes(score, ranked[k], n)
      invariant 0 <= k <= |ranked|
      invariant forall i :: 0 <= i < k ==> Precedes(score, ranked[i], n)
    {
      k := k + 1;
    }
    r := ranked[..k] + [n] + ranked[k..];
    Inserted(score, ranked, k, n);
    assert ranked == ranked[..k] + ranked[k..];
  }

  lemma Inserted(score: Score, ranked: seq<Node>, k: nat, n: Node)
    requires Ordered(score, ranked) && k <= |ranked| && forall i :: 0 <= i < |ranked| ==> ranked[i].addr != n.addr
    requires forall i :: 0 <= i < k ==> Precedes(score, ranked[i], n)
    requires k < |ranked| ==> !Precedes(score, ranked[k], n)
    ensures Ordered(score, ranked[..k] + [n] + ranked[k..])
  {
    var r := ranked[..k] + [n] + ranked[k..];
    forall i, j | 0 <= i < j < |r| ensures Precedes(score, r[i], r[j]) {
      if i == k {
        After(score, ranked, k, n, j - 1);
      } else if j != k {
        var i', j' := if i < k then i else i - 1, if j < k then j else j - 1;
        assert r[i] == ranked[i'] && r[j] == ranked[j'];
        assert Precedes(score, ranked[i'], ranked[j']);
      }
    }
  }

  lemma After(score: Score, ranked: seq<Node>, k: nat, n: Node, j: nat)
    requires Ordered(score, ranked) && k <= j < |ranked| && ranked[k].addr != n.addr && !Precedes(score, ranked[k], n)
    ensures Precedes(score, n, ranked[j])
  {
    assert k < j ==> Precedes(score, ranked[k], ranked[j]);
  }

  /** A ranking without one of its nodes is a ranking of the others. */
  lemma Deleted(score: Score, ranked: seq<Node>, at: nat)
    requires Ordered(score, ranked) && at < |ranked|
    ensures Ordered(score, ranked[..at] + ranked[at + 1..])
    ensures multiset(ranked[..at] + ranked[at + 1..]) == multiset(ranked) - multiset{ranked[at]}
  {
    var rest := ranked[..at] + ranked[at + 1..];
    forall i, j | 0 <= i < j < |rest| ensures Precedes(score, rest[i], rest[j]) {
      var i', j' := if i < at then i else i + 1, if j < at then j else j + 1;
      assert rest[i] == ranked[i'] && rest[j] == ranked[j'];
      assert Precedes(score, ranked[i'], ranked[j']);
    }
    assert ranked == ranked[..at] + [ranked[at]] + ranked[at + 1..];
  }

  /** `Ranked::new`: distinct addresses have a ranking. */
  method New(score: Score, nodes: seq<Node>) returns (ranked: seq<Node>)
    requires Distinct(nodes)
    ensures Ranks(score, nodes, ranked)
  {
    ranked := [];
    for k := 0 to |nodes|
      invariant Ranks(score, nodes[..k], ranked)
    {
      forall i | 0 <= i < |ranked| ensures ranked[i].addr != nodes[k].addr {
        assert ranked[i] in multiset(nodes[..k]);
      }
      assert nodes[..k + 1] == nodes[..k] + [nodes[k]];
      ranked := Insert(score, ranked, nodes[k]);
    }
    assert nodes[..|nodes|] == nodes;
  }

  /** There is only one ranking: it depends neither on the order of the list nor on how it is sorted. */
  lemma {:induction false} RankingUnique(score: Score, a: seq<Node>, b: seq<Node>)
    requires multiset(a) == multiset(b) && Ordered(score, a) && Ordered(score, b)
    ensures a == b
    decreases |a|
  {
    assert |multiset(a)| == |multiset(b)|;
    if a != [] {
      SameHead(score, a, b);
      Tail(score, a);
      Tail(score, b);
      RankingUnique(score, a[1..], b[1..]);
    }
  }

  lemma Tail(score: Score, a: seq<Node>)
    requires Ordered(score, a) && a != []
    ensures Ordered(score, a[1..]) && multiset(a[1..]) == multiset(a) - multiset{a[0]} && a == [a[0]] + a[1..]
  {
    forall i, j | 0 <= i < j < |a[1..]| ensures Precedes(score, a[1..][i], a[1..][j]) {
      assert Precedes(score, a[i + 1], a[j + 1]);
    }
    assert a == [a[0]] + a[1..];
  }

  lemma SameHead(score: Score, a: seq<Node>, b: seq<Node>)
    requires multiset(a) == multiset(b) && Ordered(score, a) && Ordered(score, b) && a != [] && b != []
    ensures a[0] == b[0]
  {
    assert a[0] in multiset(b) && b[0] in multiset(a);
    var i :| 0 <= i < |b| && b[i] == a[0];
    var j :| 0 <= j < |a| && a[j] == b[0];
    assert i > 0 ==> Precedes(score, b[0], a[0]);
    assert j > 0 ==> Precedes(score, a[0], b[0]);
  }

  /** Two clients that list the same nodes in different orders agree. */
  lemma OrderIndependent(score: Score, nodes: seq<Node>, other: seq<Node>, a: seq<Node>, b: seq<Node>)
    requires multiset(nodes) == multiset(other) && Ranks(score, nodes, a) && Ranks(score, other, b)
    ensures a == b
  {
    RankingUnique(score, a, b);
  }

  /** Deleting a node deletes just that node from the ranking. */
  lemma DeletionStable(score: Score, nodes: seq<Node>, k: nat, a: seq<Node>, b: seq<Node>) returns (at: nat)
    requires k < |nodes| && Ranks(score, nodes, a) && Ranks(score, nodes[..k] + nodes[k + 1..], b)
    ensures at < |a| && a[at] == nodes[k] && b == a[..at] + a[at + 1..]
  {
    assert nodes[k] in multiset(a);
    at :| 0 <= at < |a| && a[at] == nodes[k];
    Deleted(score, a, at);
    assert nodes == nodes[..k] + [nodes[k]] + nodes[k + 1..];
    RankingUnique(score, b, a[..at] + a[at + 1..]);
  }

  /** Adding a node changes a block's owner only to the new node. */
  lemma AdditionMovesToNew(score: Score, nodes: seq<Node>, n: Node, a: seq<Node>, b: seq<Node>)
    requires nodes != [] && Ranks(score, nodes, a) && Ranks(score, nodes + [n], b)
    ensures a != [] && b != [] && (b[0] == a[0] || b[0] == n)
  {
    var more := nodes + [n];
    assert more[..|nodes|] + more[|nodes| + 1..] == nodes;
    assert |multiset(a)| == |multiset(nodes)|;
    var at := DeletionStable(score, more, |nodes|, b, a);
  }

  /** The first of a ranking has the highest score of all nodes, and the lowest address of those. */
  lemma FirstScoresHighest(score: Score, nodes: seq<Node>, ranked: seq<Node>, n: Node)
    requires Ranks(score, nodes, ranked) && n in nodes
    ensures ranked != [] && score(ranked[0].seed) >= score(n.seed)
    ensures score(ranked[0].seed) == score(n.seed) ==> ranked[0].addr <= n.addr
  {
    assert n in multiset(nodes);
    assert n in ranked;
    var k :| 0 <= k < |ranked| && ranked[k] == n;
    if k > 0 {
      assert Precedes(score, ranked[0], ranked[k]);
    }
  }
}
