/** Bounded load (nestor-client/src/node.rs:87-112, 160-172 and nestor-client/src/router.rs:67-83).
    A node's counter is a transition system over its atomic steps; choosing a node is the loop over
    the ranking with whatever those steps showed it. */
module NodeLoads {
  import opened Common

  /** A `Load`, by how it was taken, until it is dropped. */
  datatype Token = Tried | Forced | Released

  /** A thread inside `try_acquire`, with the value it believes the counter has, or past it. */
  datatype Thread = Believing(current: nat) | Refused | Won(token: nat)

  datatype Node = Node(limit: nat, inflight: nat, tokens: seq<Token>, threads: seq<Thread>)

  datatype Action =
    | Load
    | CompareExchange(t: nat, spurious: bool)
    | Acquire
    | Drop(i: nat)

  function Idle(limit: nat): Node { Node(limit, 0, [], []) }

  predicate Enabled(n: Node, a: Action) {
    match a
    case Load => true
    case CompareExchange(t, _) => t < |n.threads| && n.threads[t].Believing?
    case Acquire => true
    case Drop(i) => i < |n.tokens| && !n.tokens[i].Released?
  }

  /** `fetch_sub` on an unsigned counter: at zero it would wrap. */
  function Decrement(inflight: nat): int { inflight - 1 }

  function Take(n: Node, token: Token): Node { n.(inflight := n.inflight + 1, tokens := n.tokens + [token]) }

  /** One round of the compare-and-swap loop; a weak exchange may fail although nothing changed. */
  function Exchange(n: Node, t: nat, spurious: bool): Node
    requires t < |n.threads| && n.threads[t].Believing?
  {
    var current := n.threads[t].current;
    if current >= n.limit then n.(threads := n.threads[t := Refused])
    else if n.inflight == current && !spurious then Take(n, Tried).(threads := n.threads[t := Won(|n.tokens|)])
    else n.(threads := n.threads[t := Believing(n.inflight)])
  }

  function Apply(n: Node, a: Action): Option<Node>
    requires Enabled(n, a)
  {
    match a
    case Load => Some(n.(threads := n.threads + [Believing(n.inflight)]))
    case CompareExchange(t, spurious) => Some(Exchange(n, t, spurious))
    case Acquire => Some(Take(n, Forced))
    case Drop(i) =>
      if Decrement(n.inflight) < 0 then None
      else Some(n.(inflight := Decrement(n.inflight), tokens := n.tokens[i := Released]))
  }

  /** A run of enabled steps; `None` if a step is not enabled or the counter would wrap. */
  function Exec(limit: nat, run: seq<Action>): Option<Node> {
    if run == [] then Some(Idle(limit))
    else
      var before := Exec(limit, run[..|run| - 1]);
      var a := run[|run| - 1];
      if before.None? || !Enabled(before.value, a) then None else Apply(before.value, a)
  }

  function Number(tokens: seq<Token>, kind: Token): nat {
    if tokens == [] then 0
    else Number(tokens[..|tokens| - 1], kind) + (if tokens[|tokens| - 1] == kind then 1 else 0)
  }

  function Live(tokens: seq<Token>): nat { Number(tokens, Tried) + Number(tokens, Forced) }

  lemma NumberAppend(tokens: seq<Token>, token: Token, kind: Token)
    ensures Number(tokens + [token], kind) == Number(tokens, kind) + (if token == kind then 1 else 0)
  {
    assert (tokens + [token])[..|tokens|] == tokens;
  }

  lemma {:induction false} NumberReplace(tokens: seq<Token>, i: nat, token: Token, kind: Token)
    requires i < |tokens|
    ensures Number(tokens[i := token], kind) + (if tokens[i] == kind then 1 else 0)
         == Number(tokens, kind) + (if token == kind then 1 else 0)
  {
    var n := |tokens| - 1;
    if i < n {
      NumberReplace(tokens[..n], i, token, kind);
      assert tokens[i := token][..n] == tokens[..n][i := token];
    } else {
      assert tokens[i := token][..n] == tokens[..n];
    }
  }

  /** The counter is the number of live tokens, and only forced ones take it past the limit. */
  predicate Balanced(n: Node) {
    n.inflight == Live(n.tokens) && n.inflight <= n.limit + Number(n.tokens, Forced)
  }

  /** A `try_acquire` that nothing disturbs wins exactly if the count is below the limit, and then
      counts once. */
  lemma UndisturbedTry(limit: nat, run: seq<Action>, n: Node)
    requires Exec(limit, run) == Some(n)
    ensures var t := |n.threads|;
            var after := Exec(limit, run + [Load] + [CompareExchange(t, false)]);
            && after.Some? && t < |after.value.threads|
            && (if n.inflight < n.limit then
                  && after.value.threads[t] == Won(|n.tokens|) && after.value.inflight == n.inflight + 1
                  && after.value.tokens == n.tokens + [Tried]
                else
                  after.value.threads[t] == Refused && after.value.inflight == n.inflight
                  && after.value.tokens == n.tokens)
  {
    var loaded := run + [Load];
    assert loaded[..|run|] == run;
    assert Exec(limit, loaded) == Some(n.(threads := n.threads + [Believing(n.inflight)]));
    var tried := loaded + [CompareExchange(|n.threads|, false)];
    assert tried[..|loaded|] == loaded;
  }

  lemma StepBalanced(n: Node, a: Action)
    requires Balanced(n) && Enabled(n, a)
    ensures Apply(n, a).Some? && Balanced(Apply(n, a).value)
  {
    match a {
      case Load =>
      case CompareExchange(t, spurious) =>
        NumberAppend(n.tokens, Tried, Tried);
        NumberAppend(n.tokens, Tried, Forced);
      case Acquire =>
        NumberAppend(n.tokens, Forced, Tried);
        NumberAppend(n.tokens, Forced, Forced);
      case Drop(i) =>
        NumberReplace(n.tokens, i, Released, Tried);
        NumberReplace(n.tokens, i, Released, Forced);
    }
  }

  /** Bounded load, in every interleaving: the counter equals the number of live tokens, never wraps,
      and exceeds the limit by no more than the tokens `acquire` forced. */
  lemma {:induction false} LoadIsBalanced(limit: nat, run: seq<Action>, n: Node)
    requires Exec(limit, run) == Some(n)
    ensures Balanced(n) && n.limit == limit
    ensures forall a :: Enabled(n, a) ==> Apply(n, a).Some?
  {
    if run != [] {
      var before := Exec(limit, run[..|run| - 1]).value;
      LoadIsBalanced(limit, run[..|run| - 1], before);
      StepBalanced(before, run[|run| - 1]);
    }
    forall a | Enabled(n, a) ensures Apply(n, a).Some? {
      StepBalanced(n, a);
    }
  }

  /** `try_acquire` never takes the counter past the limit, and without forced tokens nothing does. */
  lemma TryStaysWithinLimit(limit: nat, run: seq<Action>, n: Node, t: nat, spurious: bool)
    requires Exec(limit, run) == Some(n) && t < |n.threads| && n.threads[t].Believing?
    ensures Exchange(n, t, spurious).threads[t].Won? ==> Exchange(n, t, spurious).inflight <= limit
    ensures Number(n.tokens, Forced) == 0 ==> n.inflight <= limit
  {
    LoadIsBalanced(limit, run, n);
  }

  // ---- Choosing a node ----

  /** What a search saw of the node at one place of the ranking: whether it was up when its turn came
      and whether `try_acquire` then succeeded, and whether it was up when asked a second time. */
  datatype Seen = Seen(addr: nat, up: bool, room: bool, upAgain: bool)

  datatype Choice = Choice(index: nat, forced: bool)

  /** `primary`: the first node that is up and has room. The limit is only ever passed when every
      node seen up was seen full, and then on the first one up, or the first of all if none is. */
  method Primary(nodes: seq<Seen>) returns (r: Option<Choice>)
    ensures r.None? <==> nodes == []
    ensures r.Some? ==> r.value.index < |nodes|
    ensures r.Some? && !r.value.forced ==> nodes[r.value.index].up && nodes[r.value.index].room
    ensures r.Some? ==> forall i :: 0 <= i < (if r.value.forced then |nodes| else r.value.index) ==> nodes[i].up ==>
              !nodes[i].room
    ensures r.Some? && r.value.forced ==>
      || (nodes[r.value.index].upAgain && forall i :: 0 <= i < r.value.index ==> !nodes[i].upAgain)
      || (r.value.index == 0 && forall i :: 0 <= i < |nodes| ==> !nodes[i].upAgain)
  {
    for i := 0 to |nodes|
      invariant forall k :: 0 <= k < i ==> nodes[k].up ==> !nodes[k].room
    {
      if nodes[i].up && nodes[i].room {
        return Some(Choice(i, false));
      }
    }
    for i := 0 to |nodes|
      invariant forall k :: 0 <= k < i ==> !nodes[k].upAgain
    {
      if nodes[i].upAgain {
        return Some(Choice(i, true));
      }
    }
    return if nodes == [] then None else Some(Choice(0, true));
  }

  /** `secondary`: the first other node that is up and has room, never the primary's address and
      never past the limit. */
  method Secondary(nodes: seq<Seen>, primary: nat) returns (r: Option<nat>)
    ensures r.Some? ==> r.value < |nodes| && nodes[r.value].addr != primary && nodes[r.value].up && nodes[r.value].room
    ensures forall i :: 0 <= i < (if r.Some? then r.value else |nodes|) ==>
      nodes[i].addr == primary || !nodes[i].up || !nodes[i].room
  {
    for i := 0 to |nodes|
      invariant forall k :: 0 <= k < i ==> nodes[k].addr == primary || !nodes[k].up || !nodes[k].room
    {
      if nodes[i].addr != primary && nodes[i].up && nodes[i].room {
        return Some(i);
      }
    }
    return None;
  }
}
