/** Routed reads (nestor-client/src/read.rs:17-71): a range split into cluster blocks, one request per
    block, and the bodies chained back in order. Which node answers a request, and what hedging and
    failover do on the way, is arbitrary. */
module RoutedReads {
  import opened Common
  import opened Blocks
  import opened Origin
  import opened Errors

  /** One block request answered: the version it describes and the bytes its body delivers; a body
      that is not `complete` ends in an error after them. */
  datatype Answer = Answer(meta: ObjectMeta, content: Bytes, complete: bool)

  /** The request for block `index`: its range and the ETag it insists on. */
  type Nodes = (nat, Range, Option<Bytes>) -> Result<Answer, OriginError>

  /** An answer to a request for `r` is the requested part of some version of the object, all of it
      if the body is complete, and of the version asked for if one was. */
  ghost predicate Faithfully(versions: set<Version>, r: Range, ifMatch: Option<Bytes>, a: Answer) {
    exists v :: v in versions && Answers(v, r, ifMatch, a)
  }

  predicate Answers(v: Version, r: Range, ifMatch: Option<Bytes>, a: Answer) {
    && a.meta == v.Meta() && (ifMatch.Some? ==> v.etag == ifMatch)
    && r.start < |v.data| && r.start <= r.end
    && a.content <= v.data[r.start..Min(r.end, |v.data|)]
    && (a.complete ==> a.content == v.data[r.start..Min(r.end, |v.data|)])
  }

  ghost predicate Honest(versions: set<Version>, nodes: Nodes) {
    forall index, r, ifMatch :: nodes(index, r, ifMatch).Ok? ==>
      Faithfully(versions, r, ifMatch, nodes(index, r, ifMatch).value)
  }

  /** Versions with the same ETag have the same bytes. */
  ghost predicate EtagsIdentify(versions: set<Version>) {
    forall v, u :: v in versions && u in versions && v.etag.Some? && v.etag == u.etag ==> v.data == u.data
  }

  datatype Routed = Routed(meta: ObjectMeta, range: Range, body: Bytes, failed: bool)

  // ---- Tiling ----

  function LastIndex(b: Pos, first: nat, end: nat): nat { Max(Index(b, if end == 0 then 0 else end - 1), first) }

  /** Where the requests for blocks up to and including `index` reach. */
  function Reached(b: Pos, index: nat, end: nat): nat { Min(Offset(b, index + 1), end) }

  /** The first request, cut to the size, reaches the first block boundary or the end. */
  lemma FirstTile(b: Pos, start: nat, limit: nat, size: nat)
    requires start < limit && start < size
    ensures var end := Min(limit, size);
            start < Min(Min(limit, Offset(b, Index(b, start) + 1)), size) == Reached(b, Index(b, start), end)
  {
    IndexBounds(b, start);
  }

  /** Every further request starts where the one before it ended and is not empty. */
  lemma NextTile(b: Pos, first: nat, index: nat, end: nat)
    requires first < index <= LastIndex(b, first, end)
    ensures var r := BlockRange(b, index, Some(end));
            r.start == Reached(b, index - 1, end) < r.end == Reached(b, index, end)
  {
    IndexBounds(b, end - 1);
    MulMonotone(index, Index(b, end - 1), b);
  }

  /** The last one ends at the end of the range. */
  lemma LastTile(b: Pos, start: nat, end: nat)
    requires start < end
    ensures Reached(b, LastIndex(b, Index(b, start), end), end) == end
  {
    IndexBounds(b, end - 1);
    MulMonotone(Index(b, end - 1), LastIndex(b, Index(b, start), end), b);
  }

  lemma NextAnswer(versions: set<Version>, nodes: Nodes, v: Version, index: nat, r: Range)
    requires Honest(versions, nodes) && EtagsIdentify(versions) && v in versions && v.etag.Some?
    requires nodes(index, r, v.etag).Ok? && r.end <= |v.data|
    ensures Delivers(v.data, r, nodes(index, r, v.etag).value)
  {
    var a := nodes(index, r, v.etag).value;
    assert Faithfully(versions, r, v.etag, a);
    var u :| u in versions && Answers(u, r, v.etag, a);
    assert u.data == v.data;
  }

  /** Every answer for a block after `first` to a request made with `ifMatch` is bytes of `data`. */
  ghost predicate OnVersion(nodes: Nodes, data: Bytes, first: nat, ifMatch: Option<Bytes>) {
    forall index, r :: index > first && nodes(index, r, ifMatch).Ok? && r.end <= |data| ==>
      Delivers(data, r, nodes(index, r, ifMatch).value)
  }

  predicate Delivers(data: Bytes, r: Range, a: Answer) {
    r.start <= r.end <= |data| && a.content <= data[r.start..r.end]
    && (a.complete ==> a.content == data[r.start..r.end])
  }

  /** What the requests after block `index` chain up to, and whether the chain ends in an error. */
  function Chain(b: Pos, nodes: Nodes, index: nat, last: nat, end: nat, ifMatch: Option<Bytes>): (Bytes, bool)
    decreases last - index
  {
    if index >= last then ([], false)
    else
      var reply := nodes(index + 1, BlockRange(b, index + 1, Some(end)), ifMatch);
      if reply.Err? then ([], true)
      else if !reply.value.complete then (reply.value.content, true)
      else
        var (rest, failed) := Chain(b, nodes, index + 1, last, end, ifMatch);
        (reply.value.content + rest, failed)
  }

  /** What the chained body of a read of `r` may be: those bytes of `data`, or a prefix of them and
      then an error. */
  predicate Serves(data: Bytes, r: Range, body: Bytes, failed: bool) {
    r.start <= r.end <= |data| && body <= data[r.start..r.end] && (!failed ==> body == data[r.start..r.end])
  }

  /** Chained answers of one version tile the rest of the range without gap or overlap. */
  lemma {:induction false} ChainServes(b: Pos, nodes: Nodes, data: Bytes, first: nat, index: nat, end: nat,
                                       ifMatch: Option<Bytes>)
    requires OnVersion(nodes, data, first, ifMatch) && first <= index <= LastIndex(b, first, end) && end <= |data|
    requires Reached(b, LastIndex(b, first, end), end) == end
    ensures var (body, failed) := Chain(b, nodes, index, LastIndex(b, first, end), end, ifMatch);
            Serves(data, Range(Reached(b, index, end), end), body, failed)
    decreases LastIndex(b, first, end) - index
  {
    var last := LastIndex(b, first, end);
    if index < last {
      NextTile(b, first, index + 1, end);
      var r := BlockRange(b, index + 1, Some(end));
      var reply := nodes(index + 1, r, ifMatch);
      if reply.Ok? {
        assert Delivers(data, r, reply.value);
        ChainServes(b, nodes, data, first, index + 1, end, ifMatch);
        var rest := Chain(b, nodes, index + 1, last, end, ifMatch);
        Chained(data, r.start, r.end, end, reply.value.content, rest.0);
      }
    }
  }

  /** A prefix of one stretch, or all of it and a prefix of the next. */
  lemma Chained(data: Bytes, i: nat, j: nat, k: nat, content: Bytes, rest: Bytes)
    requires i <= j <= k <= |data| && content <= data[i..j] && rest <= data[j..k]
    ensures content <= data[i..k]
    ensures content == data[i..j] ==> content + rest <= data[i..k]
    ensures content == data[i..j] && rest == data[j..k] ==> content + rest == data[i..k]
  {
    Adjacent(data, i, j, k);
  }

  /** The requests after the first, one block at a time, until a body fails. */
  method Rest(b: Pos, nodes: Nodes, first: nat, end: nat, ifMatch: Option<Bytes>, head: Bytes)
    returns (body: Bytes, failed: bool)
    ensures var (rest, broken) := Chain(b, nodes, first, LastIndex(b, first, end), end, ifMatch);
            body == head + rest && failed == broken
  {
    body := head;
    var last := LastIndex(b, first, end);
    var index := first;
    while index < last
      invariant first <= index <= last
      invariant var (rest, broken) := Chain(b, nodes, first, last, end, ifMatch);
                var (left, later) := Chain(b, nodes, index, last, end, ifMatch);
                head + rest == body + left && broken == later
    {
      ghost var left := Chain(b, nodes, index, last, end, ifMatch).0;
      var reply := nodes(index + 1, BlockRange(b, index + 1, Some(end)), ifMatch);
      if reply.Err? {
        return body, true;
      }
      if !reply.value.complete {
        return body + reply.value.content, true;
      }
      assert body + left == body + reply.value.content + Chain(b, nodes, index + 1, last, end, ifMatch).0;
      body, index := body + reply.value.content, index + 1;
    }
    return body, false;
  }

  /** Asking for the ETag of a version gets only bytes of that version. */
  lemma PinnedByEtag(versions: set<Version>, nodes: Nodes, v: Version, first: nat)
    requires Honest(versions, nodes) && EtagsIdentify(versions) && v in versions && v.etag.Some?
    ensures OnVersion(nodes, v.data, first, v.etag)
  {
    forall index, r | index > first && nodes(index, r, v.etag).Ok? && r.end <= |v.data|
      ensures Delivers(v.data, r, nodes(index, r, v.etag).value)
    {
      NextAnswer(versions, nodes, v, index, r);
    }
  }

  function StartOf(range: Option<Range>): nat { if range.Some? then range.value.start else 0 }

  function LimitOf(range: Option<Range>): nat { if range.Some? then range.value.end else U64_MAX }

  /** What the read asks for of an object of the given size. */
  function Asked(range: Option<Range>, size: nat): Range { Range(StartOf(range), Min(LimitOf(range), size)) }

  predicate OneBlock(b: Pos, r: Range) { LastIndex(b, Index(b, r.start), r.end) == Index(b, r.start) }

  /** The response as the answers determine it. */
  function Response(b: Pos, nodes: Nodes, range: Option<Range>, ifMatch: Option<Bytes>): Result<Routed, OriginError> {
    var start, limit := StartOf(range), LimitOf(range);
    var first := Index(b, start);
    var reply := nodes(first, Range(start, Min(limit, Offset(b, first + 1))), ifMatch);
    if start >= limit then Err(Io)
    else if reply.Err? then Err(reply.error)
    else
      var end := Min(limit, reply.value.meta.size);
      var insist := if ifMatch.Some? then ifMatch else reply.value.meta.etag;
      var (rest, broken) := Chain(b, nodes, first, LastIndex(b, first, end), end, insist);
      if reply.value.complete
      then Ok(Routed(reply.value.meta, Range(start, end), reply.value.content + rest, broken))
      else Ok(Routed(reply.value.meta, Range(start, end), reply.value.content, true))
  }

  // ---- Reads that nothing disturbs ----

  /** All of `r` of the version `meta` and `data` are of, and the body says so. */
  predicate InFull(reply: Result<Answer, OriginError>, meta: ObjectMeta, data: Bytes, r: Range) {
    && r.start <= Min(r.end, |data|)
    && reply == Ok(Answer(meta, data[r.start..Min(r.end, |data|)], true))
  }

  /** Every request of the read after block `first`, up to block `last`, is answered in full. */
  predicate RestInFull(b: Pos, nodes: Nodes, meta: ObjectMeta, data: Bytes, first: nat, last: nat, end: nat,
                       ifMatch: Option<Bytes>) {
    forall index :: first < index <= last ==>
      InFull(nodes(index, BlockRange(b, index, Some(end)), ifMatch), meta, data, BlockRange(b, index, Some(end)))
  }

  /** Every request of the read is answered in full from `v`: the first with the ETag the caller insists
      on, if any, and the others with that or else with the ETag of `v`, if it has one. */
  predicate ReadInFull(b: Pos, nodes: Nodes, range: Option<Range>, ifMatch: Option<Bytes>, v: Version) {
    var first, end := Index(b, StartOf(range)), Asked(range, |v.data|).end;
    var asked := Range(StartOf(range), Min(LimitOf(range), Offset(b, first + 1)));
    && InFull(nodes(first, asked, ifMatch), v.Meta(), v.data, asked)
    && RestInFull(b, nodes, v.Meta(), v.data, first, LastIndex(b, first, end), end,
                  if ifMatch.Some? then ifMatch else v.etag)
  }

  /** Answers in full leave nothing of the chain out. */
  lemma {:induction false} ChainWhole(b: Pos, nodes: Nodes, meta: ObjectMeta, data: Bytes, first: nat, index: nat,
                                      end: nat, ifMatch: Option<Bytes>)
    requires first <= index <= LastIndex(b, first, end) && end <= |data|
    requires Reached(b, LastIndex(b, first, end), end) == end
    requires RestInFull(b, nodes, meta, data, first, LastIndex(b, first, end), end, ifMatch)
    ensures Reached(b, index, end) <= end
    ensures Chain(b, nodes, index, LastIndex(b, first, end), end, ifMatch) == (data[Reached(b, index, end)..end], false)
    decreases LastIndex(b, first, end) - index
  {
    if index < LastIndex(b, first, end) {
      NextTile(b, first, index + 1, end);
      ChainWhole(b, nodes, meta, data, first, index + 1, end, ifMatch);
      var r := BlockRange(b, index + 1, Some(end));
      assert InFull(nodes(index + 1, r, ifMatch), meta, data, r);
      Adjacent(data, r.start, r.end, end);
    } else {
      assert data[end..end] == [];
    }
  }

  /** What a reply that fails the read still delivers. */
  function Partial(reply: Result<Answer, OriginError>): Option<Bytes> {
    if reply.Err? then Some([]) else if reply.value.complete then None else Some(reply.value.content)
  }

  /** Answers in full up to block `k`, whose request fails: everything before it and what it delivered. */
  lemma {:induction false} ChainCut(b: Pos, nodes: Nodes, meta: ObjectMeta, data: Bytes, first: nat, index: nat, k: nat,
                                    end: nat, ifMatch: Option<Bytes>)
    requires first <= index < k <= LastIndex(b, first, end) && end <= |data|
    requires RestInFull(b, nodes, meta, data, first, k - 1, end, ifMatch)
    requires Partial(nodes(k, BlockRange(b, k, Some(end)), ifMatch)).Some?
    ensures Reached(b, index, end) <= Reached(b, k - 1, end) <= end
    ensures Chain(b, nodes, index, LastIndex(b, first, end), end, ifMatch)
            == (data[Reached(b, index, end)..Reached(b, k - 1, end)]
                + Partial(nodes(k, BlockRange(b, k, Some(end)), ifMatch)).value, true)
    decreases k - index
  {
    NextTile(b, first, index + 1, end);
    var r := BlockRange(b, index + 1, Some(end));
    var partial := Partial(nodes(k, BlockRange(b, k, Some(end)), ifMatch)).value;
    if index + 1 < k {
      ChainCut(b, nodes, meta, data, first, index + 1, k, end, ifMatch);
      assert InFull(nodes(index + 1, r, ifMatch), meta, data, r);
      JoinedTo(data, r.start, r.end, Reached(b, k - 1, end), partial);
    } else {
      assert data[r.start..r.start] + partial == partial;
    }
  }

  lemma JoinedTo(data: Bytes, i: nat, j: nat, k: nat, rest: Bytes)
    requires i <= j <= k <= |data|
    ensures data[i..j] + (data[j..k] + rest) == data[i..k] + rest
  {
    Adjacent(data, i, j, k);
  }

  /** A read that fails at block `k` delivers all that comes before that block and what its body delivered,
      and then the error. */
  lemma DisturbedRead(b: Pos, nodes: Nodes, range: Option<Range>, ifMatch: Option<Bytes>, v: Version, k: nat)
    requires StartOf(range) < LimitOf(range) && StartOf(range) < |v.data|
    requires var first, end := Index(b, StartOf(range)), Asked(range, |v.data|).end;
             var asked := Range(StartOf(range), Min(LimitOf(range), Offset(b, first + 1)));
             var insist := if ifMatch.Some? then ifMatch else v.etag;
             && first < k <= LastIndex(b, first, end)
             && InFull(nodes(first, asked, ifMatch), v.Meta(), v.data, asked)
             && RestInFull(b, nodes, v.Meta(), v.data, first, k - 1, end, insist)
             && Partial(nodes(k, BlockRange(b, k, Some(end)), insist)).Some?
    ensures var asked := Asked(range, |v.data|);
            var insist := if ifMatch.Some? then ifMatch else v.etag;
            && StartOf(range) <= Offset(b, k) <= |v.data|
            && Response(b, nodes, range, ifMatch)
               == Ok(Routed(v.Meta(), asked, v.data[asked.start..Offset(b, k)]
                                             + Partial(nodes(k, BlockRange(b, k, Some(asked.end)),
                                                             insist)).value, true))
  {
    var asked := Asked(range, |v.data|);
    var first := Index(b, asked.start);
    var insist := if ifMatch.Some? then ifMatch else v.etag;
    FirstTile(b, asked.start, LimitOf(range), |v.data|);
    NextTile(b, first, k, asked.end);
    ChainCut(b, nodes, v.Meta(), v.data, first, first, k, asked.end, insist);
    JoinedTo(v.data, asked.start, Reached(b, first, asked.end), Reached(b, k - 1, asked.end),
             Partial(nodes(k, BlockRange(b, k, Some(asked.end)), insist)).value);
  }

  /** What a read of version `v` that nothing disturbs returns. */
  function Whole(range: Option<Range>, v: Version): Routed
    requires StartOf(range) < LimitOf(range) && StartOf(range) < |v.data|
  {
    var asked := Asked(range, |v.data|);
    Routed(v.Meta(), asked, v.data[asked.start..asked.end], false)
  }

  /** A read whose every request is answered in full returns all it asked for, and no error: with and
      without ETags, for every block size and every range that starts inside the object. */
  lemma UndisturbedRead(b: Pos, nodes: Nodes, range: Option<Range>, ifMatch: Option<Bytes>, v: Version)
    requires StartOf(range) < LimitOf(range) && StartOf(range) < |v.data| && ReadInFull(b, nodes, range, ifMatch, v)
    ensures Response(b, nodes, range, ifMatch) == Ok(Whole(range, v))
  {
    var asked := Asked(range, |v.data|);
    var first := Index(b, asked.start);
    FirstTile(b, asked.start, LimitOf(range), |v.data|);
    LastTile(b, asked.start, asked.end);
    ChainWhole(b, nodes, v.Meta(), v.data, first, first, asked.end, if ifMatch.Some? then ifMatch else v.etag);
    Adjacent(v.data, asked.start, Reached(b, first, asked.end), asked.end);
  }

  /** In particular a read without a range returns the whole object, and one with a range what the object has
      of it. */
  lemma UndisturbedBytes(b: Pos, nodes: Nodes, range: Range, ifMatch: Option<Bytes>, v: Version)
    ensures 0 < |v.data| < 0x1_0000_0000_0000_0000 && ReadInFull(b, nodes, None, ifMatch, v) ==>
              Response(b, nodes, None, ifMatch) == Ok(Routed(v.Meta(), Range(0, |v.data|), v.data, false))
    ensures range.start < range.end <= |v.data| && ReadInFull(b, nodes, Some(range), ifMatch, v) ==>
              Response(b, nodes, Some(range), ifMatch)
              == Ok(Routed(v.Meta(), range, v.data[range.start..range.end], false))
  {
    if 0 < |v.data| < 0x1_0000_0000_0000_0000 && ReadInFull(b, nodes, None, ifMatch, v) {
      UndisturbedRead(b, nodes, None, ifMatch, v);
      assert v.data[0..|v.data|] == v.data;
    }
    if range.start < range.end <= |v.data| && ReadInFull(b, nodes, Some(range), ifMatch, v) {
      UndisturbedRead(b, nodes, Some(range), ifMatch, v);
    }
  }

  lemma AllUndisturbed(b: Pos, nodes: Nodes, range: Option<Range>, ifMatch: Option<Bytes>)
    requires StartOf(range) < LimitOf(range)
    ensures forall v: Version :: StartOf(range) < |v.data| && ReadInFull(b, nodes, range, ifMatch, v) ==>
              Response(b, nodes, range, ifMatch) == Ok(Whole(range, v))
  {
    forall v: Version | StartOf(range) < |v.data| && ReadInFull(b, nodes, range, ifMatch, v)
      ensures Response(b, nodes, range, ifMatch) == Ok(Whole(range, v))
    {
      UndisturbedRead(b, nodes, range, ifMatch, v);
    }
  }

  /** `Cluster::get`. A routed read looks like one origin. */
  method Get(b: Pos, nodes: Nodes, range: Option<Range>, ifMatch: Option<Bytes>)
    returns (r: Result<Routed, OriginError>)
    ensures r == Response(b, nodes, range, ifMatch)
    ensures r.Ok? ==> forall versions :: Honest(versions, nodes) && EtagsIdentify(versions) ==>
              FromOneVersion(b, versions, range, ifMatch, r.value)
    ensures StartOf(range) >= LimitOf(range) ==> r == Err(Io)
    ensures StartOf(range) < LimitOf(range) ==>
              forall v: Version :: StartOf(range) < |v.data| && ReadInFull(b, nodes, range, ifMatch, v) ==>
                r == Ok(Whole(range, v))
  {
    AllOneVersion(b, nodes, range, ifMatch);
    var start, limit := StartOf(range), LimitOf(range);
    if start >= limit {
      return Err(Io);
    }
    AllUndisturbed(b, nodes, range, ifMatch);
    var first := Index(b, start);
    var reply := nodes(first, Range(start, Min(limit, Offset(b, first + 1))), ifMatch);
    if reply.Err? {
      return Err(reply.error);
    }
    var answer := reply.value;
    var end := Min(limit, answer.meta.size);
    var insist := if ifMatch.Some? then ifMatch else answer.meta.etag;
    if !answer.complete {
      return Ok(Routed(answer.meta, Range(start, end), answer.content, true));
    }
    var body, failed := Rest(b, nodes, first, end, insist, answer.content);
    return Ok(Routed(answer.meta, Range(start, end), body, failed));
  }

  /** What a routed response promises about the version its metadata is from. */
  predicate Describes(b: Pos, v: Version, r: Routed) {
    v.Meta() == r.meta && (v.etag.Some? || OneBlock(b, r.range) ==> Serves(v.data, r.range, r.body, r.failed))
  }

  /** The response is about what was asked for, and about one of the versions. */
  ghost predicate FromOneVersion(b: Pos, versions: set<Version>, range: Option<Range>, ifMatch: Option<Bytes>,
                                 r: Routed) {
    && r.range == Asked(range, r.meta.size) && (ifMatch.Some? ==> r.meta.etag == ifMatch)
    && exists v :: v in versions && Describes(b, v, r)
  }

  lemma AllOneVersion(b: Pos, nodes: Nodes, range: Option<Range>, ifMatch: Option<Bytes>)
    ensures var r := Response(b, nodes, range, ifMatch);
            r.Ok? ==> forall versions :: Honest(versions, nodes) && EtagsIdentify(versions) ==>
                        FromOneVersion(b, versions, range, ifMatch, r.value)
  {
    var r := Response(b, nodes, range, ifMatch);
    if r.Ok? {
      forall versions | Honest(versions, nodes) && EtagsIdentify(versions)
        ensures FromOneVersion(b, versions, range, ifMatch, r.value)
      {
        RoutedReadIsOneVersion(b, nodes, range, ifMatch, versions);
      }
    }
  }

  /** With an ETag, or within one block, the body is the asked-for bytes of the one version whose
      metadata is returned, or ends in an error, whatever is written to the object meanwhile. */
  lemma RoutedReadIsOneVersion(b: Pos, nodes: Nodes, range: Option<Range>, ifMatch: Option<Bytes>,
                               versions: set<Version>)
    requires Honest(versions, nodes) && EtagsIdentify(versions)
    requires Response(b, nodes, range, ifMatch).Ok?
    ensures FromOneVersion(b, versions, range, ifMatch, Response(b, nodes, range, ifMatch).value)
  {
    var start, limit := StartOf(range), LimitOf(range);
    var first := Index(b, start);
    var asked := Range(start, Min(limit, Offset(b, first + 1)));
    var answer := nodes(first, asked, ifMatch).value;
    assert Faithfully(versions, asked, ifMatch, answer);
    var v :| v in versions && Answers(v, asked, ifMatch, answer);
    Assembled(b, nodes, start, limit, v, asked, ifMatch, answer);
    if v.etag.Some? {
      PinnedByEtag(versions, nodes, v, first);
    }
    assert Describes(b, v, Response(b, nodes, range, ifMatch).value);
  }

  /** The first answer and the chain after it serve the version the first answer is from, if the
      chain stays on it. */
  lemma Assembled(b: Pos, nodes: Nodes, start: nat, limit: nat, v: Version, asked: Range, ifMatch: Option<Bytes>,
                  answer: Answer)
    requires start < limit && asked == Range(start, Min(limit, Offset(b, Index(b, start) + 1)))
             && Answers(v, asked, ifMatch, answer)
    ensures var end := Min(limit, |v.data|);
            var (rest, broken) := Chain(b, nodes, Index(b, start), LastIndex(b, Index(b, start), end), end, v.etag);
            (v.etag.Some? && OnVersion(nodes, v.data, Index(b, start), v.etag)) || OneBlock(b, Range(start, end)) ==>
              if answer.complete then Serves(v.data, Range(start, end), answer.content + rest, broken)
              else Serves(v.data, Range(start, end), answer.content, true)
  {
    var first, end := Index(b, start), Min(limit, |v.data|);
    FirstTile(b, start, limit, |v.data|);
    LastTile(b, start, end);
    var (rest, broken) := Chain(b, nodes, first, LastIndex(b, first, end), end, v.etag);
    if (v.etag.Some? && OnVersion(nodes, v.data, first, v.etag)) || OneBlock(b, Range(start, end)) {
      if answer.complete {
        Joined(b, nodes, v.data, start, end, v.etag, answer, answer.content + rest, broken);
      } else {
        Joined(b, nodes, v.data, start, end, v.etag, answer, answer.content, true);
      }
    }
  }

  /** The first answer and the chain after it, joined. */
  lemma Joined(b: Pos, nodes: Nodes, data: Bytes, start: nat, end: nat, insist: Option<Bytes>, answer: Answer,
               body: Bytes, failed: bool)
    requires start < end <= |data| && Delivers(data, Range(start, Reached(b, Index(b, start), end)), answer)
    requires Reached(b, LastIndex(b, Index(b, start), end), end) == end
    requires OnVersion(nodes, data, Index(b, start), insist) || LastIndex(b, Index(b, start), end) == Index(b, start)
    requires var (rest, broken) := Chain(b, nodes, Index(b, start), LastIndex(b, Index(b, start), end), end, insist);
             if answer.complete then body == answer.content + rest && failed == broken
             else body == answer.content && failed
    ensures Serves(data, Range(start, end), body, failed)
  {
    var first := Index(b, start);
    var rest := Chain(b, nodes, first, LastIndex(b, first, end), end, insist).0;
    if OnVersion(nodes, data, first, insist) {
      ChainServes(b, nodes, data, first, first, end, insist);
    }
    Chained(data, start, Reached(b, first, end), end, answer.content, rest);
  }

  // ---- Without ETags, past one block ----

  /** Nodes that answer block `first` from one version and the others from another, as happens when
      the object is overwritten in between. Without ETags nothing tells the two apart. */
  function Overwritten(v: Version, u: Version, first: nat): Nodes {
    (index: nat, r: Range, ifMatch: Option<Bytes>) =>
      var from := if index == first then v else u;
      if ifMatch.Some? || r.start >= |from.data| || r.start > r.end then Err(Io)
      else Ok(Answer(from.Meta(), from.data[r.start..Min(r.end, |from.data|)], true))
  }

  lemma OverwrittenHonest(v: Version, u: Version, first: nat)
    requires v.etag.None? && u.etag.None?
    ensures Honest({v, u}, Overwritten(v, u, first)) && EtagsIdentify({v, u})
  {
    var nodes := Overwritten(v, u, first);
    forall index, r, ifMatch | nodes(index, r, ifMatch).Ok?
      ensures Faithfully({v, u}, r, ifMatch, nodes(index, r, ifMatch).value)
    {
      assert Answers(if index == first then v else u, r, ifMatch, nodes(index, r, ifMatch).value);
    }
  }

  /** Past one block the range crosses the first block boundary. */
  lemma CrossesBoundary(b: Pos, start: nat, end: nat)
    requires !OneBlock(b, Range(start, end))
    ensures start < Offset(b, Index(b, start) + 1) < end
  {
    IndexBounds(b, start);
    IndexBounds(b, end - 1);
    MulMonotone(Index(b, start) + 1, Index(b, end - 1), b);
  }

  /** A response of two parts. */
  lemma TwoParts(b: Pos, nodes: Nodes, range: Option<Range>, first: nat, cut: nat, meta: ObjectMeta, content: Bytes,
                 rest: Bytes)
    requires StartOf(range) < cut < LimitOf(range) && first == Index(b, StartOf(range)) && cut == Offset(b, first + 1)
    requires nodes(first, Range(StartOf(range), cut), None) == Ok(Answer(meta, content, true)) && meta.etag.None?
    requires var end := Asked(range, meta.size).end;
             Chain(b, nodes, first, LastIndex(b, first, end), end, None) == (rest, false)
    ensures Response(b, nodes, range, None) == Ok(Routed(meta, Asked(range, meta.size), content + rest, false))
  {
  }

  /** The nodes' answers: the first part from `v`, the rest from `u`. */
  lemma OverwrittenHead(v: Version, u: Version, first: nat, start: nat, cut: nat)
    requires start < cut < |v.data|
    ensures Overwritten(v, u, first)(first, Range(start, cut), None) == Ok(Answer(v.Meta(), v.data[start..cut], true))
  {
    assert Min(cut, |v.data|) == cut;
  }

  lemma OverwrittenRest(b: Pos, v: Version, u: Version, first: nat, start: nat, cut: nat, end: nat)
    requires first == Index(b, start) && cut == Offset(b, first + 1) && start < cut < end <= |u.data|
    ensures Chain(b, Overwritten(v, u, first), first, LastIndex(b, first, end), end, None) == (u.data[cut..end], false)
  {
    LastTile(b, start, end);
    OverwrittenAnswers(b, v, u, first, end);
    ChainWhole(b, Overwritten(v, u, first), u.Meta(), u.data, first, first, end, None);
    assert Reached(b, first, end) == cut;
  }

  /** So, without an ETag and past one block, any two versions of one size can be spliced at the first
      block boundary of any range. */
  lemma SplicedWithoutEtag(b: Pos, range: Option<Range>, v: Version, u: Version)
    requires v.etag.None? && u.etag.None? && |v.data| == |u.data| && !OneBlock(b, Asked(range, |v.data|))
    ensures var asked := Asked(range, |v.data|);
            var cut := Offset(b, Index(b, asked.start) + 1);
            && asked.start < cut < asked.end <= |v.data|
            && Response(b, Overwritten(v, u, Index(b, asked.start)), range, None)
               == Ok(Routed(v.Meta(), asked, v.data[asked.start..cut] + u.data[cut..asked.end], false))
  {
    var asked := Asked(range, |v.data|);
    var first := Index(b, asked.start);
    var cut := Offset(b, first + 1);
    CrossesBoundary(b, asked.start, asked.end);
    OverwrittenHead(v, u, first, asked.start, cut);
    OverwrittenRest(b, v, u, first, asked.start, cut, asked.end);
    TwoParts(b, Overwritten(v, u, first), range, first, cut, v.Meta(), v.data[asked.start..cut],
             u.data[cut..asked.end]);
  }

  lemma OverwrittenAnswers(b: Pos, v: Version, u: Version, first: nat, end: nat)
    requires end <= |u.data|
    ensures RestInFull(b, Overwritten(v, u, first), u.Meta(), u.data, first, LastIndex(b, first, end), end, None)
  {
    forall index | first < index <= LastIndex(b, first, end)
      ensures InFull(Overwritten(v, u, first)(index, BlockRange(b, index, Some(end)), None), u.Meta(), u.data,
                     BlockRange(b, index, Some(end)))
    {
      NextTile(b, first, index, end);
    }
  }

  /** Whatever honest nodes answer for an object of the given size, all of whose versions have an ETag
      if `tagged`, the body is from the version whose metadata is returned. */
  ghost predicate AlwaysOneVersion(b: Pos, range: Option<Range>, ifMatch: Option<Bytes>, size: nat, tagged: bool) {
    forall versions: set<Version>, nodes: Nodes | Honest(versions, nodes) && Possible(versions, size, tagged) ::
      Response(b, nodes, range, ifMatch).Ok? ==> Unspliced(versions, Response(b, nodes, range, ifMatch).value)
  }

  ghost predicate Possible(versions: set<Version>, size: nat, tagged: bool) {
    EtagsIdentify(versions) && forall v :: v in versions ==> |v.data| == size && (tagged ==> v.etag.Some?)
  }

  ghost predicate Unspliced(versions: set<Version>, r: Routed) {
    exists v :: v in versions && v.Meta() == r.meta && Serves(v.data, r.range, r.body, r.failed)
  }

  /** A caller that insists on a version, versions that can be told apart, or a range in one block. */
  predicate Pinned(b: Pos, range: Option<Range>, ifMatch: Option<Bytes>, size: nat, tagged: bool) {
    ifMatch.Some? || tagged || OneBlock(b, Asked(range, size))
  }

  lemma PinnedUnspliced(b: Pos, range: Option<Range>, ifMatch: Option<Bytes>, size: nat, tagged: bool,
                        versions: set<Version>, nodes: Nodes)
    requires Pinned(b, range, ifMatch, size, tagged)
    requires Honest(versions, nodes) && Possible(versions, size, tagged) && Response(b, nodes, range, ifMatch).Ok?
    ensures Unspliced(versions, Response(b, nodes, range, ifMatch).value)
  {
    RoutedReadIsOneVersion(b, nodes, range, ifMatch, versions);
    var r := Response(b, nodes, range, ifMatch).value;
    var v :| v in versions && Describes(b, v, r);
    assert v.Meta() == r.meta && Serves(v.data, r.range, r.body, r.failed);
  }

  /** `size` bytes of one value, without an ETag. */
  function Plain(size: nat, byte: Byte): Version { Version(seq<Byte>(size, _ => byte), None, None) }

  /** A splice of two strings that differ on both sides of the cut is neither of them. */
  lemma SpliceIsNeither(v: Bytes, u: Bytes, start: nat, cut: nat, end: nat)
    requires start < cut < end <= |v| == |u| && v[start] != u[start] && v[cut] != u[cut]
    ensures v[start..cut] + u[cut..end] != v[start..end] && v[start..cut] + u[cut..end] != u[start..end]
  {
    var body := v[start..cut] + u[cut..end];
    assert body[0] == v[start] && body[cut - start] == u[cut];
    assert v[start..end][cut - start] == v[cut] && u[start..end][0] == u[start];
  }

  lemma NeitherServes(v: Version, u: Version, r: Routed)
    requires r.range.start <= r.range.end <= |v.data| == |u.data| && !r.failed
    requires r.body != v.data[r.range.start..r.range.end] && r.body != u.data[r.range.start..r.range.end]
    ensures !Unspliced({v, u}, r)
  {
  }

  /** One response that is from no version. */
  lemma Counterexample(b: Pos, range: Option<Range>, size: nat, versions: set<Version>, nodes: Nodes, r: Routed)
    requires Honest(versions, nodes) && Possible(versions, size, false)
    requires Response(b, nodes, range, None) == Ok(r) && !Unspliced(versions, r)
    ensures !AlwaysOneVersion(b, range, None, size, false)
  {
  }

  /** Two versions that differ on both sides of the first boundary show it. */
  lemma SplicedUnserved(b: Pos, range: Option<Range>, v: Version, u: Version, cut: nat)
    requires v.etag.None? && u.etag.None? && |v.data| == |u.data| && !OneBlock(b, Asked(range, |v.data|))
    requires cut == Offset(b, Index(b, StartOf(range)) + 1) && StartOf(range) < cut < |v.data|
    requires v.data[StartOf(range)] != u.data[StartOf(range)] && v.data[cut] != u.data[cut]
    ensures !AlwaysOneVersion(b, range, None, |v.data|, false)
  {
    SplicedWithoutEtag(b, range, v, u);
    var asked := Asked(range, |v.data|);
    SpliceDiffers(b, range, v, u, Index(b, asked.start), asked, cut);
  }

  lemma SpliceDiffers(b: Pos, range: Option<Range>, v: Version, u: Version, first: nat, asked: Range, cut: nat)
    requires v.etag.None? && u.etag.None? && asked.start < cut < asked.end <= |v.data| == |u.data|
    requires v.data[asked.start] != u.data[asked.start] && v.data[cut] != u.data[cut]
    requires Response(b, Overwritten(v, u, first), range, None)
             == Ok(Routed(v.Meta(), asked, v.data[asked.start..cut] + u.data[cut..asked.end], false))
    ensures !AlwaysOneVersion(b, range, None, |v.data|, false)
  {
    var r := Routed(v.Meta(), asked, v.data[asked.start..cut] + u.data[cut..asked.end], false);
    OverwrittenHonest(v, u, first);
    SpliceIsNeither(v.data, u.data, asked.start, cut, asked.end);
    NeitherServes(v, u, r);
    Counterexample(b, range, |v.data|, {v, u}, Overwritten(v, u, first), r);
  }

  lemma UnpinnedSpliced(b: Pos, range: Option<Range>, size: nat)
    requires !OneBlock(b, Asked(range, size))
    ensures !AlwaysOneVersion(b, range, None, size, false)
  {
    CrossesBoundary(b, StartOf(range), Asked(range, size).end);
    SplicedUnserved(b, range, Plain(size, 0), Plain(size, 1), Offset(b, Index(b, StartOf(range)) + 1));
  }

  /** The exact condition: a routed read is always from one version iff the caller insists on an ETag,
      or every version has one, or the range lies in one block. */
  lemma OneVersionExactly(b: Pos, range: Option<Range>, ifMatch: Option<Bytes>, size: nat, tagged: bool)
    ensures AlwaysOneVersion(b, range, ifMatch, size, tagged) <==> Pinned(b, range, ifMatch, size, tagged)
  {
    if Pinned(b, range, ifMatch, size, tagged) {
      forall versions: set<Version>, nodes: Nodes
        | Honest(versions, nodes) && Possible(versions, size, tagged) && Response(b, nodes, range, ifMatch).Ok?
        ensures Unspliced(versions, Response(b, nodes, range, ifMatch).value)
      {
        PinnedUnspliced(b, range, ifMatch, size, tagged, versions, nodes);
      }
    } else {
      UnpinnedSpliced(b, range, size);
    }
  }
}
