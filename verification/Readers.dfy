/** Streaming reads (nestor/src/reader.rs). A reader walks the blocks of a range with a bounded
    window of handles and slices each block to the requested bytes. Everything it asks the engine
    for is an arbitrary function of a tick that advances with each question, so every interleaving
    of other readers, evictions, failures and overwrites is some such environment. */
module Readers {
  import opened Common
  import opened Blocks
  import opened Origin
  import opened Errors
  import opened Engine
  import opened EngineAgreement

  /** A handle stands for what waiting on it yields. */
  datatype Environment = Environment(
    schedule: (nat, ReadCtx, nat, nat) -> seq<BlockResult>,
    anyMeta: nat -> Option<ObjectMeta>,
    resolve: nat -> Result<(ReadCtx, seq<BlockResult>), NestorError>)

  ghost predicate HandlesFor(w: World, h: History, ctx: ReadCtx, lo: nat, handles: seq<BlockResult>) {
    forall j :: 0 <= j < |handles| ==> GoodResult(w, h, ctx.Key(lo + j), handles[j])
  }

  /** What `resolve_ctx` may return for a request: a context of the object, with the handles of
      blocks its probe is already fetching, from the first block of the request on and inside the
      object, as `InflightTable.Adopt` leaves them. */
  ghost predicate Resolved(w: World, h: History, o: ObjectKey, request: ReadRange, ctx: ReadCtx,
                           fetched: seq<BlockResult>) {
    && ctx.obj == o && KnownCtx(w, h, ctx)
    && (ctx.meta.None? ==> request.Bounded?)
    && (fetched != [] ==>
          ctx.meta.Some? && Probed(w.BlockSize(o), w.Config(o).fetchWindow, request, ctx.meta.value.size, |fetched|))
    && (fetched != [] ==>
          HandlesFor(w, h, ctx, FirstGroup(w.BlockSize(o), request, w.Config(o).fetchWindow).value.0, fetched))
  }

  predicate Probed(b: Pos, window: nat, request: ReadRange, size: nat, count: nat) {
    var group := FirstGroup(b, request, window);
    group.Some? && group.value.0 + count <= Min(group.value.1, Count(b, size))
  }

  /** What the engine guarantees a reader, as `EngineReads.EngineServes` shows: results for the block they
      were asked for, and metadata of versions of the object. */
  ghost predicate Serves(w: World, h: History, o: ObjectKey, request: ReadRange, env: Environment) {
    && (forall t, ctx: ReadCtx, lo, hi :: ctx.obj == o && lo <= hi ==>
          Booked(w, h, ctx, lo, hi, env.schedule(t, ctx, lo, hi)))
    && (forall t :: env.anyMeta(t).Some? ==> KnownMeta(w, h, o, env.anyMeta(t).value))
    && (forall t :: env.resolve(t).Ok? ==> Resolved(w, h, o, request, env.resolve(t).value.0, env.resolve(t).value.1))
  }

  ghost predicate Booked(w: World, h: History, ctx: ReadCtx, lo: nat, hi: nat, handles: seq<BlockResult>) {
    |handles| == hi - lo && HandlesFor(w, h, ctx, lo, handles)
  }

  // ---- What a read is owed ----

  /** Where in `data` a read of `r` ends. */
  function Stop(data: Bytes, r: Range): nat { Min(r.end, |data|) }

  /** The bytes of `r`. */
  function Slice(data: Bytes, r: Range): Bytes {
    if r.start <= Stop(data, r) then data[r.start..Stop(data, r)] else []
  }

  /** Those of them that lie before offset `at`. */
  function Upto(data: Bytes, r: Range, at: nat): Bytes {
    var stop := Min(at, Stop(data, r));
    if r.start <= stop then data[r.start..stop] else []
  }

  /** Those of them that lie before block `n`. */
  function Before(b: Pos, data: Bytes, r: Range, n: nat): Bytes { Upto(data, r, Offset(b, n)) }

  lemma BeforeIsPrefix(b: Pos, data: Bytes, r: Range, n: nat)
    ensures Before(b, data, r, n) <= Slice(data, r)
    ensures Offset(b, n) >= Stop(data, r) ==> Before(b, data, r, n) == Slice(data, r)
  {
  }

  lemma BeforeGrows(b: Pos, data: Bytes, r: Range, n: nat, m: nat)
    requires n <= m
    ensures Before(b, data, r, n) == Slice(data, r) ==> Before(b, data, r, m) == Slice(data, r)
  {
    MulMonotone(n, m, b);
  }

  lemma NothingBeforeFirst(b: Pos, data: Bytes, r: Range)
    ensures Before(b, data, r, Index(b, r.start)) == []
  {
    IndexBounds(b, r.start);
  }

  /** Learning the size cuts the range but not what it yields. */
  lemma CutToSize(b: Pos, data: Bytes, r: Range, n: nat)
    ensures Before(b, data, Range(r.start, Min(r.end, |data|)), n) == Before(b, data, r, n)
    ensures Slice(data, Range(r.start, Min(r.end, |data|))) == Slice(data, r)
  {
  }

  lemma CountMin(b: Pos, x: nat, y: nat)
    ensures Count(b, Min(x, y)) == Min(Count(b, x), Count(b, y))
  {
    if x <= y {
      CountGrows(b, x, y);
    } else {
      CountGrows(b, y, x);
    }
  }

  lemma CountGrows(b: Pos, x: nat, y: nat)
    requires x <= y
    ensures Count(b, x) <= Count(b, y)
  {
    if Count(b, y) < Count(b, x) {
      CountBounds(b, x, Count(b, y));
      CountBounds(b, y, Count(b, y));
    }
  }

  /** Block `index`, sliced, is exactly what the read gets next. */
  lemma NextSlice(b: Pos, data: Bytes, r: Range, index: nat)
    requires Index(b, r.start) <= index && (r.start < r.end || |data| <= r.start)
    requires SliceWithin(b, index, r).0 < |BlockBytes(b, data, index)|
    ensures var (from, to) := SliceWithin(b, index, r);
            && 0 <= from <= Min(to, |BlockBytes(b, data, index)|)
            && Before(b, data, r, index) + BlockBytes(b, data, index)[from..Min(to, |BlockBytes(b, data, index)|)]
               == Before(b, data, r, index + 1)
  {
    IndexBounds(b, r.start);
    MulMonotone(Index(b, r.start), index, b);
    var at := Offset(b, index);
    assert (index + 1) * b == at + b;
    assert r.start < at + b;
    Sliced(data, r, at, at + b);
  }

  /** The same with the block's ends named. */
  lemma Sliced(data: Bytes, r: Range, at: nat, next: nat)
    requires r.start < next && at < next && (r.start < r.end || |data| <= r.start)
    requires Max(at, Min(r.start, next)) - at < Min(next, |data|) - Min(at, |data|)
    ensures var (from, to) := (Max(at, Min(r.start, next)) - at, Max(at, Min(r.end, next)) - at);
            var block := data[Min(at, |data|)..Min(next, |data|)];
            && 0 <= from <= Min(to, |block|)
            && Upto(data, r, at) + block[from..Min(to, |block|)] == Upto(data, r, next)
  {
    var from, to := Max(at, Min(r.start, next)) - at, Max(at, Min(r.end, next)) - at;
    var stop := Min(next, |data|);
    var block := data[at..stop];
    assert r.start < r.end && at + from < |data|;
    var end := Min(to, |block|);
    Within(data, at, stop, from, end);
    if r.end <= at {
      assert from == 0 && end == 0;
      assert Upto(data, r, at) == Upto(data, r, next);
      assert block[from..end] == [];
    } else if r.start <= at {
      assert Upto(data, r, at) == data[r.start..at] && Upto(data, r, next) == data[r.start..at + end];
      Adjacent(data, r.start, at, at + end);
    } else {
      assert Upto(data, r, at) == [] && Upto(data, r, next) == data[r.start..at + end];
    }
  }

  /** A block with nothing for the read ends it, and after the first block nothing is missing. */
  lemma NothingLeft(b: Pos, data: Bytes, r: Range, index: nat)
    requires Index(b, r.start) < index
    requires SliceWithin(b, index, r).0 >= |BlockBytes(b, data, index)|
    ensures Before(b, data, r, index) == Slice(data, r)
  {
    IndexBounds(b, r.start);
    MulMonotone(Index(b, r.start), index, b);
    BeforeIsPrefix(b, data, r, index);
  }

  /** A first block without a byte of the range means the range starts at or past the end. */
  lemma StartsPastEnd(b: Pos, data: Bytes, r: Range)
    requires SliceWithin(b, Index(b, r.start), r).0 >= |BlockBytes(b, data, Index(b, r.start))|
    ensures |data| <= r.start
  {
    IndexBounds(b, r.start);
  }

  /** A short block, or the last one of the range, completes the read. */
  lemma LastBlock(b: Pos, data: Bytes, r: Range, index: nat)
    requires |BlockBytes(b, data, index)| < b || index + 1 >= Count(b, r.end)
    ensures Before(b, data, r, index + 1) == Slice(data, r)
  {
    ExpectedBounds(b, index, |data|);
    CountBounds(b, r.end, index + 1);
    BeforeIsPrefix(b, data, r, index + 1);
  }

  /** The part of a block a read of `r` yields, none if the range is over by then. */
  function Cut(b: Pos, block: Bytes, r: Range, index: nat): Option<Bytes>
    requires SliceWithin(b, index, r).0 < |block| ==> SliceWithin(b, index, r).0 <= SliceWithin(b, index, r).1
  {
    var (from, to) := SliceWithin(b, index, r);
    if from >= |block| then None else Some(block[from..Min(to, |block|)])
  }

  lemma CutYields(b: Pos, data: Bytes, r: Range, index: nat, block: Bytes)
    requires block == BlockBytes(b, data, index)
    requires Index(b, r.start) <= index && (r.start < r.end || |data| <= r.start)
    ensures SliceWithin(b, index, r).0 < |block| ==> SliceWithin(b, index, r).0 <= SliceWithin(b, index, r).1
    ensures var out := Cut(b, block, r, index);
            && (out.Some? ==> Before(b, data, r, index) + out.value == Before(b, data, r, index + 1))
            && (out.None? ==> Before(b, data, r, index) == if index == Index(b, r.start) then [] else Slice(data, r))
            && (out.None? && index > Index(b, r.start) ==> Before(b, data, r, index + 1) == Slice(data, r))
            && (|block| < b || index + 1 >= Count(b, r.end) ==> Before(b, data, r, index + 1) == Slice(data, r))
            && (out.None? && index == Index(b, r.start) ==> |data| <= r.start)
    ensures Before(b, data, r, index) <= Slice(data, r) && Before(b, data, r, index + 1) <= Slice(data, r)
  {
    BeforeIsPrefix(b, data, r, index);
    BeforeIsPrefix(b, data, r, index + 1);
    if SliceWithin(b, index, r).0 < |block| {
      NextSlice(b, data, r, index);
    } else if index == Index(b, r.start) {
      NothingBeforeFirst(b, data, r);
      StartsPastEnd(b, data, r);
    } else {
      NothingLeft(b, data, r, index);
      BeforeGrows(b, data, r, index, index + 1);
    }
    if |block| < b || index + 1 >= Count(b, r.end) {
      LastBlock(b, data, r, index);
    }
  }

  /** A resolved request starts in its first block, and the probe's handles start there too. */
  lemma ResolvedBlocks(b: Pos, window: nat, request: ReadRange, size: nat)
    requires Resolve(request, size).Ok?
    ensures var r := Resolve(request, size).value;
            && BlocksOf(b, r) == (Index(b, r.start), Count(b, r.end))
            && (FirstGroup(b, request, window).Some? ==> FirstGroup(b, request, window).value.0 == Index(b, r.start))
  {
    var r := Resolve(request, size).value;
    if r.start >= r.end {
      assert r == Range(0, 0);
    }
  }

  /** The probe never fetches more of the request than there is, nor more than a window of it. */
  lemma ProbedWithin(b: Pos, window: nat, request: ReadRange, size: nat, count: nat)
    requires Resolve(request, size).Ok? && Probed(b, window, request, size, count) && count > 0
    ensures Index(b, Resolve(request, size).value.start) + count <= Count(b, Resolve(request, size).value.end)
    ensures count <= Max(window, 1)
  {
    ResolvedBlocks(b, window, request, size);
    var r := Resolve(request, size).value;
    var first := Index(b, r.start);
    match request {
      case Bounded(g) =>
        AlignedTakeStops(first, Max(Count(b, g.end), first + 1), window);
        CountMin(b, g.end, size);
        IndexBounds(b, g.start);
        CountBounds(b, g.end, first);
      case Full => AlignedTakeStops(first, Max(U32_MAX, first + 1), window);
      case From(_) => AlignedTakeStops(first, Max(U32_MAX, first + 1), window);
      case Suffix(_) =>
    }
  }

  class Reader {
    const w: World
    const o: ObjectKey
    const request: ReadRange
    const env: Environment
    ghost const h: History
    var tick: nat
    var ctx: ReadCtx
    var range: Range
    var known: Option<ObjectMeta>
    var first: nat
    var next: nat
    var end: nat
    var emit: nat
    var window: seq<BlockResult>
    var restarted: bool
    var refetched: Option<nat>
    var done: bool
    /** Everything yielded so far, over the whole life of the stream, and whether it failed. */
    ghost var emitted: Bytes
    ghost var failed: bool

    /** The version being read. */
    ghost function Data(): Bytes
      reads `ctx
    {
      var c := Content(w, h, o, ctx.tag);
      if c.Some? then c.value else []
    }

    function B(): Pos { w.BlockSize(o) }

    /** The most handles ever held. */
    function Bound(): nat { Max(w.Config(o).readWindow, Max(w.Config(o).fetchWindow, 1)) }

    ghost predicate Complete()
      reads this
    {
      emitted == Slice(Data(), range)
    }

    /** The blocks before `emit` reach the end of the range. */
    ghost predicate Covered()
      reads `ctx, `range, `emit
    {
      Stop(Data(), range) <= Max(range.start, Offset(B(), emit))
    }

    /** The window holds the handles of blocks `emit..next`, in order, and never too many. */
    ghost predicate WindowValid()
      reads `ctx, `first, `next, `emit, `window
    {
      first <= emit && next == emit + |window| && |window| <= Bound() && HandlesFor(w, h, ctx, emit, window)
    }

    ghost predicate RangeValid()
      reads `ctx, `range, `known, `first, `end
    {
      && Serves(w, h, o, request, env)
      && ctx.obj == o && KnownCtx(w, h, ctx)
      && first == Index(B(), range.start) && end == Count(B(), range.end)
      && (known.None? ==> ctx.meta.None?)
      && (known.Some? ==> SizeSound(w, h, ctx, known.value) && range.end <= known.value.size)
      && (range.start < range.end || |Data()| <= range.start)
    }

    ghost predicate Valid()
      reads this
    {
      && RangeValid()
      && (!done ==> !failed)
      && (!failed ==> WindowValid() && emitted == Before(B(), Data(), range, emit))
      && emitted <= Slice(Data(), range)
      && (done && !failed ==> Complete() || (Starved() && window == []))
    }

    /** The window in use is zero blocks, which the builders rule out and the configuration file does
        not: the read window once the size is known, the fetch window until then. */
    predicate Starved()
      reads `known
    {
      if known.Some? then w.Config(o).readWindow == 0 else w.Config(o).fetchWindow == 0
    }

    /** The window the next `fill` will use. */
    function Limit(): nat
      reads `known, `tick
    {
      if known.Some? || env.anyMeta(tick).Some? then w.Config(o).readWindow else w.Config(o).fetchWindow
    }

    /** How far a read window of zero lets the stream get: what it holds already and, while the size is
        not known, one group. */
    function Reach(): nat
      reads `known, `tick, `window, `next, `end
    {
      if known.None? && env.anyMeta(tick).None? && w.Config(o).fetchWindow > 0 && window == [] && next < end
      then GroupEnd(next, end, w.Config(o).fetchWindow)
      else next
    }

    /** With a read window of zero the stream holds all it will ever get once the size is known. */
    predicate Shut()
      reads `known, `window
    {
      w.Config(o).readWindow == 0 && (known.Some? || window == [])
    }

    /** No fetch of this version fails: not the ones waited on, and none still to be scheduled. */
    ghost predicate Untroubled()
      reads this
    {
      AllOk(window) && forall t, lo, hi :: lo <= hi ==> AllOk(env.schedule(t, ctx, lo, hi))
    }

    /** No fetch of this version fails for good: every block comes, or is cancelled and comes when it is asked
        for once more. */
    ghost predicate Mending()
      reads `ctx, `tick, `emit, `next, `window, `refetched
    {
      && Mends(env, ctx, emit, tick, refetched, window)
      && forall t, lo, hi :: tick <= t && next <= lo <= hi ==>
           Mends(env, ctx, lo, t + 1, refetched, env.schedule(t, ctx, lo, hi))
    }

    /** The read starts over on what a resolution answered. */
    ghost predicate Begun(answer: (ReadCtx, seq<BlockResult>))
      reads `ctx, `range, `known, `first, `next, `end, `emit, `window
    {
      && ctx == answer.0 && window == answer.1 && known == ctx.meta && emit == first && next <= end
      && ctx.meta.Some? && Resolve(request, ctx.meta.value.size) == Ok(range)
    }

    /** The read is on a version it restarted on, for what its request resolves to there. */
    ghost predicate Renewed()
      reads `ctx, `range, `restarted
    {
      && restarted && ctx.meta.Some? && Resolve(request, ctx.meta.value.size).Ok?
      && range.start == Resolve(request, ctx.meta.value.size).value.start
      && Stop(Data(), range) == Stop(Data(), Resolve(request, ctx.meta.value.size).value)
      && exists t :: env.resolve(t).Ok? && env.resolve(t).value.0 == ctx
    }

    /** The version was overwritten: its first block, held or still to be scheduled, comes back stale. */
    ghost predicate StaleFirst()
      reads this
    {
      && !restarted && emit == first && known.Some?
      && (if window != [] then window[0] == Err(Stale)
          else w.Config(o).readWindow > 0 && next < end
               && forall t, hi :: hi > next ==> Leads(env.schedule(t, ctx, next, hi), Err(Stale)))
    }

    /** There is something to read, or it is plain that there is nothing. */
    ghost predicate Promising()
      reads `ctx, `range, `window, `next, `end
    {
      |Data()| > range.start || (window == [] && next >= end)
    }

    constructor (w: World, o: ObjectKey, request: ReadRange, env: Environment, ghost h: History,
                 ctx: ReadCtx, range: Range, fetched: seq<BlockResult>)
      requires Serves(w, h, o, request, env) && Resolved(w, h, o, request, ctx, fetched)
      requires ctx.meta.Some? ==> Resolve(request, ctx.meta.value.size) == Ok(range)
      requires ctx.meta.None? ==> range.start < range.end
      ensures Valid() && !done && !restarted && emitted == [] && this.ctx == ctx && this.range == range
              && window == fetched && known == ctx.meta && emit == first
      ensures this.w == w && this.o == o && this.request == request && this.env == env && this.h == h
    {
      this.w, this.o, this.request, this.env, this.h, this.ctx, this.range := w, o, request, env, h, ctx, range;
      tick, known, restarted, refetched, done, window := 1, ctx.meta, false, None, false, fetched;
      var (from, to) := BlocksOf(w.BlockSize(o), range);
      first, next, end, emit := from, from + |fetched|, to, from;
      emitted, failed := [], false;
      new;
      Opened(w, h, o, request, ctx, range, fetched);
      NothingBeforeFirst(B(), Data(), range);
    }

    /** Takes what is known of the object, if nothing was, and cuts the range to its size. */
    method Learn(meta: Option<ObjectMeta>)
      requires RangeValid() && (meta.Some? ==> SizeSound(w, h, ctx, meta.value))
      modifies `range, `end, `known, `tick
      ensures RangeValid() && range.start == old(range.start) && end <= old(end)
      ensures Stop(Data(), range) == old(Stop(Data(), range)) && Slice(Data(), range) == old(Slice(Data(), range))
      ensures forall n: nat :: Before(B(), Data(), range, n) == old(Before(B(), Data(), range, n))
      ensures known.Some? <==> old(known.Some?) || meta.Some? || env.anyMeta(old(tick)).Some?
      ensures known.None? ==> end == old(end)
      ensures old(known.Some?) ==> range == old(range) && end == old(end) && known == old(known)
      ensures old(tick) <= tick
    {
      if known.Some? {
        return;
      }
      var found := if meta.Some? then meta else env.anyMeta(tick);
      tick := tick + 1;
      if found.None? {
        return;
      }
      assert SizeSound(w, h, ctx, found.value);
      forall n: nat
        ensures Before(B(), Data(), Range(range.start, Min(range.end, |Data()|)), n) == Before(B(), Data(), range, n)
      {
        CutToSize(B(), Data(), range, n);
      }
      CutToSize(B(), Data(), range, 0);
      CountMin(B(), range.end, found.value.size);
      range := Range(range.start, Min(range.end, found.value.size));
      end := Min(end, Count(B(), found.value.size));
      known := found;
    }

    /** Asks for the next `take` blocks. */
    method Schedule(take: nat)
      requires RangeValid() && WindowValid() && |window| + take <= Bound()
      modifies `tick, `next, `window
      ensures WindowValid() && next == old(next) + take && |window| == |old(window)| + take
      ensures window == old(window) + env.schedule(old(tick), ctx, old(next), next)
      ensures old(Mending()) ==> Mending()
    {
      var handles := env.schedule(tick, ctx, next, next + take);
      assert Booked(w, h, ctx, next, next + take, handles);
      HandlesJoin(w, h, ctx, emit, window, handles);
      if Mending() {
        MendsJoin(env, ctx, emit, tick, refetched, window, handles);
      }
      tick, next, window := tick + 1, next + take, window + handles;
    }

    /** The loop of `fill`: whole aligned groups until the window is full or the range is covered. */
    method Extend(limit: nat)
      requires RangeValid() && WindowValid() && limit <= Bound()
      modifies `tick, `next, `window
      ensures WindowValid()
      ensures window == [] ==> next >= end || limit == 0
      ensures limit == 0 ==> window == old(window) && next == old(next)
      ensures known.None? && old(window) == [] && limit > 0 && old(next) < end ==>
        next == GroupEnd(old(next), end, w.Config(o).fetchWindow)
      ensures old(next) >= end ==> next == old(next)
      ensures known.Some? && next < end ==>
                |window| >= limit || |window| + AlignedTake(next, end, w.Config(o).fetchWindow) > limit
      ensures old(Untroubled()) ==> Untroubled()
      ensures old(Mending()) ==> Mending()
      ensures old(StaleFirst()) && limit == w.Config(o).readWindow ==> Leads(window, Err(Stale))
    {
      while |window| < limit && next < end
        invariant WindowValid() && (limit == 0 ==> window == old(window)) && (old(Untroubled()) ==> Untroubled())
        invariant old(Mending()) ==> Mending()
        invariant (limit == 0 || known.None? || old(next) >= end ==> next == old(next) && window == old(window))
        invariant old(StaleFirst()) ==> if window == [] then StaleFirst() else Leads(window, Err(Stale))
        decreases end - next
      {
        AlignedTakeStops(next, end, w.Config(o).fetchWindow);
        TakesToGroupEnd(next, end, w.Config(o).fetchWindow);
        var take := AlignedTake(next, end, w.Config(o).fetchWindow);
        if window != [] && |window| + take > limit {
          return;
        }
        Schedule(take);
        if known.None? {
          return;
        }
      }
    }

    method Fill()
      requires Valid() && !done
      modifies `range, `end, `known, `tick, `next, `window
      ensures Valid() && end <= old(end)
      ensures window == [] ==> next >= end || Starved()
      ensures old(Limit()) == 0 ==> window == old(window)
      ensures Stop(Data(), range) == old(Stop(Data(), range))
      ensures old(Shut()) ==> next == old(Reach())
      ensures old(StaleFirst()) ==> Leads(window, Err(Stale))
      ensures old(window == [] && next >= end) ==> window == []
      ensures range.start == old(range.start) && (old(Untroubled()) ==> Untroubled()) && (old(Mending()) ==> Mending())
    {
      Learn(None);
      Extend(if known.Some? then w.Config(o).readWindow else w.Config(o).fetchWindow);
    }

    /** The handle of block `index` was just taken from the window. */
    ghost predicate Popped(index: nat)
      reads this
    {
      && RangeValid() && WindowValid() && !done && !failed
      && first <= index && emit == index + 1 && emitted == Before(B(), Data(), range, index)
    }

    /** One block arrived: its part of the range is yielded, or the range is over. */
    method Yield(index: nat, block: Bytes) returns (r: Option<Result<Bytes, NestorError>>)
      requires Popped(index) && known.Some? && block == BlockBytes(B(), Data(), index)
      modifies `done, `emitted, `failed
      ensures Valid()
      ensures r.Some? && r.value.Ok? ==> emitted == old(emitted) + r.value.value && !failed && (done || emit < end)
      ensures r.Some? && r.value.Err? ==> done && failed && emitted == old(emitted) == []
      ensures r.Some? && r.value.Err? ==>
                r.value.error == Unsatisfiable(range.start, range.end, known.value.size) && |Data()| <= range.start
      ensures r.None? ==> done && !failed && emitted == old(emitted) && Complete()
    {
      CutYields(B(), Data(), range, index, block);
      var out := Cut(B(), block, range, index);
      if out.None? {
        done := true;
        if index == first {
          failed := true;
          return Some(Err(Unsatisfiable(range.start, range.end, known.value.size)));
        }
        return None;
      }
      emitted := emitted + out.value;
      done := |block| < B() || index + 1 >= end;
      return Some(Ok(out.value));
    }

    method Serve(index: nat, block: Block) returns (r: Option<Result<Bytes, NestorError>>)
      requires Popped(index) && Good(w, h, ctx.Key(index), block)
      modifies `range, `end, `known, `tick, `done, `emitted, `failed
      ensures Valid() && end <= old(end)
      ensures r.Some? && r.value.Ok? ==> emitted == old(emitted) + r.value.value && !failed && (done || emit < end)
      ensures r.Some? && r.value.Err? ==> done && failed && emitted == old(emitted) == []
      ensures r.Some? && r.value.Err? ==> r.value.error.Unsatisfiable? && |Data()| <= range.start
      ensures r.None? ==> done && !failed && emitted == old(emitted) && Complete()
      ensures range.start == old(range.start) && Stop(Data(), range) == old(Stop(Data(), range)) && known.Some?
      ensures old(Mending()) ==> Mending()
    {
      Learn(Some(block.meta));
      if old(Mending()) {
        MendsLater(env, ctx, emit, old(tick), tick, refetched, window);
      }
      r := Yield(index, block.data);
    }

    /** A cancelled fetch is asked for once more and put back in front. */
    method Refetch(index: nat)
      requires Popped(index) && |window| < Bound()
      modifies `tick, `emit, `window, `refetched
      ensures Valid() && emit == index && refetched == Some(index)
      ensures window == env.schedule(old(tick), ctx, index, index + 1) + old(window) && tick == old(tick) + 1
    {
      refetched, emit := Some(index), index;
      var handles := env.schedule(tick, ctx, index, index + 1);
      tick := tick + 1;
      assert Booked(w, h, ctx, index, index + 1, handles);
      HandlesJoin(w, h, ctx, index, handles, window);
      window := handles + window;
      BeforeIsPrefix(B(), Data(), range, index);
    }

    /** The version was overwritten before anything was yielded: start over on the new one. */
    method Restart() returns (error: Option<NestorError>)
      requires Popped(first) && !restarted
      modifies `tick, `ctx, `range, `known, `first, `next, `end, `emit, `window, `restarted
      ensures restarted && error == Obstacle(request, env.resolve(old(tick)))
      ensures error.None? ==> Valid() && Begun(env.resolve(old(tick)).value)
      ensures error.Some? ==> RangeValid() && emitted <= Slice(Data(), range) && ctx == old(ctx)
    {
      NothingBeforeFirst(B(), Data(), range);
      restarted, window := true, [];
      var answer := env.resolve(tick);
      tick := tick + 1;
      if answer.Err? {
        return Some(answer.error);
      }
      var (renewed, fetched) := answer.value;
      if renewed.meta.None? {
        return Some(Stale);
      }
      var meta := renewed.meta.value;
      var resolved := Resolve(request, meta.size);
      if resolved.Err? {
        return Some(Unsatisfiable(resolved.error.start, resolved.error.end, meta.size));
      }
      Begin(renewed, resolved.value, fetched);
      return None;
    }

    method Begin(renewed: ReadCtx, range': Range, fetched: seq<BlockResult>)
      requires Serves(w, h, o, request, env) && Resolved(w, h, o, request, renewed, fetched) && emitted == []
      requires renewed.meta.Some? && Resolve(request, renewed.meta.value.size) == Ok(range') && !done && !failed
      modifies `ctx, `range, `known, `first, `next, `end, `emit, `window
      ensures Valid() && Begun((renewed, fetched))
    {
      var (from, to) := BlocksOf(B(), range');
      ctx, range, known := renewed, range', renewed.meta;
      first, next, end, emit, window := from, from + |fetched|, to, from, fetched;
      Opened(w, h, o, request, renewed, range', fetched);
      NothingBeforeFirst(B(), Data(), range);
    }

    /** The handle just taken, and the rest, mend. */
    ghost predicate MendingAfter(handle: BlockResult)
      reads `ctx, `tick, `emit, `next, `window, `refetched
    {
      Mending() && emit > 0 && Mends(env, ctx, emit - 1, tick, refetched, [handle])
    }

    /** Takes the next handle. */
    method Pop() returns (index: nat, handle: BlockResult)
      requires Valid() && !done && window != []
      modifies `emit, `window
      ensures Popped(index) && index == old(emit) && GoodResult(w, h, ctx.Key(index), handle) && |window| < Bound()
      ensures handle == old(window)[0] && window == old(window)[1..]
    {
      index, handle := emit, window[0];
      assert GoodResult(w, h, ctx.Key(emit + 0), window[0]);
      HandlesTail(w, h, ctx, emit, window);
      emit, window := emit + 1, window[1..];
    }

    /** Block `index` was asked for once more and its handle put in front of what was left. */
    ghost predicate AskedAgain(index: nat, asked: nat, left: seq<BlockResult>)
      reads `ctx, `tick, `emit, `window, `refetched
    {
      && emit == index && refetched == Some(index) && tick == asked + 1
      && window == env.schedule(asked, ctx, index, index + 1) + left
    }

    /** And what is left still mends. */
    method PopMending() returns (index: nat, handle: BlockResult)
      requires Valid() && !done && window != []
      modifies `emit, `window
      ensures Popped(index) && index == old(emit) && GoodResult(w, h, ctx.Key(index), handle) && |window| < Bound()
      ensures handle == old(window)[0] && window == old(window)[1..]
      ensures old(Mending()) ==> MendingAfter(handle)
    {
      if Mending() {
        MendsPop(this);
      }
      index, handle := Pop();
    }

    /** A handle failed: refetch once, restart once, or give up. Returns the error of a stream that
        gives up. */
    method Recover(index: nat, e: NestorError) returns (error: Option<NestorError>)
      requires Popped(index) && |window| < Bound()
      modifies this
      ensures Valid() && emitted == old(emitted)
      ensures error.None? ==> !done
      ensures error.Some? ==> done && failed
      ensures ctx == old(ctx) || (emitted == [] && !old(restarted) && restarted)
      ensures old(restarted) ==> restarted
      ensures restarted == old(restarted) ==> end == old(end) && emit >= index
      ensures error.None? && restarted == old(restarted) ==> emit == index && refetched == Some(index) != old(refetched)
      ensures e.Cancelled? && old(refetched) != Some(index) ==> error.None? && AskedAgain(index, old(tick), old(window))
      ensures e.Cancelled? && old(refetched) != Some(index) ==>
                restarted == old(restarted) && ctx == old(ctx) && range == old(range) && known == old(known)
                && next == old(next) && end == old(end)
      ensures e.Stale? && !old(restarted) && index == old(first) ==>
                error == Obstacle(request, env.resolve(old(tick)))
      ensures e.Stale? && !old(restarted) && index == old(first) && error.None? ==>
                restarted && Begun(env.resolve(old(tick)).value)
      ensures !(e.Cancelled? && old(refetched) != Some(index)) ==>
                !(e.Stale? && !old(restarted) && index == old(first)) ==> error == Some(e)
    {
      error := None;
      BeforeIsPrefix(B(), Data(), range, index);
      if e.Cancelled? && refetched != Some(index) {
        Refetch(index);
      } else if e.Stale? && !restarted && index == first {
        NothingBeforeFirst(B(), Data(), range);
        error := Restart();
      } else {
        error := Some(e);
      }
      if error.Some? {
        done, failed := true, true;
      }
    }

    /** Fills the window and takes a handle from it, or finds that the range is covered. */
    method Advance() returns (taken: Option<(nat, BlockResult)>)
      requires Valid() && !done
      modifies `range, `end, `known, `tick, `next, `window, `emit, `done
      ensures end <= old(end)
      ensures taken.None? ==> Valid() && done && emit == old(emit)
      ensures taken.Some? ==>
        Popped(taken.value.0) && taken.value.0 == old(emit) && GoodResult(w, h, ctx.Key(old(emit)), taken.value.1)
        && |window| < Bound()
      ensures old(Limit() == 0 && window == []) ==> taken.None?
      ensures Stop(Data(), range) == old(Stop(Data(), range))
      ensures old(Shut()) ==> next == old(Reach())
      ensures range.start == old(range.start)
      ensures old(Untroubled()) ==> Untroubled() && (taken.Some? ==> taken.value.1.Ok?)
      ensures old(Mending()) && taken.Some? ==> MendingAfter(taken.value.1)
      ensures old(StaleFirst()) ==> taken.Some? && taken.value == (first, Err(Stale))
      ensures old(window == [] && next >= end) ==> taken.None?
    {
      Fill();
      if window == [] {
        CountBounds(B(), range.end, emit);
        BeforeIsPrefix(B(), Data(), range, emit);
        done := true;
        return None;
      }
      var index, handle := PopMending();
      return Some((index, handle));
    }

    /** What a round about block `index` may come to; `None` is another round. */
    twostate predicate Goes(index: nat, new r: Option<Option<Result<Bytes, NestorError>>>)
      reads this
    {
      && Valid() && emitted == old(emitted) + Yielded(r)
      && (r.None? ==> !done)
      && (r.Some? && r.value.None? ==> done && !failed)
      && (r.Some? && r.value.Some? && r.value.value.Ok? ==> !failed && (done || index < emit < end))
      && (r.Some? && r.value.Some? && r.value.value.Err? ==> done && failed)
      && (ctx == old(ctx) || (old(emitted) == [] && !old(restarted) && restarted))
      && (old(restarted) ==> restarted)
      && (restarted == old(restarted) ==> end <= old(end) && index <= emit)
      && (r.None? && restarted == old(restarted) ==> emit == index && refetched == Some(emit) != old(refetched))
    }

    /** The read stays on its version and its range, and fails only if the range starts past the end. */
    twostate predicate Stays(new r: Option<Option<Result<Bytes, NestorError>>>)
      reads this
    {
      && ctx == old(ctx) && range.start == old(range.start) && Stop(Data(), range) == old(Stop(Data(), range))
      && restarted == old(restarted) && (r.None? ==> window != [])
      && (r.Some? && r.value.Some? && r.value.value.Err? ==> |Data()| <= range.start)
    }

    /** What becomes of a handle that failed. */
    method Fail(index: nat, e: NestorError) returns (r: Option<Option<Result<Bytes, NestorError>>>)
      requires Popped(index) && |window| < Bound()
      modifies this
      ensures Goes(index, r)
      ensures e.Stale? && !old(restarted) && index == old(first) ==>
                var error := Obstacle(request, env.resolve(old(tick)));
                if error.Some? then r == Some(Some(Err(error.value)))
                else r.None? && restarted && Begun(env.resolve(old(tick)).value)
      ensures e.Stale? && !old(restarted) && index == old(first) && Renewable(request, env) ==>
                r.None? && Renewed() && Untroubled() && Promising()
      ensures old(MendingAfter(Err(e))) ==> Stays(r) && r.None? && Mending()
    {
      ghost var handle: BlockResult := Err(e);
      assert [handle][0] == handle;
      var error := Recover(index, e);
      if old(MendingAfter(handle)) {
        MendsAgain(this, index, old(refetched), old(tick), old(window));
      } else if e.Stale? && !old(restarted) && index == old(first) && Renewable(request, env) {
        NewlyBegun(this, old(tick));
      }
      return if error.Some? then Some(Some(Err(error.value))) else None;
    }

    /** What becomes of a handle. */
    method Take(index: nat, handle: BlockResult) returns (r: Option<Option<Result<Bytes, NestorError>>>)
      requires Popped(index) && GoodResult(w, h, ctx.Key(index), handle) && |window| < Bound()
      modifies this
      ensures Goes(index, r)
      ensures handle.Ok? ==> r.Some? && known.Some? && Stays(r) && next == old(next) && window == old(window)
      ensures handle == Err(Stale) && !old(restarted) && index == old(first) && Renewable(request, env) ==>
                r.None? && Renewed() && Untroubled() && Promising()
      ensures old(MendingAfter(handle)) ==> Stays(r) && Mending()
    {
      if handle.Ok? {
        var served := Serve(index, handle.value);
        return Some(served);
      }
      r := Fail(index, handle.error);
    }

    /** Once round the loop of `next`; `None` is another round. */
    method Round() returns (r: Option<Option<Result<Bytes, NestorError>>>)
      requires Valid() && !done
      modifies this
      ensures Goes(old(emit), r)
      ensures old(Limit() == 0 && window == []) ==> r == Some(None) && (Complete() <==> old(Complete()))
      ensures old(Untroubled() && Shut()) ==> next == old(Reach()) && (known.Some? || r == Some(None))
      ensures old(Untroubled()) ==> Untroubled() && r.Some? && Stays(r)
      ensures old(Mending()) ==> Stays(r) && (r != Some(None) ==> Mending())
      ensures old(window == [] && next >= end) ==> r == Some(None)
      ensures old(StaleFirst()) && Renewable(request, env) ==> r.None? && Renewed() && Untroubled() && Promising()
    {
      var taken := Advance();
      if taken.None? {
        return Some(None);
      }
      r := Take(taken.value.0, taken.value.1);
    }

    /** Over every run of the environment the bytes yielded so far are a prefix of the range in one
        version, the whole of it once the stream has ended without an error. */
    method Next() returns (r: Option<Result<Bytes, NestorError>>)
      requires Valid()
      modifies this
      ensures Valid() && emitted == old(emitted) + Yielded(Some(r))
      ensures r.Some? && r.value.Ok? ==> !failed
      ensures r.Some? && r.value.Err? ==> done && failed
      ensures r.None? ==> done && failed == old(failed)
      ensures ctx == old(ctx) || (old(emitted) == [] && !old(restarted) && restarted)
      ensures old(restarted) ==> restarted
      ensures r.Some? && r.value.Ok? ==> done || (restarted && !old(restarted)) || old(emit) < emit < end <= old(end)
      ensures old(done) ==> r.None?
      ensures old(!done && Limit() == 0 && window == []) ==> r.None? && !failed && (Complete() <==> old(Complete()))
      ensures old(!done && Untroubled() && Shut()) ==> next == old(Reach()) && (known.Some? || r.None?)
      ensures old(done) ==> next == old(next) && known == old(known) && ctx == old(ctx) && range == old(range)
      ensures old(Untroubled()) ==> Untroubled() && ctx == old(ctx)
      ensures old(Untroubled()) ==> range.start == old(range.start) && Stop(Data(), range) == old(Stop(Data(), range))
      ensures old(Untroubled()) && r.Some? && r.value.Err? ==> |Data()| <= range.start
      ensures old(Untroubled() && Promising()) ==> (r.Some? ==> r.value.Ok? && Promising())
      ensures old(!done && Mending()) ==>
                && ctx == old(ctx) && range.start == old(range.start) && Stop(Data(), range) == old(Stop(Data(), range))
                && restarted == old(restarted) && (r.Some? ==> Mending())
                   && (r.Some? && r.value.Err? ==> |Data()| <= range.start)
      ensures old(!done && StaleFirst()) && Renewable(request, env) ==>
                Renewed() && Untroubled() && (r.Some? ==> r.value.Ok? && Promising())
    {
      while !done
        invariant old(Limit() == 0 && window == []) ==>
                    Limit() == 0 && window == [] && (Complete() <==> old(Complete()))
        invariant done == old(done)
        invariant old(done) ==> next == old(next) && known == old(known) && ctx == old(ctx) && range == old(range)
        invariant old(Untroubled() && Shut()) ==> Shut() && Reach() == old(Reach())
        invariant Valid() && emitted == old(emitted) && failed == old(failed)
        invariant ctx == old(ctx) || (emitted == [] && !old(restarted) && restarted)
        invariant old(restarted) ==> restarted
        invariant restarted == old(restarted) ==> old(emit) <= emit && end <= old(end)
        invariant old(Untroubled()) ==> Untroubled() && ctx == old(ctx)
        invariant old(Untroubled()) ==>
                    range.start == old(range.start) && Stop(Data(), range) == old(Stop(Data(), range))
        invariant old(Untroubled() && Promising()) ==> Promising()
        invariant old(!done && Mending()) ==>
                    && Mending() && ctx == old(ctx) && restarted == old(restarted)
                    && range.start == old(range.start) && Stop(Data(), range) == old(Stop(Data(), range))
        invariant old(!done && StaleFirst()) && Renewable(request, env) ==>
                    if restarted then Renewed() && Untroubled() && Promising() else StaleFirst()
        decreases !restarted, refetched != Some(emit)
      {
        var outcome := Round();
        if outcome.Some? {
          return outcome.value;
        }
      }
      return None;
    }

    /** `get_opts` (nestor/src/nestor.rs:338-371): resolve the object, then the range against it. */
    static method Open(w: World, o: ObjectKey, request: ReadRange, env: Environment, ghost h: History)
      returns (r: Result<Reader, NestorError>)
      requires Serves(w, h, o, request, env)
      ensures r.Ok? ==> fresh(r.value) && r.value.Valid() && !r.value.done && r.value.emitted == []
      ensures r.Ok? ==>
                r.value.w == w && r.value.o == o && r.value.h == h && r.value.request == request && r.value.env == env
      ensures r.Ok? ==> env.resolve(0).Ok? && env.resolve(0).value == (r.value.ctx, r.value.window)
      ensures r.Ok? ==> r.value.known == r.value.ctx.meta && r.value.emit == r.value.first
      ensures r.Ok? && r.value.ctx.meta.Some? ==> Resolve(request, r.value.ctx.meta.value.size) == Ok(r.value.range)
      ensures r.Ok? && r.value.ctx.meta.None? ==> request == Bounded(r.value.range)
      ensures r.Ok? <==> env.resolve(0).Ok? && Satisfiable(request, env.resolve(0).value.0.meta)
    {
      var answer := env.resolve(0);
      if answer.Err? {
        return Err(answer.error);
      }
      var (ctx, fetched) := answer.value;
      var range: Range;
      if ctx.meta.Some? {
        var resolved := Resolve(request, ctx.meta.value.size);
        if resolved.Err? {
          return Err(Unsatisfiable(resolved.error.start, resolved.error.end, ctx.meta.value.size));
        }
        range := resolved.value;
      } else {
        range := request.range;
        if range.start >= range.end {
          return Err(Unsatisfiable(range.start, range.end, 0));
        }
      }
      var reader := new Reader(w, o, request, env, h, ctx, range, fetched);
      return Ok(reader);
    }

    /** `collect`: with windows of at least one block, all of the range of one version or an error, and
        an error only if a fetch failed or the range starts past the end. */
    method Collect() returns (r: Result<Bytes, NestorError>)
      requires Valid() && !done && emitted == []
      modifies this
      ensures Valid() && done
      ensures r.Ok? ==> !failed && r.value == emitted
      ensures r.Ok? && !Starved() ==> r.value == Slice(Data(), range)
      ensures r.Err? ==> failed
      ensures old(Mending()) && |old(Data())| > old(range.start) ==>
                r.Ok? && ctx == old(ctx) && Slice(Data(), range) == old(Slice(Data(), range))
      ensures old(Untroubled() && Shut()) && r.Ok? ==> r.value == old(Before(B(), Data(), range, Reach()))
      ensures old(StaleFirst()) && Renewable(request, env) ==> r.Ok? && Renewed()
      ensures old(StaleFirst()) && Renewable(request, env) && w.Config(o).readWindow > 0 ==>
                r.value == Slice(Data(), Resolve(request, ctx.meta.value.size).value)
    {
      var buf := [];
      while true
        invariant Valid() && buf == emitted && !failed
        invariant old(Mending()) ==>
                    && ctx == old(ctx) && range.start == old(range.start)
                       && Stop(Data(), range) == old(Stop(Data(), range))
                    && (!done ==> Mending())
        invariant old(Untroubled() && Shut()) ==>
                    && Untroubled() && ctx == old(ctx) && range.start == old(range.start)
                    && Stop(Data(), range) == old(Stop(Data(), range))
                    && Shut() && Reach() == old(Reach()) && (done ==> known.Some?)
        invariant old(StaleFirst()) && Renewable(request, env) ==>
                    (StaleFirst() && !done) || (Renewed() && Untroubled() && (Promising() || done))
        decreases !restarted, !done, Max(end - emit, 0)
      {
        var chunk := Next();
        if chunk.None? {
          EndsAtNext(this);
          return Ok(buf);
        }
        if chunk.value.Err? {
          return Err(chunk.value.error);
        }
        buf := buf + chunk.value.value;
      }
    }
  }

  predicate Leads(handles: seq<BlockResult>, result: BlockResult) { handles != [] && handles[0] == result }

  /** Resolving again always finds a version that can be read without trouble. */
  ghost predicate Renewable(request: ReadRange, env: Environment) {
    forall t :: env.resolve(t).Ok? && Readable(request, env, env.resolve(t).value)
  }

  ghost predicate Readable(request: ReadRange, env: Environment, answer: (ReadCtx, seq<BlockResult>)) {
    && answer.0.meta.Some? && Resolve(request, answer.0.meta.value.size).Ok? && AllOk(answer.1)
    && forall t, lo, hi :: lo <= hi ==> AllOk(env.schedule(t, answer.0, lo, hi))
  }

  /** What keeps a read from starting over on an answer: its error, no metadata, or a request it does
      not satisfy. */
  function Obstacle(request: ReadRange, answer: Result<(ReadCtx, seq<BlockResult>), NestorError>): Option<NestorError> {
    if answer.Err? then Some(answer.error)
    else if answer.value.0.meta.None? then Some(Stale)
    else
      var size := answer.value.0.meta.value.size;
      var resolved := Resolve(request, size);
      if resolved.Ok? then None else Some(Unsatisfiable(resolved.error.start, resolved.error.end, size))
  }

  /** A read that just started over on a readable version has no trouble ahead. */
  lemma NewlyBegun(reader: Reader, t: nat)
    requires reader.Valid() && !reader.done && reader.restarted && Renewable(reader.request, reader.env)
    requires reader.Begun(reader.env.resolve(t).value)
    ensures reader.Renewed() && reader.Untroubled() && reader.Promising()
  {
    assert Readable(reader.request, reader.env, reader.env.resolve(t).value);
    if reader.range.start >= reader.range.end {
      assert reader.range == Range(0, 0);
      CountBounds(reader.B(), 0, 0);
    }
  }

  /** Every one of the handles of blocks from `lo` on yields its block, or was cancelled, has not been asked
      for again, and will yield its block if it is, from `tick` on. */
  ghost predicate Mends(env: Environment, ctx: ReadCtx, lo: nat, tick: nat, refetched: Option<nat>,
                        handles: seq<BlockResult>)
  {
    forall j :: 0 <= j < |handles| ==> handles[j].Ok? || (handles[j] == Err(Cancelled) && refetched != Some(lo + j)
                                                          && Recovers(env, ctx, lo + j, tick))
  }

  ghost predicate Recovers(env: Environment, ctx: ReadCtx, index: nat, tick: nat) {
    forall t :: t >= tick ==> Comes(env, ctx, index, t)
  }

  predicate Comes(env: Environment, ctx: ReadCtx, index: nat, t: nat) { AllOk(env.schedule(t, ctx, index, index + 1)) }

  predicate AllOk(handles: seq<BlockResult>) { forall k :: 0 <= k < |handles| ==> handles[k].Ok? }

  /** Whether a read of `request` can start on an object with the given metadata, if it is known. */
  predicate Satisfiable(request: ReadRange, meta: Option<ObjectMeta>) {
    if meta.Some? then Resolve(request, meta.value.size).Ok?
    else request.Bounded? && request.range.start < request.range.end
  }

  function Yielded(r: Option<Option<Result<Bytes, NestorError>>>): Bytes {
    if r.Some? && r.value.Some? && r.value.value.Ok? then r.value.value.value else []
  }

  lemma MendsJoin(env: Environment, ctx: ReadCtx, lo: nat, tick: nat, refetched: Option<nat>, a: seq<BlockResult>,
                  b: seq<BlockResult>)
    requires Mends(env, ctx, lo, tick, refetched, a) && Mends(env, ctx, lo + |a|, tick + 1, refetched, b)
    ensures Mends(env, ctx, lo, tick + 1, refetched, a + b)
  {
    forall j | 0 <= j < |a + b| && !(a + b)[j].Ok?
      ensures (a + b)[j] == Err(Cancelled) && refetched != Some(lo + j) && Recovers(env, ctx, lo + j, tick + 1)
    {
      if j >= |a| {
        assert b[j - |a|] == (a + b)[j] && lo + |a| + (j - |a|) == lo + j;
      }
    }
  }

  /** Taking the front handle off. */
  lemma MendsPop(reader: Reader)
    requires reader.Mending() && reader.window != []
    ensures Mends(reader.env, reader.ctx, reader.emit, reader.tick, reader.refetched, [reader.window[0]])
    ensures Mends(reader.env, reader.ctx, reader.emit + 1, reader.tick, reader.refetched, reader.window[1..])
  {
    var rest := reader.window[1..];
    forall j | 0 <= j < |rest| && !rest[j].Ok?
      ensures rest[j] == Err(Cancelled) && reader.refetched != Some(reader.emit + 1 + j)
              && Recovers(reader.env, reader.ctx, reader.emit + 1 + j, reader.tick)
    {
      assert rest[j] == reader.window[j + 1];
    }
  }

  lemma UntroubledMends(reader: Reader)
    requires reader.Untroubled()
    ensures reader.Mending()
  {
  }

  /** Asking for a cancelled block again brings it. */
  lemma MendsAgain(reader: Reader, index: nat, was: Option<nat>, asked: nat, left: seq<BlockResult>)
    requires reader.Valid() && reader.AskedAgain(index, asked, left) && reader.next > index
    requires Mends(reader.env, reader.ctx, index + 1, asked, was, left)
    requires Recovers(reader.env, reader.ctx, index, asked)
    requires forall t, lo, hi :: asked <= t && reader.next <= lo <= hi ==>
      Mends(reader.env, reader.ctx, lo, t + 1, was, reader.env.schedule(t, reader.ctx, lo, hi))
    ensures reader.Mending() && reader.window != []
  {
    var env, ctx, refetched := reader.env, reader.ctx, reader.refetched;
    var handles := env.schedule(asked, ctx, index, index + 1);
    assert Comes(env, ctx, index, asked);
    assert Booked(reader.w, reader.h, ctx, index, index + 1, handles);
    MendsElsewhere(env, ctx, index + 1, asked, asked + 1, was, refetched, left);
    forall j | 0 <= j < |reader.window| && !reader.window[j].Ok?
      ensures reader.window[j] == Err(Cancelled) && refetched != Some(index + j)
              && Recovers(env, ctx, index + j, asked + 1)
    {
      assert j > 0 && reader.window[j] == left[j - 1];
    }
    forall t, lo, hi | reader.tick <= t && reader.next <= lo <= hi
      ensures Mends(env, ctx, lo, t + 1, refetched, env.schedule(t, ctx, lo, hi))
    {
      MendsElsewhere(env, ctx, lo, t + 1, t + 1, was, refetched, env.schedule(t, ctx, lo, hi));
    }
  }

  lemma MendsLater(env: Environment, ctx: ReadCtx, lo: nat, tick: nat, later: nat, refetched: Option<nat>,
                   handles: seq<BlockResult>)
    requires Mends(env, ctx, lo, tick, refetched, handles) && tick <= later
    ensures Mends(env, ctx, lo, later, refetched, handles)
  {
  }

  lemma MendsElsewhere(env: Environment, ctx: ReadCtx, lo: nat, tick: nat, later: nat, was: Option<nat>,
                       refetched: Option<nat>, handles: seq<BlockResult>)
    requires Mends(env, ctx, lo, tick, was, handles) && tick <= later && (refetched.Some? ==> refetched.value < lo)
    ensures Mends(env, ctx, lo, later, refetched, handles)
  {
  }

  lemma HandlesJoin(w: World, h: History, ctx: ReadCtx, lo: nat, a: seq<BlockResult>, b: seq<BlockResult>)
    requires HandlesFor(w, h, ctx, lo, a) && HandlesFor(w, h, ctx, lo + |a|, b)
    ensures HandlesFor(w, h, ctx, lo, a + b)
  {
    forall j | 0 <= j < |a + b| ensures GoodResult(w, h, ctx.Key(lo + j), (a + b)[j]) {
      if j >= |a| {
        assert GoodResult(w, h, ctx.Key(lo + |a| + (j - |a|)), b[j - |a|]);
      }
    }
  }

  lemma HandlesTail(w: World, h: History, ctx: ReadCtx, lo: nat, handles: seq<BlockResult>)
    requires handles != [] && HandlesFor(w, h, ctx, lo, handles)
    ensures HandlesFor(w, h, ctx, lo + 1, handles[1..])
  {
    forall j | 0 <= j < |handles[1..]| ensures GoodResult(w, h, ctx.Key(lo + 1 + j), handles[1..][j]) {
      assert GoodResult(w, h, ctx.Key(lo + (j + 1)), handles[j + 1]);
    }
  }

  lemma StartsBeforeEnd(b: Pos, r: Range)
    requires r.start < r.end || r.start == 0
    ensures Index(b, r.start) <= Count(b, r.end)
  {
    IndexBounds(b, r.start);
    CountBounds(b, r.end, Index(b, r.start));
  }

  /** A reader opened on a resolved request holds the probe's handles for its first blocks. */
  lemma Opened(w: World, h: History, o: ObjectKey, request: ReadRange, ctx: ReadCtx, range: Range,
               fetched: seq<BlockResult>)
    requires Resolved(w, h, o, request, ctx, fetched)
    requires ctx.meta.Some? ==> Resolve(request, ctx.meta.value.size) == Ok(range)
    requires ctx.meta.None? ==> range.start < range.end
    ensures BlocksOf(w.BlockSize(o), range) == (Index(w.BlockSize(o), range.start), Count(w.BlockSize(o), range.end))
    ensures HandlesFor(w, h, ctx, Index(w.BlockSize(o), range.start), fetched)
    ensures |fetched| <= Max(w.Config(o).fetchWindow, 1)
    ensures ctx.meta.Some? ==> Index(w.BlockSize(o), range.start) + |fetched| <= Count(w.BlockSize(o), range.end)
    ensures ctx.meta.Some? ==> SizeSound(w, h, ctx, ctx.meta.value) && range.end <= ctx.meta.value.size
  {
    if ctx.meta.Some? {
      ResolvedBlocks(w.BlockSize(o), w.Config(o).fetchWindow, request, ctx.meta.value.size);
      StartsBeforeEnd(w.BlockSize(o), range);
      if fetched != [] {
        ProbedWithin(w.BlockSize(o), w.Config(o).fetchWindow, request, ctx.meta.value.size, |fetched|);
      }
    }
  }

  /** A clean end has yielded all the blocks that were asked for. */
  lemma EndsAtNext(reader: Reader)
    requires reader.Valid() && reader.done && !reader.failed
    ensures reader.emitted == Before(reader.B(), reader.Data(), reader.range, reader.next)
  {
    BeforeGrows(reader.B(), reader.Data(), reader.range, reader.emit, reader.next);
  }

  /** A stream that has not failed has yielded its whole range exactly if it got to the end of it. So one
      whose window in use is zero, with nothing left in it and blocks still to come, is cut short by
      its next call, without an error. */
  lemma CompleteExactly(reader: Reader)
    requires reader.Valid() && !reader.failed
    ensures reader.Complete() <==> reader.Covered()
  {
    var start, stop, at := reader.range.start, Stop(reader.Data(), reader.range), Offset(reader.B(), reader.emit);
    if start < stop && at < stop {
      assert |Slice(reader.Data(), reader.range)| == stop - start;
      assert |reader.emitted| == if at < start then 0 else at - start;
    }
  }

  /** Whatever a reader has yielded is a prefix of its range in every version with the tag it pinned,
      and all of that range if it ended without an error and the window in use is not zero. */
  lemma OneVersion(reader: Reader, p: nat)
    requires reader.Valid() && Faithful(reader.w, reader.h) && IsVersion(reader.h, reader.o, p)
    requires VersionTag(reader.w, reader.o, reader.h[p].version.value) == reader.ctx.tag
    ensures reader.emitted <= Slice(reader.h[p].version.value.data, reader.range)
    ensures reader.done && !reader.failed && !reader.Starved() ==>
              reader.emitted == Slice(reader.h[p].version.value.data, reader.range)
  {
    ContentOf(reader.w, reader.h, reader.o, p);
  }
}
