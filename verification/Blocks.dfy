/** Block size arithmetic, range resolution and fetch grouping (nestor/src/block.rs). Block sizes
    are powers of two in the source; nothing here needs more than that they are positive, so a
    shift by the block size is written as a multiplication or a division. */
module Blocks {
  import opened Common

  const U32_MAX: nat := 0xFFFF_FFFF
  const U64_MAX: nat := 0xFFFF_FFFF_FFFF_FFFF

  datatype Range = Range(start: nat, end: nat) {
    function Len(): nat { if start < end then end - start else 0 }
  }

  function Offset(b: Pos, index: nat): nat { index * b }

  function Index(b: Pos, offset: nat): nat { offset / b }

  function Count(b: Pos, size: nat): nat { (size + b - 1) / b }

  /** `BlockSize::index` as computed: the cast keeps the low 32 bits. */
  function Index32(b: Pos, offset: nat): nat { Index(b, offset) % (U32_MAX + 1) }

  /** `BlockSize::count` as computed: saturates at `u32::MAX`. */
  function Count32(b: Pos, size: nat): nat { if Count(b, size) > U32_MAX then U32_MAX else Count(b, size) }

  /** An index names a block of the object exactly when the block starts before its end. */
  lemma CountBounds(b: Pos, size: nat, i: nat)
    ensures i < Count(b, size) <==> i * b < size
  {
    var c := Count(b, size);
    assert c * b <= size + b - 1 < c * b + b;
    MulMonotone(i, c, b);
    MulMonotone(c, i, b);
  }

  /** An offset lies in the block `Index` names. */
  lemma IndexBounds(b: Pos, offset: nat)
    ensures Index(b, offset) * b <= offset < Index(b, offset) * b + b
  {
  }

  /** Below 2^32 blocks the machine arithmetic is exact, and at or past it the truncated index names
      an earlier block and the saturated count misses the last ones. */
  lemma MachineArithmeticExact(b: Pos, x: nat)
    ensures Index32(b, x) == Index(b, x) <==> x < (U32_MAX + 1) * b
    ensures Count32(b, x) == Count(b, x) <==> x <= U32_MAX * b
  {
    IndexBounds(b, x);
    MulMonotone(U32_MAX + 1, Index(b, x), b);
    MulMonotone(Index(b, x), U32_MAX, b);
    CountBounds(b, x, U32_MAX);
  }

  function Span(b: Pos, first: nat, count: nat, size: Option<nat>): (r: Range) {
    var end := Offset(b, first + count);
    Range(Offset(b, first), if size.Some? then Min(end, size.value) else end)
  }

  function BlockRange(b: Pos, index: nat, size: Option<nat>): (r: Range) { Span(b, index, 1, size) }

  /** The bytes `BlockStream` is asked for when block `index` of an object of `size` bytes is owed. */
  function Expected(b: Pos, index: nat, size: nat): nat { BlockRange(b, index, Some(size)).Len() }

  /** Block `index` of the object `data`, empty past its end. */
  function BlockBytes(b: Pos, data: Bytes, index: nat): (r: Bytes)
    ensures |r| == Expected(b, index, |data|)
  {
    data[Min(index * b, |data|)..Min((index + 1) * b, |data|)]
  }

  lemma ExpectedBounds(b: Pos, index: nat, size: nat)
    ensures Expected(b, index, size) == 0 <==> index >= Count(b, size)
    ensures Expected(b, index, size) <= b
    ensures Expected(b, index, size) < b <==> (index + 1) * b > size
  {
    CountBounds(b, size, index);
  }

  /** The stream of an object's bytes from block `index` on starts with that block. */
  lemma TakeBlock(b: Pos, data: Bytes, index: nat, rest: Bytes)
    requires index * b <= |data| && rest <= data[index * b..]
    requires |rest| >= Expected(b, index, |data|)
    ensures rest[..Expected(b, index, |data|)] == BlockBytes(b, data, index)
    ensures (index + 1) * b <= |data| ==> rest[Expected(b, index, |data|)..] <= data[(index + 1) * b..]
  {
    var from := data[index * b..];
    var n := Expected(b, index, |data|);
    PrefixDrop(rest, from, n);
    assert from[..n] == BlockBytes(b, data, index);
    if (index + 1) * b <= |data| {
      assert from[n..] == data[(index + 1) * b..];
    }
  }

  function BlocksOf(b: Pos, r: Range): (int, int) {
    if r.start >= r.end then (0, 0) else (Index(b, r.start), Count(b, r.end))
  }

  // ---- Requests ----

  datatype ReadRange = Full | Bounded(range: Range) | From(start: nat) | Suffix(len: nat)

  /** Whether a request wants byte `at` of an object of the given size. */
  predicate Wants(request: ReadRange, size: nat, at: nat) {
    at < size
    && (match request
        case Full => true
        case Bounded(g) => g.start <= at < g.end
        case From(start) => start <= at
        case Suffix(len) => size - at <= len)
  }

  /** The range of an object that is exactly what the request wants of it; a request that wants none of
      it is refused, unless the object is empty and the request names no place in it. */
  function Resolve(request: ReadRange, size: nat): (r: Result<Range, Range>)
    ensures r.Ok? ==> r.value.start <= r.value.end <= size
    ensures forall at: nat :: Wants(request, size, at) <==> r.Ok? && r.value.start <= at < r.value.end
    ensures r.Ok? && r.value.start == r.value.end <==>
              size == 0 && (request.Full? || (request.Suffix? && request.len > 0))
  {
    match request
    case Full => Ok(Range(0, size))
    case Bounded(g) =>
      if g.start >= g.end || g.start >= size then Err(g) else Ok(Range(g.start, Min(g.end, size)))
    case From(start) =>
      if start >= size then Err(Range(start, U64_MAX)) else Ok(Range(start, size))
    case Suffix(len) =>
      if len == 0 then Err(Range(size, size)) else Ok(Range(Max(size - len, 0), size))
  }

  /** The part of block `index` a read of `r` wants, relative to the block. */
  function SliceWithin(b: Pos, index: nat, r: Range): (int, int) {
    var start := Offset(b, index);
    (Max(start, Min(r.start, start + b)) - start, Max(start, Min(r.end, start + b)) - start)
  }

  // ---- Grouping ----

  datatype FetchGroup = FetchGroup(first: nat, count: nat)

  /** The block indexes a group's span covers. */
  function Covered(g: FetchGroup): (s: seq<nat>)
    ensures |s| == g.count
  {
    seq(g.count, j requires 0 <= j < g.count => g.first + j)
  }

  function Expand(groups: seq<FetchGroup>): seq<nat> {
    if groups == [] then [] else Expand(groups[..|groups| - 1]) + Covered(groups[|groups| - 1])
  }

  /** A group is one origin request: non-empty and inside one window-aligned cell. */
  predicate OneCell(g: FetchGroup, window: Pos) {
    g.count > 0 && g.first / window == (g.first + g.count - 1) / window
  }

  predicate ValidGroups(groups: seq<FetchGroup>, window: Pos) {
    forall g :: g in groups ==> OneCell(g, window)
  }

  /** The misses at which any valid grouping has to start a new request. */
  function Breaks(misses: seq<nat>, window: Pos): nat {
    if |misses| <= 1 then |misses|
    else
      var n := |misses| - 1;
      Breaks(misses[..n], window) + (if misses[n] == misses[n - 1] + 1 && misses[n] % window != 0 then 0 else 1)
  }

  /** Joining the next index keeps a group in its cell exactly when the index is not a boundary. */
  lemma SameCell(x: nat, window: Pos)
    ensures x / window == (x + 1) / window <==> (x + 1) % window != 0
  {
    var q := (x + 1) / window;
    if (x + 1) % window == 0 {
      assert q * window == x + 1;
      assert q >= 1;
      assert (q - 1) * window == q * window - window;
      DivUnique(x, window, q - 1);
    } else {
      assert q * window <= x < q * window + window;
      DivUnique(x, window, q);
    }
  }

  /** The group that follows `groups` when `idx` is the next miss. */
  function Extend(groups: seq<FetchGroup>, idx: nat, window: Pos): seq<FetchGroup> {
    var n := |groups| - 1;
    if n >= 0 && groups[n].first + groups[n].count == idx && idx % window != 0
    then groups[..n] + [FetchGroup(groups[n].first, groups[n].count + 1)]
    else groups + [FetchGroup(idx, 1)]
  }

  /** What the loop of `GroupMisses` has established for the misses seen so far. */
  predicate Grouping(groups: seq<FetchGroup>, misses: seq<nat>, window: Pos) {
    && Expand(groups) == misses
    && ValidGroups(groups, window)
    && |groups| == Breaks(misses, window)
    && (groups != [] ==>
          misses != [] && groups[|groups| - 1].first + groups[|groups| - 1].count == misses[|misses| - 1] + 1)
    && (groups == [] ==> misses == [])
  }

  lemma ExtendCovers(groups: seq<FetchGroup>, idx: nat, window: Pos)
    ensures Expand(Extend(groups, idx, window)) == Expand(groups) + [idx]
  {
    var n := |groups| - 1;
    var out := Extend(groups, idx, window);
    if |out| == |groups| {
      var g := groups[n];
      assert out[..n] == groups[..n];
      assert Covered(out[n]) == Covered(g) + [idx];
      assert Expand(groups[..n]) + (Covered(g) + [idx]) == (Expand(groups[..n]) + Covered(g)) + [idx];
    } else {
      assert out[..n + 1] == groups;
      assert Covered(out[n + 1]) == [idx];
    }
  }

  lemma ExtendStaysInCell(groups: seq<FetchGroup>, idx: nat, window: Pos)
    requires ValidGroups(groups, window)
    ensures ValidGroups(Extend(groups, idx, window), window)
  {
    var n := |groups| - 1;
    var out := Extend(groups, idx, window);
    if |out| == |groups| {
      SameCell(idx - 1, window);
      assert OneCell(groups[n], window);
      assert OneCell(out[n], window);
    } else {
      assert OneCell(out[n + 1], window);
    }
    forall g | g in out ensures OneCell(g, window) {}
  }

  lemma GroupingStep(groups: seq<FetchGroup>, misses: seq<nat>, idx: nat, window: Pos)
    requires Grouping(groups, misses, window)
    ensures Grouping(Extend(groups, idx, window), misses + [idx], window)
  {
    ExtendCovers(groups, idx, window);
    ExtendStaysInCell(groups, idx, window);
    assert (misses + [idx])[..|misses|] == misses;
  }

  method GroupMisses(misses: seq<nat>, requested: nat) returns (groups: seq<FetchGroup>)
    ensures Grouping(groups, misses, Max(requested, 1))
  {
    var window: Pos := Max(requested, 1);
    groups := [];
    for k := 0 to |misses|
      invariant Grouping(groups, misses[..k], window)
    {
      GroupingStep(groups, misses[..k], misses[k], window);
      assert misses[..k] + [misses[k]] == misses[..k + 1];
      ghost var next := Extend(groups, misses[k], window);
      var n := |groups| - 1;
      if n >= 0 && groups[n].first + groups[n].count == misses[k] && misses[k] % window != 0 {
        groups := groups[..n] + [FetchGroup(groups[n].first, groups[n].count + 1)];
      } else {
        groups := groups + [FetchGroup(misses[k], 1)];
      }
      assert groups == next;
    }
    assert misses[..|misses|] == misses;
  }

  /** A run inside one cell never breaks, so appending it costs at most one break. */
  lemma {:induction false} BreaksOfRun(misses: seq<nat>, g: FetchGroup, window: Pos)
    requires OneCell(g, window)
    ensures Breaks(misses + Covered(g), window) <= Breaks(misses, window) + 1
    decreases g.count
  {
    var last := g.first + g.count - 1;
    var all := misses + Covered(g);
    var n := |all| - 1;
    if g.count == 1 {
      assert all[..n] == misses;
    } else {
      var shorter := FetchGroup(g.first, g.count - 1);
      assert all[..n] == misses + Covered(shorter);
      OneCellShrinks(g, window);
      SameCell(last - 1, window);
      BreaksOfRun(misses, shorter, window);
    }
  }

  lemma OneCellShrinks(g: FetchGroup, window: Pos)
    requires OneCell(g, window) && g.count > 1
    ensures OneCell(FetchGroup(g.first, g.count - 1), window)
    ensures (g.first + g.count - 2) / window == (g.first + g.count - 1) / window
  {
    var q := g.first / window;
    var last := g.first + g.count - 1;
    assert q * window <= g.first <= last - 1 < last < q * window + window;
    DivUnique(last - 1, window, q);
  }

  /** No way of covering the same misses, in the same order, by requests inside one cell each uses
      fewer requests than `GroupMisses`. */
  lemma {:induction false} FewestGroups(other: seq<FetchGroup>, window: Pos)
    requires ValidGroups(other, window)
    ensures Breaks(Expand(other), window) <= |other|
  {
    if other != [] {
      var n := |other| - 1;
      FewestGroups(other[..n], window);
      BreaksOfRun(Expand(other[..n]), other[n], window);
    }
  }

  /** Dealing consecutive slots out by group counts hands each group the indexes of its span. */
  lemma {:induction false} DealtByCount(groups: seq<FetchGroup>, k: nat)
    requires k < |groups|
    ensures var at := |Expand(groups[..k])|;
            && at + groups[k].count <= |Expand(groups)|
            && Expand(groups)[at..at + groups[k].count] == Covered(groups[k])
  {
    var n := |groups| - 1;
    if k < n {
      DealtByCount(groups[..n], k);
      assert groups[..n][..k] == groups[..k];
    }
  }

  /** Length of the leading run that becomes one origin request. */
  function RunLength(misses: seq<nat>, window: Pos): (n: nat)
    ensures n <= |misses|
    ensures misses != [] ==> n > 0
    ensures forall j :: 0 <= j < n ==> misses[j] == misses[0] + j
  {
    if |misses| <= 1 then |misses|
    else if misses[1] == misses[0] + 1 && misses[1] % window != 0 then
      var tail := RunLength(misses[1..], window);
      assert forall j :: 0 < j < tail + 1 ==> misses[j] == misses[1..][j - 1];
      1 + tail
    else 1
  }

  /** The run goes on as far as it can. */
  lemma {:induction false} RunLengthStops(misses: seq<nat>, window: Pos)
    requires misses != []
    ensures var n := RunLength(misses, window);
            && n > 0 && (forall j :: 0 < j < n ==> misses[j] % window != 0)
            && (n < |misses| ==> !(misses[n] == misses[n - 1] + 1 && misses[n] % window != 0))
  {
    if |misses| > 1 && misses[1] == misses[0] + 1 && misses[1] % window != 0 {
      RunLengthStops(misses[1..], window);
      forall j | 0 < j < RunLength(misses, window) ensures misses[j] % window != 0 {
        assert j > 1 ==> misses[j] == misses[1..][j - 1];
      }
    }
  }

  /** No boundary lies inside a group. */
  lemma InsideCell(g: FetchGroup, j: nat, window: Pos)
    requires OneCell(g, window) && 0 < j < g.count
    ensures (g.first + j) % window != 0
  {
    var q := g.first / window;
    assert q * window <= g.first < g.first + g.count - 1 + 1 <= q * window + window;
    DivUnique(g.first + j - 1, window, q);
    DivUnique(g.first + j, window, q);
    SameCell(g.first + j - 1, window);
  }

  lemma {:induction false} ExpandFront(groups: seq<FetchGroup>)
    requires groups != []
    ensures Expand(groups) == Covered(groups[0]) + Expand(groups[1..])
  {
    var n := |groups| - 1;
    if n == 0 {
      assert groups[..0] == [] && groups[1..] == [];
    } else {
      var front, last := groups[..n], Covered(groups[n]);
      ExpandFront(front);
      assert front[1..] == groups[1..][..n - 1];
      Reassociate(Covered(groups[0]), Expand(front[1..]), last);
    }
  }

  lemma Reassociate(x: seq<nat>, y: seq<nat>, z: seq<nat>)
    ensures (x + y) + z == x + (y + z)
  {
  }

  /** Whether `c` carries on the last run of `a`. */
  predicate Joins(a: seq<nat>, c: seq<nat>, window: Pos) {
    a != [] && c != [] && c[0] == a[|a| - 1] + 1 && c[0] % window != 0
  }

  lemma {:induction false} BreaksConcat(a: seq<nat>, c: seq<nat>, window: Pos)
    ensures Breaks(a + c, window) == Breaks(a, window) + Breaks(c, window) - (if Joins(a, c, window) then 1 else 0)
    decreases |c|
  {
    if c == [] {
      assert a + c == a;
    } else if a == [] {
      assert a + c == c;
    } else {
      var n := |c| - 1;
      assert (a + c)[..|a| + n] == a + c[..n];
      BreaksConcat(a, c[..n], window);
    }
  }

  /** A group of a grouping is all of a run: nothing joins it. */
  lemma FirstGroupStops(groups: seq<FetchGroup>, window: Pos)
    requires groups != [] && ValidGroups(groups, window) && |groups| <= Breaks(Expand(groups), window)
    ensures !Joins(Covered(groups[0]), Expand(groups[1..]), window)
    ensures |groups[1..]| == Breaks(Expand(groups[1..]), window)
  {
    assert OneCell(groups[0], window);
    ExpandFront(groups);
    BreaksConcat(Covered(groups[0]), Expand(groups[1..]), window);
    BreaksOfRun([], groups[0], window);
    assert [] + Covered(groups[0]) == Covered(groups[0]);
    FewestGroups(groups[1..], window);
  }

  /** A run inside one cell that nothing joins is the leading run. */
  lemma LeadingRun(g: FetchGroup, rest: seq<nat>, window: Pos)
    requires OneCell(g, window) && !Joins(Covered(g), rest, window)
    ensures RunLength(Covered(g) + rest, window) == g.count
  {
    var misses := Covered(g) + rest;
    RunLengthStops(misses, window);
    var n := RunLength(misses, window);
    if rest != [] {
      assert misses[g.count] == rest[0] && misses[g.count - 1] == Covered(g)[g.count - 1];
    }
    if n < g.count {
      assert misses[n] == g.first + n && misses[n - 1] == g.first + n - 1;
      InsideCell(g, n, window);
    }
  }

  /** The first request `GroupMisses` makes is the leading run, and the others group the rest: taking
      one leading run after another is grouping. */
  lemma FirstGroupIsRun(groups: seq<FetchGroup>, misses: seq<nat>, window: Pos)
    requires Grouping(groups, misses, window) && misses != []
    ensures var n := RunLength(misses, window);
            groups[0] == FetchGroup(misses[0], n) && Grouping(groups[1..], misses[n..], window)
  {
    var g, rest := groups[0], Expand(groups[1..]);
    assert OneCell(g, window);
    ExpandFront(groups);
    FirstGroupStops(groups, window);
    LeadingRun(g, rest, window);
    assert misses == Covered(g) + rest && misses[g.count..] == rest && misses[0] == Covered(g)[0];
  }

  function AlignedTake(next: nat, end: nat, requested: nat): (take: nat)
    requires next < end
  {
    var window := Max(requested, 1);
    Min((next / window + 1) * window, end) - next
  }

  /** The first window boundary past `next`, counted up from the boundary `from`. */
  function CellEnd(next: nat, from: nat, window: Pos): (r: nat)
    ensures r > next
    decreases next + 1 - from
  {
    if from > next then from else CellEnd(next, from + window, window)
  }

  lemma {:induction false} CellEndIsBoundary(next: nat, k: nat, window: Pos)
    requires k <= next / window + 1
    ensures CellEnd(next, k * window, window) == (next / window + 1) * window
    decreases next / window + 1 - k
  {
    var q := next / window;
    assert q * window <= next < (q + 1) * window;
    if k <= q {
      MulMonotone(k, q, window);
      CellEndIsBoundary(next, k + 1, window);
      assert (k + 1) * window == k * window + window;
    }
  }

  /** Where the group that starts at `next` ends. */
  function GroupEnd(next: nat, end: nat, requested: nat): nat { Min(CellEnd(next, 0, Max(requested, 1)), end) }

  lemma TakesToGroupEnd(next: nat, end: nat, requested: nat)
    requires next < end
    ensures next + AlignedTake(next, end, requested) == GroupEnd(next, end, requested)
  {
    CellEndIsBoundary(next, 0, Max(requested, 1));
  }

  /** `aligned_take` makes progress, stays inside the range and the cell, and stops only at the end
      or at the boundaries `GroupMisses` cuts at. */
  lemma AlignedTakeStops(next: nat, end: nat, requested: nat)
    requires next < end
    ensures StopsAtBoundary(next, end, AlignedTake(next, end, requested), Max(requested, 1))
  {
    var window: Pos := Max(requested, 1);
    CellOf(next, window);
    StopsInCell(next, end, window, next / window);
  }

  lemma StopsInCell(next: nat, end: nat, window: Pos, q: nat)
    requires next < end
    requires q * window <= next < q * window + window
    ensures StopsAtBoundary(next, end, Min((q + 1) * window, end) - next, window)
  {
    assert (q + 1) * window == q * window + window;
    var stop := Min(q * window + window, end);
    forall j | next < j < stop ensures j % window != 0 {
      NotBoundary(j, window, q);
    }
    Boundary(window, q + 1);
  }

  predicate StopsAtBoundary(next: nat, end: nat, take: nat, window: Pos) {
    && 1 <= take <= window && next + take <= end
    && (next + take == end || (next + take) % window == 0)
    && (forall j :: next < j < next + take ==> j % window != 0)
  }

  lemma CellOf(x: nat, window: Pos)
    ensures x / window * window <= x < x / window * window + window
  {
  }

  lemma NotBoundary(j: nat, window: Pos, q: nat)
    requires q * window < j < q * window + window
    ensures j % window != 0
  {
    DivUnique(j, window, q);
    assert j == (j / window) * window + j % window;
  }

  lemma Boundary(window: Pos, q: nat)
    ensures (q * window) % window == 0
  {
    DivUnique(q * window, window, q);
    assert q * window == (q * window / window) * window + (q * window) % window;
  }

  function FirstGroup(b: Pos, request: ReadRange, window: nat): (r: Option<(nat, nat)>)
    ensures r.Some? ==> r.value.0 < r.value.1
  {
    if request.Suffix? then None
    else
      var (start, end) := match request
        case Full => (0, U32_MAX)
        case From(s) => (Index(b, s), U32_MAX)
        case Bounded(g) => (Index(b, g.start), Count(b, g.end))
        case Suffix(_) => (0, 0);
      var stop := Max(end, start + 1);
      AlignedTakeStops(start, stop, window);
      Some((start, start + AlignedTake(start, stop, window)))
  }

  /** A probe asks for exactly what the request wants of the window-aligned cell its first block is in: only
      a suffix has no such group, the group stays inside the cell, and no byte wanted there is left out. */
  lemma FirstGroupCovers(b: Pos, request: ReadRange, window: nat, size: nat, at: nat)
    requires Wants(request, size, at) && Index(b, at) < U32_MAX
    ensures FirstGroup(b, request, window).None? <==> request.Suffix?
    ensures var group := FirstGroup(b, request, window);
            group.Some? ==>
              && group.value.0 == Index(b, Resolve(request, size).value.start) <= Index(b, at)
              && group.value.1 <= CellEnd(group.value.0, 0, Max(window, 1))
              && (Index(b, at) < CellEnd(group.value.0, 0, Max(window, 1)) ==> Index(b, at) < group.value.1)
  {
    if !request.Suffix? {
      var start := Resolve(request, size).value.start;
      var first := Index(b, start);
      IndexBounds(b, start);
      IndexBounds(b, at);
      MulMonotone(Index(b, at), first, b);
      if request.Bounded? {
        CountBounds(b, request.range.end, Index(b, at));
      }
      TakesToGroupEnd(first, Max(if request.Bounded? then Count(b, request.range.end) else U32_MAX, first + 1), window);
    }
  }
}
