/** A body raced against a backup request for the range still owed (nestor/src/body.rs:78-224). */
module HedgedBodies {
  import opened Common
  import opened Blocks
  import opened Origin
  import opened Errors
  import opened BlockStreams
  import opened Engine

  /** An answer together with the items its body will yield. */
  datatype Reply = Reply(response: Response, items: Items)

  datatype Backup = Idle | Opening(reply: Result<Reply, OriginError>) | Streaming(stream: BlockStream)

  /** What happens next while `next_block` waits: a stream is polled while some items arrive, the
      hedge delay passes (with or without a permit to spend, and with the answer a backup request
      would get), or the backup's headers arrive. An event the current state does not wait for is
      a spurious wake-up. */
  datatype Event =
    | PollPrimary(arrivals: nat)
    | PollBackup(arrivals: nat)
    | Stall(permit: bool, reply: Result<Reply, OriginError>)
    | Opened

  /** An answer that describes some version of the object and delivers a prefix of what it claims. */
  predicate Genuine(h: History, o: ObjectKey, reply: Reply) {
    && IsVersion(h, o, reply.response.from)
    && Describes(h[reply.response.from].version.value, reply.response)
    && reply.response.content == Delivered(reply.items)
  }

  /** No stall finds a permit for a backup. */
  predicate NoBackup(script: seq<Event>) { forall k :: 0 <= k < |script| && script[k].Stall? ==> !script[k].permit }

  predicate GenuineScript(h: History, o: ObjectKey, script: seq<Event>) {
    forall k :: 0 <= k < |script| && script[k].Stall? && script[k].reply.Ok? ==> Genuine(h, o, script[k].reply.value)
  }

  /** What an adopted answer delivers is, after the skip, what the owed block starts with. */
  lemma AdoptedBytes(w: World, h: History, ctx: ReadCtx, reply: Reply, data: Bytes, start: nat)
    requires Faithful(w, h) && Content(w, h, ctx.obj, ctx.tag) == Some(data)
    requires ctx.tag == IMMUTABLE_TAG ==> w.Config(ctx.obj).immutable
    requires w.Config(ctx.obj).immutable ==> ctx.tag == IMMUTABLE_TAG
    requires Genuine(h, ctx.obj, reply) && Adoptable(w, ctx, reply.response, start) && start <= |data|
    ensures After(Delivered(reply.items), start - reply.response.start) <= data[start..]
  {
    var r := reply.response;
    ContentOf(w, h, ctx.obj, r.from);
    assert h[r.from].version.value.data == data;
    var skip := start - r.start;
    if skip <= |r.content| {
      PrefixDrop(r.content, data[r.start..], skip);
      assert data[r.start..][skip..] == data[start..];
      assert r.content <= data[r.start..r.end] <= data[r.start..];
    }
  }

  /** An answer of some version carries on exactly if it is the version being read, starts at a block boundary
      and does not start past the owed byte. */
  lemma AdoptableExactly(w: World, ctx: ReadCtx, v: Version, r: Response, start: nat)
    requires Describes(v, r) && (ctx.tag == IMMUTABLE_TAG <==> w.Config(ctx.obj).immutable)
    ensures Adoptable(w, ctx, r, start) <==>
              && VersionTag(w, ctx.obj, v) == ctx.tag && r.start <= start
              && Offset(w.BlockSize(ctx.obj), Index(w.BlockSize(ctx.obj), r.start)) == r.start
  {
  }

  class HedgedBody {
    const w: World
    const ctx: ReadCtx
    const hedging: bool
    ghost const h: History
    ghost const data: Bytes
    var primary: BlockStream
    var backup: Backup

    ghost predicate Reads() {
      && Faithful(w, h) && Content(w, h, ctx.obj, ctx.tag) == Some(data)
      && (ctx.tag == IMMUTABLE_TAG <==> w.Config(ctx.obj).immutable)
    }

    ghost function Repr(): set<object>
      reads this
    {
      {this, primary} + (if backup.Streaming? then {backup.stream} else {})
    }

    /** `stream` is at byte `start` of the version being read. */
    ghost predicate At(stream: BlockStream, start: nat)
      reads stream
    {
      stream.Valid() && start <= |data| && stream.Content() <= data[start..]
    }

    /** Every stream this body may still take a block from is at byte `start`. */
    ghost predicate Owing(start: nat)
      reads this, Repr()
    {
      && At(primary, start)
      && (backup.Opening? && backup.reply.Ok? ==> Genuine(h, ctx.obj, backup.reply.value))
      && (backup.Streaming? ==> backup.stream != primary && At(backup.stream, start))
    }

    constructor (w: World, ctx: ReadCtx, hedging: bool, items: Items, ghost h: History, ghost data: Bytes,
                 ghost start: nat)
      requires start <= |data| && Delivered(items) <= data[start..]
      ensures Owing(start) && fresh(Repr()) && backup.Idle?
      ensures this.w == w && this.ctx == ctx && this.hedging == hedging && this.h == h && this.data == data
      ensures primary.Content() == Delivered(items)
    {
      this.w, this.ctx, this.hedging, this.h, this.data, backup := w, ctx, hedging, h, data, Idle;
      primary := new BlockStream(items, 0);
    }

    /** `adopt`: only an aligned answer of the version being read that does not start past the owed
        block carries on, and it skips to that block. */
    method Adopt(reply: Result<Reply, OriginError>, start: nat) returns (stream: BlockStream?)
      requires Reads() && start <= |data|
      requires reply.Ok? ==> Genuine(h, ctx.obj, reply.value)
      ensures stream != null <==> reply.Ok? && Adoptable(w, ctx, reply.value.response, start)
      ensures stream != null ==> fresh(stream) && At(stream, start)
    {
      if reply.Err? || !Adoptable(w, ctx, reply.value.response, start) {
        return null;
      }
      AdoptedBytes(w, h, ctx, reply.value, data, start);
      stream := new BlockStream(reply.value.items, start - reply.value.response.start);
    }

    /** Whether a failed primary has a backup to hand over to. */
    ghost predicate CanCarryOn(start: nat)
      reads this
    {
      backup.Streaming? || (backup.Opening? && backup.reply.Ok?
                            && Adoptable(w, ctx, backup.reply.value.response, start))
    }

    /** A primary that failed hands over to the backup if there is one that can carry on. */
    method HandOver(e: OriginError, start: nat) returns (r: Option<OriginError>)
      requires Reads() && start <= |data|
      requires backup.Opening? && backup.reply.Ok? ==> Genuine(h, ctx.obj, backup.reply.value)
      requires backup.Streaming? ==> At(backup.stream, start)
      modifies this
      ensures r.None? ==> At(primary, start) && fresh(Repr() - old(Repr()))
      ensures r.None? <==> e.Retryable() && old(CanCarryOn(start))
      ensures r.None? ==> backup.Idle?
      ensures r.Some? ==> r.value == e && primary == old(primary) && (backup == old(backup) || backup.Idle?)
    {
      if !e.Retryable() {
        return Some(e);
      }
      var was := backup;
      backup := Idle;
      match was {
        case Idle => return Some(e);
        case Opening(reply) =>
          var stream := Adopt(reply, start);
          if stream == null {
            return Some(e);
          }
          primary := stream;
          return None;
        case Streaming(stream) =>
          primary := stream;
          return None;
      }
    }

    /** Polling a stream that is at `start`. */
    method Poll(stream: BlockStream, start: nat, expected: nat, arrivals: nat)
      returns (r: Option<Result<Bytes, OriginError>>)
      requires At(stream, start)
      modifies stream
      ensures r.Some? && r.value.Ok? ==>
        start + expected <= |data| && r.value.value == data[start..start + expected] && At(stream, start + expected)
      ensures r.Some? && r.value.Ok? ==> |stream.Content()| == |old(stream.Content())| - expected
      ensures r.Some? && r.value.Err? ==>
                |old(stream.Content())| < expected && r.value.error == old(Ending(stream.items))
      ensures r.None? ==> Ending(stream.items) == old(Ending(stream.items))
      ensures r.None? ==>
                At(stream, start) && stream.Content() == old(stream.Content()) && arrivals <= |old(stream.items)|
    {
      r := stream.NextBlock(expected, arrivals);
      if r.Some? && r.value.Ok? {
        PrefixDrop(old(stream.Content()), data[start..], expected);
        assert data[start..][..expected] == data[start..start + expected];
        assert data[start..][expected..] == data[start + expected..];
      }
    }

    /** What a return from `next_block` at byte `start` promises. */
    ghost predicate Returned(r: Result<Bytes, OriginError>, start: nat, expected: nat)
      reads this, Repr()
    {
      r.Ok? ==>
        start + expected <= |data| && r.value == data[start..start + expected] && backup.Idle?
        && Owing(start + expected)
    }

    /** The read fails only with the `ending` of the body it began with, unless that is an error worth
        another try, after which a backup may have taken over. */
    ghost predicate Follows(r: Option<Result<Bytes, OriginError>>, ending: OriginError)
      reads this, primary
    {
      && (r.Some? && r.value.Err? ==> r.value.error == ending || ending.Retryable())
      && (r.None? ==> Ending(primary.items) == ending || ending.Retryable())
    }

    method PollPrimary(start: nat, expected: nat, arrivals: nat) returns (r: Option<Result<Bytes, OriginError>>)
      requires Reads() && Owing(start)
      modifies this, primary
      ensures fresh(Repr() - old(Repr()))
      ensures r.Some? ==> Returned(r.value, start, expected)
      ensures r.Some? && r.value.Err? ==> |old(primary.Content())| < expected
      ensures r.None? ==> Owing(start)
      ensures r.None? ==> |old(primary.Content())| < expected || primary.Content() == old(primary.Content())
      ensures arrivals > |old(primary.items)| && |old(primary.Content())| >= expected ==> r.Some? && r.value.Ok?
      ensures arrivals > |old(primary.items)| && |old(primary.Content())| < expected ==>
        (r.None? <==> old(Ending(primary.items)).Retryable() && old(CanCarryOn(start)))
      ensures r.Some? && r.value.Err? ==> r.value.error == old(Ending(primary.items))
      ensures Follows(r, old(Ending(primary.items)))
      ensures old(backup.Idle?) ==> backup.Idle? && (r.None? ==> Ending(primary.items) == old(Ending(primary.items)))
    {
      r := Poll(primary, start, expected, arrivals);
      if r.Some? {
        if r.value.Ok? {
          backup := Idle;
        } else {
          var failed := HandOver(r.value.error, start);
          r := if failed.Some? then Some(Err(failed.value)) else None;
        }
      }
    }

    method PollBackup(start: nat, expected: nat, arrivals: nat) returns (r: Option<Result<Bytes, OriginError>>)
      requires Reads() && Owing(start) && backup.Streaming?
      modifies this, backup.stream
      ensures fresh(Repr() - old(Repr()))
      ensures r.Some? ==> r.value.Ok? && Returned(r.value, start, expected)
      ensures r.None? ==> Owing(start) && primary.Content() == old(primary.Content())
      ensures arrivals > |old(backup.stream.items)| ==> (r.Some? <==> |old(backup.stream.Content())| >= expected)
      ensures Follows(r, old(Ending(primary.items)))
    {
      var stream := backup.stream;
      r := Poll(stream, start, expected, arrivals);
      if r.Some? {
        backup := Idle;
        if r.value.Ok? {
          primary := stream;
        } else {
          r := None;
        }
      }
    }

    /** The primary alone, to its end. */
    method FinishPrimary(start: nat, expected: nat) returns (r: Result<Bytes, OriginError>)
      requires Owing(start) && backup.Idle?
      modifies primary
      ensures Repr() == old(Repr()) && Returned(r, start, expected)
      ensures r.Ok? <==> |old(primary.Content())| >= expected
      ensures r.Ok? ==> |primary.Content()| == |old(primary.Content())| - expected
      ensures backup.Idle? && (r.Err? ==> r.error == old(Ending(primary.items)))
    {
      var polled := Poll(primary, start, expected, |primary.items| + 1);
      r := polled.value;
    }

    method Step(event: Event, start: nat, expected: nat) returns (r: Option<Result<Bytes, OriginError>>)
      requires Reads() && Owing(start)
      requires event.Stall? && event.reply.Ok? ==> Genuine(h, ctx.obj, event.reply.value)
      modifies Repr()
      ensures fresh(Repr() - old(Repr()))
      ensures r.Some? ==> Returned(r.value, start, expected)
      ensures r.Some? && r.value.Err? ==> |old(primary.Content())| < expected
      ensures r.None? ==> Owing(start)
      ensures r.None? ==> |old(primary.Content())| < expected || primary.Content() == old(primary.Content())
      ensures event.PollPrimary? && event.arrivals > |old(primary.items)| && |old(primary.Content())| >= expected ==>
                r.Some? && r.value.Ok?
      ensures event.PollPrimary? && event.arrivals > |old(primary.items)| && |old(primary.Content())| < expected ==>
        (r.None? <==> old(Ending(primary.items)).Retryable() && old(CanCarryOn(start)))
      ensures event.PollBackup? && old(backup.Streaming?) && event.arrivals > |old(backup.stream.items)| ==>
        (r.Some? <==> |old(backup.stream.Content())| >= expected)
      ensures event.Stall? && event.permit && old(backup.Idle?) ==> backup == Opening(event.reply)
      ensures event.Stall? && !event.permit && old(backup.Idle?) ==>
                r.Some? && (r.value.Ok? <==> |old(primary.Content())| >= expected)
      ensures event.Opened? && old(backup.Opening?) ==> backup.Idle? || backup.Streaming?
      ensures event.Opened? && old(backup.Opening?) ==> (backup.Streaming? <==> old(CanCarryOn(start)))
      ensures r.Some? && r.value.Err? ==> r.value.error == old(Ending(primary.items))
      ensures Follows(r, old(Ending(primary.items)))
      ensures old(backup.Idle?) && !(event.Stall? && event.permit) ==>
                backup.Idle? && (r.None? ==> Ending(primary.items) == old(Ending(primary.items)))
    {
      r := None;
      if event.PollPrimary? {
        r := PollPrimary(start, expected, event.arrivals);
      } else if event.PollBackup? && backup.Streaming? {
        r := PollBackup(start, expected, event.arrivals);
      } else if event.Stall? && backup.Idle? {
        if event.permit {
          backup := Opening(event.reply);
        } else {
          var block := FinishPrimary(start, expected);
          r := Some(block);
        }
      } else if event.Opened? && backup.Opening? {
        var stream := Adopt(backup.reply, start);
        backup := if stream == null then Idle else Streaming(stream);
      }
    }

    /** For every sequence of events the next block is the version's own bytes, or an error that the
        unhedged stream would have given too, or still awaited. */
    method NextAt(start: nat, expected: nat, script: seq<Event>) returns (r: Option<Result<Bytes, OriginError>>)
      requires Reads() && Owing(start) && GenuineScript(h, ctx.obj, script)
      modifies Repr()
      ensures fresh(Repr() - old(Repr()))
      ensures r.Some? ==> Returned(r.value, start, expected)
      ensures r.Some? && r.value.Err? ==> |old(primary.Content())| < expected
      ensures r.None? ==> Owing(start)
      ensures (|script| > 0 && script[0].PollPrimary? && script[0].arrivals > |old(primary.items)|
               && |old(primary.Content())| >= expected) ==> r.Some? && r.value.Ok?
      ensures !hedging && old(backup.Idle?) ==> r.Some? && (r.value.Ok? <==> |old(primary.Content())| >= expected)
      ensures !hedging && old(backup.Idle?) && r.Some? && r.value.Ok? ==>
                |primary.Content()| == |old(primary.Content())| - expected
      ensures Follows(r, old(Ending(primary.items)))
      ensures r.Some? && r.value.Err? && old(backup.Idle?) && (!hedging || NoBackup(script)) ==>
                r.value.error == old(Ending(primary.items))
    {
      if !hedging && backup.Idle? {
        var block := FinishPrimary(start, expected);
        return Some(block);
      }
      var k := 0;
      r := None;
      while r.None? && k < |script|
        invariant 0 <= k <= |script|
        invariant fresh(Repr() - old(Repr()))
        invariant r.Some? ==> Returned(r.value, start, expected)
        invariant r.Some? && r.value.Err? ==> |old(primary.Content())| < expected
        invariant r.None? ==> Owing(start)
        invariant r.None? ==> |old(primary.Content())| < expected || primary.Content() == old(primary.Content())
        invariant k == 0 ==>
                    r.None? && primary == old(primary) && primary.items == old(primary.items)
                    && primary.Content() == old(primary.Content())
        invariant k > 0 && script[0].PollPrimary? && script[0].arrivals > |old(primary.items)|
                  && |old(primary.Content())| >= expected ==>
          r.Some? && r.value.Ok?
        invariant Follows(r, old(Ending(primary.items)))
        invariant old(backup.Idle?) && NoBackup(script) ==>
                    backup.Idle? && (if r.None? then Ending(primary.items) == old(Ending(primary.items))
                                     else r.value.Err? ==> r.value.error == old(Ending(primary.items)))
      {
        r := Step(script[k], start, expected);
        k := k + 1;
      }
    }

    /** `next_block` for a block of the version being read: its bytes, after which every stream is
        at the next block. */
    method NextBlock(index: nat, size: nat, script: seq<Event>) returns (r: Option<Result<Bytes, OriginError>>)
      requires Reads() && Owing(Offset(w.BlockSize(ctx.obj), index)) && GenuineScript(h, ctx.obj, script)
      requires size == |data| && index < Count(w.BlockSize(ctx.obj), size)
      modifies Repr()
      ensures fresh(Repr() - old(Repr()))
      ensures r.Some? && r.value.Ok? ==> r.value.value == BlockBytes(w.BlockSize(ctx.obj), data, index) && backup.Idle?
      ensures r.Some? && r.value.Ok? ==> Owing(Min(Offset(w.BlockSize(ctx.obj), index + 1), |data|))
      ensures r.None? ==> Owing(Offset(w.BlockSize(ctx.obj), index))
    {
      NextOffset(w.BlockSize(ctx.obj), data, index);
      r := NextAt(Offset(w.BlockSize(ctx.obj), index), Expected(w.BlockSize(ctx.obj), index, size), script);
    }

    /** A call between two blocks: the next `size` bytes follow, unless it fails or is still waiting. */
    method Follow(blocks: seq<Bytes>, sizes: seq<nat>, ghost start: nat, at: nat, script: seq<Event>)
      returns (more: bool, block: Bytes)
      requires Reads() && At(primary, at) && backup.Idle? && GenuineScript(h, ctx.obj, script)
      requires Consecutive(blocks, sizes, data, start, at) && |blocks| < |sizes|
      modifies Repr()
      ensures fresh(Repr() - old(Repr()))
      ensures more ==> backup.Idle? && At(primary, at + sizes[|blocks|])
      ensures more ==> Consecutive(blocks + [block], sizes, data, start, at + sizes[|blocks|])
      ensures !hedging ==> (more <==> |old(primary.Content())| >= sizes[|blocks|])
      ensures !hedging && more ==> |primary.Content()| == |old(primary.Content())| - sizes[|blocks|]
    {
      var r := NextAt(at, sizes[|blocks|], script);
      if r.None? || r.value.Err? {
        return false, [];
      }
      ConsecutiveNext(blocks, sizes, data, start, at, r.value.value);
      return true, r.value.value;
    }

    /** Successive calls, whatever happens in between, hand out consecutive bytes of the one version,
        cut as asked; without hedging, for as long as the body has the bytes. */
    method Successive(start: nat, sizes: seq<nat>, scripts: nat -> seq<Event>) returns (blocks: seq<Bytes>, at: nat)
      requires Reads() && Owing(start) && backup.Idle? && forall k :: GenuineScript(h, ctx.obj, scripts(k))
      modifies Repr()
      ensures Consecutive(blocks, sizes, data, start, at)
      ensures !hedging ==> at - start <= |old(primary.Content())|
      ensures !hedging && |blocks| < |sizes| ==> at - start + sizes[|blocks|] > |old(primary.Content())|
    {
      blocks, at := [], start;
      while |blocks| < |sizes|
        invariant fresh(Repr() - old(Repr())) && backup.Idle? && At(primary, at)
        invariant Consecutive(blocks, sizes, data, start, at)
        invariant !hedging ==> at - start + |primary.Content()| == |old(primary.Content())|
      {
        var more, block := Follow(blocks, sizes, start, at, scripts(|blocks|));
        if !more {
          return;
        }
        at := at + sizes[|blocks|];
        blocks := blocks + [block];
      }
    }
  }

  function Joined(blocks: seq<Bytes>): Bytes {
    if blocks == [] then [] else Joined(blocks[..|blocks| - 1]) + blocks[|blocks| - 1]
  }

  /** Where block `k` starts when the blocks before it have the sizes asked for. */
  function Reached(sizes: seq<nat>, start: nat, k: nat): (at: nat)
    requires k <= |sizes|
    ensures start <= at
  {
    if k == 0 then start else Reached(sizes, start, k - 1) + sizes[k - 1]
  }

  predicate IsPart(block: Bytes, data: Bytes, at: nat, size: nat) {
    at + size <= |data| && block == data[at..at + size]
  }

  /** The blocks have the sizes asked for and are the bytes `start..at` of `data`, one after another. */
  predicate Consecutive(blocks: seq<Bytes>, sizes: seq<nat>, data: Bytes, start: nat, at: nat) {
    && |blocks| <= |sizes| && at == Reached(sizes, start, |blocks|) <= |data|
    && forall k {:trigger blocks[k]} :: 0 <= k < |blocks| ==>
         IsPart(blocks[k], data, Reached(sizes, start, k), sizes[k])
  }

  lemma ConsecutiveNext(blocks: seq<Bytes>, sizes: seq<nat>, data: Bytes, start: nat, at: nat, block: Bytes)
    requires Consecutive(blocks, sizes, data, start, at) && |blocks| < |sizes|
             && IsPart(block, data, at, sizes[|blocks|])
    ensures Consecutive(blocks + [block], sizes, data, start, at + sizes[|blocks|])
  {
  }

  lemma ConsecutiveFront(blocks: seq<Bytes>, sizes: seq<nat>, data: Bytes, start: nat, at: nat)
    requires Consecutive(blocks, sizes, data, start, at) && blocks != []
    ensures var n := |blocks| - 1;
            && start <= at - sizes[n] && blocks[n] == data[at - sizes[n]..at]
            && Consecutive(blocks[..n], sizes, data, start, at - sizes[n])
  {
    var n := |blocks| - 1;
    assert IsPart(blocks[n], data, Reached(sizes, start, n), sizes[n]);
    forall k {:trigger blocks[..n][k]} | 0 <= k < n
      ensures IsPart(blocks[..n][k], data, Reached(sizes, start, k), sizes[k])
    {
      assert blocks[..n][k] == blocks[k];
    }
  }

  /** Put together they are those bytes. */
  lemma {:induction false} ConsecutiveJoins(blocks: seq<Bytes>, sizes: seq<nat>, data: Bytes, start: nat, at: nat)
    requires Consecutive(blocks, sizes, data, start, at)
    ensures start <= at <= |data| && Joined(blocks) == data[start..at]
    decreases |blocks|
  {
    if blocks != [] {
      var n := |blocks| - 1;
      ConsecutiveFront(blocks, sizes, data, start, at);
      ConsecutiveJoins(blocks[..n], sizes, data, start, at - sizes[n]);
      Adjacent(data, start, at - sizes[n], at);
    }
  }

  lemma NextOffset(b: Pos, data: Bytes, index: nat)
    requires index < Count(b, |data|)
    ensures Offset(b, index) <= |data|
            && Offset(b, index) + Expected(b, index, |data|) == Min(Offset(b, index + 1), |data|)
    ensures data[Offset(b, index)..Min(Offset(b, index + 1), |data|)] == BlockBytes(b, data, index)
  {
    CountBounds(b, |data|, index);
  }
}
