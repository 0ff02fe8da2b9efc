/** A read window of zero cuts reads short without an error (nestor/src/reader.rs:185-209): the witness
    for what `Readers.Reader.Collect` says of it, on any object longer than one block. */
module ShortReads {
  import opened Common
  import opened Blocks
  import opened Origin
  import opened Errors
  import opened Engine
  import opened EngineAgreement
  import opened Readers

  function BlockOf(w: World, o: ObjectKey, v: Version, index: nat): Block {
    Block(v.Meta(), BlockBytes(w.BlockSize(o), v.data, index))
  }

  /** Blocks `lo..hi` of the version, for a context that names it. */
  function Given(w: World, o: ObjectKey, v: Version, ctx: ReadCtx, lo: nat, hi: nat): seq<BlockResult> {
    if hi <= lo then []
    else
      seq(hi - lo, (j: nat) =>
        if ctx.tag == VersionTag(w, o, v) then Ok(BlockOf(w, o, v, lo + j)) else Err(Cancelled))
  }

  function TheCtx(w: World, o: ObjectKey, v: Version): ReadCtx { NewCtx(w, o, Some(v.Meta()), 1) }

  function Written(o: ObjectKey, v: Version): History { [Write(o, Some(v), 0)] }

  /** An object that was written once, an origin that never fails, and a probe that got one block. */
  function Calm(w: World, o: ObjectKey, v: Version): Environment {
    Environment((t: nat, ctx: ReadCtx, lo: nat, hi: nat) => Given(w, o, v, ctx, lo, hi),
                (t: nat) => None,
                (t: nat) => Ok((TheCtx(w, o, v), [Ok(BlockOf(w, o, v, 0))])))
  }

  lemma BlockGood(w: World, o: ObjectKey, v: Version, index: nat)
    ensures Content(w, Written(o, v), o, VersionTag(w, o, v)) == Some(v.data)
    ensures Good(w, Written(o, v), BlockKey(o, VersionTag(w, o, v), index), BlockOf(w, o, v, index))
  {
    assert IsVersion(Written(o, v), o, 0);
    ContentOf(w, Written(o, v), o, 0);
  }

  lemma GivenGood(w: World, o: ObjectKey, v: Version, ctx: ReadCtx, lo: nat, hi: nat)
    requires ctx.obj == o && lo <= hi
    ensures Booked(w, Written(o, v), ctx, lo, hi, Given(w, o, v, ctx, lo, hi))
    ensures ctx.tag == VersionTag(w, o, v) ==> AllOk(Given(w, o, v, ctx, lo, hi))
  {
    forall j | 0 <= j < hi - lo
      ensures GoodResult(w, Written(o, v), ctx.Key(lo + j), Given(w, o, v, ctx, lo, hi)[j])
    {
      BlockGood(w, o, v, lo + j);
    }
  }

  lemma FirstBlock(b: Pos, size: nat, window: nat)
    requires b < size
    ensures Probed(b, window, Full, size, 1) && FirstGroup(b, Full, window).value.0 == 0
    ensures Index(b, 0) == 0
  {
    CountBounds(b, size, 0);
    IndexBounds(b, 0);
  }

  lemma ProbeGood(w: World, o: ObjectKey, v: Version)
    requires w.BlockSize(o) < |v.data|
    ensures Resolved(w, Written(o, v), o, Full, TheCtx(w, o, v), [Ok(BlockOf(w, o, v, 0))])
  {
    BlockGood(w, o, v, 0);
    FirstBlock(w.BlockSize(o), |v.data|, w.Config(o).fetchWindow);
  }

  lemma CalmServes(w: World, o: ObjectKey, v: Version)
    requires w.BlockSize(o) < |v.data|
    ensures Serves(w, Written(o, v), o, Full, Calm(w, o, v))
    ensures Untroubled(w, o, v)
  {
    var env := Calm(w, o, v);
    forall t, ctx: ReadCtx, lo, hi | ctx.obj == o && lo <= hi
      ensures Booked(w, Written(o, v), ctx, lo, hi, env.schedule(t, ctx, lo, hi))
      ensures ctx.tag == VersionTag(w, o, v) ==> AllOk(env.schedule(t, ctx, lo, hi))
    {
      GivenGood(w, o, v, ctx, lo, hi);
    }
    ProbeGood(w, o, v);
  }

  ghost predicate Untroubled(w: World, o: ObjectKey, v: Version) {
    forall t, lo, hi :: lo <= hi ==> AllOk(Calm(w, o, v).schedule(t, TheCtx(w, o, v), lo, hi))
  }

  /** Nothing fails, the object is longer than one block, and a read of all of it ends cleanly after
      the one block its probe brought. */
  method Truncated(w: World, o: ObjectKey, v: Version) returns (r: Result<Bytes, NestorError>)
    requires w.Config(o).readWindow == 0 && w.BlockSize(o) < |v.data|
    ensures r == Ok(v.data[..w.BlockSize(o)])
  {
    CalmServes(w, o, v);
    BlockGood(w, o, v, 0);
    FirstBlock(w.BlockSize(o), |v.data|, w.Config(o).fetchWindow);
    var started := Reader.Open(w, o, Full, Calm(w, o, v), Written(o, v));
    var reader := started.value;
    assert reader.Untroubled() && reader.Data() == v.data && reader.Reach() == 1 && reader.Shut();
    UntroubledMends(reader);
    r := reader.Collect();
  }
}
