/** Objects at the origin: what a version is, how its blocks are tagged, the history of writes and
    what an honest answer to a GET or HEAD may say (nestor/src/key.rs, nestor/src/origin.rs,
    nestor/src/memory.rs). Hash functions are arbitrary functions carried by `World`. */
module Origin {
  import opened Common

  datatype ObjectKey = ObjectKey(namespace: nat, name: Bytes)

  datatype BlockKey = BlockKey(obj: ObjectKey, tag: nat, index: nat)

  datatype ObjectMeta = ObjectMeta(size: nat, etag: Option<Bytes>, modified: Option<int>)

  datatype Block = Block(meta: ObjectMeta, data: Bytes)

  datatype Version = Version(data: Bytes, etag: Option<Bytes>, modified: Option<int>) {
    function Meta(): ObjectMeta { ObjectMeta(|data|, etag, modified) }
  }

  datatype Namespace = Namespace(block: Pos, fetchWindow: nat, readWindow: nat, immutable: bool, ttl: nat)

  /** Everything that does not change during a run. */
  datatype World = World(ns: nat -> Namespace, hashBytes: Bytes -> nat, hashSize: nat -> nat) {
    function Config(o: ObjectKey): Namespace { ns(o.namespace) }

    function BlockSize(o: ObjectKey): Pos { Config(o).block }
  }

  const IMMUTABLE_TAG: nat := 0

  function ContentTag(w: World, etag: Option<Bytes>, size: nat): (tag: nat)
    ensures tag != IMMUTABLE_TAG
  {
    Max(1, if etag.Some? then w.hashBytes(etag.value) else w.hashSize(size))
  }

  function BlockTag(w: World, o: ObjectKey, meta: ObjectMeta): nat {
    if w.Config(o).immutable then IMMUTABLE_TAG else ContentTag(w, meta.etag, meta.size)
  }

  // ---- History of writes ----

  /** One write at the origin; `version` is absent for a delete. */
  datatype Write = Write(obj: ObjectKey, version: Option<Version>, at: nat)

  type History = seq<Write>

  /** `p` is a version of `o` that was still the current one at instant `t`. */
  ghost predicate Current(h: History, o: ObjectKey, p: nat, t: nat) {
    && IsVersion(h, o, p)
    && h[p].at <= t
    && (forall q :: p < q < |h| && h[q].obj == o ==> h[q].at >= t)
  }

  predicate IsVersion(h: History, o: ObjectKey, p: nat) {
    p < |h| && h[p].obj == o && h[p].version.Some?
  }

  function VersionTag(w: World, o: ObjectKey, v: Version): nat { BlockTag(w, o, v.Meta()) }

  /** The data of the first version of `o` written under `tag`. */
  function Content(w: World, h: History, o: ObjectKey, tag: nat): Option<Bytes> {
    if h == [] then None
    else
      var n := |h| - 1;
      var earlier := Content(w, h[..n], o, tag);
      if earlier.Some? then earlier
      else if IsVersion(h, o, n) && VersionTag(w, o, h[n].version.value) == tag then Some(h[n].version.value.data)
      else None
  }

  /** Equal tags mean equal bytes. In etag mode this is what an ETag (or, without one, the size)
      has to deliver; in immutable mode it says the object never changes. */
  ghost predicate Faithful(w: World, h: History) {
    forall i, j :: 0 <= i < |h| && 0 <= j < |h| && SameTag(w, h, i, j) ==>
      h[i].version.value.data == h[j].version.value.data
  }

  predicate SameTag(w: World, h: History, i: nat, j: nat)
    requires i < |h| && j < |h|
  {
    && h[i].obj == h[j].obj
    && h[i].version.Some? && h[j].version.Some?
    && VersionTag(w, h[i].obj, h[i].version.value) == VersionTag(w, h[j].obj, h[j].version.value)
  }

  /** Two hashes give two tags: they differ, and not only below the least tag there is. */
  predicate Apart(x: nat, y: nat) { x != y && (x > 1 || y > 1) }

  /** The hashes tell two versions apart, by their ETags where they have them and by their sizes where
      they do not. */
  predicate ToldApart(w: World, v: Version, u: Version) {
    match (v.etag, u.etag)
    case (Some(a), Some(b)) => Apart(w.hashBytes(a), w.hashBytes(b))
    case (Some(a), None) => Apart(w.hashBytes(a), w.hashSize(|u.data|))
    case (None, Some(b)) => Apart(w.hashSize(|v.data|), w.hashBytes(b))
    case (None, None) => Apart(w.hashSize(|v.data|), w.hashSize(|u.data|))
  }

  predicate OfOneObject(h: History, i: nat, j: nat)
    requires i < |h| && j < |h|
  {
    h[i].obj == h[j].obj && h[i].version.Some? && h[j].version.Some?
  }

  /** What a faithful history is, in terms of ETags, sizes and hashes: whenever two versions of one object
      differ, the object is not immutable and the hashes tell them apart. */
  lemma FaithfulExactly(w: World, h: History)
    ensures Faithful(w, h) <==>
      forall i, j :: 0 <= i < |h| && 0 <= j < |h| && OfOneObject(h, i, j)
                     && h[i].version.value.data != h[j].version.value.data ==>
        !w.Config(h[i].obj).immutable && ToldApart(w, h[i].version.value, h[j].version.value)
  {
    forall i, j | 0 <= i < |h| && 0 <= j < |h| && OfOneObject(h, i, j)
      ensures SameTag(w, h, i, j) <==>
                w.Config(h[i].obj).immutable || !ToldApart(w, h[i].version.value, h[j].version.value)
    {
      TagsDiffer(w, h[i].obj, h[i].version.value, h[j].version.value);
    }
  }

  lemma TagsDiffer(w: World, o: ObjectKey, v: Version, u: Version)
    ensures VersionTag(w, o, v) != VersionTag(w, o, u) <==> !w.Config(o).immutable && ToldApart(w, v, u)
  {
  }

  /** An ETag, or without one the size, says which bytes a version of an object has, and an object in
      immutable mode never changes. */
  ghost predicate Identified(w: World, h: History) {
    forall i, j :: 0 <= i < |h| && 0 <= j < |h| && OfOneObject(h, i, j) ==>
      Identify(w.Config(h[i].obj).immutable, h[i].version.value, h[j].version.value)
  }

  predicate Identify(immutable: bool, v: Version, u: Version) {
    (immutable || (v.etag == u.etag && (v.etag.Some? || |v.data| == |u.data|))) ==> v.data == u.data
  }

  /** The ETags and sizes of an object's versions hash without collisions: not two ETags, not two sizes,
      not an ETag and a size, and no two of them to 0 and 1, which are one tag. */
  ghost predicate Collisionless(w: World, h: History) {
    forall i, j :: 0 <= i < |h| && 0 <= j < |h| && OfOneObject(h, i, j) ==>
      Distinguished(w, h[i].version.value, h[j].version.value)
  }

  predicate Distinguished(w: World, v: Version, u: Version) {
    && (v.etag.Some? && u.etag.Some? && v.etag != u.etag ==>
          Apart(w.hashBytes(v.etag.value), w.hashBytes(u.etag.value)))
    && (v.etag.None? && u.etag.None? && |v.data| != |u.data| ==> Apart(w.hashSize(|v.data|), w.hashSize(|u.data|)))
    && (v.etag.Some? && u.etag.None? ==> Apart(w.hashBytes(v.etag.value), w.hashSize(|u.data|)))
  }

  /** So a history is faithful if ETags, or without them sizes, identify the bytes and hash without
      collisions. */
  lemma IdentifiedFaithful(w: World, h: History)
    requires Identified(w, h) && Collisionless(w, h)
    ensures Faithful(w, h)
  {
    forall i, j | 0 <= i < |h| && 0 <= j < |h| && OfOneObject(h, i, j)
                  && h[i].version.value.data != h[j].version.value.data
      ensures !w.Config(h[i].obj).immutable && ToldApart(w, h[i].version.value, h[j].version.value)
    {
      var v, u := h[i].version.value, h[j].version.value;
      assert Identify(w.Config(h[i].obj).immutable, v, u);
      assert Distinguished(w, v, u) && Distinguished(w, u, v) by {
        assert OfOneObject(h, j, i);
      }
    }
    FaithfulExactly(w, h);
  }

  /** Later writes never change what a tag stands for. */
  lemma {:induction false} ContentGrows(w: World, h: History, later: History, o: ObjectKey, tag: nat)
    requires h <= later
    ensures Content(w, h, o, tag).Some? ==> Content(w, later, o, tag) == Content(w, h, o, tag)
    decreases |later|
  {
    if |h| < |later| {
      ContentGrows(w, h, later[..|later| - 1], o, tag);
    } else {
      assert h == later;
    }
  }

  /** The first version under a tag is one of the versions written. */
  lemma {:induction false} ContentSource(w: World, h: History, o: ObjectKey, tag: nat) returns (p: nat)
    requires Content(w, h, o, tag).Some?
    ensures IsVersion(h, o, p) && VersionTag(w, o, h[p].version.value) == tag
    ensures h[p].version.value.data == Content(w, h, o, tag).value
  {
    var n := |h| - 1;
    if Content(w, h[..n], o, tag).Some? {
      p := ContentSource(w, h[..n], o, tag);
    } else {
      p := n;
    }
  }

  lemma {:induction false} ContentPresent(w: World, h: History, o: ObjectKey, p: nat)
    requires IsVersion(h, o, p)
    ensures Content(w, h, o, VersionTag(w, o, h[p].version.value)).Some?
    decreases |h|
  {
    if p < |h| - 1 {
      ContentPresent(w, h[..|h| - 1], o, p);
    }
  }

  /** In a faithful history every version is the content of its tag. */
  lemma ContentOf(w: World, h: History, o: ObjectKey, p: nat)
    requires Faithful(w, h) && IsVersion(h, o, p)
    ensures Content(w, h, o, VersionTag(w, o, h[p].version.value)) == Some(h[p].version.value.data)
  {
    ContentPresent(w, h, o, p);
    var q := ContentSource(w, h, o, VersionTag(w, o, h[p].version.value));
    assert SameTag(w, h, q, p);
  }

  // ---- Answers ----

  /** A GET answered with headers. `start..end` is the range the origin claims, `content` the bytes
      its body delivers before it ends or fails. `from` and `answered` say which write the answer
      describes and when it was given; no step of the cache reads them. */
  datatype Response = Response(meta: ObjectMeta, start: nat, end: nat, content: Bytes, from: nat, answered: nat)

  /** The origin may claim any range, wider or narrower than asked, and may stop at any byte, but
      what it does deliver is the claimed range of the version it names, and that version was
      current when it answered. */
  ghost predicate Honest(h: History, o: ObjectKey, r: Response) {
    && Current(h, o, r.from, r.answered)
    && Describes(h[r.from].version.value, r)
  }

  predicate Describes(v: Version, r: Response) {
    && r.meta == v.Meta()
    && r.start <= r.end <= |v.data|
    && r.content <= v.data[r.start..r.end]
  }

  lemma HistoryGrows(w: World, h: History, later: History)
    requires h <= later && Faithful(w, later)
    ensures Faithful(w, h)
  {
    forall i, j | 0 <= i < |h| && 0 <= j < |h| && SameTag(w, h, i, j)
      ensures h[i].version.value.data == h[j].version.value.data
    {
      assert SameTag(w, later, i, j);
    }
  }
}
