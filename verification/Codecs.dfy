/** The disk encoding of keys and blocks (nestor/src/key.rs:35-86, 131-165). Decoding takes the value
    off the front of the input and leaves the rest, as reading from a stream does. */
module Codecs {
  import opened Common
  import opened Origin

  // ---- Little-endian integers ----

  function Pow256(w: nat): (p: nat)
    ensures p > 0
  {
    if w == 0 then 1 else 256 * Pow256(w - 1)
  }

  /** The low `w` bytes of `n`, least significant first; a narrowing cast when `n` does not fit. */
  function Little(n: nat, w: nat): (s: Bytes)
    ensures |s| == w
  {
    if w == 0 then [] else [n % 256] + Little(n / 256, w - 1)
  }

  function Number(s: Bytes): nat { if s == [] then 0 else s[0] + 256 * Number(s[1..]) }

  lemma {:induction false} NumberBounds(s: Bytes)
    ensures Number(s) < Pow256(|s|)
  {
    if s != [] {
      NumberBounds(s[1..]);
    }
  }

  /** An integer survives exactly when it fits the width it is written in. */
  lemma {:induction false} LittleRoundTrip(n: nat, w: nat)
    ensures Number(Little(n, w)) == n <==> n < Pow256(w)
    ensures Number(Little(n, w)) <= n
    decreases w
  {
    NumberBounds(Little(n, w));
    if w > 0 {
      LittleRoundTrip(n / 256, w - 1);
      var s := Little(n, w);
      assert s[0] == n % 256 && s[1..] == Little(n / 256, w - 1);
    }
  }

  // ---- Reading ----

  /** `read_exact`: the next `n` bytes and the rest, or nothing if the input is shorter. */
  function Take(input: Bytes, n: nat): (r: Option<(Bytes, Bytes)>)
    ensures r.Some? <==> n <= |input|
    ensures r.Some? ==> r.value.0 + r.value.1 == input && |r.value.0| == n
  {
    if n <= |input| then Some((input[..n], input[n..])) else None
  }

  lemma TakeFront(front: Bytes, rest: Bytes)
    ensures Take(front + rest, |front|) == Some((front, rest))
  {
  }

  // ---- Block keys ----

  const KEY_HEADER: nat := 20

  function EncodeKey(k: BlockKey): Bytes {
    Little(k.obj.namespace, 4) + Little(k.tag, 8) + Little(k.index, 4) + Little(|k.obj.name|, 4) + k.obj.name
  }

  function KeySize(k: BlockKey): nat { KEY_HEADER + |k.obj.name| }

  function DecodeKey(input: Bytes): Option<(BlockKey, Bytes)> {
    var header := Take(input, KEY_HEADER);
    if header.None? then None
    else
      var (fields, body) := header.value;
      var name := Take(body, Number(fields[16..20]));
      if name.None? then None
      else Some((BlockKey(ObjectKey(Number(fields[..4]), name.value.0), Number(fields[4..12]),
                          Number(fields[12..16])), name.value.1))
  }

  /** The integer fields are within their machine types; the name may have any length. */
  predicate KeyTyped(k: BlockKey) { k.obj.namespace < Pow256(4) && k.tag < Pow256(8) && k.index < Pow256(4) }

  lemma KeyFields(k: BlockKey, rest: Bytes)
    requires KeyTyped(k)
    ensures var header := Take(EncodeKey(k) + rest, KEY_HEADER);
            && header.Some? && header.value.1 == k.obj.name + rest
            && Number(header.value.0[..4]) == k.obj.namespace && Number(header.value.0[4..12]) == k.tag
            && Number(header.value.0[12..16]) == k.index && header.value.0[16..20] == Little(|k.obj.name|, 4)
  {
    var a, b, c, d := Little(k.obj.namespace, 4), Little(k.tag, 8), Little(k.index, 4), Little(|k.obj.name|, 4);
    var fields := a + b + c + d;
    assert EncodeKey(k) + rest == fields + (k.obj.name + rest);
    TakeFront(fields, k.obj.name + rest);
    assert fields[..4] == a && fields[4..12] == b && fields[12..16] == c && fields[16..20] == d;
    LittleRoundTrip(k.obj.namespace, 4);
    LittleRoundTrip(k.tag, 8);
    LittleRoundTrip(k.index, 4);
  }

  /** A key comes back, with whatever followed it, exactly when its name is shorter than 2^32 bytes. */
  lemma KeyRoundTrip(k: BlockKey, rest: Bytes)
    requires KeyTyped(k)
    ensures |EncodeKey(k)| == KeySize(k)
    ensures DecodeKey(EncodeKey(k) + rest) == Some((k, rest)) <==> |k.obj.name| < Pow256(4)
  {
    KeyFields(k, rest);
    LittleRoundTrip(|k.obj.name|, 4);
    TakeFront(k.obj.name, rest);
  }

  // ---- Blocks ----

  const META_HEADER: nat := 18
  const MILLI: nat := 1_000_000

  /** Whole milliseconds since the epoch, zero before it; times are nanoseconds from the epoch. */
  function UnixMillis(time: Option<int>): nat { if time.Some? && time.value > 0 then time.value / MILLI else 0 }

  function Etag(meta: ObjectMeta): Bytes { if meta.etag.Some? then meta.etag.value else [] }

  function EncodeBlock(b: Block): Bytes {
    Little(b.meta.size, 8) + Little(UnixMillis(b.meta.modified), 8) + Little(|Etag(b.meta)|, 2) + Etag(b.meta)
      + Little(|b.data|, 4) + b.data
  }

  function BlockSize(b: Block): nat { META_HEADER + |Etag(b.meta)| + 4 + |b.data| }

  function Time(millis: nat): Option<int> { if millis > 0 then Some(millis * MILLI) else None }

  function DecodeBlock(input: Bytes): Option<(Block, Bytes)> {
    var header := Take(input, META_HEADER);
    if header.None? then None
    else
      var (fields, body) := header.value;
      var etag := Take(body, Number(fields[16..18]));
      if etag.None? then None else DecodeData(fields, etag.value.0, etag.value.1)
  }

  function DecodeData(fields: Bytes, etag: Bytes, body: Bytes): Option<(Block, Bytes)>
    requires |fields| == META_HEADER
  {
    var length := Take(body, 4);
    if length.None? then None
    else
      var data := Take(length.value.1, Number(length.value.0));
      if data.None? then None
      else
        var meta := ObjectMeta(Number(fields[..8]), if etag == [] then None else Some(etag),
                               Time(Number(fields[8..16])));
        Some((Block(meta, data.value.0), data.value.1))
  }

  /** What the encoding keeps: everything but an empty ETag and what of the time is not whole
      milliseconds after the epoch. */
  function Normal(b: Block): Block {
    var etag := if b.meta.etag == Some([]) then None else b.meta.etag;
    var modified := match b.meta.modified
      case Some(t) => if t >= 1_000_000 then Some(t / 1_000_000 * 1_000_000) else None
      case None => None;
    Block(ObjectMeta(b.meta.size, etag, modified), b.data)
  }

  predicate BlockTyped(b: Block) { b.meta.size < Pow256(8) }

  lemma BlockFields(b: Block, rest: Bytes)
    requires BlockTyped(b)
    ensures var header := Take(EncodeBlock(b) + rest, META_HEADER);
            && header.Some? && header.value.1 == Etag(b.meta) + (Little(|b.data|, 4) + (b.data + rest))
            && Number(header.value.0[..8]) == b.meta.size
               && header.value.0[8..16] == Little(UnixMillis(b.meta.modified), 8)
            && header.value.0[16..18] == Little(|Etag(b.meta)|, 2)
  {
    var size, time, length := Little(b.meta.size, 8), Little(UnixMillis(b.meta.modified), 8), Little(|Etag(b.meta)|, 2);
    var fields := size + time + length;
    assert EncodeBlock(b) + rest == fields + (Etag(b.meta) + (Little(|b.data|, 4) + (b.data + rest)));
    TakeFront(fields, Etag(b.meta) + (Little(|b.data|, 4) + (b.data + rest)));
    assert fields[..8] == size && fields[8..16] == time && fields[16..18] == length;
    LittleRoundTrip(b.meta.size, 8);
  }

  lemma DataRoundTrip(fields: Bytes, etag: Bytes, data: Bytes, rest: Bytes)
    requires |fields| == META_HEADER
    ensures var r := DecodeData(fields, etag, Little(|data|, 4) + (data + rest));
            r.Some? && r.value.0.data == data && r.value.1 == rest <==> |data| < Pow256(4)
  {
    TakeFront(Little(|data|, 4), data + rest);
    LittleRoundTrip(|data|, 4);
    TakeFront(data, rest);
  }

  /** A block comes back in normal form, with whatever followed it, exactly when its ETag is shorter
      than 2^16 bytes, its data shorter than 2^32 and its time below 2^64 milliseconds. */
  lemma BlockRoundTrip(b: Block, rest: Bytes)
    requires BlockTyped(b)
    ensures |EncodeBlock(b)| == BlockSize(b)
    ensures DecodeBlock(EncodeBlock(b) + rest) == Some((Normal(b), rest)) <==>
      |Etag(b.meta)| < Pow256(2) && |b.data| < Pow256(4) && UnixMillis(b.meta.modified) < Pow256(8)
  {
    BlockFields(b, rest);
    LittleRoundTrip(|Etag(b.meta)|, 2);
    LittleRoundTrip(UnixMillis(b.meta.modified), 8);
    var tail := Little(|b.data|, 4) + (b.data + rest);
    TakeFront(Etag(b.meta), tail);
    var fields := Take(EncodeBlock(b) + rest, META_HEADER).value.0;
    DataRoundTrip(fields, Etag(b.meta), b.data, rest);
  }

  /** Normal form is what a second round trip leaves alone. */
  lemma NormalIsStable(b: Block)
    ensures Normal(Normal(b)) == Normal(b)
    ensures Normal(b).data == b.data && Normal(b).meta.size == b.meta.size
  {
  }
}
