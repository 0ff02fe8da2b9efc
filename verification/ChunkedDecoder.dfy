/** The incremental decoder (nestor-s3/src/body.rs:24-132). */
module ChunkedDecoder {
  import opened Common
  import opened ChunkedFraming

  datatype Progress = Again | Starved | Item(item: Option<Result<Bytes, Ending>>)

  class Decoder {
    var inner: Items
    var buf: Bytes
    var state: Phase
    var eof: bool

    /** What is still to come. */
    function Rest(): Decoded
      reads this
    {
      Feed(state, buf, inner)
    }

    predicate Valid()
      reads this
    {
      eof ==> inner == []
    }

    constructor (items: Items)
      ensures Valid() && Rest() == Feed(Header, [], items)
    {
      inner, buf, state, eof := items, [], Header, false;
    }

    /** The match of the polling loop: what the current phase can do with the buffer. */
    method Advance() returns (r: Progress)
      requires Valid()
      modifies `buf, `state
      ensures r.Again? ==> Rest() == old(Rest()) && |buf| < |old(buf)|
      ensures r.Starved? ==> |buf| <= |old(buf)| && !(state.Trailers? && eof)
      ensures r.Starved? && inner != [] ==> old(Rest()) == Rest() == Pull(state, buf, inner)
      ensures r.Starved? && inner == [] && eof ==> old(Rest()) == Decoded([], Cut)
      ensures r.Starved? && inner == [] && !eof ==> old(Rest()) == Rest()
      ensures r.Item? && r.item.Some? && r.item.value.Ok? ==>
        r.item.value.value != [] && old(Rest()) == Prepend(r.item.value.value, Rest()) && |buf| < |old(buf)|
      ensures r.Item? && r.item.Some? && r.item.value.Err? ==> old(Rest()) == Decoded([], r.item.value.error)
      ensures r.Item? && r.item.None? ==> old(Rest()) == Decoded([], Complete)
    {
      assert Pull(state, buf, []) == Decoded([], Cut);
      match state {
        case Finished => return Item(None);
        case Header =>
          var p := FindCrlf(buf);
          if p.None? {
            return if |buf| > MAX_HEADER_LINE then Item(Some(Err(TooLong))) else Starved;
          }
          var size := ParseHeader(buf[..p.value]);
          assert Rest() == FeedSized(size, buf[p.value + 2..], inner);
          buf := buf[p.value + 2..];
          if size.None? {
            return Item(Some(Err(BadSize)));
          }
          state := if size.value == 0 then Trailers else Data(size.value);
          return Again;
        case Data(n) =>
          if buf == [] {
            return Starved;
          }
          var take := Min(n, |buf|);
          var out := buf[..take];
          buf, state := buf[take..], if take == n then DataCrlf else Data(n - take);
          return Item(Some(Ok(out)));
        case DataCrlf =>
          if |buf| < 2 {
            return Starved;
          }
          if !CrlfAt(buf, 0) {
            return Item(Some(Err(BadTerminator)));
          }
          buf, state := buf[2..], Header;
          return Again;
        case Trailers =>
          buf := [];
          if eof {
            state := Finished;
            return Item(None);
          }
          return Starved;
      }
    }

    /** `poll_next`: the next piece of what the items decode to. */
    method Next() returns (r: Option<Result<Bytes, Ending>>)
      requires Valid()
      modifies this
      ensures Valid()
      ensures r.Some? && r.value.Ok? ==> r.value.value != [] && old(Rest()) == Prepend(r.value.value, Rest())
      ensures r.Some? && r.value.Err? ==> old(Rest()) == Decoded([], r.value.error)
      ensures r.None? ==> old(Rest()) == Decoded([], Complete)
    {
      while true
        invariant Valid() && Rest() == old(Rest())
        decreases |inner|, !eof, |buf|
      {
        var progress := Advance();
        if progress.Item? {
          return progress.item;
        }
        if progress.Starved? {
          if eof {
            return Some(Err(Cut));
          }
          if inner == [] {
            eof := true;
          } else if inner[0].Err? {
            return Some(Err(Upstream));
          } else {
            buf, inner := buf + inner[0].value, inner[1..];
          }
        }
      }
    }
  }

  /** A consumer that reads to the end sees exactly what `Feed` says. */
  method Drain(items: Items) returns (r: Decoded)
    ensures r == Feed(Header, [], items)
  {
    var decoder := new Decoder(items);
    var out := [];
    while true
      invariant decoder.Valid() && fresh(decoder)
      invariant Feed(Header, [], items) == Prepend(out, decoder.Rest())
      decreases |decoder.Rest().out|
    {
      ghost var left := decoder.Rest();
      var piece := decoder.Next();
      if piece.None? {
        return Decoded(out, Complete);
      }
      if piece.value.Err? {
        return Decoded(out, piece.value.error);
      }
      assert out + left.out == out + piece.value.value + decoder.Rest().out;
      out := out + piece.value.value;
    }
  }
}
