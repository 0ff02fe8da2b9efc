/** The body of an origin attempt cut into blocks (nestor/src/body.rs:19-76). */
module BlockStreams {
  import opened Common
  import opened Errors

  /** What the origin's body yields, item by item. */
  type Items = seq<Result<Bytes, OriginError>>

  /** The bytes a body delivers before it ends or fails. */
  function Delivered(items: Items): Bytes {
    if items == [] || items[0].Err? then [] else items[0].value + Delivered(items[1..])
  }

  /** How a body ends for a caller that still needs bytes: its own failure, or a short read. */
  function Ending(items: Items): OriginError {
    if items == [] then ShortRead
    else if items[0].Err? then items[0].error
    else Ending(items[1..])
  }

  function After(bytes: Bytes, skip: nat): Bytes { if skip <= |bytes| then bytes[skip..] else [] }

  /** Skipping across one more item is skipping in its bytes and then in the rest. */
  lemma AfterConcat(chunk: Bytes, rest: Bytes, skip: nat)
    ensures After(chunk + rest, skip) == After(chunk, skip) + After(rest, skip - Min(skip, |chunk|))
  {
    if skip > |chunk| && skip <= |chunk| + |rest| {
      assert (chunk + rest)[skip..] == rest[skip - |chunk|..];
    }
  }

  /** Taking one more item into the buffer, past what is still to be skipped, changes nothing. */
  lemma Received(buf: Bytes, items: Items, skip: nat)
    requires items != [] && items[0].Ok?
    ensures buf + After(Delivered(items), skip)
         == buf + After(items[0].value, skip) + After(Delivered(items[1..]), skip - Min(skip, |items[0].value|))
  {
    AfterConcat(items[0].value, Delivered(items[1..]), skip);
  }

  lemma CutOff(front: Bytes, rest: Bytes, n: nat)
    requires n <= |front|
    ensures (front + rest)[..n] == front[..n] && (front + rest)[n..] == front[n..] + rest
  {
  }

  class BlockStream {
    var items: Items
    var buf: Bytes
    var skip: nat

    /** The bytes this stream still owes its caller. */
    function Content(): Bytes
      reads this
    {
      buf + After(Delivered(items), skip)
    }

    predicate Valid()
      reads this
    {
      skip > 0 ==> buf == []
    }

    constructor (items: Items, skip: nat)
      ensures Valid() && Content() == After(Delivered(items), skip) && this.items == items
    {
      this.items, this.skip, buf := items, skip, [];
      new;
      assert Content() == After(Delivered(items), skip);
    }

    /** Polls for the next block while `arrivals` more items come in. `None` is a poll that is still
        waiting; dropping the caller there, as `select!` does, loses nothing, because what has been
        received is in `buf` and `skip`. */
    method NextBlock(expected: nat, arrivals: nat) returns (r: Option<Result<Bytes, OriginError>>)
      requires Valid()
      modifies this
      ensures Valid()
      ensures r.Some? && r.value.Ok? ==>
        |old(Content())| >= expected && r.value.value == old(Content())[..expected]
        && Content() == old(Content())[expected..]
      ensures r.Some? && r.value.Err? ==> |old(Content())| < expected && r.value.error == old(Ending(items))
      ensures r.None? ==> Content() == old(Content()) && Ending(items) == old(Ending(items)) && arrivals <= |old(items)|
    {
      var left := arrivals;
      while true
        invariant Valid() && Content() == old(Content()) && Ending(items) == old(Ending(items))
        invariant |items| + arrivals == |old(items)| + left
        decreases |items|
      {
        if |buf| >= expected {
          CutOff(buf, After(Delivered(items), skip), expected);
          var block := buf[..expected];
          buf := buf[expected..];
          return Some(Ok(block));
        }
        if left == 0 {
          return None;
        }
        if items == [] {
          return Some(Err(ShortRead));
        }
        if items[0].Err? {
          var e := items[0].error;
          items := items[1..];
          return Some(Err(e));
        }
        var chunk := items[0].value;
        Received(buf, items, skip);
        items, left := items[1..], left - 1;
        chunk, skip := After(chunk, skip), skip - Min(skip, |chunk|);
        if buf == [] && |chunk| >= expected {
          assert buf + chunk == chunk;
          CutOff(chunk, After(Delivered(items), skip), expected);
          buf := chunk[expected..];
          return Some(Ok(chunk[..expected]));
        }
        buf := buf + chunk;
      }
    }

    /** Polled to the end: the block if enough bytes are still to come, and otherwise the failure. */
    method Finish(expected: nat) returns (r: Result<Bytes, OriginError>)
      requires Valid()
      modifies this
      ensures Valid()
      ensures r.Ok? <==> |old(Content())| >= expected
      ensures r.Ok? ==> r.value == old(Content())[..expected] && Content() == old(Content())[expected..]
      ensures r.Err? ==> r.error == old(Ending(items))
    {
      var polled := NextBlock(expected, |items| + 1);
      r := polled.value;
    }
  }
}
