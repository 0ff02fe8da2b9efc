/** `aws-chunked` framing as a function of the whole body (nestor-s3/src/body.rs:14-59 and the
    phases of `poll_next`; the framing of section 7.1 of RFC 9112). */
module ChunkedFraming {
  import opened Common

  const MAX_HEADER_LINE: nat := 1024
  const CR: Byte := 13
  const LF: Byte := 10
  const SEMICOLON: Byte := 59
  const PLUS: Byte := 43
  const USIZE: nat := 0x1_0000_0000_0000_0000

  datatype Phase = Header | Data(remaining: Pos) | DataCrlf | Trailers | Finished

  datatype Ending = Complete | BadSize | BadTerminator | TooLong | Cut | Upstream

  /** What a body decodes to: the bytes handed out and how the stream ends. */
  datatype Decoded = Decoded(out: Bytes, end: Ending)

  predicate CrlfAt(s: Bytes, i: int) { 0 <= i && i + 1 < |s| && s[i] == CR && s[i + 1] == LF }

  function FindCrlf(s: Bytes): (r: Option<nat>)
    ensures r.Some? ==> CrlfAt(s, r.value) && forall i :: 0 <= i < r.value ==> !CrlfAt(s, i)
    ensures r.None? ==> forall i :: !CrlfAt(s, i)
  {
    FindFrom(s, 0)
  }

  function FindFrom(s: Bytes, from: nat): (r: Option<nat>)
    requires forall i :: 0 <= i < from ==> !CrlfAt(s, i)
    ensures r.Some? ==> CrlfAt(s, r.value) && forall i :: 0 <= i < r.value ==> !CrlfAt(s, i)
    ensures r.None? ==> forall i :: !CrlfAt(s, i)
    decreases |s| - from
  {
    if from + 1 >= |s| then None else if CrlfAt(s, from) then Some(from) else FindFrom(s, from + 1)
  }

  /** The first line end is where the definition says, and nowhere else. */
  lemma FoundAt(s: Bytes, p: nat)
    requires CrlfAt(s, p) && forall i :: 0 <= i < p ==> !CrlfAt(s, i)
    ensures FindCrlf(s) == Some(p)
  {
    var r := FindCrlf(s);
    assert CrlfAt(s, p) && (r.Some? ==> CrlfAt(s, r.value));
  }

  // ---- Header lines ----

  function BeforeSemicolon(line: Bytes): Bytes {
    if line == [] || line[0] == SEMICOLON then [] else [line[0]] + BeforeSemicolon(line[1..])
  }

  predicate Whitespace(b: Byte) { 9 <= b <= 13 || b == 32 }

  function TrimStart(s: Bytes): Bytes { if s != [] && Whitespace(s[0]) then TrimStart(s[1..]) else s }

  function TrimEnd(s: Bytes): Bytes {
    if s != [] && Whitespace(s[|s| - 1]) then TrimEnd(s[..|s| - 1]) else s
  }

  function Digit(b: Byte): Option<nat> {
    if 48 <= b <= 57 then Some(b - 48)
    else if 97 <= b <= 102 then Some(b - 87)
    else if 65 <= b <= 70 then Some(b - 55)
    else None
  }

  /** `from_str_radix(_, 16)` past the sign, without its width. */
  function HexValue(digits: Bytes): Option<nat> {
    if digits == [] then None
    else
      var n := |digits| - 1;
      var last := Digit(digits[n]);
      if last.None? then None
      else if n == 0 then last
      else
        var high := HexValue(digits[..n]);
        if high.None? then None else Some(16 * high.value + last.value)
  }

  /** The size a header line announces. */
  function ParseHeader(line: Bytes): Option<nat> {
    var text := TrimEnd(TrimStart(BeforeSemicolon(line)));
    var digits := if text != [] && text[0] == PLUS then text[1..] else text;
    var value := HexValue(digits);
    if value.Some? && value.value < USIZE then value else None
  }

  // ---- The whole body ----

  /** What is left of a body in phase `phase` decodes to, when the input ends (`more == Cut`) or
      fails (`more == Upstream`) after `s`. */
  function Decode(phase: Phase, s: Bytes, more: Ending): Decoded
    decreases |s|, 0
  {
    match phase
    case Finished => Decoded([], Complete)
    case Trailers => Decoded([], if more == Upstream then Upstream else Complete)
    case Header =>
      var p := FindCrlf(s);
      if p.None? then Decoded([], if |s| > MAX_HEADER_LINE then TooLong else more)
      else DecodeSized(ParseHeader(s[..p.value]), s[p.value + 2..], more)
    case Data(n) =>
      if s == [] then Decoded([], more)
      else if n <= |s| then
        var rest := Decode(DataCrlf, s[n..], more);
        Decoded(s[..n] + rest.out, rest.end)
      else Decoded(s, more)
    case DataCrlf =>
      if |s| < 2 then Decoded([], more)
      else if !CrlfAt(s, 0) then Decoded([], BadTerminator)
      else Decode(Header, s[2..], more)
  }

  function DecodeSized(size: Option<nat>, s: Bytes, more: Ending): Decoded
    decreases |s|, 1
  {
    if size.None? then Decoded([], BadSize)
    else if size.value == 0 then Decode(Trailers, s, more)
    else Decode(Data(size.value), s, more)
  }

  /** Every header line reached is at most 1023 bytes long. */
  predicate ShortLines(phase: Phase, s: Bytes)
    decreases |s|, 0
  {
    match phase
    case Header =>
      var p := FindCrlf(s);
      p.None? || (p.value < MAX_HEADER_LINE && ShortAfter(ParseHeader(s[..p.value]), s[p.value + 2..]))
    case Data(n) => n < |s| ==> ShortLines(DataCrlf, s[n..])
    case DataCrlf => CrlfAt(s, 0) ==> ShortLines(Header, s[2..])
    case _ => true
  }

  predicate ShortAfter(size: Option<nat>, s: Bytes)
    decreases |s|, 1
  {
    size.Some? && size.value > 0 ==> ShortLines(Data(size.value), s)
  }

  // ---- Input that arrives in pieces ----

  /** A line end found in what has arrived is the one the whole body has. */
  lemma FoundEarly(buf: Bytes, rest: Bytes)
    ensures FindCrlf(buf).Some? ==> FindCrlf(buf + rest) == FindCrlf(buf)
    ensures FindCrlf(buf).None? && FindCrlf(buf + rest).Some? ==> FindCrlf(buf + rest).value + 1 >= |buf|
  {
    var s := buf + rest;
    assert forall i :: 0 <= i && i + 1 < |buf| ==> CrlfAt(s, i) == CrlfAt(buf, i);
    if FindCrlf(buf).Some? {
      FoundAt(s, FindCrlf(buf).value);
    } else {
      assert forall i :: CrlfAt(s, i) ==> i + 1 >= |buf|;
    }
  }

  lemma HeaderArrived(buf: Bytes, rest: Bytes, more: Ending)
    requires FindCrlf(buf).Some?
    ensures var p := FindCrlf(buf).value;
            && Decode(Header, buf + rest, more) == DecodeSized(ParseHeader(buf[..p]), buf[p + 2..] + rest, more)
            && (ShortLines(Header, buf + rest) ==> ShortAfter(ParseHeader(buf[..p]), buf[p + 2..] + rest))
  {
    FoundEarly(buf, rest);
    var p := FindCrlf(buf).value;
    assert (buf + rest)[..p] == buf[..p] && (buf + rest)[p + 2..] == buf[p + 2..] + rest;
  }

  /** Under the line limit a buffer over it can only be a header that never ends. */
  lemma HeaderTooLong(buf: Bytes, rest: Bytes, more: Ending)
    requires FindCrlf(buf).None? && |buf| > MAX_HEADER_LINE && ShortLines(Header, buf + rest)
    ensures Decode(Header, buf + rest, more) == Decoded([], TooLong)
  {
    FoundEarly(buf, rest);
  }

  /** Data may be handed out as it comes: the last of a chunk's bytes ... */
  lemma DataCompleted(buf: Bytes, rest: Bytes, n: Pos, more: Ending)
    requires n <= |buf|
    ensures var tail := Decode(DataCrlf, buf[n..] + rest, more);
            Decode(Data(n), buf + rest, more) == Decoded(buf[..n] + tail.out, tail.end)
    ensures ShortLines(Data(n), buf + rest) ==> ShortLines(DataCrlf, buf[n..] + rest)
  {
    var s := buf + rest;
    assert s[..n] == buf[..n] && s[n..] == buf[n..] + rest;
    if n == |s| {
      assert s[n..] == [];
    }
  }

  /** ... or part of them. */
  lemma DataContinued(buf: Bytes, rest: Bytes, n: Pos, more: Ending)
    requires 0 < |buf| < n
    ensures var tail := Decode(Data(n - |buf|), rest, more);
            Decode(Data(n), buf + rest, more) == Decoded(buf + tail.out, tail.end)
    ensures ShortLines(Data(n), buf + rest) ==> ShortLines(Data(n - |buf|), rest)
  {
    var s, k := buf + rest, n - |buf|;
    if n <= |s| {
      assert s[n..] == rest[k..] && s[..n] == buf + rest[..k];
      var tail := Decode(DataCrlf, rest[k..], more);
      assert s[..n] + tail.out == buf + (rest[..k] + tail.out);
    }
  }

  lemma TerminatorArrived(buf: Bytes, rest: Bytes, more: Ending)
    requires |buf| >= 2
    ensures !CrlfAt(buf, 0) ==> Decode(DataCrlf, buf + rest, more) == Decoded([], BadTerminator)
    ensures CrlfAt(buf, 0) ==> Decode(DataCrlf, buf + rest, more) == Decode(Header, buf[2..] + rest, more)
    ensures CrlfAt(buf, 0) && ShortLines(DataCrlf, buf + rest) ==> ShortLines(Header, buf[2..] + rest)
  {
    assert (buf + rest)[2..] == buf[2..] + rest;
  }

  /** What the request body yields, item by item; an error stands for any upstream failure. */
  type Items = seq<Result<Bytes, ()>>

  function Arriving(items: Items): Bytes {
    if items == [] || items[0].Err? then [] else items[0].value + Arriving(items[1..])
  }

  function Closing(items: Items): Ending {
    if items == [] then Cut else if items[0].Err? then Upstream else Closing(items[1..])
  }

  /** What a decoder in phase `phase` with `buf` buffered yields in all, fed the given items. */
  function Feed(phase: Phase, buf: Bytes, items: Items): Decoded
    decreases |items|, |buf|, 1
  {
    match phase
    case Finished => Decoded([], Complete)
    case Header =>
      var p := FindCrlf(buf);
      if p.None? then (if |buf| > MAX_HEADER_LINE then Decoded([], TooLong) else Pull(phase, buf, items))
      else FeedSized(ParseHeader(buf[..p.value]), buf[p.value + 2..], items)
    case Data(n) =>
      if buf == [] then Pull(phase, buf, items)
      else if n <= |buf| then Prepend(buf[..n], Feed(DataCrlf, buf[n..], items))
      else Prepend(buf, Feed(Data(n - |buf|), [], items))
    case DataCrlf =>
      if |buf| < 2 then Pull(phase, buf, items)
      else if !CrlfAt(buf, 0) then Decoded([], BadTerminator)
      else Feed(Header, buf[2..], items)
    case Trailers => if items == [] then Decoded([], Complete) else Pull(phase, [], items)
  }

  function Prepend(out: Bytes, rest: Decoded): Decoded { Decoded(out + rest.out, rest.end) }

  function FeedSized(size: Option<nat>, buf: Bytes, items: Items): Decoded
    decreases |items|, |buf|, 2
  {
    if size.None? then Decoded([], BadSize)
    else if size.value == 0 then Feed(Trailers, buf, items)
    else Feed(Data(size.value), buf, items)
  }

  /** Nothing more can be done with what is buffered. */
  function Pull(phase: Phase, buf: Bytes, items: Items): Decoded
    decreases |items|, |buf|, 0
  {
    if items == [] then Decoded([], Cut)
    else if items[0].Err? then Decoded([], Upstream)
    else Feed(phase, buf + items[0].value, items[1..])
  }

  lemma Received(buf: Bytes, items: Items)
    requires items != [] && items[0].Ok?
    ensures buf + Arriving(items) == (buf + items[0].value) + Arriving(items[1..])
            && Closing(items) == Closing(items[1..])
  {
  }

  /** Split independence: with short header lines the decoder yields what the whole body decodes to. */
  lemma {:induction false} FeedDecodes(phase: Phase, buf: Bytes, items: Items)
    requires ShortLines(phase, buf + Arriving(items))
    ensures Feed(phase, buf, items) == Decode(phase, buf + Arriving(items), Closing(items))
    decreases |items|, |buf|, 1
  {
    var rest, more := Arriving(items), Closing(items);
    match phase {
      case Finished =>
      case Header =>
        var p := FindCrlf(buf);
        if p.Some? {
          HeaderArrived(buf, rest, more);
          FeedSizedDecodes(ParseHeader(buf[..p.value]), buf[p.value + 2..], items);
        } else if |buf| > MAX_HEADER_LINE {
          HeaderTooLong(buf, rest, more);
        } else {
          PullDecodes(phase, buf, items);
        }
      case Data(n) =>
        if buf == [] {
          PullDecodes(phase, buf, items);
        } else if n <= |buf| {
          DataCompleted(buf, rest, n, more);
          FeedDecodes(DataCrlf, buf[n..], items);
        } else {
          DataContinued(buf, rest, n, more);
          assert [] + rest == rest;
          FeedDecodes(Data(n - |buf|), [], items);
        }
      case DataCrlf =>
        if |buf| < 2 {
          PullDecodes(phase, buf, items);
        } else {
          TerminatorArrived(buf, rest, more);
          if CrlfAt(buf, 0) {
            FeedDecodes(Header, buf[2..], items);
          }
        }
      case Trailers =>
        if items != [] {
          PullDecodes(phase, [], items);
        }
    }
  }

  lemma {:induction false} FeedSizedDecodes(size: Option<nat>, buf: Bytes, items: Items)
    requires ShortAfter(size, buf + Arriving(items))
    ensures FeedSized(size, buf, items) == DecodeSized(size, buf + Arriving(items), Closing(items))
    decreases |items|, |buf|, 2
  {
    if size.Some? {
      FeedDecodes(if size.value == 0 then Trailers else Data(size.value), buf, items);
    }
  }

  lemma {:induction false} PullDecodes(phase: Phase, buf: Bytes, items: Items)
    requires ShortLines(phase, buf + Arriving(items))
    requires Decode(phase, buf, Cut) == Decoded([], Cut) || (phase.Trailers? && items != [])
    requires Decode(phase, buf, Upstream) == Decoded([], Upstream)
    ensures Pull(phase, buf, items) == Decode(phase, buf + Arriving(items), Closing(items))
    decreases |items|, |buf|, 0
  {
    if items == [] || items[0].Err? {
      assert buf + Arriving(items) == buf;
    } else {
      Received(buf, items);
      FeedDecodes(phase, buf + items[0].value, items[1..]);
    }
  }

  /** A longer line makes the split matter: some cut of the body changes what is decoded. */
  lemma {:induction false} LongLineSplits(phase: Phase, s: Bytes) returns (k: nat)
    requires !ShortLines(phase, s)
    ensures k <= |s| && Feed(phase, s[..k], [Ok(s[k..])]) != Feed(phase, s, [])
    decreases |s|
  {
    match phase {
      case Header =>
        var p := FindCrlf(s).value;
        if p >= MAX_HEADER_LINE {
          k := p + 1;
          NoLineYet(s, p);
        } else {
          var n := ParseHeader(s[..p]).value;
          var tail := s[p + 2..];
          var k' := LongLineSplits(Data(n), tail);
          k := p + 2 + k';
          LineKept(s, p, k);
          assert s[..k][p + 2..] == tail[..k'] && s[k..] == tail[k'..] && s[..k][..p] == s[..p];
        }
      case Data(n) =>
        var tail := s[n..];
        var k' := LongLineSplits(DataCrlf, tail);
        k := n + k';
        assert s[..k][n..] == tail[..k'] && s[k..] == tail[k'..] && s[..k][..n] == s[..n];
        PrependDiffers(s[..n], Feed(DataCrlf, tail[..k'], [Ok(tail[k'..])]), Feed(DataCrlf, tail, []));
      case DataCrlf =>
        var tail := s[2..];
        var k' := LongLineSplits(Header, tail);
        k := 2 + k';
        assert s[..k][2..] == tail[..k'] && s[k..] == tail[k'..];
    }
  }

  lemma NoLineYet(s: Bytes, p: nat)
    requires FindCrlf(s) == Some(p) && p >= MAX_HEADER_LINE
    ensures Feed(Header, s[..p + 1], [Ok(s[p + 1..])]) == Decoded([], TooLong) != Feed(Header, s, [])
  {
    FoundEarly(s[..p + 1], s[p + 1..]);
    assert s[..p + 1] + s[p + 1..] == s;
    SizedYields(ParseHeader(s[..p]), s[p + 2..]);
  }

  /** Past a header line something is handed out before another line can be too long. */
  lemma SizedYields(size: Option<nat>, buf: Bytes)
    ensures FeedSized(size, buf, []) != Decoded([], TooLong)
  {
    if size.Some? && size.value > 0 && buf != [] {
      var n: Pos := size.value;
      var out := if n <= |buf| then buf[..n] else buf;
      var rest := if n <= |buf| then Feed(DataCrlf, buf[n..], []) else Feed(Data(n - |buf|), [], []);
      assert FeedSized(size, buf, []) == Prepend(out, rest);
      assert |out + rest.out| > 0;
    }
  }

  lemma LineKept(s: Bytes, p: nat, k: nat)
    requires FindCrlf(s) == Some(p) && p + 2 <= k <= |s|
    ensures FindCrlf(s[..k]) == Some(p)
  {
    assert CrlfAt(s[..k], p);
    assert forall i :: 0 <= i < p ==> CrlfAt(s[..k], i) == CrlfAt(s, i);
    FoundAt(s[..k], p);
  }

  lemma PrependDiffers(out: Bytes, a: Decoded, b: Decoded)
    requires a != b
    ensures Prepend(out, a) != Prepend(out, b)
  {
    assert (out + a.out)[|out|..] == a.out && (out + b.out)[|out|..] == b.out;
  }

  /** What is decoded is independent of the split exactly when every header line reached is at most
      1023 bytes long. */
  lemma SplitsAgreeExactly(s: Bytes)
    ensures ShortLines(Header, s) <==>
      (forall a: Items :: Arriving(a) == s && Closing(a) == Cut ==> Feed(Header, [], a) == Feed(Header, [], [Ok(s)]))
  {
    AtOnce(s);
    if ShortLines(Header, s) {
      forall a: Items | Arriving(a) == s && Closing(a) == Cut ensures Feed(Header, [], a) == Feed(Header, [], [Ok(s)]) {
        assert [] + s == s && s + Arriving([]) == s;
        FeedDecodes(Header, [], a);
        FeedDecodes(Header, s, []);
      }
    } else {
      var k := LongLineSplits(Header, s);
      InTwo(s, k);
    }
  }

  lemma AtOnce(s: Bytes)
    ensures Feed(Header, [], [Ok(s)]) == Feed(Header, s, [])
  {
    var items: Items := [Ok(s)];
    assert [] + s == s && items[1..] == [];
    assert Pull(Header, [], items) == Feed(Header, [] + s, items[1..]);
  }

  lemma InTwo(s: Bytes, k: nat)
    requires k <= |s|
    ensures Feed(Header, [], [Ok(s[..k]), Ok(s[k..])]) == Feed(Header, s[..k], [Ok(s[k..])])
    ensures Arriving([Ok(s[..k]), Ok(s[k..])]) == s && Closing([Ok(s[..k]), Ok(s[k..])]) == Cut
  {
    var cut: Items := [Ok(s[..k]), Ok(s[k..])];
    var second: Items := [Ok(s[k..])];
    assert cut[1..] == second && second[1..] == [];
    assert Arriving(second) == s[k..] + Arriving(second[1..]) == s[k..];
    assert Closing(second) == Closing(second[1..]);
    assert Arriving(cut) == s[..k] + Arriving(second);
    assert [] + s[..k] == s[..k];
    assert Pull(Header, [], cut) == Feed(Header, [] + s[..k], cut[1..]);
  }
}
