/** What a client sends, and that the decoder gives it back (framing of section 7.1 of RFC 9112 with
    the extensions and trailers `aws-chunked` uses). */
module ChunkedEncoding {
  import opened Common
  import opened ChunkedFraming

  /** A chunk: whatever follows the size on its header line, and its bytes. */
  datatype Frame = Frame(extension: Bytes, data: Bytes)

  const CRLF: Bytes := [CR, LF]

  function HexDigit(d: nat): (b: Byte)
    requires d < 16
    ensures Digit(b) == Some(d) && b != CR && b != SEMICOLON && b != PLUS && !Whitespace(b)
  {
    if d < 10 then 48 + d else 87 + d
  }

  function Hex(n: nat): (s: Bytes)
    ensures s != []
  {
    if n < 16 then [HexDigit(n)] else Hex(n / 16) + [HexDigit(n % 16)]
  }

  predicate Plain(s: Bytes) {
    forall i :: 0 <= i < |s| ==> s[i] != CR && s[i] != SEMICOLON && s[i] != PLUS && !Whitespace(s[i])
  }

  /** The hexadecimal digit of `d`, in either case. */
  predicate IsHex(b: Byte, d: nat) {
    if d < 10 then b == '0' as int + d
    else d < 16 && (b == 'a' as int + (d - 10) || b == 'A' as int + (d - 10))
  }

  /** `s` is `n` written in hexadecimal, with any leading zeros and digits of either case. */
  predicate Writes(s: Bytes, n: nat) {
    s != [] && IsHex(s[|s| - 1], n % 16) && (if |s| == 1 then n < 16 else Writes(s[..|s| - 1], n / 16))
  }

  /** Just that is what is read as a number. */
  lemma {:induction false} HexExactly(s: Bytes, n: nat)
    ensures HexValue(s) == Some(n) <==> Writes(s, n)
  {
    if |s| > 1 {
      HexExactly(s[..|s| - 1], n / 16);
      var high, last := HexValue(s[..|s| - 1]), Digit(s[|s| - 1]);
      if high.Some? && last.Some? {
        DigitsOf(high.value, last.value);
      }
      if high.Some? {
        HexExactly(s[..|s| - 1], high.value);
      }
    }
  }

  lemma DigitsOf(high: nat, last: nat)
    requires last < 16
    ensures (16 * high + last) / 16 == high && (16 * high + last) % 16 == last
  {
  }

  lemma {:induction false} HexPlain(n: nat)
    ensures Plain(Hex(n)) && Writes(Hex(n), n)
  {
    if n >= 16 {
      HexPlain(n / 16);
      var s := Hex(n);
      assert s[..|s| - 1] == Hex(n / 16) && s[|s| - 1] == HexDigit(n % 16);
    }
  }

  /** The header line of a chunk of `n` bytes. */
  function Line(n: nat, extension: Bytes): Bytes { Hex(n) + extension }

  /** An extension is absent or starts with a semicolon, and does not end the line. */
  predicate Extends(n: nat, extension: Bytes) {
    && (extension == [] || extension[0] == SEMICOLON)
    && FindCrlf(extension).None?
    && |Line(n, extension)| < MAX_HEADER_LINE
  }

  /** Spaces, tabs, line feeds, vertical tabs, form feeds and carriage returns. */
  predicate Blank(s: Bytes) { forall i :: 0 <= i < |s| ==> s[i] == ' ' as int || 9 <= s[i] <= 13 }

  lemma {:induction false} TrimBlankStart(left: Bytes, rest: Bytes)
    requires Blank(left) && (rest != [] ==> !Whitespace(rest[0]))
    ensures TrimStart(left + rest) == rest
  {
    if left != [] {
      TrimBlankStart(left[1..], rest);
      assert (left + rest)[1..] == left[1..] + rest;
    } else {
      assert left + rest == rest;
    }
  }

  lemma {:induction false} TrimBlankEnd(rest: Bytes, right: Bytes)
    requires Blank(right) && (rest != [] ==> !Whitespace(rest[|rest| - 1]))
    ensures TrimEnd(rest + right) == rest
    decreases |right|
  {
    if right != [] {
      var n := |right| - 1;
      TrimBlankEnd(rest, right[..n]);
      assert (rest + right)[..|rest| + n] == rest + right[..n];
    } else {
      assert rest + right == rest;
    }
  }

  lemma {:induction false} NoSemicolon(text: Bytes, extension: Bytes)
    requires (forall i :: 0 <= i < |text| ==> text[i] != SEMICOLON) && (extension == [] || extension[0] == SEMICOLON)
    ensures BeforeSemicolon(text + extension) == text
  {
    if text != [] {
      NoSemicolon(text[1..], extension);
      assert (text + extension)[1..] == text[1..] + extension;
      assert text == [text[0]] + text[1..];
    } else {
      assert text + extension == extension;
    }
  }

  /** What is left of a header line once its extension and the white space around its size are gone. */
  lemma SizeText(left: Bytes, text: Bytes, right: Bytes, extension: Bytes)
    requires Blank(left) && Blank(right) && (extension == [] || extension[0] == SEMICOLON)
    requires text != [] && !Whitespace(text[0]) && !Whitespace(text[|text| - 1])
    requires forall i :: 0 <= i < |text| ==> text[i] != SEMICOLON
    ensures TrimEnd(TrimStart(BeforeSemicolon(left + text + right + extension))) == text
  {
    NoSemicolon(left + text + right, extension);
    assert left + text + right == left + (text + right);
    TrimBlankStart(left, text + right);
    TrimBlankEnd(text, right);
  }

  /** A header line announces `n` exactly if its size is `n` in hexadecimal digits of either case, within a
      machine word, whatever white space is around it and whatever extension follows; a plus sign may
      come before it. */
  lemma HeaderExactly(left: Bytes, plus: bool, size: Bytes, right: Bytes, extension: Bytes, n: nat)
    requires Blank(left) && Blank(right) && Plain(size) && (plus || size != [])
    requires extension == [] || extension[0] == SEMICOLON
    ensures var text := if plus then [PLUS] + size else size;
            ParseHeader(left + text + right + extension) == Some(n) <==> Writes(size, n) && n < USIZE
  {
    var text := if plus then [PLUS] + size else size;
    SizeText(left, text, right, extension);
    assert plus ==> text[1..] == size;
    HexExactly(size, n);
  }

  /** In particular a header line announces the size it was written for. */
  lemma HeaderRoundTrip(size: Bytes, n: nat, extension: Bytes)
    requires Plain(size) && Writes(size, n) && n < USIZE && (extension == [] || extension[0] == SEMICOLON)
    ensures ParseHeader(size + extension) == Some(n)
  {
    HeaderExactly([], false, size, [], extension, n);
    assert [] + size + [] + extension == size + extension;
  }

  /** And a line whose size has any other character is an error. */
  lemma BadHeader(size: Bytes, extension: Bytes, rest: Bytes, more: Ending, k: nat)
    requires Plain(size) && k < |size| && forall d :: !IsHex(size[k], d)
    requires (extension == [] || extension[0] == SEMICOLON) && FindCrlf(extension).None?
    ensures Decode(Header, size + extension + CRLF + rest, more) == Decoded([], BadSize)
  {
    var line := size + extension;
    TextEnds(size, extension, rest);
    assert (line + CRLF + rest)[..|line|] == line;
    var found := ParseHeader(line);
    if found.Some? {
      HeaderExactly([], false, size, [], extension, found.value);
      assert [] + size + [] + extension == line;
      WritesAll(size, found.value, k);
    }
  }

  lemma {:induction false} WritesAll(s: Bytes, n: nat, k: nat)
    requires Writes(s, n) && k < |s|
    ensures exists d :: IsHex(s[k], d)
    decreases |s|
  {
    if k < |s| - 1 {
      WritesAll(s[..|s| - 1], n / 16, k);
    }
  }

  /** The line ends where it was written to end. */
  lemma TextEnds(size: Bytes, extension: Bytes, rest: Bytes)
    requires Plain(size) && FindCrlf(extension).None?
    ensures FindCrlf(size + extension + CRLF + rest) == Some(|size + extension|)
  {
    var line := size + extension;
    var s := line + CRLF + rest;
    forall i | 0 <= i < |line| ensures !CrlfAt(s, i) {
      if i >= |size| {
        assert s[i] == extension[i - |size|];
        assert !CrlfAt(extension, i - |size|);
      } else {
        assert s[i] == size[i];
      }
    }
    FoundAt(s, |line|);
  }

  lemma LineEnds(n: nat, extension: Bytes, rest: Bytes)
    requires Extends(n, extension)
    ensures FindCrlf(Line(n, extension) + CRLF + rest) == Some(|Line(n, extension)|)
  {
    HexPlain(n);
    TextEnds(Hex(n), extension, rest);
  }

  predicate Sendable(frames: seq<Frame>) {
    forall f :: f in frames ==> 0 < |f.data| < USIZE && Extends(|f.data|, f.extension)
  }

  function Encode(frames: seq<Frame>, extension: Bytes, trailers: Bytes): Bytes {
    if frames == [] then Line(0, extension) + CRLF + trailers
    else Line(|frames[0].data|, frames[0].extension) + CRLF
         + (frames[0].data + CRLF + Encode(frames[1..], extension, trailers))
  }

  function Payload(frames: seq<Frame>): Bytes {
    if frames == [] then [] else frames[0].data + Payload(frames[1..])
  }

  /** One header line, taken off the front. */
  lemma TakeLine(n: nat, extension: Bytes, rest: Bytes, more: Ending)
    requires n < USIZE && Extends(n, extension)
    ensures Decode(Header, Line(n, extension) + CRLF + rest, more) == DecodeSized(Some(n), rest, more)
    ensures ShortLines(Header, Line(n, extension) + CRLF + rest) == ShortAfter(Some(n), rest)
  {
    LineEnds(n, extension, rest);
    HexPlain(n);
    HeaderRoundTrip(Hex(n), n, extension);
    var line := Line(n, extension);
    var s := line + CRLF + rest;
    assert s[..|line|] == line && s[|line| + 2..] == rest;
  }

  /** One chunk's bytes and terminator, taken off the front. */
  lemma TakeData(data: Bytes, rest: Bytes, more: Ending)
    requires data != []
    ensures var tail := Decode(Header, rest, more);
            Decode(Data(|data|), data + CRLF + rest, more) == Decoded(data + tail.out, tail.end)
    ensures ShortLines(Data(|data|), data + CRLF + rest) == ShortLines(Header, rest)
  {
    var s := data + CRLF + rest;
    assert s[..|data|] == data && s[|data|..] == CRLF + rest && (CRLF + rest)[2..] == rest;
  }

  /** Round trip: any list of chunks, with any extensions and trailers, decodes to its payload. */
  lemma {:induction false} RoundTrip(frames: seq<Frame>, extension: Bytes, trailers: Bytes)
    requires Sendable(frames) && Extends(0, extension)
    ensures Decode(Header, Encode(frames, extension, trailers), Cut) == Decoded(Payload(frames), Complete)
    ensures ShortLines(Header, Encode(frames, extension, trailers))
    decreases |frames|
  {
    if frames == [] {
      TakeLine(0, extension, trailers, Cut);
    } else {
      var f := frames[0];
      var rest := Encode(frames[1..], extension, trailers);
      TakeLine(|f.data|, f.extension, f.data + CRLF + rest, Cut);
      TakeData(f.data, rest, Cut);
      RoundTrip(frames[1..], extension, trailers);
    }
  }

  /** However the encoded body is split on its way, the decoder gives the payload back. */
  lemma DecoderRoundTrip(frames: seq<Frame>, extension: Bytes, trailers: Bytes, items: Items)
    requires Sendable(frames) && Extends(0, extension)
    requires Arriving(items) == Encode(frames, extension, trailers) && Closing(items) == Cut
    ensures Feed(Header, [], items) == Decoded(Payload(frames), Complete)
  {
    RoundTrip(frames, extension, trailers);
    assert [] + Arriving(items) == Arriving(items);
    FeedDecodes(Header, [], items);
  }

  // ---- Truncation ----

  /** Where the zero chunk's header line ends. */
  function Terminated(frames: seq<Frame>, extension: Bytes): nat { |Encode(frames, extension, [])| }

  lemma CutInLine(n: nat, extension: Bytes, rest: Bytes, k: nat, more: Ending)
    requires Extends(n, extension) && k < |Line(n, extension)| + 2
    ensures Decode(Header, (Line(n, extension) + CRLF + rest)[..k], more) == Decoded([], more)
    ensures ShortLines(Header, (Line(n, extension) + CRLF + rest)[..k])
  {
    var s := Line(n, extension) + CRLF + rest;
    LineEnds(n, extension, rest);
    assert s[..k] + s[k..] == s;
    FoundEarly(s[..k], s[k..]);
  }

  lemma CutInData(data: Bytes, rest: Bytes, k: nat, more: Ending)
    requires data != [] && k < |data| + 2
    ensures Decode(Data(|data|), (data + CRLF + rest)[..k], more) == Decoded(data[..Min(k, |data|)], more)
    ensures ShortLines(Data(|data|), (data + CRLF + rest)[..k])
  {
    var s := (data + CRLF + rest)[..k];
    assert s[..Min(k, |data|)] == data[..Min(k, |data|)];
  }

  /** One chunk, taken off the front. */
  lemma TakeFrame(f: Frame, rest: Bytes, more: Ending)
    requires 0 < |f.data| < USIZE && Extends(|f.data|, f.extension)
    ensures var tail := Decode(Header, rest, more);
            Decode(Header, Line(|f.data|, f.extension) + CRLF + (f.data + CRLF + rest), more)
            == Decoded(f.data + tail.out, tail.end)
    ensures ShortLines(Header, Line(|f.data|, f.extension) + CRLF + (f.data + CRLF + rest)) == ShortLines(Header, rest)
  {
    TakeLine(|f.data|, f.extension, f.data + CRLF + rest, more);
    TakeData(f.data, rest, more);
  }

  /** The payload among the first `k` bytes of an encoding. */
  function Arrived(frames: seq<Frame>, k: int): Bytes {
    if frames == [] then []
    else
      var m := k - |Line(|frames[0].data|, frames[0].extension)| - 2;
      if m < 0 then []
      else if m < |frames[0].data| + 2 then frames[0].data[..Min(m, |frames[0].data|)]
      else frames[0].data + Arrived(frames[1..], m - |frames[0].data| - 2)
  }

  lemma {:induction false} ArrivedIsPrefix(frames: seq<Frame>, k: int)
    ensures Arrived(frames, k) <= Payload(frames)
  {
    if frames != [] {
      ArrivedIsPrefix(frames[1..], k - |Line(|frames[0].data|, frames[0].extension)| - 2 - |frames[0].data| - 2);
    }
  }

  /** A body that ends, or fails, anywhere before the zero chunk's line ends yields exactly the payload that has
      arrived by then, and the error. */
  lemma {:induction false} CutIsAnError(frames: seq<Frame>, extension: Bytes, trailers: Bytes, k: nat, more: Ending)
    requires Sendable(frames) && Extends(0, extension) && k < Terminated(frames, extension)
    ensures k <= |Encode(frames, extension, trailers)|
    ensures Decode(Header, Encode(frames, extension, trailers)[..k], more) == Decoded(Arrived(frames, k), more)
    ensures ShortLines(Header, Encode(frames, extension, trailers)[..k])
    decreases |frames|
  {
    var s := Encode(frames, extension, trailers);
    if frames == [] {
      CutInLine(0, extension, trailers, k, more);
      return;
    }
    var f := frames[0];
    var line := Line(|f.data|, f.extension);
    var rest := Encode(frames[1..], extension, trailers);
    var body := f.data + CRLF + rest;
    if k < |line| + 2 {
      CutInLine(|f.data|, f.extension, body, k, more);
      return;
    }
    var m := k - |line| - 2;
    if m < |f.data| + 2 {
      assert s[..k] == line + CRLF + body[..m];
      TakeLine(|f.data|, f.extension, body[..m], more);
      CutInData(f.data, rest, m, more);
    } else {
      var m' := m - |f.data| - 2;
      CutIsAnError(frames[1..], extension, trailers, m', more);
      assert s[..k] == line + CRLF + body[..m] && body[..m] == f.data + CRLF + rest[..m'];
      TakeFrame(f, rest[..m'], more);
    }
  }

  /** So it is for the decoder, however what arrives is split. */
  lemma DecoderCut(frames: seq<Frame>, extension: Bytes, trailers: Bytes, k: nat, items: Items)
    requires Sendable(frames) && Extends(0, extension) && k < Terminated(frames, extension)
    requires k <= |Encode(frames, extension, trailers)|
    requires Arriving(items) == Encode(frames, extension, trailers)[..k]
    ensures Feed(Header, [], items) == Decoded(Arrived(frames, k), Closing(items))
  {
    CutIsAnError(frames, extension, trailers, k, Closing(items));
    assert [] + Arriving(items) == Arriving(items);
    FeedDecodes(Header, [], items);
  }

  /** Chunks, and whatever follows them. */
  function Framed(frames: seq<Frame>, rest: Bytes): Bytes {
    if frames == [] then rest
    else Line(|frames[0].data|, frames[0].extension) + CRLF + (frames[0].data + CRLF + Framed(frames[1..], rest))
  }

  lemma Reassociate(a: Bytes, b: Bytes, c: Bytes)
    ensures a + (b + c) == (a + b) + c
  {
  }

  lemma {:induction false} FramesDecode(frames: seq<Frame>, rest: Bytes, more: Ending)
    requires Sendable(frames)
    ensures var tail := Decode(Header, rest, more);
            Decode(Header, Framed(frames, rest), more) == Decoded(Payload(frames) + tail.out, tail.end)
  {
    if frames != [] {
      TakeFrame(frames[0], Framed(frames[1..], rest), more);
      FramesDecode(frames[1..], rest, more);
      Reassociate(frames[0].data, Payload(frames[1..]), Decode(Header, rest, more).out);
    } else {
      assert Payload(frames) + Decode(Header, rest, more).out == Decode(Header, rest, more).out;
    }
  }

  /** After any chunks, a chunk that is not followed by a line end is an error, once its bytes are out. */
  lemma BadTerminatorIsAnError(frames: seq<Frame>, f: Frame, junk: Bytes, more: Ending)
    requires Sendable(frames + [f]) && |junk| >= 2 && junk[..2] != CRLF
    ensures Decode(Header, Framed(frames, Line(|f.data|, f.extension) + CRLF + (f.data + junk)), more)
            == Decoded(Payload(frames) + f.data, BadTerminator)
  {
    assert f in frames + [f] && forall g :: g in frames ==> g in frames + [f];
    FramesDecode(frames, Line(|f.data|, f.extension) + CRLF + (f.data + junk), more);
    TakeUnterminated(f, junk, more);
  }

  lemma TakeUnterminated(f: Frame, junk: Bytes, more: Ending)
    requires 0 < |f.data| < USIZE && Extends(|f.data|, f.extension) && |junk| >= 2 && junk[..2] != CRLF
    ensures Decode(Header, Line(|f.data|, f.extension) + CRLF + (f.data + junk), more) == Decoded(f.data, BadTerminator)
  {
    TakeLine(|f.data|, f.extension, f.data + junk, more);
    var s := f.data + junk;
    assert s[..|f.data|] == f.data && s[|f.data|..] == junk;
    assert junk[..2] == [junk[0], junk[1]];
    assert Decode(DataCrlf, junk, more) == Decoded([], BadTerminator);
    assert f.data + [] == f.data;
  }
}
