/**
  The bounded capture of a command's output and the size of the result frame built from it:
  replacement decoding of UTF-8 followed by JSON escaping (section 7 of RFC 8259).
*/
module BoundedOutput {
  import opened Options
  import opened Framing

  const MaxOutput: nat := 1024 * 1024
  const MaxRequestId: nat := 128
  const ReadSize: nat := 65536

  // --------------------------------------------------------------- the drain

  function Prefix(data: seq<byte>, n: nat): seq<byte> { if |data| <= n then data else data[..n] }

  /** `drain_bounded`: keep the first megabyte, read on to the end, and say whether any was dropped. */
  method DrainBounded(stream: Stream) returns (kept: seq<byte>, truncated: bool)
    modifies stream
    ensures kept == Prefix(old(stream.rest), MaxOutput) && truncated == (|old(stream.rest)| > MaxOutput)
    ensures stream.rest == []
  {
    ghost var data := stream.rest;
    ghost var seen: seq<byte> := [];
    kept, truncated := [], false;
    while true
      invariant seen + stream.rest == data
      invariant kept == Prefix(seen, MaxOutput) && truncated == (|seen| > MaxOutput)
      decreases |stream.rest|
    {
      var chunk := stream.Read(ReadSize);
      if chunk == [] { break; }
      var room := if MaxOutput > |kept| then MaxOutput - |kept| else 0;
      KeepsPrefix(seen, chunk, kept, room);
      if room > 0 { kept := kept + Prefix(chunk, room); }
      if |chunk| > room { truncated := true; }
      seen := seen + chunk;
    }
    assert seen == data;
  }

  lemma KeepsPrefix(seen: seq<byte>, chunk: seq<byte>, kept: seq<byte>, room: nat)
    requires kept == Prefix(seen, MaxOutput) && room == MaxOutput - |kept|
    ensures Prefix(seen + chunk, MaxOutput) == if room > 0 then kept + Prefix(chunk, room) else kept
    ensures (|seen + chunk| > MaxOutput) == (|seen| > MaxOutput || |chunk| > room)
  {
    if room > 0 && |chunk| > room { assert (seen + chunk)[..MaxOutput] == seen + chunk[..room]; }
    if room == 0 && |seen| == MaxOutput { assert Prefix(seen + chunk, MaxOutput) == seen; }
    if |seen| > MaxOutput { assert (seen + chunk)[..MaxOutput] == seen[..MaxOutput]; }
  }

  // ------------------------------------------------- decoding with replacement

  /** A Unicode code point. */
  type Point = x: int | 0 <= x < 0x11_0000

  const Replacement: Point := 0xFFFD

  predicate Tail(b: byte) { 0x80 <= b <= 0xBF }

  /** The second bytes a lead byte admits, which exclude overlong forms and surrogates. */
  predicate Second(lead: byte, b: byte) {
    if lead == 0xE0 then 0xA0 <= b <= 0xBF
    else if lead == 0xED then 0x80 <= b <= 0x9F
    else if lead == 0xF0 then 0x90 <= b <= 0xBF
    else if lead == 0xF4 then 0x80 <= b <= 0x8F
    else Tail(b)
  }

  /** How many bytes a lead byte announces; zero for a byte that cannot lead. */
  function Announced(lead: byte): nat {
    if lead < 0x80 then 1
    else if 0xC2 <= lead <= 0xDF then 2
    else if 0xE0 <= lead <= 0xEF then 3
    else if 0xF0 <= lead <= 0xF4 then 4
    else 0
  }

  /** How much of the announced sequence is really there: the maximal well-formed part, at least one byte. */
  function Present(data: seq<byte>): (n: nat)
    requires data != []
    ensures 1 <= n <= |data| && n <= 4
  {
    var want := Announced(data[0]);
    if want <= 1 || |data| < 2 || !Second(data[0], data[1]) then 1
    else if want == 2 || |data| < 3 || !Tail(data[2]) then 2
    else if want == 3 || |data| < 4 || !Tail(data[3]) then 3
    else 4
  }

  /** The next decoded character and the bytes it takes; an ill-formed part becomes one replacement. */
  datatype Decoded = Decoded(point: Point, size: nat)

  function DecodeNext(data: seq<byte>): (d: Decoded)
    requires data != []
    ensures 1 <= d.size <= |data|
    ensures d.point != Replacement && d.size == 1 ==> d.point < 0x80
    ensures d.size == 2 && d.point != Replacement ==> 0x80 <= d.point < 0x800
    ensures d.size == 3 && d.point != Replacement ==> 0x800 <= d.point < 0x1_0000
    ensures d.size == 4 ==> d.point == Replacement || 0x1_0000 <= d.point < 0x11_0000
  {
    var want, n := Announced(data[0]), Present(data);
    if want != n then Decoded(Replacement, n)
    else if n == 1 then Decoded(data[0] as int, 1)
    else if n == 2 then Decoded((data[0] as int - 0xC0) * 0x40 + (data[1] as int - 0x80), 2)
    else if n == 3 then
      Decoded((data[0] as int - 0xE0) * 0x1000 + (data[1] as int - 0x80) * 0x40 + (data[2] as int - 0x80), 3)
    else
      Decoded((data[0] as int - 0xF0) * 0x4_0000 + (data[1] as int - 0x80) * 0x1000
              + (data[2] as int - 0x80) * 0x40 + (data[3] as int - 0x80), 4)
  }

  function Decode(data: seq<byte>): seq<Point>
    decreases |data|
  {
    if data == [] then [] else
    var d := DecodeNext(data);
    [d.point] + Decode(data[d.size..])
  }

  // ---------------------------------------------------------------- escaping

  function Utf8(c: Point): seq<byte> {
    if c < 0x80 then [c]
    else if c < 0x800 then [0xC0 + c / 0x40, 0x80 + c % 0x40]
    else if c < 0x1_0000 then [0xE0 + c / 0x40 / 0x40, 0x80 + c / 0x40 % 0x40, 0x80 + c % 0x40]
    else [0xF0 + c / 0x40 / 0x40 / 0x40, 0x80 + c / 0x40 / 0x40 % 0x40, 0x80 + c / 0x40 % 0x40, 0x80 + c % 0x40]
  }

  function Hex(n: int): byte
    requires 0 <= n < 16
  {
    if n < 10 then 0x30 + n else 0x61 + n - 10
  }

  /** The letter of a two-character escape, if the character has one. */
  function Short(c: Point): Option<byte> {
    if c == 0x22 || c == 0x5C then Some(c)
    else if c == 0x08 then Some(0x62)
    else if c == 0x09 then Some(0x74)
    else if c == 0x0A then Some(0x6E)
    else if c == 0x0C then Some(0x66)
    else if c == 0x0D then Some(0x72)
    else None
  }

  /** One character inside a JSON string: a two-character escape, `\u00XX`, or the character itself. */
  function EscapeChar(c: Point): seq<byte> {
    if Short(c).Some? then [0x5C, Short(c).value]
    else if c < 0x20 then [0x5C, 0x75, 0x30, 0x30, Hex(c / 16), Hex(c % 16)]
    else Utf8(c)
  }

  function Escape(text: seq<Point>): seq<byte> {
    if text == [] then [] else EscapeChar(text[0]) + Escape(text[1..])
  }

  lemma {:induction false} EscapeJoins(a: seq<Point>, b: seq<Point>)
    ensures Escape(a + b) == Escape(a) + Escape(b)
  {
    hide EscapeChar;
    if a == [] {
      assert a + b == b;
    } else {
      EscapeJoins(a[1..], b);
      assert (a + b)[0] == a[0] && (a + b)[1..] == a[1..] + b;
    }
  }

  /** Decoding with replacement and escaping produce at most six bytes for each byte of input. */
  lemma {:induction false} SixForOne(data: seq<byte>)
    ensures |Escape(Decode(data))| <= 6 * |data|
    decreases |data|
  {
    if data != [] {
      var d := DecodeNext(data);
      SixForOne(data[d.size..]);
      assert Decode(data)[1..] == Decode(data[d.size..]);
    }
  }

  /** Six is attained: every NUL byte of the output becomes `\u0000`. */
  lemma {:induction false} SixIsAttained(data: seq<byte>)
    requires forall i | 0 <= i < |data| :: data[i] == 0
    ensures |Escape(Decode(data))| == 6 * |data|
    decreases |data|
  {
    if data != [] {
      assert DecodeNext(data) == Decoded(0, 1);
      SixIsAttained(data[1..]);
      assert Decode(data)[1..] == Decode(data[1..]);
    }
  }

  // ---------------------------------------------------- reading an escape back

  function Unhex(b: byte): int { if b < 0x61 then b as int - 0x30 else b as int - 0x61 + 10 }

  function Unshort(b: byte): int {
    if b == 0x62 then 0x08 else if b == 0x74 then 0x09 else if b == 0x6E then 0x0A
    else if b == 0x66 then 0x0C else if b == 0x72 then 0x0D else b as int
  }

  /** The next character of an escaped JSON string and the bytes it takes. */
  function UnescapeNext(data: seq<byte>): (r: (int, nat))
    requires data != []
    ensures 1 <= r.1 <= |data|
  {
    if data[0] != 0x5C then (var d := DecodeNext(data); (d.point, d.size))
    else if |data| < 2 then (-1, 1)
    else if data[1] != 0x75 then (Unshort(data[1]), 2)
    else if |data| < 6 then (-1, 1)
    else (Unhex(data[4]) * 16 + Unhex(data[5]), 6)
  }

  predicate Surrogate(c: Point) { 0xD800 <= c < 0xE000 }

  /** Every decoded character reads back from its escaped form, whatever follows. */
  lemma EscapeCharReads(c: Point, rest: seq<byte>)
    requires !Surrogate(c)
    ensures UnescapeNext(EscapeChar(c) + rest) == (c, |EscapeChar(c)|)
  {
    var data := EscapeChar(c) + rest;
    if Short(c).Some? || c < 0x20 {
      assert data[0] == 0x5C && data[1] == EscapeChar(c)[1];
    } else {
      Utf8Reads(c, rest);
    }
  }

  lemma Digits(c: int)
    requires c >= 0
    ensures c == c / 0x40 * 0x40 + c % 0x40 && 0 <= c % 0x40 < 0x40
  {
  }

  /** UTF-8 encoding is undone by decoding. */
  lemma Utf8Reads(c: Point, rest: seq<byte>)
    requires !Surrogate(c)
    ensures Utf8(c) + rest != [] && DecodeNext(Utf8(c) + rest) == Decoded(c, |Utf8(c)|)
  {
    hide DecodeNext;
    if c < 0x80 { OneByteReads(c, rest); }
    else if c < 0x800 { TwoBytesRead(c, rest); }
    else if c < 0x1_0000 { ThreeBytesRead(c, rest); }
    else { FourBytesRead(c, rest); }
  }

  lemma OneByteReads(c: Point, rest: seq<byte>)
    requires c < 0x80
    ensures DecodeNext(Utf8(c) + rest) == Decoded(c, 1)
  {
    assert (Utf8(c) + rest)[0] == c;
  }

  lemma TwoBytesRead(c: Point, rest: seq<byte>)
    requires 0x80 <= c < 0x800
    ensures DecodeNext(Utf8(c) + rest) == Decoded(c, 2)
  {
    Digits(c);
    assert (Utf8(c) + rest)[..2] == Utf8(c);
    assert (Utf8(c) + rest)[0] == Utf8(c)[0] && (Utf8(c) + rest)[1] == Utf8(c)[1];
  }

  lemma ThreeBytesRead(c: Point, rest: seq<byte>)
    requires 0x800 <= c < 0x1_0000 && !Surrogate(c)
    ensures DecodeNext(Utf8(c) + rest) == Decoded(c, 3)
  {
    Digits(c);
    Digits(c / 0x40);
    var x, y, z := c / 0x40 / 0x40, c / 0x40 % 0x40, c % 0x40;
    assert c == x * 0x1000 + y * 0x40 + z;
    var data := Utf8(c) + rest;
    assert data[0] == 0xE0 + x && data[1] == 0x80 + y && data[2] == 0x80 + z;
    assert Second(data[0], data[1]);
  }

  lemma FourBytesRead(c: Point, rest: seq<byte>)
    requires 0x1_0000 <= c
    ensures DecodeNext(Utf8(c) + rest) == Decoded(c, 4)
  {
    Digits(c);
    Digits(c / 0x40);
    Digits(c / 0x40 / 0x40);
    var w, x, y, z := c / 0x40 / 0x40 / 0x40, c / 0x40 / 0x40 % 0x40, c / 0x40 % 0x40, c % 0x40;
    assert c == w * 0x4_0000 + x * 0x1000 + y * 0x40 + z;
    var data := Utf8(c) + rest;
    assert data[0] == 0xF0 + w && data[1] == 0x80 + x && data[2] == 0x80 + y && data[3] == 0x80 + z;
    assert Second(data[0], data[1]);
  }

  /** Decoding never yields a surrogate, so every decoded text can be written as UTF-8. */
  lemma {:induction false} DecodedIsText(data: seq<byte>)
    ensures forall c | c in Decode(data) :: !Surrogate(c)
    decreases |data|
  {
    if data != [] {
      var d := DecodeNext(data);
      DecodedIsText(data[d.size..]);
    }
  }

  /** The text of an escaped JSON string; -1 stands for a broken escape. */
  function Unescape(data: seq<byte>): seq<int>
    decreases |data|
  {
    if data == [] then [] else
    var next := UnescapeNext(data);
    [next.0] + Unescape(data[next.1..])
  }

  /** Escaping loses nothing: the text reads back from its escaped form. */
  lemma {:induction false} EscapeReads(text: seq<Point>)
    requires forall c | c in text :: !Surrogate(c)
    ensures Unescape(Escape(text)) == text
  {
    hide UnescapeNext, EscapeChar, Surrogate;
    if text != [] {
      var c, rest := text[0], Escape(text[1..]);
      assert c in text;
      assert forall d | d in text[1..] :: d in text;
      EscapeReads(text[1..]);
      EscapeCharReads(c, rest);
      EscapeCharSome(c);
      assert (EscapeChar(c) + rest)[|EscapeChar(c)|..] == rest;
    }
  }

  lemma EscapeCharSome(c: Point)
    ensures EscapeChar(c) != []
  {
  }

  // ------------------------------------------------------------ the result frame

  /** The result of a started command; numbers are given by their decimal text. */
  datatype Result = Result(
    id: seq<byte>, stdout: seq<byte>, stderr: seq<byte>, timedOut: bool,
    returncode: seq<byte>, duration: seq<byte>, stdoutTruncated: bool, stderrTruncated: bool)

  /** ASCII text as code points. */
  function Points(s: string): seq<Point> { seq(|s|, i requires 0 <= i < |s| => (s[i] as int) % 0x80) }

  function Ascii(s: string): seq<byte> { seq(|s|, i requires 0 <= i < |s| => (s[i] as int) % 0x80) }

  function Bool(b: bool): seq<byte> { if b then Ascii("true") else Ascii("false") }

  const TimedOutNote: string := "command timed out inside persistent O2 broker"

  /** The standard error text, with the note of a timeout behind a line break. */
  function ErrorText(r: Result): seq<Point> {
    var text := Decode(r.stderr);
    if !r.timedOut then text else text + (if text == [] then [] else [0x0A]) + Points(TimedOutNote)
  }

  /** The JSON body of a result frame. */
  function Body(r: Result): seq<byte> {
    Ascii("{\"type\":\"result\",\"id\":\"") + Escape(Decode(r.id))
    + Ascii("\",\"returncode\":") + r.returncode
    + Ascii(",\"stdout\":\"") + Escape(Decode(r.stdout))
    + Ascii("\",\"stderr\":\"") + Escape(ErrorText(r))
    + Ascii("\",\"timed_out\":") + Bool(r.timedOut)
    + Ascii(",\"duration_seconds\":") + r.duration
    + Ascii(",\"stdout_truncated\":") + Bool(r.stdoutTruncated)
    + Ascii(",\"stderr_truncated\":") + Bool(r.stderrTruncated) + Ascii("}")
  }

  lemma {:induction false} EscapeAtMostSix(text: seq<Point>)
    ensures |Escape(text)| <= 6 * |text|
  {
    if text != [] { EscapeAtMostSix(text[1..]); }
  }

  lemma ErrorTextFits(r: Result)
    ensures |Escape(ErrorText(r))| <= 6 * |r.stderr| + 6 + 6 * |TimedOutNote|
  {
    hide Escape, Decode;
    SixForOne(r.stderr);
    var text := Decode(r.stderr);
    var gap: seq<Point> := if text == [] then [] else [0x0A];
    EscapeAtMostSix(gap);
    EscapeAtMostSix(Points(TimedOutNote));
    EscapeJoins(text, gap);
    EscapeJoins(text + gap, Points(TimedOutNote));
  }

  lemma BodyLength(r: Result)
    ensures 0 < |Body(r)| <= |Escape(Decode(r.id))| + |r.returncode| + |Escape(Decode(r.stdout))| + |Escape(ErrorText(r))| + |r.duration| + 200
  {
    hide Escape, Decode, ErrorText;
  }

  /** Every result of a started command can be framed. */
  lemma ResultFits(r: Result)
    requires |r.id| <= MaxRequestId && |r.stdout| <= MaxOutput && |r.stderr| <= MaxOutput
    requires |r.returncode| <= 64 && |r.duration| <= 64
    ensures |Body(r)| <= MaxFrame && Encode(Body(r), MaxFrame).Some?
  {
    hide Body, Escape, Decode, ErrorText;
    SixForOne(r.id);
    SixForOne(r.stdout);
    ErrorTextFits(r);
    BodyLength(r);
  }

  /** Draining both streams bounds every result, whatever the command printed. */
  method CaptureResult(out: Stream, err: Stream, id: seq<byte>, timedOut: bool, returncode: seq<byte>, duration: seq<byte>) returns (r: Result)
    requires out != err && |id| <= MaxRequestId && |returncode| <= 64 && |duration| <= 64
    modifies out, err
    ensures r.stdout == Prefix(old(out.rest), MaxOutput) && r.stderr == Prefix(old(err.rest), MaxOutput)
    ensures r.stdoutTruncated == (|old(out.rest)| > MaxOutput) && r.stderrTruncated == (|old(err.rest)| > MaxOutput)
    ensures r.id == id && r.timedOut == timedOut && Encode(Body(r), MaxFrame).Some?
  {
    var stdout, cut := DrainBounded(out);
    var stderr, cut' := DrainBounded(err);
    r := Result(id, stdout, stderr, timedOut, returncode, duration, cut, cut');
    ResultFits(r);
  }
}
