/**
  Length-prefixed frames over byte streams that may deliver and accept any number of
  bytes at a time. A frame body is the UTF-8 text of one JSON object; its text is not
  looked into here.
*/
module Framing {
  import opened Options

  type byte = x: int | 0 <= x < 256

  const Magic: seq<byte> := [79, 50, 66, 49]   // "O2B1"
  const MaxFrame: nat := 16 * 1024 * 1024
  const MaxPreamble: nat := 64 * 1024

  // -------------------------------------------------------------- the format

  /** The length in network order. */
  function Header(n: nat): seq<byte>
    requires n < 0x1_0000_0000
  {
    [n / 0x100 / 0x100 / 0x100, n / 0x100 / 0x100 % 0x100, n / 0x100 % 0x100, n % 0x100]
  }

  function Length(h: seq<byte>): nat
    requires |h| == 4
  {
    (h[0] as int) * 0x100_0000 + (h[1] as int) * 0x1_0000 + (h[2] as int) * 0x100 + h[3] as int
  }

  lemma HeaderRoundTrip(n: nat)
    requires n < 0x1_0000_0000
    ensures Length(Header(n)) == n
  {
  }

  /** `encode_frame`: refused when empty or over the limit. */
  function Encode(body: seq<byte>, limit: nat): Option<seq<byte>>
    requires limit < 0x1_0000_0000
  {
    if body == [] || |body| > limit then None else Some(Magic + Header(|body|) + body)
  }

  /** What one read leaves: a body and the bytes behind its frame. */
  datatype Parsed = Parsed(body: seq<byte>, rest: seq<byte>)

  /** The frame behind a marker that has been consumed. */
  function AfterMagic(data: seq<byte>, limit: nat): Option<Parsed> {
    if |data| < 4 then None else
    var n := Length(data[..4]);
    if n == 0 || n > limit || |data| < 4 + n then None
    else Some(Parsed(data[4..4 + n], data[4 + n..]))
  }

  predicate MarkerAt(data: seq<byte>, k: nat) { k + 4 <= |data| && data[k..k + 4] == Magic }

  /** Where the first marker starts, searching from `k`. */
  function FirstMarker(data: seq<byte>, k: nat): (r: Option<nat>)
    ensures r.Some? ==> k <= r.value && MarkerAt(data, r.value) && forall j | k <= j < r.value :: !MarkerAt(data, j)
    ensures r.None? ==> forall j | k <= j :: !MarkerAt(data, j)
    decreases |data| - k
  {
    if k + 4 > |data| then None
    else if MarkerAt(data, k) then Some(k)
    else FirstMarker(data, k + 1)
  }

  /** `read_frame`: strict, or after at most a bounded preamble. */
  function Parse(data: seq<byte>, limit: nat, resynchronize: bool): Option<Parsed> {
    if !resynchronize then if MarkerAt(data, 0) then AfterMagic(data[4..], limit) else None
    else
      var k := FirstMarker(data, 0);
      if k.Some? && k.value <= MaxPreamble then AfterMagic(data[k.value + 4..], limit) else None
  }

  // ------------------------------------------------------------- round trips

  lemma BodyFollows(body: seq<byte>, limit: nat, rest: seq<byte>)
    requires 0 < |body| <= limit < 0x1_0000_0000
    ensures AfterMagic(Header(|body|) + body + rest, limit) == Some(Parsed(body, rest))
  {
    var data := Header(|body|) + body + rest;
    HeaderRoundTrip(|body|);
    assert data[..4] == Header(|body|);
    assert data[4..4 + |body|] == body;
    assert data[4 + |body|..] == rest;
  }

  lemma ParseEncoded(body: seq<byte>, limit: nat, rest: seq<byte>)
    requires limit < 0x1_0000_0000 && Encode(body, limit).Some?
    ensures Parse(Encode(body, limit).value + rest, limit, false) == Some(Parsed(body, rest))
  {
    hide AfterMagic, Header, FirstMarker;
    var data := Encode(body, limit).value + rest;
    BodyFollows(body, limit, rest);
    assert data == Magic + (Header(|body|) + body + rest);
    assert data[0..4] == Magic;
    assert data[4..] == Header(|body|) + body + rest;
  }

  /** The marker cannot begin inside unmarked text and end in the real marker: its bytes all differ. */
  lemma BannerIsSkipped(banner: seq<byte>, rest: seq<byte>)
    requires FirstMarker(banner, 0).None?
    ensures FirstMarker(banner + Magic + rest, 0) == Some(|banner|)
  {
    var data := banner + Magic + rest;
    assert data[|banner|..|banner| + 4] == Magic;
    assert MarkerAt(data, |banner|);
    forall j: nat | j < |banner| ensures !MarkerAt(data, j) {
      if j + 4 <= |banner| {
        assert data[j..j + 4] == banner[j..j + 4];
        assert !MarkerAt(banner, j);
      } else {
        assert data[j..j + 4][|banner| - j] == data[|banner|] == Magic[0];
      }
    }
  }

  /** Behind any banner without a marker the first frame is read exactly when the banner fits the bound. */
  lemma ParseAfterBanner(banner: seq<byte>, body: seq<byte>, limit: nat, rest: seq<byte>)
    requires limit < 0x1_0000_0000 && Encode(body, limit).Some? && FirstMarker(banner, 0).None?
    ensures Parse(banner + (Encode(body, limit).value + rest), limit, true)
         == if |banner| <= MaxPreamble then Some(Parsed(body, rest)) else None
  {
    hide AfterMagic, Header, FirstMarker;
    BannerIsSkipped(banner, Header(|body|) + body + rest);
    BodyFollows(body, limit, rest);
    BehindBanner(banner, Magic, Header(|body|), body, rest);
  }

  lemma BehindBanner(banner: seq<byte>, magic: seq<byte>, header: seq<byte>, body: seq<byte>, rest: seq<byte>)
    ensures var tail := header + body + rest;
      && banner + (magic + header + body + rest) == banner + magic + tail
      && (banner + magic + tail)[|banner| + |magic|..] == tail
  {
  }

  // ----------------------------------------------------------------- streams

  /**
    A stream with `rest` still to be delivered. Each read delivers at least one byte until the end,
    and otherwise as many as `schedule` happens to say; a write is accepted in such pieces too.
  */
  class Stream {
    var rest: seq<byte>
    var written: seq<byte>
    var schedule: seq<nat>

    constructor (data: seq<byte>, sizes: seq<nat>)
      ensures rest == data && written == [] && schedule == sizes
    {
      rest, written, schedule := data, [], sizes;
    }

    method Some(limit: nat, available: nat) returns (n: nat)
      requires limit > 0 && available > 0
      modifies this`schedule
      ensures 1 <= n <= limit && n <= available
    {
      n := 1;
      if schedule != [] {
        n := if schedule[0] == 0 then 1 else schedule[0];
        schedule := schedule[1..];
      }
      if n > limit { n := limit; }
      if n > available { n := available; }
    }

    method Read(limit: nat) returns (chunk: seq<byte>)
      requires limit > 0
      modifies this
      ensures chunk + rest == old(rest) && |chunk| <= limit && written == old(written)
      ensures chunk == [] <==> old(rest) == []
    {
      if rest == [] { return []; }
      var n := Some(limit, |rest|);
      chunk := rest[..n];
      rest := rest[n..];
    }

    method Write(data: seq<byte>) returns (n: nat)
      requires data != []
      modifies this
      ensures 1 <= n <= |data| && written == old(written) + data[..n] && rest == old(rest)
    {
      n := Some(|data|, |data|);
      written := written + data[..n];
    }
  }

  /** `_read_exact`. */
  method ReadExact(stream: Stream, size: nat) returns (r: Option<seq<byte>>)
    modifies stream
    ensures if |old(stream.rest)| < size then r == None && stream.rest == []
            else r == Some(old(stream.rest)[..size]) && stream.rest == old(stream.rest)[size..]
    ensures stream.written == old(stream.written)
  {
    var got: seq<byte> := [];
    var remaining := size;
    while remaining > 0
      invariant 0 <= remaining && |got| + remaining == size && got + stream.rest == old(stream.rest)
      invariant stream.written == old(stream.written)
    {
      var chunk := stream.Read(remaining);
      if chunk == [] {
        assert got == old(stream.rest);
        return None;
      }
      got := got + chunk;
      remaining := remaining - |chunk|;
    }
    assert got == (got + stream.rest)[..size] && stream.rest == (got + stream.rest)[size..];
    return Some(got);
  }

  lemma WindowSlides(data: seq<byte>, i: nat, window: seq<byte>)
    requires i < |data| && window == data[if i < 4 then 0 else i - 4..i]
    ensures var next := window + [data[i]];
      (if |next| > 4 then next[1..] else next) == data[if i + 1 < 4 then 0 else i - 3..i + 1]
  {
  }

  /** `_read_magic`: strict, or sliding a four-byte window over a bounded preamble. */
  method ReadMagic(stream: Stream, resynchronize: bool) returns (ok: bool)
    modifies stream
    ensures stream.written == old(stream.written)
    ensures !resynchronize ==> ok == MarkerAt(old(stream.rest), 0)
    ensures resynchronize ==> ok == (FirstMarker(old(stream.rest), 0).Some? && FirstMarker(old(stream.rest), 0).value <= MaxPreamble)
    ensures ok ==> stream.rest == old(stream.rest)[(if resynchronize then FirstMarker(old(stream.rest), 0).value else 0) + 4..]
  {
    ghost var data := stream.rest;
    if !resynchronize {
      var marker := ReadExact(stream, 4);
      return marker == Some(Magic);
    }
    var window: seq<byte> := [];
    var i := 0;
    while i < MaxPreamble + 4
      invariant 0 <= i <= MaxPreamble + 4 && i <= |data|
      invariant stream.rest == data[i..] && stream.written == old(stream.written)
      invariant window == data[if i < 4 then 0 else i - 4..i]
      invariant forall j | 0 <= j && j + 4 <= i :: !MarkerAt(data, j)
    {
      var one := ReadExact(stream, 1);
      if one.None? { return false; }
      WindowSlides(data, i, window);
      window := window + one.value;
      if |window| > 4 { window := window[1..]; }
      i := i + 1;
      if window == Magic {
        assert MarkerAt(data, i - 4);
        return true;
      }
      assert i >= 4 ==> data[i - 4..i] == window;
    }
    return false;
  }

  /** `read_frame` up to its body, under any chunking. */
  method ReadFrame(stream: Stream, limit: nat, resynchronize: bool) returns (r: Option<seq<byte>>)
    modifies stream
    ensures var parsed := Parse(old(stream.rest), limit, resynchronize);
      if parsed.None? then r == None else r == Some(parsed.value.body) && stream.rest == parsed.value.rest
    ensures stream.written == old(stream.written)
  {
    var ok := ReadMagic(stream, resynchronize);
    if !ok { return None; }
    ghost var data := stream.rest;
    var header := ReadExact(stream, 4);
    if header.None? { return None; }
    var length := Length(header.value);
    if length == 0 || length > limit { return None; }
    assert stream.rest == data[4..];
    r := ReadExact(stream, length);
    assert |data| >= 4 + length ==> data[4..][..length] == data[4..4 + length] && data[4..][length..] == data[4 + length..];
  }

  /** `write_frame` over partial writes. */
  method WriteFrame(stream: Stream, body: seq<byte>, limit: nat) returns (ok: bool)
    requires limit < 0x1_0000_0000
    modifies stream
    ensures ok == Encode(body, limit).Some? && stream.rest == old(stream.rest)
    ensures stream.written == old(stream.written) + if ok then Encode(body, limit).value else []
  {
    var frame := Encode(body, limit);
    if frame.None? { return false; }
    var remaining := frame.value;
    while remaining != []
      invariant stream.written + remaining == old(stream.written) + frame.value && stream.rest == old(stream.rest)
      decreases |remaining|
    {
      var n := stream.Write(remaining);
      remaining := remaining[n..];
    }
    return true;
  }

  // ------------------------------------------------------- whole conversations

  ghost predicate Sendable(bodies: seq<seq<byte>>, limit: nat) { forall b | b in bodies :: b != [] && |b| <= limit }

  ghost function Wire(bodies: seq<seq<byte>>, limit: nat): seq<byte>
    requires limit < 0x1_0000_0000 && Sendable(bodies, limit)
  {
    if bodies == [] then []
    else assert bodies[0] in bodies; Encode(bodies[0], limit).value + Wire(bodies[1..], limit)
  }

  lemma {:induction false} WireAppends(bodies: seq<seq<byte>>, limit: nat, n: nat)
    requires limit < 0x1_0000_0000 && Sendable(bodies, limit) && n < |bodies|
    ensures Sendable(bodies[..n], limit) && Sendable(bodies[..n + 1], limit)
    ensures Encode(bodies[n], limit).Some? && Wire(bodies[..n + 1], limit) == Wire(bodies[..n], limit) + Encode(bodies[n], limit).value
    decreases n
  {
    hide Encode, Sendable;
    SendableParts(bodies, limit, n);
    if n > 0 {
      var tail := bodies[1..];
      WireAppends(tail, limit, n - 1);
      assert tail[..n] == bodies[..n + 1][1..];
      assert tail[..n - 1] == bodies[..n][1..];
    } else {
      assert bodies[..1][1..] == [];
    }
  }

  lemma SendableParts(bodies: seq<seq<byte>>, limit: nat, n: nat)
    requires limit < 0x1_0000_0000 && Sendable(bodies, limit) && n < |bodies|
    ensures Sendable(bodies[..n], limit) && Sendable(bodies[..n + 1], limit) && Sendable(bodies[1..], limit)
    ensures Encode(bodies[0], limit).Some? && Encode(bodies[n], limit).Some?
  {
    assert bodies[n] in bodies && bodies[0] in bodies;
    assert forall b | b in bodies[..n] :: b in bodies;
    assert forall b | b in bodies[..n + 1] :: b in bodies;
    assert forall b | b in bodies[1..] :: b in bodies;
  }

  method WriteAll(stream: Stream, bodies: seq<seq<byte>>, limit: nat)
    requires limit < 0x1_0000_0000 && Sendable(bodies, limit) && stream.written == []
    modifies stream
    ensures stream.written == Wire(bodies, limit)
  {
    var i := 0;
    while i < |bodies|
      invariant 0 <= i <= |bodies| && Sendable(bodies[..i], limit) && stream.written == Wire(bodies[..i], limit)
    {
      WireAppends(bodies, limit, i);
      assert bodies[i] in bodies;
      var ok := WriteFrame(stream, bodies[i], limit);
      i := i + 1;
    }
    assert bodies[..i] == bodies;
  }

  /**
    Reading back what was written, chunk by chunk, gives the same bodies in the same order and
    leaves exactly the bytes behind the last frame.
  */
  method ReadAll(stream: Stream, ghost bodies: seq<seq<byte>>, count: nat, limit: nat, ghost tail: seq<byte>) returns (got: seq<seq<byte>>)
    requires limit < 0x1_0000_0000 && Sendable(bodies, limit) && count == |bodies| && stream.rest == Wire(bodies, limit) + tail
    modifies stream
    ensures got == bodies && stream.rest == tail
  {
    hide Encode, Parse;
    got := [];
    var i := 0;
    while i < count
      invariant 0 <= i <= count && got == bodies[..i] && Sendable(bodies[i..], limit)
      invariant stream.rest == Wire(bodies[i..], limit) + tail
    {
      WireHead(bodies[i..], limit, tail);
      assert bodies[i..][1..] == bodies[i + 1..];
      var body := ReadFrame(stream, limit, false);
      got := got + [body.value];
      i := i + 1;
    }
  }

  lemma WireHead(bodies: seq<seq<byte>>, limit: nat, tail: seq<byte>)
    requires limit < 0x1_0000_0000 && Sendable(bodies, limit) && bodies != []
    ensures Sendable(bodies[1..], limit)
    ensures Parse(Wire(bodies, limit) + tail, limit, false) == Some(Parsed(bodies[0], Wire(bodies[1..], limit) + tail))
  {
    hide Parse;
    assert bodies[0] in bodies;
    assert forall b | b in bodies[1..] :: b in bodies;
    var rest := Wire(bodies[1..], limit) + tail;
    ParseEncoded(bodies[0], limit, rest);
    assert Wire(bodies, limit) + tail == Encode(bodies[0], limit).value + rest;
  }
}
