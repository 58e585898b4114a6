/** KISS framing over a serial line: src/serial.cc.

    A reader is handed the octets of the line in chunks of any size.  `Feed` says octet by octet what
    it should do; `SerialReader.Read` is the program's loop over its buffer. */
module Kiss {
  import opened Bytes

  const FEND: byte := 0xC0
  const FESC: byte := 0xDB
  const TFEND: byte := 0xDC
  const TFESC: byte := 0xDD

  // ---------------------------------------------------------------------------------------------
  // Escaping

  function EscapeByte(b: byte): seq<byte> {
    if b == FESC then [FESC, TFESC] else if b == FEND then [FESC, TFEND] else [b]
  }

  function Escaped(s: seq<byte>): seq<byte> {
    if s == [] then [] else EscapeByte(s[0]) + Escaped(s[1..])
  }

  lemma {:induction false} EscapedSnoc(s: seq<byte>, b: byte)
    ensures Escaped(s + [b]) == Escaped(s) + EscapeByte(b)
  {
    if s == [] {
      assert s + [b] == [b] && [b][1..] == [];
    } else {
      assert (s + [b])[0] == s[0] && (s + [b])[1..] == s[1..] + [b];
      EscapedSnoc(s[1..], b);
    }
  }

  method KissEscape(sv: seq<byte>) returns (tmp: seq<byte>)
    ensures tmp == Escaped(sv)
  {
    tmp := [];
    for i := 0 to |sv|
      invariant tmp == Escaped(sv[..i])
    {
      EscapedSnoc(sv[..i], sv[i]);
      assert sv[..i + 1] == sv[..i] + [sv[i]];
      if sv[i] == FESC {
        tmp := tmp + [FESC];
        tmp := tmp + [TFESC];
      } else if sv[i] == FEND {
        tmp := tmp + [FESC];
        tmp := tmp + [TFEND];
      } else {
        tmp := tmp + [sv[i]];
      }
    }
    assert sv[..|sv|] == sv;
  }

  /** What a text stands for: octets, nothing at all (the program logs no error), or an exception. */
  datatype Decoded = Good(bytes: seq<byte>) | Blank | InvalidEscape

  function Prepend(b: byte, d: Decoded): Decoded {
    if d.Good? then Good([b] + d.bytes) else d
  }

  function Decode(s: seq<byte>): Decoded {
    if s == [] then Good([])
    else if s[0] == FEND then Blank
    else if s[0] != FESC then Prepend(s[0], Decode(s[1..]))
    else if |s| == 1 then Blank
    else if s[1] == TFESC then Prepend(FESC, Decode(s[2..]))
    else if s[1] == TFEND then Prepend(FEND, Decode(s[2..]))
    else InvalidEscape
  }

  function PrependAll(t: seq<byte>, d: Decoded): Decoded {
    if d.Good? then Good(t + d.bytes) else d
  }

  /** kiss_unescape, with the exception it may throw as a result. */
  method KissUnescape(sv: seq<byte>) returns (r: Decoded)
    ensures r == Decode(sv)
  {
    var tmp: seq<byte> := [];
    var i := 0;
    while i < |sv|
      invariant 0 <= i <= |sv|
      invariant Decode(sv) == PrependAll(tmp, Decode(sv[i..]))
    {
      var i8 := sv[i];
      assert sv[i..][0] == i8 && sv[i..][1..] == sv[i + 1..];
      if i8 == FEND {
        return Blank;
      }
      if i + 1 == |sv| {
        if i8 == FESC {
          return Blank;
        }
        tmp := tmp + [i8];
        i := i + 1;
        continue;
      }
      if i8 != FESC {
        tmp := tmp + [i8];
        i := i + 1;
        continue;
      }
      i := i + 1;
      assert sv[i - 1..][1] == sv[i] && sv[i - 1..][2..] == sv[i + 1..];
      if sv[i] == TFESC {
        tmp := tmp + [FESC];
      } else if sv[i] == TFEND {
        tmp := tmp + [FEND];
      } else {
        return InvalidEscape;
      }
      i := i + 1;
    }
    return Good(tmp);
  }

  lemma {:induction false} DecodeEscaped(s: seq<byte>)
    ensures Decode(Escaped(s)) == Good(s)
  {
    if s != [] {
      DecodeEscaped(s[1..]);
      var e := EscapeByte(s[0]) + Escaped(s[1..]);
      assert e[|EscapeByte(s[0])|..] == Escaped(s[1..]);
      assert s == [s[0]] + s[1..];
    }
  }

  lemma {:induction false} EscapedHasNoFend(s: seq<byte>)
    ensures FEND !in Escaped(s)
  {
    if s != [] {
      EscapedHasNoFend(s[1..]);
    }
  }

  // ---------------------------------------------------------------------------------------------
  // Sending and receiving

  function Framed(payload: seq<byte>): seq<byte> {
    [FEND, 0] + Escaped(payload) + [FEND]
  }

  /** The octets that Send writes to the line for one frame. */
  method Send(payload: seq<byte>) returns (r: seq<byte>)
    ensures r == Framed(payload)
  {
    r := [FEND];
    r := r + [0];
    var e := KissEscape(payload);
    r := r + e;
    r := r + [FEND];
  }

  /** The state of read_main2 between two octets: what it holds, whether it has seen a FEND, and the
      frames it has passed on. */
  datatype Reader = Reader(buf: seq<byte>, reading: bool, injected: seq<seq<byte>>)

  const START: Reader := Reader([], false, [])

  function DataFrame(d: Decoded): seq<seq<byte>> {
    if d.Good? && d.bytes != [] && d.bytes[0] == 0 then [d.bytes[1..]] else []
  }

  predicate Throws(r: Reader) {
    r.reading && Decode(r.buf).InvalidEscape?
  }

  /** The exception restarts read_main2 with an empty buffer, which loses the rest of the chunk. */
  function Feed(r: Reader, chunk: seq<byte>): Reader
    decreases |chunk|
  {
    if chunk == [] then r
    else if chunk[0] != FEND then Feed(r.(buf := r.buf + [chunk[0]]), chunk[1..])
    else if Throws(r) then Reader([], false, r.injected)
    else Feed(AtFend(r), chunk[1..])
  }

  function AtFend(r: Reader): Reader {
    Reader([], true, r.injected + if r.reading then DataFrame(Decode(r.buf)) else [])
  }

  function FeedAll(r: Reader, chunks: seq<seq<byte>>): Reader
    decreases |chunks|
  {
    if chunks == [] then r else FeedAll(Feed(r, chunks[0]), chunks[1..])
  }

  lemma {:induction false} FeedText(r: Reader, text: seq<byte>, rest: seq<byte>)
    requires FEND !in text
    ensures Feed(r, text + rest) == Feed(r.(buf := r.buf + text), rest)
    decreases |text|
  {
    if text == [] {
      assert text + rest == rest && r.buf + text == r.buf;
    } else {
      assert (text + rest)[0] == text[0] && (text + rest)[1..] == text[1..] + rest;
      FeedText(r.(buf := r.buf + [text[0]]), text[1..], rest);
      assert r.buf + text == r.buf + [text[0]] + text[1..];
    }
  }

  lemma FeedPlain(r: Reader, text: seq<byte>)
    requires FEND !in text
    ensures Feed(r, text) == r.(buf := r.buf + text)
  {
    FeedText(r, text, []);
    assert text + [] == text;
  }

  lemma FeedToFend(r: Reader, buf: seq<byte>, fend: nat)
    requires r.buf == [] && fend < |buf| && buf[fend] == FEND && FEND !in buf[..fend]
    ensures var held := r.(buf := buf[..fend]);
            Feed(r, buf) == if Throws(held) then Reader([], false, r.injected) else Feed(AtFend(held), buf[fend + 1..])
  {
    var tail := [FEND] + buf[fend + 1..];
    assert buf == buf[..fend] + tail && tail[1..] == buf[fend + 1..];
    FeedText(r, buf[..fend], tail);
    assert [] + buf[..fend] == buf[..fend];
  }

  class SerialReader {
    var buf: seq<byte>
    var reading: bool
    var injected: seq<seq<byte>>

    constructor ()
      ensures Valid() && View() == START
    {
      buf, reading, injected := [], false, [];
    }

    ghost predicate Valid()
      reads this
    {
      FEND !in buf
    }

    function View(): Reader
      reads this
    {
      Reader(buf, reading, injected)
    }

    method FindFend() returns (fend: nat)
      ensures fend <= |buf| && FEND !in buf[..fend]
      ensures fend < |buf| ==> buf[fend] == FEND
    {
      fend := 0;
      while fend < |buf| && buf[fend] != FEND
        invariant fend <= |buf| && FEND !in buf[..fend]
      {
        fend := fend + 1;
      }
    }

    /** One read from the line and everything read_main2 does before it reads again. */
    method Read(chunk: seq<byte>)
      requires Valid()
      modifies this
      ensures Valid() && View() == Feed(old(View()), chunk)
    {
      FeedText(Reader([], reading, injected), buf, chunk);
      assert [] + buf == buf;
      buf := buf + chunk;
      var fend := FindFend();
      while fend < |buf|
        invariant 0 <= fend <= |buf| && FEND !in buf[..fend]
        invariant fend < |buf| ==> buf[fend] == FEND
        invariant Feed(old(View()), chunk) == Feed(Reader([], reading, injected), buf)
        decreases |buf|
      {
        ghost var held := Reader(buf[..fend], reading, injected);
        FeedToFend(held.(buf := []), buf, fend);
        if reading {
          var data := KissUnescape(buf[..fend]);
          if data.InvalidEscape? {
            buf, reading := [], false;
            return;
          }
          if data.Good? && data.bytes != [] {
            if data.bytes[0] == 0 {
              injected := injected + [data.bytes[1..]];
            }
          }
        }
        reading := true;
        assert injected == AtFend(held).injected;
        buf := buf[fend + 1..];
        fend := FindFend();
      }
      assert buf[..fend] == buf;
      FeedPlain(Reader([], reading, injected), buf);
      assert [] + buf == buf;
    }
  }

  // ---------------------------------------------------------------------------------------------
  // A line that carries what Send wrote, however it is cut into reads

  /** No FEND that the reader meets in `line` closes a text it cannot unescape. */
  predicate Undisturbed(r: Reader, line: seq<byte>)
    decreases |line|
  {
    line == [] ||
    (if line[0] != FEND then Undisturbed(r.(buf := r.buf + [line[0]]), line[1..])
     else !Throws(r) && Undisturbed(AtFend(r), line[1..]))
  }

  lemma {:induction false} FeedAppend(r: Reader, a: seq<byte>, b: seq<byte>)
    requires Undisturbed(r, a + b)
    ensures Undisturbed(r, a) && Undisturbed(Feed(r, a), b)
    ensures Feed(r, a + b) == Feed(Feed(r, a), b)
    decreases |a|
  {
    if a == [] {
      assert a + b == b;
    } else {
      assert (a + b)[0] == a[0] && (a + b)[1..] == a[1..] + b;
      if a[0] != FEND {
        FeedAppend(r.(buf := r.buf + [a[0]]), a[1..], b);
      } else {
        FeedAppend(AtFend(r), a[1..], b);
      }
    }
  }

  function Flatten(chunks: seq<seq<byte>>): seq<byte> {
    if chunks == [] then [] else chunks[0] + Flatten(chunks[1..])
  }

  /** Where no text is broken, the cuts between reads do not matter. */
  lemma {:induction false} CutsDoNotMatter(r: Reader, chunks: seq<seq<byte>>)
    requires Undisturbed(r, Flatten(chunks))
    ensures FeedAll(r, chunks) == Feed(r, Flatten(chunks))
    decreases |chunks|
  {
    if chunks != [] {
      FeedAppend(r, chunks[0], Flatten(chunks[1..]));
      CutsDoNotMatter(Feed(r, chunks[0]), chunks[1..]);
    }
  }

  function Line(payloads: seq<seq<byte>>): seq<byte> {
    if payloads == [] then [] else Framed(payloads[0]) + Line(payloads[1..])
  }

  lemma {:induction false} UndisturbedText(r: Reader, text: seq<byte>, rest: seq<byte>)
    requires FEND !in text
    ensures Undisturbed(r, text + rest) == Undisturbed(r.(buf := r.buf + text), rest)
    decreases |text|
  {
    if text == [] {
      assert text + rest == rest && r.buf + text == r.buf;
    } else {
      assert (text + rest)[0] == text[0] && (text + rest)[1..] == text[1..] + rest;
      UndisturbedText(r.(buf := r.buf + [text[0]]), text[1..], rest);
      assert r.buf + text == r.buf + [text[0]] + text[1..];
    }
  }

  /** Between frames the reader is out of step only before the first FEND. */
  predicate Ready(r: Reader) {
    r.reading ==> r.buf == []
  }

  lemma FrameArrives(r: Reader, payload: seq<byte>, rest: seq<byte>)
    requires Ready(r)
    ensures Feed(r, Framed(payload) + rest) == Feed(Reader([], true, r.injected + [payload]), rest)
    ensures Undisturbed(r, Framed(payload) + rest) == Undisturbed(Reader([], true, r.injected + [payload]), rest)
  {
    var text := [0] + Escaped(payload);
    var r1 := Reader([], true, r.injected);
    var tail := [FEND] + rest;
    FramedParts(payload, rest);
    assert AtFend(r) == r1;
    EscapedHasNoFend(payload);
    TextDecodes(payload);
    hide Decode, Escaped;
    FeedText(r1, text, tail);
    UndisturbedText(r1, text, tail);
    assert [] + text == text && tail[1..] == rest;
    assert ([0] + payload)[1..] == payload;
    assert AtFend(Reader(text, true, r.injected)) == Reader([], true, r.injected + [payload]);
  }

  lemma FramedParts(payload: seq<byte>, rest: seq<byte>)
    ensures var line := Framed(payload) + rest;
            line[0] == FEND && line[1..] == [0] + Escaped(payload) + ([FEND] + rest)
  {}

  lemma TextDecodes(payload: seq<byte>)
    ensures Decode([0] + Escaped(payload)) == Good([0] + payload)
  {
    DecodeEscaped(payload);
    assert ([0] + Escaped(payload))[1..] == Escaped(payload);
  }

  lemma {:induction false} FramesArrive(r: Reader, payloads: seq<seq<byte>>)
    requires Ready(r)
    ensures Undisturbed(r, Line(payloads))
    ensures Feed(r, Line(payloads)).injected == r.injected + payloads
    decreases |payloads|
  {
    if payloads != [] {
      FrameArrives(r, payloads[0], Line(payloads[1..]));
      FramesArrive(Reader([], true, r.injected + [payloads[0]]), payloads[1..]);
      assert r.injected + payloads == r.injected + [payloads[0]] + payloads[1..];
    }
  }

  /** Whatever list of frames was written, and however the line is cut into reads, the reader passes
      on exactly that list, even when it starts listening in the middle of something else. */
  lemma StreamDecodes(noise: seq<byte>, payloads: seq<seq<byte>>, chunks: seq<seq<byte>>)
    requires FEND !in noise
    requires Flatten(chunks) == noise + Line(payloads)
    ensures FeedAll(START, chunks).injected == payloads
  {
    UndisturbedText(START, noise, Line(payloads));
    FeedText(START, noise, Line(payloads));
    FramesArrive(START.(buf := START.buf + noise), payloads);
    CutsDoNotMatter(START, chunks);
  }

  // ---------------------------------------------------------------------------------------------
  // In numbers, and on lines that carry anything

  /** The KISS escapes, octet by octet. */
  lemma EscapedOctet(b: byte)
    ensures Escaped([b]) == if b == 0xC0 then [0xDB, 0xDC] else if b == 0xDB then [0xDB, 0xDD] else [b]
  {
    assert [b][1..] == [];
  }

  lemma {:induction false} EscapedAppend(s: seq<byte>, t: seq<byte>)
    ensures Escaped(s + t) == Escaped(s) + Escaped(t)
  {
    if s == [] {
      assert s + t == t;
    } else {
      assert (s + t)[0] == s[0] && (s + t)[1..] == s[1..] + t;
      EscapedAppend(s[1..], t);
    }
  }

  /** A data frame of port 0 between two FENDs. */
  lemma FramedIs(payload: seq<byte>)
    ensures Framed(payload) == [0xC0, 0x00] + Escaped(payload) + [0xC0]
  {}

  lemma {:induction false} DecodeBehind(t: seq<byte>, s: seq<byte>)
    ensures Decode(Escaped(t) + s) == PrependAll(t, Decode(s))
  {
    hide Decode, EscapeByte;
    if t == [] {
      assert Escaped(t) + s == s && (Decode(s).Good? ==> t + Decode(s).bytes == Decode(s).bytes);
    } else {
      DecodeBehind(t[1..], s);
      var rest := Escaped(t[1..]) + s;
      assert Escaped(t) + s == EscapeByte(t[0]) + rest;
      DecodeOne(t[0], rest);
      PrependMore(t[0], t[1..], Decode(s));
      assert t == [t[0]] + t[1..];
    }
  }

  lemma DecodeOne(b: byte, rest: seq<byte>)
    ensures Decode(EscapeByte(b) + rest) == Prepend(b, Decode(rest))
  {
    var s := EscapeByte(b) + rest;
    assert s[|EscapeByte(b)|..] == rest;
  }

  lemma PrependMore(b: byte, t: seq<byte>, d: Decoded)
    ensures Prepend(b, PrependAll(t, d)) == PrependAll([b] + t, d)
  {
    if d.Good? {
      assert [b] + (t + d.bytes) == [b] + t + d.bytes;
    }
  }

  /** Main result: a text stands for octets exactly if it is their escaped form, so that no two texts
      stand for the same. */
  lemma {:induction false} DecodeIff(s: seq<byte>, t: seq<byte>)
    ensures Decode(s) == Good(t) <==> s == Escaped(t)
  {
    DecodeEscaped(t);
    if Decode(s) == Good(t) {
      WhatDecodes(s, t);
    }
  }

  lemma {:induction false} WhatDecodes(s: seq<byte>, t: seq<byte>)
    requires Decode(s) == Good(t)
    ensures s == Escaped(t)
  {
    if s != [] {
      var n := if s[0] != FESC then 1 else 2;
      WhatDecodes(s[n..], t[1..]);
      assert s == s[..n] + s[n..];
      assert s[..n] == EscapeByte(t[0]);
    }
  }

  /** An escape that is followed by neither of the two octets that may follow it. */
  predicate BrokenAt(s: seq<byte>, t: seq<byte>) {
    var n := |Escaped(t)|;
    Escaped(t) <= s && |s| >= n + 2 && s[n] == 0xDB && s[n + 1] != 0xDC && s[n + 1] != 0xDD
  }

  /** Main result: unescaping throws exactly if a good beginning of the text ends in a broken escape. */
  lemma InvalidIff(s: seq<byte>)
    ensures Decode(s) == InvalidEscape <==> exists t :: BrokenAt(s, t)
  {
    if Decode(s) == InvalidEscape {
      var t := WhereBroken(s);
    }
    forall t | BrokenAt(s, t) ensures Decode(s) == InvalidEscape {
      var n := |Escaped(t)|;
      DecodeBehind(t, s[n..]);
      assert s == Escaped(t) + s[n..];
    }
  }

  lemma {:induction false} WhereBroken(s: seq<byte>) returns (t: seq<byte>)
    requires Decode(s) == InvalidEscape
    ensures BrokenAt(s, t)
  {
    if s[0] == FESC && s[1] != TFESC && s[1] != TFEND {
      t := [];
    } else {
      var n := if s[0] != FESC then 1 else 2;
      var rest := WhereBroken(s[n..]);
      var b := if n == 1 then s[0] else if s[1] == TFESC then FESC else FEND;
      t := [b] + rest;
      assert t[1..] == rest;
      assert s[..n] == EscapeByte(b) && s == s[..n] + s[n..];
    }
  }

  /** Main result: what a FEND does, whatever stands before it.  The first one only brings the reader into
      step; then a text is passed on exactly if it stands for a data frame of port 0, and a broken escape
      costs the rest of the chunk and the step. */
  lemma FendDecides(r: Reader, text: seq<byte>, rest: seq<byte>)
    requires r.buf == [] && 0xC0 !in text
    ensures var next := Feed(r, text + [0xC0] + rest);
            && (!r.reading ==> next == Feed(Reader([], true, r.injected), rest))
            && (r.reading && (exists t :: BrokenAt(text, t)) ==> next == Reader([], false, r.injected))
            && (forall payload: seq<byte> :: r.reading && text == Escaped([0] + payload) ==>
                  next == Feed(Reader([], true, r.injected + [payload]), rest))
            && (r.reading && !(exists t :: BrokenAt(text, t)) && !(exists payload: seq<byte> :: text == Escaped([0] + payload)) ==>
                  next == Feed(Reader([], true, r.injected), rest))
  {
    hide Decode, BrokenAt, Escaped;
    var line := text + [0xC0] + rest;
    assert line[..|text|] == text && line[|text| + 1..] == rest;
    FeedToFend(r, line, |text|);
    InvalidIff(text);
    forall payload: seq<byte> | text == Escaped([0] + payload) ensures Decode(text) == Good([0] + payload) {
      DecodeIff(text, [0] + payload);
    }
    var d := Decode(text);
    if d.Good? {
      DecodeIff(text, d.bytes);
      if d.bytes != [] && d.bytes[0] == 0 {
        assert d.bytes == [0] + d.bytes[1..];
        forall payload: seq<byte> | text == Escaped([0] + payload) ensures payload == d.bytes[1..] {
          var zero: byte := 0;
          assert payload == ([zero] + payload)[1..];
        }
      }
    }
    assert r.injected + [] == r.injected;
  }
}
