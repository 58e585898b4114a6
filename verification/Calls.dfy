/** Callsigns and the seven octets of an address: serialize_call of src/serialize.cc and parse_call of
    src/parse.cc. */
module Calls {
  import opened Bytes
  import opened Packets

  // ---------------------------------------------------------------------------------------------
  // Callsigns: two to six letters or digits, then optionally a dash and one or two digits

  predicate IsDigit(c: char) {
    '0' <= c <= '9'
  }

  predicate IsAlphaNum(c: char) {
    'A' <= c <= 'Z' || IsDigit(c)
  }

  /** Where the part before the dash ends. */
  function BaseLength(s: string): (n: nat)
    ensures n <= |s|
    ensures '-' !in s[..n] && (n < |s| ==> s[n] == '-')
  {
    if s == "" || s[0] == '-' then 0 else 1 + BaseLength(s[1..])
  }

  predicate MatchesCall(s: string) {
    var n := BaseLength(s);
    && 2 <= n <= 6
    && (forall i :: 0 <= i < n ==> IsAlphaNum(s[i]))
    && (n < |s| ==> |s| == n + 2 || |s| == n + 3)
    && forall i :: n < i < |s| ==> IsDigit(s[i])
  }

  function DigitValue(c: char): nat
    requires IsDigit(c)
  {
    c as int - '0' as int
  }

  function Ssid(s: string): nat
    requires MatchesCall(s)
  {
    var n := BaseLength(s);
    if n == |s| then 0
    else if |s| == n + 2 then DigitValue(s[n + 1])
    else 10 * DigitValue(s[n + 1]) + DigitValue(s[n + 2])
  }

  predicate CallOk(s: string) {
    MatchesCall(s) && Ssid(s) <= 15
  }

  function CallError(s: string): Error {
    if !MatchesCall(s) then InvalidCall else SsidTooHigh
  }

  /** A callsign written the way parse_call writes it: no SSID 0 and no leading zero. */
  predicate CanonicalCall(s: string) {
    CallOk(s) && (BaseLength(s) < |s| ==> s[BaseLength(s) + 1] != '0')
  }

  // ---------------------------------------------------------------------------------------------
  // Writing an address

  /** The low octet of a number, as a C++ conversion to uint8_t keeps it. */
  function ByteOf(n: int): (b: byte)
    ensures b as int == n % 256
  {
    OctetOf(n % 256)
  }

  function OctetOf(n: nat): (b: byte)
    requires n < 256
    ensures b as int == n
  {
    if n == 0 then 0 else OctetOf(n - 1) + 1
  }

  function CharOctet(c: char): byte {
    ByteOf(c as int) << 1
  }

  function PaddedChar(s: string, i: nat): char {
    if i < BaseLength(s) then s[i] else ' '
  }

  function SsidOctet(ssid: nat, lowbit: bool, highbit: bool, rbitExt: bool, rbitDama: bool): byte {
    (ByteOf(ssid) << 1) | (if rbitExt then 0 else 0x40) | (if rbitDama then 0 else 0x20)
    | (if lowbit then 1 else 0) | (if highbit then 0x80 else 0)
  }

  function CallOctets(s: string, lowbit: bool, highbit: bool, rbitExt: bool, rbitDama: bool): (r: seq<byte>)
    requires CallOk(s)
    ensures |r| == 7
  {
    seq(6, i requires 0 <= i < 6 => CharOctet(PaddedChar(s, i))) + [SsidOctet(Ssid(s), lowbit, highbit, rbitExt, rbitDama)]
  }

  method SerializeCall(call: string, lowbit: bool, highbit: bool, rbitExt: bool, rbitDama: bool)
      returns (r: Result<seq<byte>>)
    ensures r == if CallOk(call) then Ok(CallOctets(call, lowbit, highbit, rbitExt, rbitDama)) else Err(CallError(call))
  {
    if !MatchesCall(call) {
      return Err(InvalidCall);
    }
    var c := call[..BaseLength(call)];
    while |c| < 6
      invariant |c| <= 6
      invariant forall i :: 0 <= i < |c| ==> c[i] == PaddedChar(call, i)
      invariant |c| >= BaseLength(call)
    {
      c := c + [' '];
    }
    var ssid := Ssid(call);
    if ssid > 15 {
      return Err(SsidTooHigh);
    }
    var ret: seq<byte> := [];
    for i := 0 to 6
      invariant |ret| == i
      invariant forall j :: 0 <= j < i ==> ret[j] == CharOctet(PaddedChar(call, j))
    {
      ret := ret + [ByteOf(c[i] as int) << 1];
    }
    ret := ret + [SsidOctet(ssid, lowbit, highbit, rbitExt, rbitDama)];
    assert ret == CallOctets(call, lowbit, highbit, rbitExt, rbitDama);
    return Ok(ret);
  }

  // ---------------------------------------------------------------------------------------------
  // Reading an address

  datatype ParsedCall = ParsedCall(call: string, top: bool, rr1: bool, rr2: bool, done: bool)

  function OctetChar(b: byte): char {
    ((b >> 1) & 0x7f) as int as char
  }

  function Attach(call: string, r: Result<string>): Result<string> {
    if r.Ok? then Ok(call + r.value) else r
  }

  /** The characters from position i on, blanks dropped; reading past the end throws. */
  function CallChars(d: seq<byte>, i: nat): Result<string>
    decreases 6 - i
  {
    if i >= 6 then Ok("")
    else if i >= |d| then Err(OutOfRange)
    else if d[i] & 1 != 0 then Err(CallMsbSet)
    else
      var rest := CallChars(d, i + 1);
      if rest.Err? then rest
      else if OctetChar(d[i]) == ' ' then rest
      else Attach([OctetChar(d[i])], rest)
  }

  function Decimal(n: nat): string
    requires n < 20
  {
    if n < 10 then [('0' as int + n) as char] else ['1', ('0' as int + n - 10) as char]
  }

  function SsidSuffix(n: nat): string
    requires n < 20
  {
    if n == 0 then "" else "-" + Decimal(n)
  }

  function OctetSsid(b: byte): (n: nat)
    ensures n < 16
  {
    ((b >> 1) & 15) as int
  }

  function ReadCall(d: seq<byte>): Result<ParsedCall> {
    var chars := CallChars(d, 0);
    if chars.Err? then Err(chars.error)
    else if |d| < 7 then Err(OutOfRange)
    else Ok(ParsedCall(chars.value + SsidSuffix(OctetSsid(d[6])),
                       d[6] & 0x80 != 0, d[6] & 0x40 != 0, d[6] & 0x20 != 0, d[6] & 1 != 0))
  }

  lemma AttachAttach(a: string, b: string, r: Result<string>)
    ensures Attach(a, Attach(b, r)) == Attach(a + b, r)
  {
    if r.Ok? {
      assert a + (b + r.value) == a + b + r.value;
    }
  }

  lemma AttachNothing(r: Result<string>)
    ensures Attach("", r) == r
  {
    if r.Ok? {
      assert "" + r.value == r.value;
    }
  }

  method ParseCall(d: seq<byte>) returns (r: Result<ParsedCall>)
    ensures r == ReadCall(d)
  {
    var call := "";
    AttachNothing(CallChars(d, 0));
    for i := 0 to 6
      invariant i <= |d|
      invariant CallChars(d, 0) == Attach(call, CallChars(d, i))
    {
      if i >= |d| {
        return Err(OutOfRange);
      }
      var ch := OctetChar(d[i]);
      if d[i] & 1 != 0 {
        return Err(CallMsbSet);
      }
      AttachAttach(call, [ch], CallChars(d, i + 1));
      if ch != ' ' {
        call := call + [ch];
      }
    }
    assert call + "" == call;
    if |d| < 7 {
      return Err(OutOfRange);
    }
    var ssid := OctetSsid(d[6]);
    if ssid != 0 {
      assert call + "-" + Decimal(ssid) == call + SsidSuffix(ssid);
      call := call + "-" + Decimal(ssid);
    }
    return Ok(ParsedCall(call, d[6] & 0x80 != 0, d[6] & 0x40 != 0, d[6] & 0x20 != 0, d[6] & 1 != 0));
  }

  // ---------------------------------------------------------------------------------------------
  // Reading what was written

  /** The spelling that a callsign comes back with. */
  function NormalCall(s: string): string
    requires CallOk(s)
  {
    s[..BaseLength(s)] + SsidSuffix(Ssid(s))
  }

  lemma CharReturns(c: char)
    requires IsAlphaNum(c) || c == ' '
    ensures OctetChar(CharOctet(c)) == c && CharOctet(c) & 1 == 0
  {
    var b := ByteOf(c as int);
    assert b < 128;
    assert ((b << 1) >> 1) & 0x7f == b;
  }

  lemma SsidReturns(ssid: nat, lowbit: bool, highbit: bool, rbitExt: bool, rbitDama: bool)
    requires ssid <= 15
    ensures var b := SsidOctet(ssid, lowbit, highbit, rbitExt, rbitDama);
            && OctetSsid(b) == ssid && (b & 0x80 != 0) == highbit && (b & 0x40 != 0) == !rbitExt
            && (b & 0x20 != 0) == !rbitDama && (b & 1 != 0) == lowbit
  {
    var s := ByteOf(ssid);
    SmallByte(ssid);
    SsidBits(s, if rbitExt then 0 else 0x40, if rbitDama then 0 else 0x20, if lowbit then 1 else 0, if highbit then 0x80 else 0);
  }

  lemma SmallByte(n: nat)
    requires n <= 15
    ensures ByteOf(n) < 16
  {
    BelowSixteen(ByteOf(n));
  }

  lemma BelowSixteen(b: byte)
    requires b as int < 16
    ensures b < 16
  {}

  /** Five fields that do not overlap. */
  lemma SsidBits(s: byte, ext: byte, dama: byte, low: byte, high: byte)
    requires s < 16 && (ext == 0 || ext == 0x40) && (dama == 0 || dama == 0x20)
    requires (low == 0 || low == 1) && (high == 0 || high == 0x80)
    ensures var b := (s << 1) | ext | dama | low | high;
            && (b >> 1) & 15 == s && b & 0x80 == high && b & 0x40 == ext && b & 0x20 == dama && b & 1 == low
  {}

  lemma {:induction false} CharsReturn(s: string, n: nat, octets: seq<byte>, i: nat)
    requires n <= |s| && n <= 6 && |octets| == 7 && i <= 6
    requires forall j :: 0 <= j < n ==> s[j] != ' '
    requires forall j :: 0 <= j < 6 ==> OctetChar(octets[j]) == (if j < n then s[j] else ' ') && octets[j] & 1 == 0
    ensures CallChars(octets, i) == Ok(if i < n then s[i..n] else "")
    decreases 6 - i
  {
    hide OctetChar;
    if i < 6 {
      CharsReturn(s, n, octets, i + 1);
      if i < n {
        assert s[i..n] == [s[i]] + if i + 1 < n then s[i + 1..n] else "";
      }
    }
  }

  /** Every address that can be written reads back as its normal spelling with the same four bits. */
  lemma CallReturns(s: string, lowbit: bool, highbit: bool, rbitExt: bool, rbitDama: bool)
    requires CallOk(s)
    ensures ReadCall(CallOctets(s, lowbit, highbit, rbitExt, rbitDama))
         == Ok(ParsedCall(NormalCall(s), highbit, !rbitExt, !rbitDama, lowbit))
  {
    var d := CallOctets(s, lowbit, highbit, rbitExt, rbitDama);
    forall j | 0 <= j < 6
      ensures OctetChar(d[j]) == PaddedChar(s, j) && d[j] & 1 == 0
    {
      assert d[j] == CharOctet(PaddedChar(s, j));
      CharReturns(PaddedChar(s, j));
    }
    CharsReturn(s, BaseLength(s), d, 0);
    SsidReturns(Ssid(s), lowbit, highbit, rbitExt, rbitDama);
  }

  lemma NormalIffCanonical(s: string)
    requires CallOk(s)
    ensures NormalCall(s) == s <==> CanonicalCall(s)
  {
    var n := BaseLength(s);
    assert s == s[..n] + s[n..];
    if n < |s| {
      assert s[n..][1] == s[n + 1];
      assert NormalCall(s)[n..] == SsidSuffix(Ssid(s));
    }
  }

  // ---------------------------------------------------------------------------------------------
  // Callsigns and their octets in code numbers

  /** n letters or digits, and then nothing, or a dash and one or two digits of value v. */
  predicate Spells(s: string, n: nat, v: nat) {
    && 2 <= n <= 6 && n <= |s|
    && (forall i :: 0 <= i < n ==> 48 <= s[i] as int <= 57 || 65 <= s[i] as int <= 90)
    && if |s| == n then v == 0
       else
         && s[n] as int == 45 && (|s| == n + 2 || |s| == n + 3)
         && (forall i :: n < i < |s| ==> 48 <= s[i] as int <= 57)
         && v == if |s| == n + 2 then s[n + 1] as int - 48 else 10 * (s[n + 1] as int - 48) + (s[n + 2] as int - 48)
  }

  lemma {:induction false} BaseLengthIs(s: string, n: nat)
    requires n <= |s| && (forall i :: 0 <= i < n ==> s[i] != '-') && (n < |s| ==> s[n] == '-')
    ensures BaseLength(s) == n
  {
    if n > 0 {
      BaseLengthIs(s[1..], n - 1);
    }
  }

  lemma SpelledIs(s: string, n: nat, v: nat)
    requires Spells(s, n, v)
    ensures MatchesCall(s) && BaseLength(s) == n && Ssid(s) == v
  {
    BaseLengthIs(s, n);
  }

  lemma MatchIsSpelled(s: string)
    requires MatchesCall(s)
    ensures Spells(s, BaseLength(s), Ssid(s))
  {}

  /** Main result: which strings serialize takes for callsigns, and the exception for the others. */
  lemma CallOkIff(s: string)
    ensures CallOk(s) <==> exists n: nat, v: nat :: Spells(s, n, v) && v <= 15
    ensures !CallOk(s) ==>
              CallError(s) == if exists n: nat, v: nat :: Spells(s, n, v) then SsidTooHigh else InvalidCall
  {
    hide MatchesCall, Spells;
    forall n: nat, v: nat | Spells(s, n, v) ensures MatchesCall(s) && Ssid(s) == v {
      SpelledIs(s, n, v);
    }
    if MatchesCall(s) {
      MatchIsSpelled(s);
    }
  }

  /** The octets of an address: the codes doubled and padded with blanks, and the bits around the SSID. */
  lemma CallOctetsAre(s: string, n: nat, v: nat, lowbit: bool, highbit: bool, rbitExt: bool, rbitDama: bool)
    requires Spells(s, n, v) && v <= 15
    ensures CallOk(s)
    ensures var d := CallOctets(s, lowbit, highbit, rbitExt, rbitDama);
            && (forall i :: 0 <= i < 6 ==> d[i] as int == 2 * if i < n then s[i] as int else 32)
            && d[6] as int == (if highbit then 128 else 0) + (if rbitExt then 0 else 64) + (if rbitDama then 0 else 32)
                              + 2 * v + (if lowbit then 1 else 0)
  {
    hide CharOctet, SsidOctet;
    SpelledIs(s, n, v);
    var d := CallOctets(s, lowbit, highbit, rbitExt, rbitDama);
    forall i | 0 <= i < 6 ensures d[i] as int == 2 * if i < n then s[i] as int else 32 {
      assert d[i] == CharOctet(PaddedChar(s, i));
      CharDoubled(PaddedChar(s, i));
    }
    SsidOctetIs(v, lowbit, highbit, rbitExt, rbitDama);
  }

  lemma CharDoubled(c: char)
    requires c as int < 128
    ensures CharOctet(c) as int == 2 * (c as int)
  {
    hide ByteOf;
    Twice(ByteOf(c as int));
  }

  lemma Twice(b: byte)
    requires b as int < 128
    ensures (b << 1) as int == 2 * (b as int)
  {
    assert b < 128;
    assert b << 1 == b + b;
  }

  lemma SsidOctetIs(v: nat, lowbit: bool, highbit: bool, rbitExt: bool, rbitDama: bool)
    requires v <= 15
    ensures SsidOctet(v, lowbit, highbit, rbitExt, rbitDama) as int
         == (if highbit then 128 else 0) + (if rbitExt then 0 else 64) + (if rbitDama then 0 else 32)
            + 2 * v + (if lowbit then 1 else 0)
  {
    hide ByteOf, SsidOctet, Flag;
    SsidParts(v, lowbit, highbit, rbitExt, rbitDama);
    SmallByte(v);
    FlagValues(!rbitExt);
    FlagValues(!rbitDama);
    FlagValues(lowbit);
    FlagValues(highbit);
    SumOfBits(ByteOf(v), Flag(!rbitExt, 0x40), Flag(!rbitDama, 0x20), Flag(lowbit, 1), Flag(highbit, 0x80));
  }

  function Flag(b: bool, x: byte): byte {
    if b then x else 0
  }

  lemma FlagValues(b: bool)
    ensures Flag(b, 0x40) == 0 || Flag(b, 0x40) == 0x40
    ensures Flag(b, 0x20) == 0 || Flag(b, 0x20) == 0x20
    ensures Flag(b, 0x80) == 0 || Flag(b, 0x80) == 0x80
    ensures Flag(b, 1) == 0 || Flag(b, 1) == 1
    ensures Flag(b, 0x40) as int == (if b then 64 else 0) && Flag(b, 0x20) as int == if b then 32 else 0
    ensures Flag(b, 0x80) as int == (if b then 128 else 0) && Flag(b, 1) as int == if b then 1 else 0
  {}

  lemma SsidParts(v: nat, lowbit: bool, highbit: bool, rbitExt: bool, rbitDama: bool)
    ensures SsidOctet(v, lowbit, highbit, rbitExt, rbitDama)
         == (ByteOf(v) << 1) | Flag(!rbitExt, 0x40) | Flag(!rbitDama, 0x20) | Flag(lowbit, 1) | Flag(highbit, 0x80)
  {
    hide ByteOf;
  }

  lemma SumOfBits(s: byte, ext: byte, dama: byte, low: byte, high: byte)
    requires s < 16 && (ext == 0 || ext == 0x40) && (dama == 0 || dama == 0x20)
    requires (low == 0 || low == 1) && (high == 0 || high == 0x80)
    ensures ((s << 1) | ext | dama | low | high) as int
         == 2 * (s as int) + ext as int + dama as int + low as int + high as int
  {
    assert (s << 1) | ext | dama | low | high == s + s + ext + dama + low + high;
  }

  /** The SSID as it is written behind the dash. */
  predicate Suffixed(text: string, base: string, v: nat) {
    && |text| == |base| + (if v == 0 then 0 else if v < 10 then 2 else 3) && base <= text
    && (v > 0 ==> text[|base|] as int == 45 && text[|text| - 1] as int == 48 + v % 10)
    && (v >= 10 ==> text[|base| + 1] as int == 49)
  }

  /** Main result: what parse_call makes of any octets.  It reads seven, of which six must be even; a
      seventh that is missing is found only after them. */
  lemma ReadCallIs(d: seq<byte>)
    ensures ReadCall(d).Ok? <==> |d| >= 7 && forall i :: 0 <= i < 6 ==> d[i] as int % 2 == 0
    ensures ReadCall(d).Err? ==>
              ReadCall(d).error == if exists i :: 0 <= i < 6 && i < |d| && d[i] as int % 2 == 1 then CallMsbSet else OutOfRange
    ensures ReadCall(d).Ok? ==>
              var r, e := ReadCall(d).value, d[6] as int;
              && r.top == (e >= 128) && r.rr1 == (e / 64 % 2 == 1) && r.rr2 == (e / 32 % 2 == 1) && r.done == (e % 2 == 1)
  {
    hide OctetSsid, OctetChar;
    forall i | 0 <= i < |d| ensures (d[i] & 1 != 0) == (d[i] as int % 2 == 1) {
      BitValues(d[i]);
    }
    CharsWhen(d, 0);
    if |d| >= 7 {
      BitValues(d[6]);
    }
  }

  lemma BitValues(b: byte)
    ensures (b & 1 != 0) == (b as int % 2 == 1)
    ensures (b & 0x20 != 0) == (b as int / 32 % 2 == 1)
    ensures (b & 0x40 != 0) == (b as int / 64 % 2 == 1)
    ensures (b & 0x80 != 0) == (b as int >= 128)
  {
    assert b as int == 2 * ((b >> 1) as int) + (b & 1) as int;
    BitFive(b);
    BitSix(b);
  }

  lemma BitFive(b: byte)
    ensures (b & 0x20 != 0) == (b as int / 32 % 2 == 1)
  {
    assert b as int == 32 * ((b >> 5) as int) + (b & 31) as int;
    assert (b >> 5) as int == 2 * ((b >> 6) as int) + ((b >> 5) & 1) as int;
    assert (b & 0x20 != 0) == ((b >> 5) & 1 == 1);
  }

  lemma BitSix(b: byte)
    ensures (b & 0x40 != 0) == (b as int / 64 % 2 == 1)
  {
    assert b as int == 64 * ((b >> 6) as int) + (b & 63) as int;
    assert (b >> 6) as int == 2 * ((b >> 7) as int) + ((b >> 6) & 1) as int;
    assert (b & 0x40 != 0) == ((b >> 6) & 1 == 1);
  }

  lemma {:induction false} CharsWhen(d: seq<byte>, i: nat)
    requires i <= 6 && i <= |d|
    ensures CallChars(d, i).Ok? <==> |d| >= 6 && forall j :: i <= j < 6 ==> d[j] & 1 == 0
    ensures CallChars(d, i).Err? ==>
              CallChars(d, i).error == if exists j :: i <= j < 6 && j < |d| && d[j] & 1 != 0 then CallMsbSet else OutOfRange
    decreases 6 - i
  {
    hide OctetChar;
    if i < 6 && i < |d| {
      CharsWhen(d, i + 1);
    }
  }

  /** The text of an address: the codes before the blanks, and the SSID. */
  lemma ReadTextIs(d: seq<byte>, n: nat)
    requires |d| >= 7 && n <= 6
    requires forall i :: 0 <= i < 6 ==> d[i] as int % 2 == 0 && (d[i] as int == 64 <==> i >= n)
    ensures ReadCall(d).Ok?
    ensures exists base :: |base| == n && Suffixed(ReadCall(d).value.call, base, d[6] as int / 2 % 16)
                           && forall i :: 0 <= i < n ==> base[i] as int == d[i] as int / 2
  {
    hide OctetChar, OctetSsid, Suffixed, SsidSuffix, CallChars;
    var base := TextOf(d, n);
    SsidValue(d[6]);
    SuffixIs(base, OctetSsid(d[6]));
  }

  lemma TextOf(d: seq<byte>, n: nat) returns (base: string)
    requires |d| >= 7 && n <= 6
    requires forall i :: 0 <= i < 6 ==> d[i] as int % 2 == 0 && (d[i] as int == 64 <==> i >= n)
    ensures CallChars(d, 0) == Ok(base) && |base| == n
    ensures forall i :: 0 <= i < n ==> base[i] as int == d[i] as int / 2
  {
    hide OctetChar;
    base := seq(n, i requires 0 <= i < n => OctetChar(d[i]));
    forall i | 0 <= i < 6
      ensures OctetChar(d[i]) as int == d[i] as int / 2 && d[i] & 1 == 0 && (i >= n ==> OctetChar(d[i]) == ' ')
    {
      HalfCode(d[i]);
    }
    CharsReturn(base, n, d[..7], 0);
    SameChars(d, 0);
    assert base[0..n] == base;
  }

  lemma SuffixIs(base: string, v: nat)
    requires v < 16
    ensures Suffixed(base + SsidSuffix(v), base, v)
  {}

  lemma {:induction false} SameChars(d: seq<byte>, i: nat)
    requires |d| >= 7 && i <= 6
    ensures CallChars(d, i) == CallChars(d[..7], i)
    decreases 6 - i
  {
    if i < 6 {
      SameChars(d, i + 1);
    }
  }

  lemma HalfCode(b: byte)
    requires b as int % 2 == 0
    ensures OctetChar(b) as int == b as int / 2 && b & 1 == 0
  {
    assert b as int == 2 * ((b >> 1) as int) + (b & 1) as int;
    assert (b >> 1) & 0x7f == b >> 1;
  }

  lemma SsidValue(b: byte)
    ensures OctetSsid(b) == b as int / 2 % 16
  {
    Halved(b);
    LowFour(b >> 1);
  }

  lemma Halved(b: byte)
    ensures (b >> 1) as int == b as int / 2
  {
    assert b as int == 2 * ((b >> 1) as int) + (b & 1) as int;
  }

  lemma LowFour(b: byte)
    ensures (b & 15) as int == b as int % 16
  {
    assert b as int == 16 * ((b >> 4) as int) + (b & 15) as int;
  }
}
