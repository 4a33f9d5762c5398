/**
 * The Base 64 encoding of RFC 4648, section 4, as `base64.b64encode` writes it and as
 * `base64.b64decode` reads it. The reader is lenient: it skips characters outside the alphabet.
 */
module Base64 {
  import opened Options
  import opened Sequences

  type Byte = b: nat | b < 256

  const PAD := '='

  function Symbol(v: nat): (c: char)
    requires v < 64
    ensures c != PAD && c != ':' && c as int < 128
  {
    if v < 26 then ('A' as int + v) as char
    else if v < 52 then ('a' as int + (v - 26)) as char
    else if v < 62 then ('0' as int + (v - 52)) as char
    else if v == 62 then '+' else '/'
  }

  function Value(c: char): (r: Option<nat>)
    ensures r.Some? ==> r.value < 64
  {
    if 'A' <= c <= 'Z' then Some(c as int - 'A' as int)
    else if 'a' <= c <= 'z' then Some(c as int - 'a' as int + 26)
    else if '0' <= c <= '9' then Some(c as int - '0' as int + 52)
    else if c == '+' then Some(62)
    else if c == '/' then Some(63)
    else None
  }

  lemma ValueOfSymbol(v: nat)
    requires v < 64
    ensures Value(Symbol(v)) == Some(v)
  {
  }

  function Encode(bytes: seq<Byte>): string {
    if bytes == [] then []
    else if |bytes| == 1 then
      [Symbol(bytes[0] / 4), Symbol(bytes[0] % 4 * 16), PAD, PAD]
    else if |bytes| == 2 then
      [Symbol(bytes[0] / 4), Symbol(bytes[0] % 4 * 16 + bytes[1] / 16), Symbol(bytes[1] % 16 * 4), PAD]
    else
      [Symbol(bytes[0] / 4), Symbol(bytes[0] % 4 * 16 + bytes[1] / 16),
       Symbol(bytes[1] % 16 * 4 + bytes[2] / 64), Symbol(bytes[2] % 64)] + Encode(bytes[3..])
  }

  /**
   * The decoder, `quad` data characters into a group of four. `left` holds the bits of the last one
   * that no byte has taken yet, `pads` the padding just read. Complete padding ends the input.
   */
  function DecodeFrom(s: string, quad: nat, left: nat, pads: nat): Option<seq<Byte>>
    requires quad < 4 && left < 64
    decreases s
  {
    if s == [] then
      if quad == 0 then Some([]) else None
    else if s[0] == PAD then
      if quad >= 2 && quad + pads + 1 >= 4 then Some([])
      else DecodeFrom(s[1..], quad, left, if quad >= 2 then pads + 1 else pads)
    else
      match Value(s[0])
      case None => DecodeFrom(s[1..], quad, left, pads)
      case Some(v) =>
        match quad
        case 0 => DecodeFrom(s[1..], 1, v, 0)
        case 1 => Cons((left * 4 + v / 16) % 256, DecodeFrom(s[1..], 2, v % 16, 0))
        case 2 => Cons((left * 16 + v / 4) % 256, DecodeFrom(s[1..], 3, v % 4, 0))
        case _ => Cons((left * 64 + v) % 256, DecodeFrom(s[1..], 0, 0, 0))
  }

  function Cons(b: Byte, rest: Option<seq<Byte>>): Option<seq<Byte>> {
    match rest
    case None => None
    case Some(bytes) => Some([b] + bytes)
  }

  predicate Ascii(s: string) {
    forall i | 0 <= i < |s| :: s[i] as int < 128
  }

  function Decode(s: string): Option<seq<Byte>> {
    if Ascii(s) then DecodeFrom(s, 0, 0, 0) else None
  }

  // -------------------------------------------------------------- the round trip

  lemma ReadSymbol(v: nat, rest: string, quad: nat, left: nat, pads: nat)
    requires v < 64 && quad < 4 && left < 64
    ensures DecodeFrom([Symbol(v)] + rest, quad, left, pads) ==
      match quad
      case 0 => DecodeFrom(rest, 1, v, 0)
      case 1 => Cons((left * 4 + v / 16) % 256, DecodeFrom(rest, 2, v % 16, 0))
      case 2 => Cons((left * 16 + v / 4) % 256, DecodeFrom(rest, 3, v % 4, 0))
      case _ => Cons((left * 64 + v) % 256, DecodeFrom(rest, 0, 0, 0))
  {
    ValueOfSymbol(v);
    assert ([Symbol(v)] + rest)[1..] == rest;
  }

  /** Regrouping the bits of three bytes into four six-bit values loses nothing. */
  lemma Regrouped(b0: Byte, b1: Byte, b2: Byte)
    ensures var v0, v1, v2, v3 := b0 / 4, b0 % 4 * 16 + b1 / 16, b1 % 16 * 4 + b2 / 64, b2 % 64;
      && v0 < 64 && v1 < 64 && v2 < 64 && v3 < 64
      && (v0 * 4 + v1 / 16) % 256 == b0
      && (v1 % 16 * 16 + v2 / 4) % 256 == b1
      && (v2 % 4 * 64 + v3) % 256 == b2
  {
    var v0, v1, v2 := b0 / 4, b0 % 4 * 16 + b1 / 16, b1 % 16 * 4 + b2 / 64;
    assert v1 / 16 == b0 % 4 && v1 % 16 == b1 / 16;
    assert v2 / 4 == b1 % 16 && v2 % 4 == b2 / 64;
  }

  lemma ReadQuad(b0: Byte, b1: Byte, b2: Byte, rest: string)
    ensures DecodeFrom([Symbol(b0 / 4), Symbol(b0 % 4 * 16 + b1 / 16), Symbol(b1 % 16 * 4 + b2 / 64), Symbol(b2 % 64)]
                       + rest, 0, 0, 0)
         == Cons(b0, Cons(b1, Cons(b2, DecodeFrom(rest, 0, 0, 0))))
  {
    hide DecodeFrom, Symbol;
    var v0, v1, v2, v3 := b0 / 4, b0 % 4 * 16 + b1 / 16, b1 % 16 * 4 + b2 / 64, b2 % 64;
    var t3 := [Symbol(v3)] + rest;
    var t2 := [Symbol(v2)] + t3;
    var t1 := [Symbol(v1)] + t2;
    assert [Symbol(v0), Symbol(v1), Symbol(v2), Symbol(v3)] + rest == [Symbol(v0)] + t1;
    ReadSymbol(v0, t1, 0, 0, 0);
    ReadSymbol(v1, t2, 1, v0, 0);
    ReadSymbol(v2, t3, 2, v1 % 16, 0);
    ReadSymbol(v3, rest, 3, v2 % 4, 0);
    Regrouped(b0, b1, b2);
  }

  /** Padding that completes a group ends the input. */
  lemma ReadPadding(left: nat)
    requires left < 64
    ensures DecodeFrom([PAD, PAD], 2, left, 0) == Some([])
    ensures DecodeFrom([PAD], 3, left, 0) == Some([])
  {
    assert [PAD, PAD][1..] == [PAD];
    assert DecodeFrom([PAD], 2, left, 1) == Some([]);
  }

  lemma ReadOne(b0: Byte)
    ensures DecodeFrom([Symbol(b0 / 4), Symbol(b0 % 4 * 16), PAD, PAD], 0, 0, 0) == Some([b0])
  {
    hide Symbol, DecodeFrom;
    var v0, v1 := b0 / 4, b0 % 4 * 16;
    var t1 := [Symbol(v1)] + [PAD, PAD];
    assert [Symbol(v0), Symbol(v1), PAD, PAD] == [Symbol(v0)] + t1;
    ReadSymbol(v0, t1, 0, 0, 0);
    ReadSymbol(v1, [PAD, PAD], 1, v0, 0);
    ReadPadding(v1 % 16);
    Regrouped(b0, 0, 0);
    assert [b0] + [] == [b0];
  }

  lemma ReadTwo(b0: Byte, b1: Byte)
    ensures DecodeFrom([Symbol(b0 / 4), Symbol(b0 % 4 * 16 + b1 / 16), Symbol(b1 % 16 * 4), PAD], 0, 0, 0)
         == Some([b0, b1])
  {
    hide Symbol, DecodeFrom;
    var v0, v1, v2 := b0 / 4, b0 % 4 * 16 + b1 / 16, b1 % 16 * 4;
    var t2 := [Symbol(v2)] + [PAD];
    var t1 := [Symbol(v1)] + t2;
    assert [Symbol(v0), Symbol(v1), Symbol(v2), PAD] == [Symbol(v0)] + t1;
    ReadSymbol(v0, t1, 0, 0, 0);
    ReadSymbol(v1, t2, 1, v0, 0);
    ReadSymbol(v2, [PAD], 2, v1 % 16, 0);
    ReadPadding(v2 % 4);
    Regrouped(b0, b1, 0);
    assert [b0] + ([b1] + []) == [b0, b1];
  }

  lemma {:induction false} EncodeShape(bytes: seq<Byte>)
    ensures Ascii(Encode(bytes)) && ':' !in Encode(bytes)
    ensures |Encode(bytes)| == (|bytes| + 2) / 3 * 4
  {
    if |bytes| > 2 {
      EncodeShape(bytes[3..]);
    }
  }

  /** Decoding inverts encoding for every byte string. */
  lemma {:induction false} DecodeEncode(bytes: seq<Byte>)
    ensures Decode(Encode(bytes)) == Some(bytes)
  {
    hide Symbol, DecodeFrom;
    EncodeShape(bytes);
    if bytes == [] {
      assert DecodeFrom([], 0, 0, 0) == Some([]) by { ReadNothing(); }
    } else if |bytes| == 1 {
      ReadOne(bytes[0]);
      assert bytes == [bytes[0]];
    } else if |bytes| == 2 {
      ReadTwo(bytes[0], bytes[1]);
      assert bytes == [bytes[0], bytes[1]];
    } else {
      DecodeEncode(bytes[3..]);
      EncodeShape(bytes[3..]);
      ReadQuad(bytes[0], bytes[1], bytes[2], Encode(bytes[3..]));
      assert bytes == [bytes[0]] + ([bytes[1]] + ([bytes[2]] + bytes[3..]));
    }
  }

  lemma ReadNothing()
    ensures DecodeFrom([], 0, 0, 0) == Some([])
  {
  }

  /** The reader skips every character that is neither in the alphabet nor padding, wherever it stands. */
  lemma {:induction false} JunkIsSkipped(a: string, c: char, b: string, quad: nat, left: nat, pads: nat)
    requires quad < 4 && left < 64 && c != PAD && Value(c).None?
    ensures DecodeFrom(a + [c] + b, quad, left, pads) == DecodeFrom(a + b, quad, left, pads)
    decreases a
  {
    Assoc(a, [c], b);
    if a == [] {
      Uncons([c], b);
      assert [] + b == b;
    } else {
      Uncons(a, [c] + b);
      Uncons(a, b);
      Assoc(a[1..], [c], b);
      JunkIsSkipped(a[1..], c, b, quad, left, if quad >= 2 then pads + 1 else pads);
      JunkIsSkipped(a[1..], c, b, quad, left, pads);
      var v := Value(a[0]);
      if v.Some? {
        JunkIsSkipped(a[1..], c, b, 1, v.value, 0);
        JunkIsSkipped(a[1..], c, b, 2, v.value % 16, 0);
        JunkIsSkipped(a[1..], c, b, 3, v.value % 4, 0);
        JunkIsSkipped(a[1..], c, b, 0, 0, 0);
      }
    }
  }

  lemma PadIsNoSymbol()
    ensures Value(PAD).None?
  {
  }

  lemma {:induction false} UnpaddedFrom(s: string, quad: nat, left: nat, pads: nat)
    requires quad < 4 && left < 64 && forall i | 0 <= i < |s| :: Value(s[i]).Some?
    ensures DecodeFrom(s, quad, left, pads).Some? <==> (quad + |s|) % 4 == 0
    decreases s
  {
    if s != [] {
      hide Value;
      var v := Value(s[0]).value;
      assert forall i | 0 <= i < |s[1..]| :: s[1..][i] == s[i + 1];
      assert s[0] != PAD by { PadIsNoSymbol(); }
      match quad
      case 0 => UnpaddedFrom(s[1..], 1, v, 0);
      case 1 => UnpaddedFrom(s[1..], 2, v % 16, 0);
      case 2 => UnpaddedFrom(s[1..], 3, v % 4, 0);
      case _ => UnpaddedFrom(s[1..], 0, 0, 0);
    }
  }

  /** Without padding a text of symbols is read exactly if it ends at a group of four: nothing is cut off silently. */
  lemma UnpaddedIsReadExactlyWhen(s: string)
    requires forall i | 0 <= i < |s| :: Value(s[i]).Some?
    ensures Decode(s).Some? <==> |s| % 4 == 0
  {
    UnpaddedFrom(s, 0, 0, 0);
    forall i | 0 <= i < |s|
      ensures s[i] as int < 128
    {
      assert Value(s[i]).Some?;
    }
  }

  // ------------------------------------------------------------- canonical text

  /** How many padding characters end the text: none, one or two. */
  function Pads(s: string): (pads: nat)
    ensures pads <= 2 && pads <= |s|
  {
    var n := |s|;
    if n < 2 || s[n - 1] != PAD then 0 else if s[n - 2] != PAD then 1 else 2
  }

  /**
   * Section 3.5 of RFC 4648: groups of four, nothing outside the alphabet, padding only at the end, and
   * the bits of the last symbol that belong to no byte are zero.
   */
  predicate Canonical(s: string) {
    var n, pads := |s|, Pads(s);
    && n % 4 == 0
    && (forall i | 0 <= i < n - pads :: Value(s[i]).Some?)
    && (pads == 1 ==> Value(s[n - 2]).value % 4 == 0)
    && (pads == 2 ==> Value(s[n - 3]).Some? && Value(s[n - 3]).value % 16 == 0)
  }

  lemma SymbolOfValue(c: char)
    requires Value(c).Some?
    ensures Symbol(Value(c).value) == c
  {
  }

  /** A group that is not the last holds four symbols and says nothing about the rest. */
  lemma CanonicalGroup(c0: char, c1: char, c2: char, c3: char, rest: string)
    requires |rest| % 4 == 0 && (rest == [] ==> c3 != PAD)
    ensures Canonical([c0, c1, c2, c3] + rest) <==>
      (Value(c0).Some? && Value(c1).Some? && Value(c2).Some? && Value(c3).Some? && Canonical(rest))
  {
    var s := [c0, c1, c2, c3] + rest;
    hide Value;
    assert s[0] == c0 && s[1] == c1 && s[2] == c2 && s[3] == c3;
    assert forall i | 0 <= i < |rest| :: rest[i] == s[i + 4];
    assert rest != [] ==> Pads(s) == Pads(rest);
    assert rest == [] ==> Pads(s) == 0;
    assert forall i | 4 <= i < |s| :: s[i] == rest[i - 4];
  }

  lemma {:induction false} EncodeIsCanonical(bytes: seq<Byte>)
    ensures Canonical(Encode(bytes))
  {
    if |bytes| > 2 {
      var v0, v1, v2, v3 := bytes[0] / 4, bytes[0] % 4 * 16 + bytes[1] / 16,
        bytes[1] % 16 * 4 + bytes[2] / 64, bytes[2] % 64;
      var rest := Encode(bytes[3..]);
      ValueOfSymbol(v0);
      ValueOfSymbol(v1);
      ValueOfSymbol(v2);
      ValueOfSymbol(v3);
      EncodeIsCanonical(bytes[3..]);
      EncodeShape(bytes[3..]);
      CanonicalGroup(Symbol(v0), Symbol(v1), Symbol(v2), Symbol(v3), rest);
    } else if |bytes| == 2 {
      ValueOfSymbol(bytes[1] % 16 * 4);
    } else if |bytes| == 1 {
      ValueOfSymbol(bytes[0] % 4 * 16);
    }
  }

  /** The three bytes of four symbols. */
  function BytesOf(v0: nat, v1: nat, v2: nat, v3: nat): (r: (Byte, Byte, Byte))
    requires v0 < 64 && v1 < 64 && v2 < 64 && v3 < 64
    ensures r.0 / 4 == v0 && r.0 % 4 * 16 + r.1 / 16 == v1 && r.1 % 16 * 4 + r.2 / 64 == v2 && r.2 % 64 == v3
  {
    (v0 * 4 + v1 / 16, v1 % 16 * 16 + v2 / 4, v2 % 4 * 64 + v3)
  }

  lemma FullGroup(c0: char, c1: char, c2: char, c3: char, tail: seq<Byte>) returns (bytes: seq<Byte>)
    requires Value(c0).Some? && Value(c1).Some? && Value(c2).Some? && Value(c3).Some?
    ensures Encode(bytes) == [c0, c1, c2, c3] + Encode(tail)
  {
    SymbolOfValue(c0);
    SymbolOfValue(c1);
    SymbolOfValue(c2);
    SymbolOfValue(c3);
    hide Value, Symbol;
    var b := BytesOf(Value(c0).value, Value(c1).value, Value(c2).value, Value(c3).value);
    bytes := [b.0, b.1, b.2] + tail;
    assert bytes[3..] == tail;
  }

  lemma LastGroup(s: string) returns (bytes: seq<Byte>)
    requires Canonical(s) && |s| == 4 && Pads(s) > 0
    ensures Encode(bytes) == s
  {
    SymbolOfValue(s[0]);
    SymbolOfValue(s[1]);
    if Pads(s) == 2 {
      var b := BytesOf(Value(s[0]).value, Value(s[1]).value, 0, 0);
      bytes := [b.0];
    } else {
      SymbolOfValue(s[2]);
      var b := BytesOf(Value(s[0]).value, Value(s[1]).value, Value(s[2]).value, 0);
      bytes := [b.0, b.1];
    }
  }

  lemma {:induction false} CanonicalIsEncoded(s: string) returns (bytes: seq<Byte>)
    requires Canonical(s)
    ensures Encode(bytes) == s
  {
    hide Value, Encode;
    if s == [] {
      bytes := [];
      assert Encode([]) == [] by { EncodeShape([]); }
    } else if Pads(s) > 0 && |s| == 4 {
      bytes := LastGroup(s);
    } else {
      var rest := s[4..];
      assert s == [s[0], s[1], s[2], s[3]] + rest;
      CanonicalGroup(s[0], s[1], s[2], s[3], rest);
      var tail := CanonicalIsEncoded(rest);
      bytes := FullGroup(s[0], s[1], s[2], s[3], tail);
    }
  }

  /** Of all the texts the lenient reader accepts, exactly the canonical ones are written back as they were read. */
  lemma CanonicalIsReadExactly(s: string)
    ensures Canonical(s) <==> Decode(s).Some? && Encode(Decode(s).value) == s
  {
    hide Canonical, Decode, Encode;
    if Canonical(s) {
      var bytes := CanonicalIsEncoded(s);
      DecodeEncode(bytes);
    }
    if Decode(s).Some? {
      EncodeIsCanonical(Decode(s).value);
    }
  }
}
