/** Base64 with the URL- and filename-safe alphabet and `=` padding
    (section 5 of RFC 4648), as Go's `base64.URLEncoding` encodes and decodes
    it. The decoder follows Go's leniencies: carriage returns and line feeds
    are skipped wherever they occur, and the unused low bits of a padded
    final quantum are ignored, so several tokens decode to the same bytes. */
module Base64Url {
  import opened Wrappers

  type Byte = b: int | 0 <= b < 256
  type Sextet = x: int | 0 <= x < 64

  const Pad: Byte := 61  // '='
  const CR: Byte := 13
  const LF: Byte := 10

  /** Table 2 of RFC 4648: A-Z, a-z, 0-9, '-', '_'. */
  function Alphabet(i: Sextet): (c: Byte)
    ensures c != Pad && c != CR && c != LF
  {
    if i < 26 then 65 + i
    else if i < 52 then 97 + (i - 26)
    else if i < 62 then 48 + (i - 52)
    else if i == 62 then 45
    else 95
  }

  /** The position of `c` in the alphabet; None for any other byte. */
  function Index(c: Byte): (r: Option<Sextet>)
    ensures r.Some? ==> Alphabet(r.value) == c
    ensures r.None? ==> forall i: Sextet :: Alphabet(i) != c
  {
    if 65 <= c <= 90 then Some(c - 65)
    else if 97 <= c <= 122 then Some(c - 97 + 26)
    else if 48 <= c <= 57 then Some(c - 48 + 52)
    else if c == 45 then Some(62)
    else if c == 95 then Some(63)
    else None
  }

  lemma IndexAlphabet(i: Sextet)
    ensures Index(Alphabet(i)) == Some(i)
  {
  }

  predicate IsAlphabet(c: Byte) {
    Index(c).Some?
  }

  // ---------------------------------------------------------------------
  // Encoding
  // ---------------------------------------------------------------------

  /** Three bytes become four characters, six bits each, high bits first. */
  function EncodeTriple(b0: Byte, b1: Byte, b2: Byte): seq<Byte> {
    [Alphabet(b0 / 4), Alphabet((b0 % 4) * 16 + b1 / 16),
     Alphabet((b1 % 16) * 4 + b2 / 64), Alphabet(b2 % 64)]
  }

  /** `base64.URLEncoding.EncodeToString`: whole groups of three bytes from the
      front; a final group of one or two bytes is padded to four characters. */
  function Encode(data: seq<Byte>): (s: seq<Byte>)
    ensures |s| == 4 * ((|data| + 2) / 3)
    ensures |data| > 0 ==> |s| > 0
    decreases |data|
  {
    if |data| == 0 then []
    else if |data| == 1 then
      [Alphabet(data[0] / 4), Alphabet((data[0] % 4) * 16), Pad, Pad]
    else if |data| == 2 then
      [Alphabet(data[0] / 4), Alphabet((data[0] % 4) * 16 + data[1] / 16),
       Alphabet((data[1] % 16) * 4), Pad]
    else
      EncodeTriple(data[0], data[1], data[2]) + Encode(data[3..])
  }

  // ---------------------------------------------------------------------
  // Decoding
  // ---------------------------------------------------------------------

  /** The bytes with every carriage return and line feed removed. */
  function StripNewlines(s: seq<Byte>): (r: seq<Byte>)
    ensures |r| <= |s|
    ensures CR !in r && LF !in r
  {
    if |s| == 0 then []
    else if s[0] == CR || s[0] == LF then StripNewlines(s[1..])
    else [s[0]] + StripNewlines(s[1..])
  }

  /** Four alphabet characters carry three bytes. */
  function DecodeQuantum(c0: Byte, c1: Byte, c2: Byte, c3: Byte): (q: Option<seq<Byte>>)
    ensures q.Some? ==> |q.value| == 3
  {
    match (Index(c0), Index(c1), Index(c2), Index(c3))
    case (Some(x0), Some(x1), Some(x2), Some(x3)) =>
      Some([High(x0, x1), Middle(x1, x2), Low(x2, x3)])
    case _ => None
  }

  /** The three bytes a quantum of sextets x0 x1 x2 x3 carries. */
  function High(x0: Sextet, x1: Sextet): Byte { (x0 as int) * 4 + (x1 as int) / 16 }
  function Middle(x1: Sextet, x2: Sextet): Byte { ((x1 as int) % 16) * 16 + (x2 as int) / 4 }
  function Low(x2: Sextet, x3: Sextet): Byte { ((x2 as int) % 4) * 64 + x3 as int }

  /** The last quantum may also end in "=" (two bytes) or "==" (one byte);
      the bits below the last whole byte are not checked. */
  function DecodeFinal(c0: Byte, c1: Byte, c2: Byte, c3: Byte): (q: Option<seq<Byte>>)
    ensures q.Some? ==> |q.value| == (if c3 != Pad then 3 else if c2 != Pad then 2 else 1)
  {
    if c2 == Pad && c3 == Pad then
      match (Index(c0), Index(c1))
      case (Some(x0), Some(x1)) => Some([High(x0, x1)])
      case _ => None
    else if c3 == Pad then
      match (Index(c0), Index(c1), Index(c2))
      case (Some(x0), Some(x1), Some(x2)) => Some([High(x0, x1), Middle(x1, x2)])
      case _ => None
    else
      DecodeQuantum(c0, c1, c2, c3)
  }

  /** Decoding once newlines are gone: a sequence of whole quanta, padding
      only in the last one, nothing after it. */
  function DecodeQuanta(s: seq<Byte>): (r: Option<seq<Byte>>)
    ensures r.Some? ==> |s| % 4 == 0 && 3 * |s| <= 4 * |r.value| + 8 && 4 * |r.value| <= 3 * |s|
    decreases |s|
  {
    if |s| == 0 then Some([])
    else if |s| < 4 then None
    else if |s| == 4 then DecodeFinal(s[0], s[1], s[2], s[3])
    else
      match DecodeQuantum(s[0], s[1], s[2], s[3])
      case None => None
      case Some(head) =>
        match DecodeQuanta(s[4..])
        case None => None
        case Some(tail) =>
          QuantumStep(|s[4..]|);
          Some(head + tail)
  }

  /** One more whole quantum keeps the length a multiple of four. */
  lemma QuantumStep(n: nat)
    requires n % 4 == 0
    ensures (n + 4) % 4 == 0
  {
  }

  /** `base64.URLEncoding.DecodeString`; None stands for its CorruptInputError. */
  function Decode(s: seq<Byte>): (r: Option<seq<Byte>>)
    ensures StripNewlines(s) == [] ==> r == Some([])
    ensures r.Some? ==> |StripNewlines(s)| % 4 == 0
    ensures r.Some? ==> 3 * |StripNewlines(s)| <= 4 * |r.value| + 8 && 4 * |r.value| <= 3 * |StripNewlines(s)|
  {
    DecodeQuanta(StripNewlines(s))
  }

  // ---------------------------------------------------------------------
  // Properties
  // ---------------------------------------------------------------------

  /** Every encoded character is an alphabet character or padding. */
  lemma {:induction false} EncodeCharacters(data: seq<Byte>)
    ensures forall k :: 0 <= k < |Encode(data)| ==> IsAlphabet(Encode(data)[k]) || Encode(data)[k] == Pad
    decreases |data|
  {
    if |data| <= 2 {
      forall i: Sextet ensures IsAlphabet(Alphabet(i)) { IndexAlphabet(i); }
    } else {
      forall i: Sextet ensures IsAlphabet(Alphabet(i)) { IndexAlphabet(i); }
      EncodeCharacters(data[3..]);
    }
  }

  lemma {:induction false} StripNewlinesNoop(s: seq<Byte>)
    requires CR !in s && LF !in s
    ensures StripNewlines(s) == s
  {
    if |s| > 0 {
      assert s == [s[0]] + s[1..];
      StripNewlinesNoop(s[1..]);
    }
  }

  /** Stripping works byte by byte: it distributes over concatenation, so
      the kept bytes stay in their order. */
  lemma {:induction false} StripConcat(a: seq<Byte>, b: seq<Byte>)
    ensures StripNewlines(a + b) == StripNewlines(a) + StripNewlines(b)
    decreases |a|
  {
    if |a| == 0 {
      assert a + b == b;
    } else {
      assert (a + b)[0] == a[0];
      assert (a + b)[1..] == a[1..] + b;
      StripConcat(a[1..], b);
      if a[0] != CR && a[0] != LF {
        calc {
          StripNewlines(a + b);
          [a[0]] + StripNewlines(a[1..] + b);
          [a[0]] + (StripNewlines(a[1..]) + StripNewlines(b));
          ([a[0]] + StripNewlines(a[1..])) + StripNewlines(b);
        }
      }
    }
  }

  /** A newline anywhere in a token does not change what it decodes to. */
  lemma NewlineSkipped(a: seq<Byte>, b: seq<Byte>, c: Byte)
    requires c == CR || c == LF
    ensures Decode(a + [c] + b) == Decode(a + b)
  {
    StripConcat(a + [c], b);
    StripConcat(a, [c]);
    StripConcat(a, b);
    assert StripNewlines([c]) == StripNewlines([c][1..]) == [];
    assert StripNewlines(a + [c]) == StripNewlines(a);
  }

  /** An encoded token contains no newline, so decoding does not change it
      before reading the quanta. */
  lemma EncodeHasNoNewlines(data: seq<Byte>)
    ensures CR !in Encode(data) && LF !in Encode(data)
  {
    var s := Encode(data);
    EncodeCharacters(data);
    forall k | 0 <= k < |s| ensures s[k] != CR && s[k] != LF {
      if IsAlphabet(s[k]) {
        assert Alphabet(Index(s[k]).value) == s[k];
      }
    }
  }

  /** Splitting a number into a high part and a low part of k values and
      joining them back, for the three widths the quanta use. */
  lemma Pack4(hi: int, lo: int)
    requires 0 <= lo < 4
    ensures (hi * 4 + lo) / 4 == hi && (hi * 4 + lo) % 4 == lo
  {
  }

  lemma Pack16(hi: int, lo: int)
    requires 0 <= lo < 16
    ensures (hi * 16 + lo) / 16 == hi && (hi * 16 + lo) % 16 == lo
  {
  }

  lemma DecodeEncodeTriple(b0: Byte, b1: Byte, b2: Byte)
    ensures var h := EncodeTriple(b0, b1, b2);
      |h| == 4 && h[2] != Pad && h[3] != Pad && DecodeQuantum(h[0], h[1], h[2], h[3]) == Some([b0, b1, b2])
  {
    var x0: Sextet, x1: Sextet := b0 / 4, (b0 % 4) * 16 + b1 / 16;
    var x2: Sextet, x3: Sextet := (b1 % 16) * 4 + b2 / 64, b2 % 64;
    Pack16(b0 % 4, b1 / 16);
    Pack4(b1 % 16, b2 / 64);
    assert High(x0, x1) == b0;
    assert Middle(x1, x2) == b1;
    assert Low(x2, x3) == b2;
    IndexAlphabet(x0);
    IndexAlphabet(x1);
    IndexAlphabet(x2);
    IndexAlphabet(x3);
  }

  lemma DecodeEncodeSingle(b0: Byte)
    ensures DecodeFinal(Alphabet(b0 / 4), Alphabet((b0 % 4) * 16), Pad, Pad) == Some([b0])
  {
    var x0: Sextet, x1: Sextet := b0 / 4, (b0 % 4) * 16;
    Pack16(b0 % 4, 0);
    assert High(x0, x1) == b0;
    IndexAlphabet(x0);
    IndexAlphabet(x1);
  }

  lemma DecodeEncodePair(b0: Byte, b1: Byte)
    ensures DecodeFinal(Alphabet(b0 / 4), Alphabet((b0 % 4) * 16 + b1 / 16),
                        Alphabet((b1 % 16) * 4), Pad) == Some([b0, b1])
  {
    var x0: Sextet, x1: Sextet, x2: Sextet := b0 / 4, (b0 % 4) * 16 + b1 / 16, (b1 % 16) * 4;
    Pack16(b0 % 4, b1 / 16);
    Pack4(b1 % 16, 0);
    assert High(x0, x1) == b0;
    assert Middle(x1, x2) == b1;
    IndexAlphabet(x0);
    IndexAlphabet(x1);
    IndexAlphabet(x2);
  }

  /** A whole quantum in front of a non-empty rest decodes to its three
      bytes followed by the rest's bytes. */
  lemma DecodeQuantaPrepend(head: seq<Byte>, rest: seq<Byte>, bytes: seq<Byte>, tail: seq<Byte>)
    requires |head| == 4 && |rest| > 0
    requires DecodeQuantum(head[0], head[1], head[2], head[3]) == Some(bytes)
    requires DecodeQuanta(rest) == Some(tail)
    ensures DecodeQuanta(head + rest) == Some(bytes + tail)
  {
    var s := head + rest;
    assert s[0] == head[0] && s[1] == head[1] && s[2] == head[2] && s[3] == head[3];
    assert s[4..] == rest;
  }

  /** One, two or three bytes make one final quantum that decodes back. */
  lemma DecodeEncodeOne(data: seq<Byte>)
    requires |data| == 1
    ensures DecodeQuanta(Encode(data)) == Some(data)
  {
    DecodeEncodeSingle(data[0]);
    assert data == [data[0]];
  }

  lemma DecodeEncodeTwo(data: seq<Byte>)
    requires |data| == 2
    ensures DecodeQuanta(Encode(data)) == Some(data)
  {
    DecodeEncodePair(data[0], data[1]);
    assert data == [data[0], data[1]];
  }

  /** A final quantum without padding decodes like any other. */
  lemma FinalWithoutPad(c0: Byte, c1: Byte, c2: Byte, c3: Byte)
    requires c2 != Pad && c3 != Pad
    ensures DecodeFinal(c0, c1, c2, c3) == DecodeQuantum(c0, c1, c2, c3)
  {
  }

  /** A token of exactly one quantum is read as the final quantum. */
  lemma SingleQuantum(q: seq<Byte>)
    requires |q| == 4
    ensures DecodeQuanta(q) == DecodeFinal(q[0], q[1], q[2], q[3])
  {
  }

  /** A lone unpadded quantum decodes back to its three bytes. */
  lemma DecodeTripleToken(data: seq<Byte>)
    requires |data| == 3
    ensures DecodeQuanta(EncodeTriple(data[0], data[1], data[2])) == Some(data)
  {
    var head := EncodeTriple(data[0], data[1], data[2]);
    DecodeEncodeTriple(data[0], data[1], data[2]);
    SingleQuantum(head);
    FinalWithoutPad(head[0], head[1], head[2], head[3]);
    assert data == [data[0], data[1], data[2]];
  }

  /** Three bytes encode to one unpadded quantum. */
  lemma EncodeThree(data: seq<Byte>)
    requires |data| == 3
    ensures Encode(data) == EncodeTriple(data[0], data[1], data[2])
  {
    assert Encode(data[3..]) == [];
  }

  lemma DecodeEncodeThree(data: seq<Byte>)
    requires |data| == 3
    ensures DecodeQuanta(Encode(data)) == Some(data)
  {
    EncodeThree(data);
    DecodeTripleToken(data);
  }

  lemma {:induction false} DecodeQuantaEncode(data: seq<Byte>)
    ensures DecodeQuanta(Encode(data)) == Some(data)
    decreases |data|
  {
    if |data| == 0 {
    } else if |data| == 1 {
      DecodeEncodeOne(data);
    } else if |data| == 2 {
      DecodeEncodeTwo(data);
    } else if |data| == 3 {
      DecodeEncodeThree(data);
    } else {
      var head := EncodeTriple(data[0], data[1], data[2]);
      assert Encode(data) == head + Encode(data[3..]);
      DecodeEncodeTriple(data[0], data[1], data[2]);
      DecodeQuantaEncode(data[3..]);
      DecodeQuantaPrepend(head, Encode(data[3..]), [data[0], data[1], data[2]], data[3..]);
      assert data == [data[0], data[1], data[2]] + data[3..];
    }
  }

  /** Round trip: decoding what was encoded gives back the bytes. (The
      converse does not hold: decoding ignores newlines and unused bits.) */
  lemma DecodeEncode(data: seq<Byte>)
    ensures Decode(Encode(data)) == Some(data)
  {
    EncodeHasNoNewlines(data);
    StripNewlinesNoop(Encode(data));
    DecodeQuantaEncode(data);
  }

  /** A token of one quantum without newlines is read as the final quantum. */
  lemma DecodeLoneQuantum(c0: Byte, c1: Byte, c2: Byte, c3: Byte)
    requires c0 != CR && c0 != LF && c1 != CR && c1 != LF
    requires c2 != CR && c2 != LF && c3 != CR && c3 != LF
    ensures Decode([c0, c1, c2, c3]) == DecodeFinal(c0, c1, c2, c3)
  {
    StripNewlinesNoop([c0, c1, c2, c3]);
    SingleQuantum([c0, c1, c2, c3]);
  }

  /** With "==" padding only the top two bits of the second sextet are
      read: two tokens that differ in its four unused bits decode alike. */
  lemma TrailingBitsIgnoredDoublePad(x0: Sextet, x1: Sextet, y1: Sextet)
    requires x1 / 16 == y1 / 16
    ensures Decode([Alphabet(x0), Alphabet(x1), Pad, Pad]) == Some([x0 * 4 + x1 / 16])
    ensures Decode([Alphabet(x0), Alphabet(x1), Pad, Pad]) == Decode([Alphabet(x0), Alphabet(y1), Pad, Pad])
  {
    DecodeLoneQuantum(Alphabet(x0), Alphabet(x1), Pad, Pad);
    DecodeLoneQuantum(Alphabet(x0), Alphabet(y1), Pad, Pad);
    IndexAlphabet(x0);
    IndexAlphabet(x1);
    IndexAlphabet(y1);
  }

  /** With "=" padding only the top four bits of the third sextet are read:
      two tokens that differ in its two unused bits decode alike. */
  lemma TrailingBitsIgnoredSinglePad(x0: Sextet, x1: Sextet, x2: Sextet, y2: Sextet)
    requires x2 / 4 == y2 / 4
    ensures Decode([Alphabet(x0), Alphabet(x1), Alphabet(x2), Pad])
            == Some([x0 * 4 + x1 / 16, (x1 % 16) * 16 + x2 / 4])
    ensures Decode([Alphabet(x0), Alphabet(x1), Alphabet(x2), Pad])
            == Decode([Alphabet(x0), Alphabet(x1), Alphabet(y2), Pad])
  {
    DecodeLoneQuantum(Alphabet(x0), Alphabet(x1), Alphabet(x2), Pad);
    DecodeLoneQuantum(Alphabet(x0), Alphabet(x1), Alphabet(y2), Pad);
    IndexAlphabet(x0);
    IndexAlphabet(x1);
    IndexAlphabet(x2);
    IndexAlphabet(y2);
    assert DecodeFinal(Alphabet(x0), Alphabet(x1), Alphabet(x2), Pad) == Some([High(x0, x1), Middle(x1, x2)]);
    assert DecodeFinal(Alphabet(x0), Alphabet(x1), Alphabet(y2), Pad) == Some([High(x0, x1), Middle(x1, y2)]);
  }

  /** A byte that is neither alphabet, padding nor newline anywhere in the
      token makes decoding fail. */
  lemma {:induction false} ForeignByteRejected(s: seq<Byte>, c: Byte)
    requires c in s && !IsAlphabet(c) && c != Pad && c != CR && c != LF
    ensures Decode(s) == None
  {
    StripKeeps(s, c);
    QuantaRejects(StripNewlines(s), c);
  }

  lemma {:induction false} StripKeeps(s: seq<Byte>, c: Byte)
    requires c in s && c != CR && c != LF
    ensures c in StripNewlines(s)
  {
    if s[0] != c {
      StripKeeps(s[1..], c);
    }
  }

  /** A quantum holding a foreign byte decodes to nothing, final or not. */
  lemma QuantumRejects(c0: Byte, c1: Byte, c2: Byte, c3: Byte, c: Byte)
    requires c == c0 || c == c1 || c == c2 || c == c3
    requires !IsAlphabet(c) && c != Pad
    ensures DecodeQuantum(c0, c1, c2, c3) == None
    ensures DecodeFinal(c0, c1, c2, c3) == None
  {
  }

  lemma {:induction false} QuantaRejects(s: seq<Byte>, c: Byte)
    requires c in s && !IsAlphabet(c) && c != Pad
    ensures DecodeQuanta(s) == None
    decreases |s|
  {
    if |s| >= 4 {
      if c in s[..4] {
        var k :| 0 <= k < 4 && s[..4][k] == c;
        QuantumRejects(s[0], s[1], s[2], s[3], c);
      } else {
        assert s == s[..4] + s[4..];
        QuantaRejects(s[4..], c);
      }
    }
  }
}
