/**
 * Byte-limited text (app/ops_agent/evidence.py and context_memory.py).
 *
 * A Python `str` is a sequence of code points that may contain lone surrogates; encoding those
 * fails. Encoding follows section 3 of RFC 3629; decoding with errors="ignore" drops the maximal
 * ill-formed piece at each error and, at the end of the input, a truncated last character.
 */
module TextLimit {
  import opened Common

  type CodePoint = c: int | 0 <= c < 0x11_0000
  type Byte = b: int | 0 <= b < 0x100
  type Str = seq<CodePoint>

  datatype EncodeError = SurrogateNotAllowed

  predicate Scalar(c: CodePoint) { !(0xD800 <= c < 0xE000) }

  /** The strings UTF-8 can encode. */
  predicate Encodable(s: Str) { forall i | 0 <= i < |s| :: Scalar(s[i]) }

  predicate Continuation(b: Byte) { 0x80 <= b < 0xC0 }

  function EncodeChar(c: CodePoint): (bytes: seq<Byte>)
    ensures 1 <= |bytes| <= 4
    ensures !Continuation(bytes[0])
    ensures forall i | 1 <= i < |bytes| :: Continuation(bytes[i])
  {
    if c < 0x80 then [c]
    else if c < 0x800 then [0xC0 + c / 64, 0x80 + c % 64]
    else if c < 0x1_0000 then [0xE0 + c / 4096, 0x80 + c / 64 % 64, 0x80 + c % 64]
    else [0xF0 + c / 26_2144, 0x80 + c / 4096 % 64, 0x80 + c / 64 % 64, 0x80 + c % 64]
  }

  function EncodeAll(s: Str): (bytes: seq<Byte>)
    ensures |s| <= |bytes|
  {
    if s == [] then [] else EncodeChar(s[0]) + EncodeAll(s[1..])
  }

  function Encode(s: Str): Result<seq<Byte>, EncodeError> {
    if Encodable(s) then Ok(EncodeAll(s)) else Err(SurrogateNotAllowed)
  }

  /** One decoder step: a character and its width, or a number of bytes to drop. */
  datatype Decoded = Char(c: CodePoint, width: nat) | Drop(width: nat)

  /** Second byte acceptable after `lead`: excludes overlong forms, surrogates and values past U+10FFFF. */
  predicate SecondByte(lead: Byte, b: Byte) {
    && Continuation(b)
    && (lead == 0xE0 ==> 0xA0 <= b)
    && (lead == 0xED ==> b < 0xA0)
    && (lead == 0xF0 ==> 0x90 <= b)
    && (lead == 0xF4 ==> b < 0x90)
  }

  function LeadWidth(lead: Byte): nat {
    if lead < 0x80 then 1
    else if lead < 0xC2 then 0
    else if lead < 0xE0 then 2
    else if lead < 0xF0 then 3
    else if lead < 0xF5 then 4
    else 0
  }

  function DecodeOne(b: seq<Byte>): (d: Decoded)
    requires b != []
    ensures 1 <= d.width <= |b|
  {
    var w := LeadWidth(b[0]);
    if w == 0 then Drop(1)
    else if w == 1 then Char(b[0], 1)
    else if |b| == 1 then Drop(1)
    else if !SecondByte(b[0], b[1]) then Drop(1)
    else if w == 2 then Char(Join(b[0] - 0xC0, b[1]), 2)
    else if |b| == 2 then Drop(2)
    else if !Continuation(b[2]) then Drop(2)
    else if w == 3 then Char(Join(Join(b[0] - 0xE0, b[1]), b[2]), 3)
    else if |b| == 3 then Drop(3)
    else if !Continuation(b[3]) then Drop(3)
    else Char(Join(Join(Join(b[0] - 0xF0, b[1]), b[2]), b[3]), 4)
  }

  /** Appends the six payload bits of a continuation byte. */
  function Join(high: int, b: Byte): int { high * 64 + (b - 0x80) }

  function DecodeIgnore(b: seq<Byte>): Str
    decreases |b|
  {
    if b == [] then []
    else match DecodeOne(b)
      case Char(c, w) => [c] + DecodeIgnore(b[w..])
      case Drop(w) => DecodeIgnore(b[w..])
  }

  /** `_truncate_utf8`; a negative limit slices from the end, as Python does. */
  function TruncateUtf8(s: Str, limit: int): Result<Str, EncodeError> {
    match Encode(s)
    case Err(e) => Err(e)
    case Ok(bytes) =>
      if |bytes| <= limit then Ok(s)
      else Ok(DecodeIgnore(SliceTo(bytes, limit)))
  }

  /** `b[:limit]` with Python's reading of a negative bound. */
  function SliceTo(b: seq<Byte>, limit: int): seq<Byte> {
    var bound := if limit < 0 then Max(0, |b| + limit) else Min(limit, |b|);
    b[..bound]
  }

  lemma JoinSplit(c: nat)
    ensures Join(c / 64, 0x80 + c % 64) == c
    ensures Join(Join(c / 4096, 0x80 + c / 64 % 64), 0x80 + c % 64) == c
    ensures Join(Join(Join(c / 26_2144, 0x80 + c / 4096 % 64), 0x80 + c / 64 % 64), 0x80 + c % 64) == c
  {
    assert c / 64 / 64 == c / 4096 && c / 4096 / 64 == c / 26_2144;
  }

  /** The character decoder inverts the character encoder, whatever follows. */
  lemma DecodeOneOfEncoded(c: CodePoint, rest: seq<Byte>)
    requires Scalar(c)
    ensures DecodeOne(EncodeChar(c) + rest) == Char(c, |EncodeChar(c)|)
  {
    var b := EncodeChar(c) + rest;
    assert forall i | 0 <= i < |EncodeChar(c)| :: b[i] == EncodeChar(c)[i];
    JoinSplit(c);
  }

  lemma JoinInverse(high: int, b: Byte)
    requires Continuation(b)
    ensures Join(high, b) / 64 == high && Join(high, b) % 64 == b - 0x80
  {
  }

  lemma ThreeByteSound(b0: Byte, b1: Byte, b2: Byte)
    requires LeadWidth(b0) == 3 && SecondByte(b0, b1) && Continuation(b2)
    ensures var c := Join(Join(b0 - 0xE0, b1), b2);
            0 <= c < 0x11_0000 && Scalar(c) && EncodeChar(c) == [b0, b1, b2]
  {
    var high := Join(b0 - 0xE0, b1);
    JoinInverse(b0 - 0xE0, b1);
    JoinInverse(high, b2);
    assert Join(high, b2) / 4096 == high / 64;
  }

  lemma FourByteSound(b0: Byte, b1: Byte, b2: Byte, b3: Byte)
    requires LeadWidth(b0) == 4 && SecondByte(b0, b1) && Continuation(b2) && Continuation(b3)
    ensures var c := Join(Join(Join(b0 - 0xF0, b1), b2), b3);
            0x1_0000 <= c < 0x11_0000 && Scalar(c) && EncodeChar(c) == [b0, b1, b2, b3]
  {
    var top := Join(b0 - 0xF0, b1);
    var high := Join(top, b2);
    JoinInverse(b0 - 0xF0, b1);
    JoinInverse(top, b2);
    JoinInverse(high, b3);
    var c := Join(high, b3);
    assert c / 4096 == high / 64 && c / 26_2144 == high / 4096 == top / 64;
  }

  lemma TwoByteSound(b0: Byte, b1: Byte)
    requires LeadWidth(b0) == 2 && SecondByte(b0, b1)
    ensures var c := Join(b0 - 0xC0, b1); 0 <= c < 0x11_0000 && Scalar(c) && EncodeChar(c) == [b0, b1]
  {
    JoinInverse(b0 - 0xC0, b1);
  }

  /** An accepted group is as wide as its lead byte says, and its bytes follow on. */
  lemma AcceptedGroup(b: seq<Byte>)
    requires b != [] && DecodeOne(b).Char?
    ensures var d := DecodeOne(b);
            && d.width == LeadWidth(b[0])
            && (d.width == 1 ==> d.c == b[0])
            && (d.width == 2 ==> SecondByte(b[0], b[1]) && d.c == Join(b[0] - 0xC0, b[1]))
            && (d.width == 3 ==>
                  SecondByte(b[0], b[1]) && Continuation(b[2]) && d.c == Join(Join(b[0] - 0xE0, b[1]), b[2]))
            && (d.width == 4 ==>
                  SecondByte(b[0], b[1]) && Continuation(b[2]) && Continuation(b[3])
                  && d.c == Join(Join(Join(b[0] - 0xF0, b[1]), b[2]), b[3]))
  {
  }

  lemma GroupSound(b: seq<Byte>, c: int, w: nat)
    requires 1 <= w <= |b| && w == LeadWidth(b[0])
    requires w == 1 ==> c == b[0]
    requires w == 2 ==> SecondByte(b[0], b[1]) && c == Join(b[0] - 0xC0, b[1])
    requires w == 3 ==> SecondByte(b[0], b[1]) && Continuation(b[2]) && c == Join(Join(b[0] - 0xE0, b[1]), b[2])
    requires w == 4 ==> SecondByte(b[0], b[1]) && Continuation(b[2]) && Continuation(b[3])
                        && c == Join(Join(Join(b[0] - 0xF0, b[1]), b[2]), b[3])
    ensures 0 <= c < 0x11_0000 && Scalar(c) && EncodeChar(c) == b[..w]
  {
    if w == 2 {
      TwoByteSound(b[0], b[1]);
    } else if w == 3 {
      ThreeByteSound(b[0], b[1], b[2]);
    } else if w == 4 {
      FourByteSound(b[0], b[1], b[2], b[3]);
    }
  }

  /** What the decoder accepts as a character is that character's only encoding. */
  lemma DecodeOneSound(b: seq<Byte>)
    requires b != [] && DecodeOne(b).Char?
    ensures Scalar(DecodeOne(b).c)
    ensures EncodeChar(DecodeOne(b).c) == b[..DecodeOne(b).width]
  {
    AcceptedGroup(b);
    GroupSound(b, DecodeOne(b).c, DecodeOne(b).width);
  }

  /** A proper, non-empty piece of an encoded character is dropped whole at the end of input. */
  lemma DecodeOneOfCut(c: CodePoint, n: nat)
    requires Scalar(c) && 0 < n < |EncodeChar(c)|
    ensures DecodeOne(EncodeChar(c)[..n]) == Drop(n)
  {
    var b := EncodeChar(c)[..n];
    assert forall i | 0 <= i < n :: b[i] == EncodeChar(c)[i];
  }

  /** Decoding inverts encoding on every encodable string. */
  lemma {:induction false} RoundTrip(s: Str)
    requires Encodable(s)
    ensures DecodeIgnore(EncodeAll(s)) == s
  {
    if s != [] {
      var head, tail := EncodeChar(s[0]), EncodeAll(s[1..]);
      DecodeOneOfEncoded(s[0], tail);
      assert (head + tail)[|head|..] == tail;
      RoundTrip(s[1..]);
    }
  }

  /** `p` is the longest prefix of `s` whose encoding has at most `n` bytes. */
  ghost predicate LongestFitting(s: Str, n: int, p: Str) {
    && p <= s
    && |EncodeAll(p)| <= n
    && forall k | |p| < k <= |s| :: |EncodeAll(s[..k])| > n
  }

  lemma LongestFittingUnique(s: Str, n: int, p: Str, q: Str)
    requires LongestFitting(s, n, p) && LongestFitting(s, n, q)
    ensures p == q
  {
    assert p == s[..|p|] && q == s[..|q|];
  }

  /** Cutting an encoding at any byte and decoding what is left gives the longest prefix that fits. */
  lemma {:induction false} CutDecodesToLongest(s: Str, n: nat)
    requires Encodable(s) && n <= |EncodeAll(s)|
    ensures LongestFitting(s, n, DecodeIgnore(EncodeAll(s)[..n]))
  {
    if s != [] && n > 0 {
      var head, tail := EncodeChar(s[0]), EncodeAll(s[1..]);
      var bytes := head + tail;
      if n < |head| {
        assert bytes[..n] == head[..n];
        DecodeOneOfCut(s[0], n);
        assert head[..n][n..] == [];
        forall k | 0 < k <= |s| ensures |EncodeAll(s[..k])| > n {
          assert s[..k][0] == s[0];
        }
      } else {
        var rest := n - |head|;
        assert bytes[..n] == head + tail[..rest];
        DecodeOneOfEncoded(s[0], tail[..rest]);
        assert (head + tail[..rest])[|head|..] == tail[..rest];
        CutDecodesToLongest(s[1..], rest);
        var p := DecodeIgnore(tail[..rest]);
        assert ([s[0]] + p)[1..] == p;
        forall k | |p| + 1 < k <= |s| ensures |EncodeAll(s[..k])| > n {
          assert s[..k][1..] == s[1..][..k - 1];
        }
      }
    } else {
      forall k | 0 < k <= |s| ensures |EncodeAll(s[..k])| > n {
        assert |s[..k]| == k;
      }
    }
  }

  /** `_truncate_utf8` gives the longest prefix that fits and no other string, for every encodable string and limit. */
  lemma TruncateKeepsLongestPrefix(s: Str, limit: nat)
    requires Encodable(s)
    ensures TruncateUtf8(s, limit).Ok?
    ensures forall p :: p == TruncateUtf8(s, limit).value <==> LongestFitting(s, limit, p)
  {
    TruncateFits(s, limit);
    var kept := TruncateUtf8(s, limit).value;
    forall p | LongestFitting(s, limit, p) ensures p == kept {
      LongestFittingUnique(s, limit, p, kept);
    }
  }

  lemma TruncateFits(s: Str, limit: nat)
    requires Encodable(s)
    ensures TruncateUtf8(s, limit).Ok?
    ensures LongestFitting(s, limit, TruncateUtf8(s, limit).value)
  {
    if |EncodeAll(s)| <= limit {
      assert s[..|s|] == s;
    } else {
      CutDecodesToLongest(s, limit);
    }
  }

  /** Truncation fails exactly on strings UTF-8 cannot encode, and truncating twice changes nothing. */
  lemma TruncateIdempotent(s: Str, limit: nat)
    ensures TruncateUtf8(s, limit).Err? <==> !Encodable(s)
    ensures Encodable(s) ==>
              TruncateUtf8(TruncateUtf8(s, limit).value, limit) == TruncateUtf8(s, limit)
  {
    if Encodable(s) {
      TruncateFits(s, limit);
    }
  }

  // ---- log_excerpt ----

  const EXCERPT_BYTES := 256

  function Prefix(s: Str, n: nat): Str { if |s| <= n then s else s[..n] }

  function Suffix(s: Str, n: nat): Str { if |s| <= n then s else s[|s| - n..] }

  const NEWLINE: Str := [10]

  function JoinLines(lines: seq<Str>): Str {
    if lines == [] then []
    else if |lines| == 1 then lines[0]
    else lines[0] + NEWLINE + JoinLines(lines[1..])
  }

  function Clip(lines: seq<Str>, n: nat): (clipped: seq<Str>)
    ensures |clipped| == |lines|
    ensures forall i | 0 <= i < |lines| :: clipped[i] <= lines[i] && |clipped[i]| == Min(n, |lines[i]|)
  {
    if lines == [] then [] else [Prefix(lines[0], n)] + Clip(lines[1..], n)
  }

  /** `important` holds the lines of the text that match the keyword expression, in order. */
  function ExcerptOf(text: Str, important: seq<Str>): Str {
    JoinLines(Clip(important[..Min(2, |important|)], 80)) + NEWLINE + Suffix(text, 80)
  }

  function LogExcerpt(text: Str, important: seq<Str>): Result<Str, EncodeError> {
    match Encode(text)
    case Err(e) => Err(e)
    case Ok(bytes) =>
      if |bytes| <= EXCERPT_BYTES then Ok(text)
      else TruncateUtf8(ExcerptOf(text, important), EXCERPT_BYTES)
  }

  /**
   * A log excerpt never exceeds 256 bytes. A text within the limit is kept whole; a longer one is
   * replaced by as much of the keyword lines and the last 80 characters as fits.
   */
  lemma LogExcerptBounded(text: Str, important: seq<Str>)
    requires Encodable(text) && forall i | 0 <= i < |important| :: Encodable(important[i])
    ensures LogExcerpt(text, important).Ok?
    ensures var r := LogExcerpt(text, important).value;
            && |EncodeAll(r)| <= EXCERPT_BYTES
            && (|EncodeAll(text)| <= EXCERPT_BYTES ==> r == text)
            && (|EncodeAll(text)| > EXCERPT_BYTES ==>
                  LongestFitting(ExcerptOf(text, important), EXCERPT_BYTES, r))
  {
    var lines := Clip(important[..Min(2, |important|)], 80);
    EncodableJoin(lines);
    assert Encodable(ExcerptOf(text, important));
    TruncateFits(ExcerptOf(text, important), EXCERPT_BYTES);
  }

  lemma {:induction false} EncodableJoin(lines: seq<Str>)
    requires forall i | 0 <= i < |lines| :: Encodable(lines[i])
    ensures Encodable(JoinLines(lines))
  {
    if |lines| > 1 {
      EncodableJoin(lines[1..]);
    }
  }

  // ---- sanitize_content: the size envelope ----

  const ENVELOPE_OVERHEAD := 128

  datatype Envelope = Whole | Truncated(data: Str, originalBytes: nat)

  /** The size decision of `sanitize_content` on the redacted, rendered payload. */
  function Limit(rendered: Str, maxBytes: int): Result<Envelope, EncodeError> {
    match Encode(rendered)
    case Err(e) => Err(e)
    case Ok(bytes) =>
      if |bytes| <= maxBytes then Ok(Whole)
      else match TruncateUtf8(rendered, Max(0, maxBytes - ENVELOPE_OVERHEAD))
        case Err(e) => Err(e)
        case Ok(data) => Ok(Truncated(data, |bytes|))
  }

  /**
   * A payload is wrapped exactly when it exceeds the limit; the wrapped data is the longest prefix
   * leaving room for the envelope, and it always loses something.
   */
  lemma LimitWrapsExactlyOversized(rendered: Str, maxBytes: nat)
    requires Encodable(rendered)
    ensures Limit(rendered, maxBytes).Ok?
    ensures var e := Limit(rendered, maxBytes).value;
            && (e.Whole? <==> |EncodeAll(rendered)| <= maxBytes)
            && (e.Truncated? ==>
                  && LongestFitting(rendered, Max(0, maxBytes - ENVELOPE_OVERHEAD), e.data)
                  && e.originalBytes == |EncodeAll(rendered)|
                  && |e.data| < |rendered|)
  {
    var room := Max(0, maxBytes - ENVELOPE_OVERHEAD);
    TruncateFits(rendered, room);
    if |EncodeAll(rendered)| > maxBytes {
      assert TruncateUtf8(rendered, room).value != rendered;
    }
  }
}
