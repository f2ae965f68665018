// Span contexts, the identifiers of rpc/tracing.go and the `traceparent` header of
// section 3.2.2 of W3C Trace Context.
module TraceContext {
  import opened Wrappers

  type byte = x: int | 0 <= x < 256

  predicate NonZero(b: seq<byte>) {
    exists i :: 0 <= i < |b| && b[i] != 0
  }

  function Zeros(n: nat): (z: seq<byte>)
    ensures |z| == n && !NonZero(z)
  {
    seq(n, _ => 0)
  }

  function Ones(n: nat): (b: seq<byte>)
    requires n > 0
    ensures |b| == n && NonZero(b)
  {
    var b := seq(n, _ => 1);
    assert b[0] == 1;
    b
  }

  type TraceId = b: seq<byte> | |b| == 16 witness seq(16, _ => 0)
  type SpanId = b: seq<byte> | |b| == 8 witness seq(8, _ => 0)

  datatype SpanContext = SpanContext(traceId: TraceId, spanId: SpanId, sampled: bool, remote: bool)

  predicate IsValid(sc: SpanContext) {
    NonZero(sc.traceId) && NonZero(sc.spanId)
  }

  lemma NonZeroExactly(b: seq<byte>)
    ensures NonZero(b) <==> b != seq(|b|, _ => 0)
  {
  }

  /** Section 3.2.2 makes an identifier of zeros only invalid, and nothing else. */
  lemma ValidByIds(sc: SpanContext)
    ensures IsValid(sc) <==> sc.traceId != seq(16, _ => 0) && sc.spanId != seq(8, _ => 0)
    ensures !IsValid(NO_SPAN)
  {
    NonZeroExactly(sc.traceId);
    NonZeroExactly(sc.spanId);
  }

  // What a context without any span carries.
  const NO_SPAN: SpanContext := SpanContext(Zeros(16), Zeros(8), false, false)

  // ----- identifiers of a suppressed context ---------------------------------

  /** What one call of the random source did: the bytes it wrote from the front of
      the buffer, and whether it reported an error. */
  datatype Draw = Draw(bytes: seq<byte>, failed: bool)

  // Without an error the whole buffer is written; with one, any part of it.
  predicate Fills(n: nat, d: Draw) {
    |d.bytes| <= n && (!d.failed ==> |d.bytes| == n)
  }

  type TraceDraw = d: Draw | Fills(16, d) witness Draw([], true)
  type SpanDraw = d: Draw | Fills(8, d) witness Draw([], true)

  // The identifier of length n that is kept after a draw.
  function IdFrom(n: nat, d: Draw): (id: seq<byte>)
    requires n > 0 && Fills(n, d)
    ensures |id| == n
  {
    var buffer := d.bytes + Zeros(n - |d.bytes|);
    if d.failed || !NonZero(buffer) then buffer[n - 1 := 1] else buffer
  }

  /** Whatever the random source does, also when it fails half way, the identifier
      is not the all-zero one: a successful non-zero draw is used as it is, in all other
      cases what was written is kept but for a final one. */
  lemma IdFromIsNeverZero(n: nat, d: Draw)
    requires n > 0 && Fills(n, d)
    ensures NonZero(IdFrom(n, d))
    ensures !d.failed && NonZero(d.bytes) ==> IdFrom(n, d) == d.bytes
    ensures forall i :: 0 <= i < n - 1 ==> IdFrom(n, d)[i] == if i < |d.bytes| then d.bytes[i] else 0
    ensures d.failed || !NonZero(d.bytes) ==> IdFrom(n, d)[n - 1] == 1
  {
    var buffer := d.bytes + Zeros(n - |d.bytes|);
    if d.failed || !NonZero(buffer) {
      assert IdFrom(n, d)[n - 1] == 1;
    } else {
      assert buffer == d.bytes;
    }
    if !d.failed && NonZero(d.bytes) {
      assert buffer == d.bytes;
    }
  }

  // crypto/rand.Read, with the outcome it is to have.
  method RandomRead(buffer: array<byte>, d: Draw) returns (failed: bool)
    requires Fills(buffer.Length, d)
    modifies buffer
    ensures failed == d.failed
    ensures buffer[..] == d.bytes + old(buffer[|d.bytes|..])
  {
    for i := 0 to |d.bytes|
      invariant buffer[..i] == d.bytes[..i]
      invariant forall k :: i <= k < buffer.Length ==> buffer[k] == old(buffer[k])
    {
      buffer[i] := d.bytes[i];
    }
    failed := d.failed;
  }

  method NewTraceId(d: TraceDraw) returns (id: TraceId)
    ensures id == IdFrom(16, d)
    ensures NonZero(id)
  {
    var buffer := new byte[16](_ => 0);
    assert buffer[|d.bytes|..] == Zeros(16 - |d.bytes|);
    var failed := RandomRead(buffer, d);
    if failed || forall i :: 0 <= i < 16 ==> buffer[i] == 0 {
      buffer[15] := 1;
    }
    id := buffer[..];
    IdFromIsNeverZero(16, d);
  }

  method NewSpanId(d: SpanDraw) returns (id: SpanId)
    ensures id == IdFrom(8, d)
    ensures NonZero(id)
  {
    var buffer := new byte[8](_ => 0);
    assert buffer[|d.bytes|..] == Zeros(8 - |d.bytes|);
    var failed := RandomRead(buffer, d);
    if failed || forall i :: 0 <= i < 8 ==> buffer[i] == 0 {
      buffer[7] := 1;
    }
    id := buffer[..];
    IdFromIsNeverZero(8, d);
  }

  // ----- the traceparent header ----------------------------------------------

  const HEX_DIGITS: string := "0123456789abcdef"

  function HexValue(c: char): Option<int> {
    if '0' <= c <= '9' then Some(c as int - '0' as int)
    else if 'a' <= c <= 'f' then Some(c as int - 'a' as int + 10)
    else None
  }

  function EncodeHex(b: seq<byte>): (s: string)
    ensures |s| == 2 * |b|
  {
    if b == [] then "" else [HEX_DIGITS[b[0] / 16], HEX_DIGITS[b[0] % 16]] + EncodeHex(b[1..])
  }

  function DecodeHex(s: string): (r: Option<seq<byte>>)
    ensures r.Some? ==> |s| == 2 * |r.value|
  {
    if s == "" then Some([])
    else if |s| == 1 then None
    else
      match (HexValue(s[0]), HexValue(s[1]), DecodeHex(s[2..]))
      case (Some(high), Some(low), Some(rest)) => Some([high * 16 + low] + rest)
      case _ => None
  }

  lemma {:induction false} HexDigitRoundTrip(n: int)
    requires 0 <= n < 16
    ensures HexValue(HEX_DIGITS[n]) == Some(n)
  {
    assert HEX_DIGITS == ['0', '1', '2', '3', '4', '5', '6', '7', '8', '9', 'a', 'b', 'c', 'd', 'e', 'f'];
  }

  lemma {:induction false} HexValueRoundTrip(c: char)
    requires HexValue(c).Some?
    ensures 0 <= HexValue(c).value < 16 && HEX_DIGITS[HexValue(c).value] == c
  {
    assert HEX_DIGITS == ['0', '1', '2', '3', '4', '5', '6', '7', '8', '9', 'a', 'b', 'c', 'd', 'e', 'f'];
  }

  lemma EncodeStep(b: seq<byte>)
    requires b != []
    ensures EncodeHex(b)[0] == HEX_DIGITS[b[0] / 16] && EncodeHex(b)[1] == HEX_DIGITS[b[0] % 16]
    ensures EncodeHex(b)[2..] == EncodeHex(b[1..])
  {
  }

  lemma DecodeStep(s: string, first: byte, rest: seq<byte>)
    requires |s| >= 2 && DecodeHex(s[2..]) == Some(rest)
    requires HexValue(s[0]) == Some(first / 16) && HexValue(s[1]) == Some(first % 16)
    ensures DecodeHex(s) == Some([first] + rest)
  {
    assert first / 16 * 16 + first % 16 == first;
  }

  lemma {:induction false} DecodeOfEncode(b: seq<byte>)
    ensures DecodeHex(EncodeHex(b)) == Some(b)
  {
    if b != [] {
      EncodeStep(b);
      HexDigitRoundTrip(b[0] / 16);
      HexDigitRoundTrip(b[0] % 16);
      DecodeOfEncode(b[1..]);
      DecodeStep(EncodeHex(b), b[0], b[1..]);
      assert b == [b[0]] + b[1..];
    }
  }

  lemma {:induction false} EncodeOfDecode(s: string)
    requires DecodeHex(s).Some?
    ensures EncodeHex(DecodeHex(s).value) == s
  {
    if s != "" {
      var high, low, rest := HexValue(s[0]).value, HexValue(s[1]).value, DecodeHex(s[2..]).value;
      HexValueRoundTrip(s[0]);
      HexValueRoundTrip(s[1]);
      EncodeOfDecode(s[2..]);
      var b := DecodeHex(s).value;
      assert b == [high * 16 + low] + rest && b[1..] == rest;
      assert b[0] / 16 == high && b[0] % 16 == low;
      assert s == [s[0], s[1]] + s[2..];
    }
  }

  /** Each byte is written as its two digits in base 16, the higher one first. */
  lemma {:induction false} HexByDigits(b: seq<byte>, i: nat)
    requires i < |b|
    ensures EncodeHex(b)[2 * i] == "0123456789abcdef"[b[i] / 16]
    ensures EncodeHex(b)[2 * i + 1] == "0123456789abcdef"[b[i] % 16]
  {
    EncodeStep(b);
    if i > 0 {
      HexByDigits(b[1..], i - 1);
      assert EncodeHex(b)[2 * i] == EncodeHex(b)[2..][2 * (i - 1)];
      assert EncodeHex(b)[2 * i + 1] == EncodeHex(b)[2..][2 * (i - 1) + 1];
    }
  }

  function WriteTraceparent(sc: SpanContext): (h: string)
    ensures |h| == 55
  {
    "00-" + EncodeHex(sc.traceId) + "-" + EncodeHex(sc.spanId) + "-" + (if sc.sampled then "01" else "00")
  }

  /** Section 3.2.2 describes version 00. By section 3.2.4 a later version may carry more
      fields, of which only those of version 00 are read; version ff is invalid. */
  predicate HasForm(h: string) {
    && |h| >= 55 && DecodeHex(h[..2]).Some? && h[..2] != "ff"
    && h[2] == '-' && h[35] == '-' && h[52] == '-'
    && (|h| > 55 ==> h[..2] != "00" && h[55] == '-')
  }

  function ReadTraceparent(h: string): Option<SpanContext> {
    if !HasForm(h) then None
    else
      match (DecodeHex(h[3..35]), DecodeHex(h[36..52]), DecodeHex(h[53..55]))
      case (Some(traceId), Some(spanId), Some(flags)) =>
        var sc := SpanContext(traceId, spanId, flags[0] % 2 == 1, true);
        if IsValid(sc) then Some(sc) else None
      case _ => None
  }

  // Where the fields of a header are.
  lemma FieldsOfWritten(sc: SpanContext)
    ensures var h := WriteTraceparent(sc);
            && h[..2] == "00" && h[2] == '-' && h[35] == '-' && h[52] == '-'
            && h[3..35] == EncodeHex(sc.traceId) && h[36..52] == EncodeHex(sc.spanId)
            && h[53..55] == (if sc.sampled then "01" else "00")
  {
    FieldsOfParts("00-", EncodeHex(sc.traceId), "-", EncodeHex(sc.spanId), "-", if sc.sampled then "01" else "00");
  }

  lemma FieldsOfParts(version: string, traceId: string, d1: string, spanId: string, d2: string, flags: string)
    requires |version| == 3 && |traceId| == 32 && |d1| == 1 && |spanId| == 16 && |d2| == 1 && |flags| == 2
    ensures var h := version + traceId + d1 + spanId + d2 + flags;
            && h[..2] == version[..2] && h[2] == version[2] && h[35] == d1[0] && h[52] == d2[0]
            && h[3..35] == traceId && h[36..52] == spanId && h[53..55] == flags
  {
  }

  lemma HexOfFlags(sampled: bool)
    ensures DecodeHex(if sampled then "01" else "00") == Some([if sampled then 1 else 0])
  {
    assert EncodeHex([if sampled then 1 else 0]) == if sampled then "01" else "00";
    DecodeOfEncode([if sampled then 1 else 0]);
  }

  lemma WrittenHasForm(sc: SpanContext)
    ensures HasForm(WriteTraceparent(sc))
  {
    FieldsOfWritten(sc);
    HexOfFlags(false);
  }

  // The three fields of a written header, decoded.
  lemma FieldsDecode(sc: SpanContext)
    ensures var h := WriteTraceparent(sc);
            && DecodeHex(h[3..35]) == Some(sc.traceId)
            && DecodeHex(h[36..52]) == Some(sc.spanId)
            && DecodeHex(h[53..55]) == Some([if sc.sampled then 1 else 0])
  {
    FieldsOfWritten(sc);
    DecodeOfEncode(sc.traceId);
    DecodeOfEncode(sc.spanId);
    HexOfFlags(sc.sampled);
  }

  /** Reading what was written gives back both identifiers and the sampled flag, now
      marked as remote; a context without a valid identity is never accepted. */
  lemma ReadOfWrite(sc: SpanContext)
    ensures ReadTraceparent(WriteTraceparent(sc)) == if IsValid(sc) then Some(sc.(remote := true)) else None
  {
    WrittenHasForm(sc);
    FieldsDecode(sc);
  }

  // The fields of a written header keep their places under another version and flags.
  lemma FieldsOfSpliced(version: string, w: string, flags: string, more: string)
    requires |version| == |flags| == 2 && |w| == 55
    ensures var h := version + w[2..53] + flags + more;
            && |h| == 55 + |more| && (more != "" ==> h[55] == more[0])
            && h[..2] == version && h[53..55] == flags
            && h[2] == w[2] && h[35] == w[35] && h[52] == w[52]
            && h[3..35] == w[3..35] && h[36..52] == w[36..52]
  {
    var h := version + w[2..53] + flags + more;
    assert forall i :: 2 <= i < 53 ==> h[i] == w[i];
  }

  /** Every header made of a version other than ff, the written fields of a valid context,
      two flag digits and, after version 00, more fields is accepted as that context. */
  lemma ReadOfAnyVersion(version: string, sc: SpanContext, flags: string, more: string)
    requires IsValid(sc) && |version| == |flags| == 2 && version != "ff"
    requires DecodeHex(version).Some? && DecodeHex(flags).Some?
    requires more != "" ==> version != "00" && more[0] == '-'
    ensures ReadTraceparent(version + WriteTraceparent(sc)[2..53] + flags + more)
         == Some(sc.(sampled := DecodeHex(flags).value[0] % 2 == 1, remote := true))
  {
    var w := WriteTraceparent(sc);
    FieldsOfWritten(sc);
    FieldsDecode(sc);
    FieldsOfSpliced(version, w, flags, more);
    ReadByFields(version + w[2..53] + flags + more, sc.traceId, sc.spanId, DecodeHex(flags).value);
  }

  lemma ReadByFields(h: string, traceId: TraceId, spanId: SpanId, flags: seq<byte>)
    requires HasForm(h) && NonZero(traceId) && NonZero(spanId)
    requires DecodeHex(h[3..35]) == Some(traceId) && DecodeHex(h[36..52]) == Some(spanId)
    requires DecodeHex(h[53..55]) == Some(flags)
    ensures ReadTraceparent(h) == Some(SpanContext(traceId, spanId, flags[0] % 2 == 1, true))
  {
  }

  lemma FieldsDetermine(g: string, h: string)
    requires |g| >= 55 && |h| >= 55 && g[2] == h[2] && g[35] == h[35] && g[52] == h[52]
    requires g[3..35] == h[3..35] && g[36..52] == h[36..52]
    ensures g[2..53] == h[2..53]
    ensures |g| == |h| == 55 && g[..2] == h[..2] && g[53..55] == h[53..55] ==> g == h
  {
    assert g[2..53] == [g[2]] + g[3..35] + [g[35]] + g[36..52] + [g[52]];
    assert h[2..53] == [h[2]] + h[3..35] + [h[35]] + h[36..52] + [h[52]];
    if |g| == |h| == 55 {
      assert g == g[..2] + g[2..53] + g[53..55] && h == h[..2] + h[2..53] + h[53..55];
    }
  }

  lemma LowestFlag(flags: string)
    requires |flags| == 2 && DecodeHex(flags).Some?
    ensures DecodeHex(flags).value[0] % 2 == 1 <==> flags[1] in {'1', '3', '5', '7', '9', 'b', 'd', 'f'}
  {
    assert flags[2..] == "";
    assert DecodeHex("") == Some([]);
    HexValueRoundTrip(flags[0]);
    HexValueRoundTrip(flags[1]);
    var high, low := HexValue(flags[0]).value, HexValue(flags[1]).value;
    assert DecodeHex(flags).value[0] == high * 16 + low;
    assert (2 * (high * 8) + low) % 2 == low % 2;
  }

  /** The reader accepts nothing else, and one spelling of the identifiers only: an accepted header of any
      version has the fields of the one written for the context read from it, and one of
      version 00 is that header up to the flag bits that section 3.2.2 reserves; sampled
      is the lowest flag bit. */
  lemma WriteOfRead(h: string)
    requires ReadTraceparent(h).Some?
    ensures IsValid(ReadTraceparent(h).value) && ReadTraceparent(h).value.remote
    ensures |h| >= 55 && DecodeHex(h[..2]).Some? && h[..2] != "ff" && (|h| > 55 ==> h[..2] != "00" && h[55] == '-')
    ensures WriteTraceparent(ReadTraceparent(h).value)[2..53] == h[2..53]
    ensures h[..2] == "00" && h[53..55] in {"00", "01"} ==> WriteTraceparent(ReadTraceparent(h).value) == h
    ensures ReadTraceparent(h).value.sampled <==> h[54] in {'1', '3', '5', '7', '9', 'b', 'd', 'f'}
  {
    var sc := ReadTraceparent(h).value;
    LowestFlag(h[53..55]);
    EncodeOfDecode(h[3..35]);
    EncodeOfDecode(h[36..52]);
    FieldsOfWritten(sc);
    FieldsDetermine(WriteTraceparent(sc), h);
    HexOfFlags(false);
    HexOfFlags(true);
  }

  // ----- the propagator ---------------------------------------------------------

  type Header = map<string, string>

  const TRACEPARENT := "traceparent"

  // TraceContext.Inject: a context without a valid span leaves the header alone.
  function Inject(sc: SpanContext, h: Header): Header {
    if IsValid(sc) then h[TRACEPARENT := WriteTraceparent(sc)] else h
  }

  // Only the field of this name is written, and only from a valid context.
  lemma InjectWritesOneField(sc: SpanContext, h: Header)
    ensures IsValid(sc) ==> "traceparent" in Inject(sc, h) && Inject(sc, h)["traceparent"] == WriteTraceparent(sc)
    ensures !IsValid(sc) ==> Inject(sc, h) == h
    ensures forall k :: k != "traceparent" ==> (k in Inject(sc, h) <==> k in h) && (k in h ==> Inject(sc, h)[k] == h[k])
  {
  }

  // TraceContext.Extract: an absent or rejected header leaves the context alone.
  function Extract(sc: SpanContext, h: Header): SpanContext {
    if TRACEPARENT in h && ReadTraceparent(h[TRACEPARENT]).Some?
    then ReadTraceparent(h[TRACEPARENT]).value
    else sc
  }

  /** Only that field is read: an accepted one gives the context in place of any other, a
      missing or rejected one nothing. */
  lemma ExtractReadsOneField(sc: SpanContext, h: Header)
    ensures "traceparent" in h && ReadTraceparent(h["traceparent"]).Some? ==>
              Extract(sc, h) == ReadTraceparent(h["traceparent"]).value && IsValid(Extract(sc, h))
    ensures "traceparent" !in h || ReadTraceparent(h["traceparent"]).None? ==> Extract(sc, h) == sc
  {
  }
}
