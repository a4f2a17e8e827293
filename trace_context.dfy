/** The span context carried by Google Cloud's `X-Cloud-Trace-Context`
    header, `<trace-hex>/<span-decimal>;<options>`, and the hand-written
    parser `extract` that reads it (go/trace/otel.go). */
module TraceContext {
  import opened Outcomes
  import opened Encoding
  import Strconv

  /** A 16-byte trace id and an 8-byte span id, as OpenTelemetry's
      `trace.TraceID` and `trace.SpanID` arrays. */
  type TraceID = b: seq<Byte> | |b| == 16 witness Zeros(16)
  type SpanID = b: seq<Byte> | |b| == 8 witness Zeros(8)

  /** `trace.SpanContext`: the ids, the sampled bit of the trace flags, and
      whether the context came from a remote parent. Trace state is not
      modelled. */
  datatype SpanContext = SpanContext(traceID: TraceID, spanID: SpanID, sampled: bool, remote: bool)
  {
    predicate HasTraceID() { !IsZero(traceID) }
    predicate HasSpanID() { !IsZero(spanID) }
    /** `SpanContext.IsValid`: both ids are non-zero. */
    predicate IsValid() { HasTraceID() && HasSpanID() }
  }

  /** `trace.SpanContext{}`: zero ids, no flags, not remote. */
  const EmptySpanContext := SpanContext(Zeros(16), Zeros(8), false, false)

  // ---------------------------------------------------------------------
  // trace.TraceIDFromHex

  /** The errors `trace.TraceIDFromHex` reports. */
  datatype TraceIDError = InvalidTraceIDLength | InvalidHexID | NilTraceID

  /** The trace-id rule of section 3.2.2.3 of W3C Trace Context: exactly 32
      lower-case hex digits, not all of them zero. */
  predicate AcceptableTraceHex(h: string) {
    |h| == 32 && AllLowerHex(h) && !(forall i :: 0 <= i < |h| ==> h[i] == '0')
  }

  /** `trace.TraceIDFromHex`: the length is checked first, then the digits,
      then that the decoded id is not zero. An accepted text is the
      hex spelling of the id it yields. */
  function TraceIDFromHex(h: string): (r: Result<TraceID, TraceIDError>)
    ensures r.Ok? <==> AcceptableTraceHex(h)
    ensures r.Ok? ==> EncodeHex(r.value) == h && !IsZero(r.value)
  {
    if |h| != 32 then Err(InvalidTraceIDLength)
    else if !AllLowerHex(h) then Err(InvalidHexID)
    else
      var t := DecodeHex(h);
      DecodeHexZero(h);
      EncodeDecodeHex(h);
      if IsZero(t) then Err(NilTraceID) else Ok(t)
  }

  // ---------------------------------------------------------------------
  // extract

  /** `strings.Index(s, string(c))` for a one-character needle: the first
      position of `c`, or -1 when `c` does not occur. */
  function IndexOf(s: string, c: char): (r: int)
    ensures -1 <= r < |s|
    ensures r == -1 ==> forall j :: 0 <= j < |s| ==> s[j] != c
    ensures 0 <= r ==> s[r] == c && forall j :: 0 <= j < r ==> s[j] != c
  {
    if s == [] then -1
    else if s[0] == c then 0
    else
      var k := IndexOf(s[1..], c);
      if k < 0 then -1 else k + 1
  }

  /** Why `extract` gave up: the trace text or the span text was rejected.
      The wrapped library error is kept; the message text is not modelled. */
  datatype ExtractError = TraceIDParseError(traceCause: TraceIDError) | SpanIDParseError(spanCause: Strconv.NumError)

  /** The pair `(trace.SpanContext, error)` that `extract` returns. On an
      error the span context holds whatever had been set so far. */
  datatype Extraction = Extraction(sc: SpanContext, err: Option<ExtractError>)

  /** `extract`: the text before the first '/' is the trace id; the text
      between that '/' and the first ';' is the decimal span id, written
      big-endian into eight bytes. A missing '/' makes `h[:trIdx]` panic; a
      first ';' that is missing (or not after the '/') makes
      `h[trIdx+1 : spIdx]` panic, but only once the trace id has parsed.
      The sampled flag is never set: `sc.WithTraceFlags` returns a new
      value that the source discards. */
  function Extract(h: string): (r: Run<Extraction>)
    ensures r.Done? ==> !r.value.sc.sampled && !r.value.sc.remote
    ensures r.Done? && r.value.err.None? ==> r.value.sc.HasTraceID()
  {
    var trIdx := IndexOf(h, '/');
    if trIdx < 0 then Panic
    else
      match TraceIDFromHex(h[..trIdx])
      case Err(e) => Done(Extraction(EmptySpanContext, Some(TraceIDParseError(e))))
      case Ok(traceID) =>
        var sc := EmptySpanContext.(traceID := traceID);
        var spIdx := IndexOf(h, ';');
        if spIdx < trIdx + 1 then Panic
        else
          match Strconv.ParseUint64(h[trIdx + 1..spIdx])
          case Err(e) => Done(Extraction(sc, Some(SpanIDParseError(e))))
          case Ok(sid) => Done(Extraction(sc.(spanID := PutUint64(sid)), None))
  }

  // ---------------------------------------------------------------------
  // Properties of extract

  /** The first `c` in `p + [c] + q` is at `|p|` when `p` has none. */
  lemma IndexOfAfter(p: string, c: char, q: string)
    requires c !in p
    ensures IndexOf(p + [c] + q, c) == |p|
  {
    var s := p + [c] + q;
    assert s[|p|] == c;
    forall j | 0 <= j < |p| ensures s[j] != c {
      assert s[j] == p[j];
    }
  }

  /** A well-formed header `T/n;rest` with an acceptable trace text `T` and
      a 64-bit `n` in decimal parses: the trace id prints back as `T`, the
      span id is the eight-byte big-endian encoding of `n` and decodes back
      to it, and the sampled flag stays clear. */
  lemma ExtractWellFormed(t: string, n: nat, rest: string)
    requires AcceptableTraceHex(t) && n <= Strconv.MaxUint64
    ensures Extract(t + "/" + Strconv.FormatUint(n) + ";" + rest)
      == Done(Extraction(SpanContext(DecodeHex(t), PutUint64(n), false, false), None))
    ensures EncodeHex(DecodeHex(t)) == t && FromBigEndian(PutUint64(n)) == n
  {
    var d := Strconv.FormatUint(n);
    var h := t + "/" + d + ";" + rest;
    forall i | 0 <= i < |t| ensures t[i] != '/' {
      assert IsLowerHex(t[i]);
    }
    assert h == t + ['/'] + (d + ";" + rest);
    IndexOfAfter(t, '/', d + ";" + rest);
    var p := t + "/" + d;
    forall i | 0 <= i < |p| ensures p[i] != ';' {
      if i < |t| {
        assert IsLowerHex(t[i]);
      } else if i > |t| {
        assert Strconv.IsDigit(d[i - |t| - 1]);
      }
    }
    assert h == p + [';'] + rest;
    IndexOfAfter(p, ';', rest);
    assert h[..|t|] == t;
    assert h[|t| + 1..|p|] == d;
    Strconv.ParseFormatRoundTrip(n);
    EncodeDecodeHex(t);
  }

  /** Any header with an accepted trace text before the first '/', a first
      ';' after it, and span text `ParseUint` accepts (leading zeros
      included) parses to the decoded trace id and the big-endian span id,
      with no error. */
  lemma ExtractSucceeds(h: string)
    requires '/' in h && AcceptableTraceHex(h[..IndexOf(h, '/')])
    requires IndexOf(h, ';') > IndexOf(h, '/')
    requires Strconv.ParseUint64(h[IndexOf(h, '/') + 1..IndexOf(h, ';')]).Ok?
    ensures var span := h[IndexOf(h, '/') + 1..IndexOf(h, ';')];
      Extract(h) == Done(Extraction(
        SpanContext(DecodeHex(h[..IndexOf(h, '/')]), PutUint64(Strconv.DigitsValue(span)), false, false), None))
  {
  }

  /** A trace text that `TraceIDFromHex` rejects yields an error return,
      never a panic, whatever follows the '/'; the span context returned is
      the empty one. */
  lemma TraceTextRejected(h: string)
    requires '/' in h && !AcceptableTraceHex(h[..IndexOf(h, '/')])
    ensures Extract(h).Done?
    ensures Extract(h).value.err.Some? && Extract(h).value.err.value.TraceIDParseError?
    ensures Extract(h).value.sc == EmptySpanContext
  {
  }

  /** Once the trace text is accepted and a ';' follows the '/', a span
      text that is empty, has a non-digit, or exceeds 2^64 - 1 yields an
      error return that keeps the parsed trace id. */
  lemma SpanTextRejected(h: string)
    requires '/' in h && AcceptableTraceHex(h[..IndexOf(h, '/')])
    requires IndexOf(h, ';') > IndexOf(h, '/')
    requires var s := h[IndexOf(h, '/') + 1..IndexOf(h, ';')];
      s == [] || !Strconv.AllDigits(s) || Strconv.DigitsValue(s) > Strconv.MaxUint64
    ensures Extract(h).Done?
    ensures Extract(h).value.err.Some? && Extract(h).value.err.value.SpanIDParseError?
    ensures Extract(h).value.sc == EmptySpanContext.(traceID := DecodeHex(h[..IndexOf(h, '/')]))
  {
    var i, j := IndexOf(h, '/'), IndexOf(h, ';');
    var parsed := Strconv.ParseUint64(h[i + 1..j]);
    assert parsed.Err?;
  }

  /** Exactly when `extract` panics: there is no '/', or the trace text is
      accepted and there is no ';' at all. A first ';' before the first '/'
      never panics, because the trace text then holds that ';' and is
      rejected first. */
  lemma ExtractPanics(h: string)
    ensures Extract(h).Panic? <==>
      '/' !in h || (AcceptableTraceHex(h[..IndexOf(h, '/')]) && ';' !in h)
  {
  }
}
