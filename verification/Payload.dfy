/** Sanitizing a whole payload: the URI, the request body and the headers named in the configuration. */
module Payload {
  import opened Utf8
  import opened Sanitizer

  datatype Header = Header(key: Str, value: Str)

  datatype HttpPayload = HttpPayload(
    uri: Str,
    verb: Str,
    httpVersion: Str,
    requestHeaders: seq<Header>,
    requestBody: Str,
    responseProtocol: Str,
    responseCode: int,
    responseHeaders: seq<Header>,
    responseBody: Str)

  /** strings.EqualFold, a library function. */
  type Fold = (Str, Str) -> bool

  predicate Named(h: Header, names: seq<Str>, fold: Fold) {
    exists n | n in names :: fold(h.key, n)
  }

  function MaskedHeaders(h: seq<Header>, names: seq<Str>, fold: Fold): (r: seq<Header>)
    ensures |r| == |h|
  {
    seq(|h|, i requires 0 <= i < |h| => if Named(h[i], names, fold) then h[i].(value := Stars(MASK_LENGTH)) else h[i])
  }

  /** The keys are kept, and so are the values, except those of the named headers, which become eight stars. */
  ghost predicate HeadersMasked(h: seq<Header>, out: seq<Header>, names: seq<Str>, fold: Fold) {
    && |out| == |h|
    && forall i | 0 <= i < |h| ::
         && out[i].key == h[i].key
         && out[i].value == if exists n | n in names :: fold(h[i].key, n) then Ascii("********") else h[i].value
  }

  /** sanitizeHeaders: the headers are cloned on the first match and the clone is written in place; h never changes. */
  method SanitizeHeaders(h: array<Header>, names: seq<Str>, fold: Fold) returns (out: array<Header>)
    ensures h[..] == old(h[..])
    ensures out[..] == MaskedHeaders(h[..], names, fold)
    ensures out == h <==> forall i | 0 <= i < h.Length :: !Named(h[i], names, fold)
    ensures out != h ==> fresh(out)
    ensures HeadersMasked(h[..], out[..], names, fold)
  {
    out := h;
    var cloned := false;
    for i := 0 to h.Length
      invariant h[..] == old(h[..])
      invariant out.Length == h.Length
      invariant cloned ==> fresh(out)
      invariant !cloned ==> out == h
      invariant cloned <==> exists j | 0 <= j < i :: Named(h[j], names, fold)
      invariant forall j | 0 <= j < i :: out[j] == MaskedHeaders(h[..], names, fold)[j]
      invariant forall j | i <= j < h.Length :: out[j] == h[j]
    {
      if Named(h[i], names, fold) {
        if !cloned {
          out := new Header[h.Length](j requires 0 <= j < h.Length reads h => h[j]);
          cloned := true;
        }
        out[i] := out[i].(value := Stars(MASK_LENGTH));
      }
    }
    assert out[..] == MaskedHeaders(h[..], names, fold);
  }

  /** sanitizeCredentials, on values. */
  ghost function SanitizedPayload(p: HttpPayload, names: seq<Str>, fold: Fold): HttpPayload {
    p.(uri := Sanitized(p.uri),
       requestBody := Sanitized(p.requestBody),
       requestHeaders := MaskedHeaders(p.requestHeaders, names, fold),
       responseHeaders := MaskedHeaders(p.responseHeaders, names, fold))
  }

  /** h and g have the same keys, and the same values but under the named keys. */
  ghost predicate SameButNamed(h: seq<Header>, g: seq<Header>, names: seq<Str>, fold: Fold) {
    && |h| == |g|
    && forall i | 0 <= i < |h| :: h[i].key == g[i].key && (Named(h[i], names, fold) || h[i].value == g[i].value)
  }

  /** p and q differ only in credentials of the URI, the request body and the headers. */
  ghost predicate SameButCredentials(p: HttpPayload, q: HttpPayload, names: seq<Str>, fold: Fold) {
    && SameButSecrets(p.uri, q.uri)
    && SameButSecrets(p.requestBody, q.requestBody)
    && SameButNamed(p.requestHeaders, q.requestHeaders, names, fold)
    && SameButNamed(p.responseHeaders, q.responseHeaders, names, fold)
    && q == p.(uri := q.uri, requestBody := q.requestBody, requestHeaders := q.requestHeaders,
               responseHeaders := q.responseHeaders)
  }

  /**
   Payloads are sanitized to the same payload exactly when they differ only in credentials, however many: all
   of them are hidden, and nothing else is.
   */
  lemma CredentialsLeaveNoTrace(p: HttpPayload, q: HttpPayload, names: seq<Str>, fold: Fold)
    ensures SanitizedPayload(p, names, fold) == SanitizedPayload(q, names, fold)
        <==> SameButCredentials(p, q, names, fold)
  {
    hide Masked, SameButSecrets, SameButNamed, MaskedHeaders;
    HidesExactlySecrets(p.uri, q.uri, MASK_LENGTH);
    HidesExactlySecrets(p.requestBody, q.requestBody, MASK_LENGTH);
    HeadersLeaveNoTrace(p.requestHeaders, q.requestHeaders, names, fold);
    HeadersLeaveNoTrace(p.responseHeaders, q.responseHeaders, names, fold);
    var clean, clean' := SanitizedPayload(p, names, fold), SanitizedPayload(q, names, fold);
    assert clean.uri == Sanitized(p.uri) && clean.requestBody == Sanitized(p.requestBody);
    assert clean'.uri == Sanitized(q.uri) && clean'.requestBody == Sanitized(q.requestBody);
  }

  lemma HeadersLeaveNoTrace(h: seq<Header>, g: seq<Header>, names: seq<Str>, fold: Fold)
    ensures MaskedHeaders(h, names, fold) == MaskedHeaders(g, names, fold) <==> SameButNamed(h, g, names, fold)
  {
    var h', g' := MaskedHeaders(h, names, fold), MaskedHeaders(g, names, fold);
    if h' == g' {
      forall i | 0 <= i < |h|
        ensures h[i].key == g[i].key && (Named(h[i], names, fold) || h[i].value == g[i].value)
      {
        assert h'[i] == g'[i];
      }
    }
  }
}
