/**
 * The correlation-id protocol: a per-request holder of the current id, and
 * the middleware that adopts an inbound id and echoes the id on the response.
 */
module Correlation {
  import opened Wrappers

  /** Header names mapped to their values, in the order they were sent. */
  type Headers = map<string, seq<string>>

  const CorrelationIdHeader: string := "X-Correlation-Id"

  /** An ASCII letter in lower case; every other character is kept. */
  function LowerAscii(c: char): char {
    if 'A' <= c <= 'Z' then (c as int + 32) as char else c
  }

  /** Header names are compared ignoring the case of ASCII letters. */
  predicate SameHeaderName(a: string, b: string) {
    |a| == |b| && forall i | 0 <= i < |a| :: LowerAscii(a[i]) == LowerAscii(b[i])
  }

  /** `ContainsKey` on a header dictionary: some stored name matches, in any casing. */
  predicate HasHeader(headers: Headers, name: string) {
    exists stored | stored in headers :: SameHeaderName(stored, name)
  }

  /** The request-scoped holder of the current correlation id. */
  class CorrelationIdGenerator {
    var correlationId: string

    /** A new holder starts with a freshly generated Guid rendered as text, which is never empty. */
    constructor (generated: string)
      requires generated != ""
      ensures correlationId == generated
    {
      correlationId := generated;
    }

    method Get() returns (id: string)
      ensures id == correlationId
    {
      id := correlationId;
    }

    /** Overwrites the current id; the last value set wins. */
    method Set(id: string)
      modifies this
      ensures correlationId == id
    {
      correlationId := id;
    }
  }

  /** Set then Get: the holder returns the last id set, so setting twice leaves the second. */
  method SetThenGet(generator: CorrelationIdGenerator, first: string, second: string) returns (id: string)
    modifies generator
    ensures id == second && generator.correlationId == second
  {
    generator.Set(first);
    generator.Set(second);
    id := generator.Get();
  }

  /**
   * `Headers[name].FirstOrDefault()` followed by `!string.IsNullOrEmpty`:
   * the first value of the correlation header, when there is one and it is
   * not empty. Later values of the header are never looked at.
   */
  function InboundCorrelationId(requestHeaders: Headers): (r: Option<string>)
    ensures r.Some? <==> CorrelationIdHeader in requestHeaders
                         && |requestHeaders[CorrelationIdHeader]| > 0
                         && requestHeaders[CorrelationIdHeader][0] != ""
    ensures r.Some? ==> r.value == requestHeaders[CorrelationIdHeader][0] && r.value != ""
  {
    var values := if CorrelationIdHeader in requestHeaders then requestHeaders[CorrelationIdHeader] else [];
    if |values| > 0 && values[0] != "" then Some(values[0]) else None
  }

  /** The id a request runs under: the inbound one if supplied, otherwise the holder's. */
  function ResolvedCorrelationId(requestHeaders: Headers, current: string): (id: string)
    ensures InboundCorrelationId(requestHeaders).Some? ==> id == requestHeaders[CorrelationIdHeader][0]
    ensures InboundCorrelationId(requestHeaders).None? ==> id == current
    ensures current != "" ==> id != ""
  {
    match InboundCorrelationId(requestHeaders)
    case Some(inbound) => inbound
    case None => current
  }

  /**
   * Resolves the request's correlation id, storing an inbound one in the
   * holder; afterwards the holder always holds the resolved id.
   */
  method GetCorrelationIdTrace(requestHeaders: Headers, generator: CorrelationIdGenerator) returns (correlationId: string)
    modifies generator
    ensures correlationId == ResolvedCorrelationId(requestHeaders, old(generator.correlationId))
    ensures generator.correlationId == correlationId
    ensures InboundCorrelationId(requestHeaders).None? ==> generator.correlationId == old(generator.correlationId)
  {
    var correlation := InboundCorrelationId(requestHeaders);
    if correlation.Some? {
      generator.Set(correlation.value);
      correlationId := correlation.value;
    } else {
      correlationId := generator.Get();
    }
  }

  /**
   * The response headers after the start-of-response hook has run: the id is
   * added unless a header of that name, in any casing, is already present.
   */
  function WithCorrelationId(responseHeaders: Headers, correlationId: string): (r: Headers)
    ensures HasHeader(r, CorrelationIdHeader)
    ensures HasHeader(responseHeaders, CorrelationIdHeader) ==> r == responseHeaders
    ensures !HasHeader(responseHeaders, CorrelationIdHeader) ==>
              r == responseHeaders[CorrelationIdHeader := [correlationId]] && CorrelationIdHeader !in responseHeaders
    ensures forall name | name != CorrelationIdHeader :: name in r <==> name in responseHeaders
    ensures forall name | name in r && name != CorrelationIdHeader :: r[name] == responseHeaders[name]
  {
    if HasHeader(responseHeaders, CorrelationIdHeader) then responseHeaders
    else
      assert SameHeaderName(CorrelationIdHeader, CorrelationIdHeader);
      responseHeaders[CorrelationIdHeader := [correlationId]]
  }

  /** The response's header dictionary, updated in place. */
  class HeaderDictionary {
    var entries: Headers

    constructor (initial: Headers)
      ensures entries == initial
    {
      entries := initial;
    }

    predicate ContainsKey(name: string)
      reads this
    {
      HasHeader(entries, name)
    }

    /** Adding a name that is already present, in any casing, throws, so callers must check first. */
    method Add(name: string, values: seq<string>)
      requires !HasHeader(entries, name)
      modifies this
      ensures entries == old(entries)[name := values]
    {
      entries := entries[name := values];
    }
  }

  /**
   * The callback registered with OnStarting: writes the correlation id into
   * the response unless downstream code already set that header.
   */
  method AddCorrelationId(response: HeaderDictionary, correlationId: string)
    modifies response
    ensures response.entries == WithCorrelationId(old(response.entries), correlationId)
  {
    if !response.ContainsKey(CorrelationIdHeader) {
      response.Add(CorrelationIdHeader, [correlationId]);
    }
  }

  /** Running the hook a second time changes nothing. */
  lemma WithCorrelationIdIdempotent(responseHeaders: Headers, first: string, second: string)
    ensures WithCorrelationId(WithCorrelationId(responseHeaders, first), second)
            == WithCorrelationId(responseHeaders, first)
  {
  }

  /** A correlation header that downstream code set in another casing is kept, and no second one is added. */
  lemma OtherCasingKept(downstream: Headers, correlationId: string)
    requires "x-correlation-id" in downstream
    ensures WithCorrelationId(downstream, correlationId) == downstream
  {
    assert SameHeaderName("x-correlation-id", CorrelationIdHeader);
  }

  /**
   * End to end: unless downstream code set the header itself, the response
   * carries exactly the inbound id when one was supplied, and otherwise the
   * holder's generated id.
   */
  lemma ResponseEchoesCorrelationId(requestHeaders: Headers, generated: string, downstream: Headers)
    requires !HasHeader(downstream, CorrelationIdHeader)
    ensures var response := WithCorrelationId(downstream, ResolvedCorrelationId(requestHeaders, generated));
            && (InboundCorrelationId(requestHeaders).Some? ==>
                  response[CorrelationIdHeader] == [requestHeaders[CorrelationIdHeader][0]])
            && (InboundCorrelationId(requestHeaders).None? ==>
                  response[CorrelationIdHeader] == [generated])
  {
  }

  /** Only the first value of a multi-valued header is considered. */
  lemma OnlyFirstValueConsidered(requestHeaders: Headers, first: string, rest1: seq<string>, rest2: seq<string>)
    ensures InboundCorrelationId(requestHeaders[CorrelationIdHeader := [first] + rest1])
            == InboundCorrelationId(requestHeaders[CorrelationIdHeader := [first] + rest2])
  {
  }
}
