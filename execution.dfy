/**
 * What `ExecuteWithContext` does with a request once the builders are done:
 * the client's default headers overridden by the builder's own, and the
 * decision, over the response the server sends back, whether the caller's
 * result is left untouched, filled in, or an error is returned
 * (postgrest/pkg/request_builder.go and the RPC variant in
 * postgrest/pkg/client.go). Sending the request and JSON decoding are not
 * part of this model: a response is a value, and decoding is a function
 * given by the caller that fails with None.
 */
module Execution {
  import opened Wrappers
  import Strings
  import Http

  /** The error PostgREST reports for a failed request. */
  datatype RequestError = RequestError(message: string, details: string, hint: string, code: string, httpStatusCode: int)

  /** The JSON fields of an error body; the status code is not among them. */
  datatype ErrorBody = ErrorBody(message: string, details: string, hint: string, code: string)

  /** `RequestError.Error()`: the code, a colon and a space, then the message. */
  function ErrorText(e: RequestError): (t: string)
    ensures |t| == |e.code| + 2 + |e.message|
    ensures t[..|e.code|] == e.code && t[|e.code|..|e.code| + 2] == ": " && t[|e.code| + 2..] == e.message
  {
    e.code + ": " + e.message
  }

  /** A code without a colon is what precedes the first colon of the text. */
  lemma ErrorTextCode(e: RequestError)
    requires ':' !in e.code
    ensures Strings.Split(ErrorText(e), ':')[0] == e.code
  {
    var t := ErrorText(e);
    assert t == e.code + [':'] + (" " + e.message);
    Strings.FirstIndexAfter(e.code, ':', " " + e.message);
  }

  lemma ErrorTextExample()
    ensures ErrorText(RequestError("not found", "", "", "PGRST116", 404)) == "PGRST116: not found"
  {
  }

  /** A response, as far as the outcome depends on it. */
  datatype Response = Response(status: int, header: Http.Entries, body: string)

  datatype Failure =
    | ServerError(error: RequestError)  // a non-2xx status with a decodable error body
    | DecodeError                       // json.Unmarshal failed on the body or on the count
    | InvalidContentRange               // a count response whose Content-Range is not "range/total"
    | InvalidTarget                     // json.Unmarshal was given a nil result

  /** What happened to the caller's result. */
  datatype Outcome<V> = Untouched | Stored(value: V) | Failed(failure: Failure)

  const StatusNoContent: int := 204

  predicate StatusOK(status: int)
  {
    200 <= status < 300
  }

  /** The Content-Range header of a response, "" when absent (`Header.Get`). */
  function ContentRange(resp: Response): string
  {
    Http.First(resp.header, "Content-Range")
  }

  /** A non-2xx response: its decoded error body, with the status code added. */
  function ErrorOutcome<V>(resp: Response, decodeError: string -> Option<ErrorBody>): (o: Outcome<V>)
    ensures o.Failed?
    ensures o.failure.ServerError? <==> decodeError(resp.body).Some?
    ensures o.failure.ServerError? ==>
      var b := decodeError(resp.body).value;
      o.failure.error == RequestError(b.message, b.details, b.hint, b.code, resp.status)
    ensures !o.failure.ServerError? ==> o.failure.DecodeError?
  {
    match decodeError(resp.body)
    case None => Failed(DecodeError)
    case Some(b) => Failed(ServerError(RequestError(b.message, b.details, b.hint, b.code, resp.status)))
  }

  /** `json.Unmarshal` of `text` into the result. */
  function DecodeInto<V>(text: string, decodeValue: string -> Option<V>): (o: Outcome<V>)
    ensures o.Stored? <==> decodeValue(text).Some?
    ensures o.Stored? ==> o.value == decodeValue(text).value
    ensures !o.Stored? ==> o == Failed(DecodeError)
  {
    match decodeValue(text)
    case None => Failed(DecodeError)
    case Some(v) => Stored(v)
  }

  /**
   * QueryRequestBuilder.ExecuteWithContext after the response arrives.
   * `hasTarget` says whether the caller passed a non-nil result.
   */
  function QueryOutcome<V>(isCount: bool, hasTarget: bool, resp: Response,
                           decodeError: string -> Option<ErrorBody>, decodeValue: string -> Option<V>): (o: Outcome<V>)
    ensures !StatusOK(resp.status) ==> o.Failed? && (o.failure.ServerError? || o.failure.DecodeError?)
    ensures o.Failed? && o.failure.ServerError? ==> !StatusOK(resp.status) && o.failure.error.httpStatusCode == resp.status
    ensures o.Untouched? <==> StatusOK(resp.status) && (resp.status == StatusNoContent || !hasTarget)
    ensures o.Stored? ==> StatusOK(resp.status) && resp.status != StatusNoContent && hasTarget
    ensures o.Failed? && o.failure.InvalidContentRange? <==>
      StatusOK(resp.status) && resp.status != StatusNoContent && hasTarget && isCount
      && |Strings.Split(ContentRange(resp), '/')| != 2
    ensures o.Stored? && !isCount ==> decodeValue(resp.body) == Some(o.value)
    ensures !(o.Failed? && o.failure.InvalidTarget?)
    ensures !StatusOK(resp.status) ==> o == ErrorOutcome(resp, decodeError)
    ensures StatusOK(resp.status) && resp.status != StatusNoContent && hasTarget && !isCount ==>
      o == DecodeInto(resp.body, decodeValue)
  {
    if !StatusOK(resp.status) then ErrorOutcome(resp, decodeError)
    else if resp.status != StatusNoContent && hasTarget then
      if isCount then
        var parts := Strings.Split(ContentRange(resp), '/');
        if |parts| != 2 then Failed(InvalidContentRange)
        else DecodeInto(parts[1], decodeValue)
      else DecodeInto(resp.body, decodeValue)
    else Untouched
  }

  /**
   * In count mode a successful response yields the total exactly when the
   * Content-Range holds one '/' and the text after it decodes; the body is
   * never read.
   */
  lemma {:induction false} CountModeOutcome<V>(resp: Response, decodeError: string -> Option<ErrorBody>, decodeValue: string -> Option<V>)
    requires StatusOK(resp.status) && resp.status != StatusNoContent
    ensures var o := QueryOutcome(true, true, resp, decodeError, decodeValue);
      var cr := ContentRange(resp);
      o.Stored? <==> Strings.Occurrences(cr, '/') == 1 && decodeValue(cr[Strings.FirstIndex(cr, '/') + 1..]).Some?
    ensures var o := QueryOutcome(true, true, resp, decodeError, decodeValue);
      var cr := ContentRange(resp);
      o.Stored? ==> o.value == decodeValue(cr[Strings.FirstIndex(cr, '/') + 1..]).value
  {
    var cr := ContentRange(resp);
    if Strings.Occurrences(cr, '/') == 1 {
      Strings.SplitAtSingleSeparator(cr, '/');
    }
  }

  /** A count response is decided by its status and Content-Range alone. */
  lemma CountModeIgnoresBody<V>(resp: Response, body: string, decodeError: string -> Option<ErrorBody>, decodeValue: string -> Option<V>)
    requires StatusOK(resp.status)
    ensures QueryOutcome(true, true, resp, decodeError, decodeValue)
         == QueryOutcome(true, true, resp.(body := body), decodeError, decodeValue)
  {
  }

  lemma CountRangeSplit()
    ensures Strings.Split("0-9/42", '/') == ["0-9", "42"]
  {
    var parts := ["0-9", "42"];
    assert Strings.Join(parts, "/") == "0-9/42" by {
      assert parts[1..] == ["42"];
    }
    Strings.SplitJoin(parts, '/');
  }

  /** "0-9/42" is a valid count response: the total "42" is decoded. */
  lemma CountExample<V>(decodeError: string -> Option<ErrorBody>, decodeValue: string -> Option<V>)
    ensures var resp := Response(200, map["Content-Range" := ["0-9/42"]], "");
      QueryOutcome(true, true, resp, decodeError, decodeValue) == DecodeInto("42", decodeValue)
  {
    var resp := Response(200, map["Content-Range" := ["0-9/42"]], "");
    assert ContentRange(resp) == "0-9/42";
    CountRangeSplit();
  }

  /** A 404 whose body decodes is reported as a RequestError carrying 404. */
  lemma NotFoundExample<V>(isCount: bool, hasTarget: bool, decodeValue: string -> Option<V>)
    ensures var resp := Response(404, map[], "{}");
      var decodeError := (s: string) => Some(ErrorBody("not found", "", "", "PGRST116"));
      var o := QueryOutcome(isCount, hasTarget, resp, decodeError, decodeValue);
      o.Failed? && o.failure.ServerError? && ErrorText(o.failure.error) == "PGRST116: not found"
      && o.failure.error.httpStatusCode == 404
  {
  }

  /**
   * RpcRequestBuilder.ExecuteWithContext as written: the guard before
   * decoding tests the builder (`r`) instead of the result, so a nil result
   * is handed to json.Unmarshal. That checks the text is well-formed JSON
   * (`isJson`) first, then rejects the nil target.
   */
  function RpcOutcomeAsWritten<V>(hasTarget: bool, resp: Response, isJson: string -> bool,
                                  decodeError: string -> Option<ErrorBody>, decodeValue: string -> Option<V>): (o: Outcome<V>)
    ensures o.Failed? && o.failure.InvalidTarget? <==>
      StatusOK(resp.status) && resp.status != StatusNoContent && !hasTarget && isJson(resp.body)
    ensures StatusOK(resp.status) && resp.status != StatusNoContent && !hasTarget && !isJson(resp.body) ==>
      o == Failed(DecodeError)
    ensures !StatusOK(resp.status) ==> o == ErrorOutcome(resp, decodeError)
    ensures StatusOK(resp.status) && resp.status != StatusNoContent && hasTarget ==> o == DecodeInto(resp.body, decodeValue)
    ensures o.Untouched? <==> resp.status == StatusNoContent
  {
    if !StatusOK(resp.status) then ErrorOutcome(resp, decodeError)
    else if resp.status != StatusNoContent then
      if hasTarget then DecodeInto(resp.body, decodeValue)
      else if isJson(resp.body) then Failed(InvalidTarget)
      else Failed(DecodeError)
    else Untouched
  }

  /** The RPC outcome as the query builder decides it: a nil result is left alone. */
  function RpcOutcome<V>(hasTarget: bool, resp: Response,
                         decodeError: string -> Option<ErrorBody>, decodeValue: string -> Option<V>): (o: Outcome<V>)
    ensures !hasTarget && StatusOK(resp.status) ==> o.Untouched?
    ensures !(o.Failed? && o.failure.InvalidTarget?)
  {
    QueryOutcome(false, hasTarget, resp, decodeError, decodeValue)
  }

  /** The two agree whenever the caller passes a result. */
  lemma RpcAgreesWithTarget<V>(resp: Response, isJson: string -> bool,
                               decodeError: string -> Option<ErrorBody>, decodeValue: string -> Option<V>)
    ensures RpcOutcomeAsWritten(true, resp, isJson, decodeError, decodeValue) == RpcOutcome(true, resp, decodeError, decodeValue)
  {
  }

  /** A 200 answer to an RPC called with a nil result: an error as written, nothing to do as intended. */
  lemma RpcNilResultDiscrepancy<V>(isJson: string -> bool, decodeError: string -> Option<ErrorBody>, decodeValue: string -> Option<V>)
    requires isJson("[]")
    ensures var resp := Response(200, map[], "[]");
      RpcOutcomeAsWritten(false, resp, isJson, decodeError, decodeValue) == Failed(InvalidTarget)
      && RpcOutcome(false, resp, decodeError, decodeValue) == Untouched
  {
  }

  /** The last element of a non-empty list. */
  function Last(xs: seq<string>): string
    requires |xs| > 0
  {
    xs[|xs| - 1]
  }

  /** A key the override loop writes: one with at least one value. */
  predicate Overrides(own: Http.Entries, k: string)
  {
    k in own && |own[k]| > 0
  }

  /**
   * The headers after the override loop: each key with values in `own`
   * holds the last of them (one Set per value, the last one wins); every
   * other key keeps its default.
   */
  function Overridden(defaults: Http.Entries, own: Http.Entries): (r: Http.Entries)
    ensures forall k :: k in r <==> k in defaults || Overrides(own, k)
    ensures forall k :: Overrides(own, k) ==> r[k] == [Last(own[k])]
    ensures forall k :: k in defaults && !Overrides(own, k) ==> r[k] == defaults[k]
  {
    map k | k in defaults.Keys + own.Keys && (k in defaults || Overrides(own, k)) ::
      if Overrides(own, k) then [Last(own[k])] else defaults[k]
  }

  /** A builder header only ever holds single values, so overriding is map union. */
  lemma OverriddenBySingletons(defaults: Http.Entries, own: Http.Entries)
    requires forall k :: k in own ==> |own[k]| == 1
    ensures Overridden(defaults, own) == defaults + own
  {
    forall k | k in own ensures own[k] == [Last(own[k])] {
      assert own[k] == [own[k][0]];
    }
    assert Overridden(defaults, own).Keys == (defaults + own).Keys;
  }

  /** Overriding keeps every key canonical when both sides are. */
  lemma OverriddenCanonical(defaults: Http.Entries, own: Http.Entries)
    requires Http.CanonicalKeys(defaults) && Http.CanonicalKeys(own)
    ensures Http.CanonicalKeys(Overridden(defaults, own))
  {
  }

  lemma OverrideNothing(defaults: Http.Entries)
    ensures Overridden(defaults, map[]) == defaults
  {
    assert Overridden(defaults, map[]).Keys == defaults.Keys;
  }

  /** Overriding one more key with no values changes nothing. */
  lemma OverrideEmpty(defaults: Http.Entries, done: Http.Entries, key: string)
    requires key !in done
    ensures Overridden(defaults, done[key := []]) == Overridden(defaults, done)
  {
    var a, b := Overridden(defaults, done[key := []]), Overridden(defaults, done);
    assert a.Keys == b.Keys;
    forall k | k in a ensures a[k] == b[k] {
      assert Overrides(done[key := []], k) <==> Overrides(done, k);
    }
  }

  /** Overriding one more key with values leaves its last value there. */
  lemma OverrideLast(defaults: Http.Entries, done: Http.Entries, key: string, vals: seq<string>)
    requires key !in done && |vals| > 0
    ensures Overridden(defaults, done[key := vals]) == Overridden(defaults, done)[key := [Last(vals)]]
  {
    var a, b := Overridden(defaults, done[key := vals]), Overridden(defaults, done)[key := [Last(vals)]];
    assert a.Keys == b.Keys;
    forall k | k in a ensures a[k] == b[k] {
      if k != key {
        assert Overrides(done[key := vals], k) <==> Overrides(done, k);
      }
    }
  }

  /** Overriding one more key: nothing when it has no values, its last value otherwise. */
  lemma OverrideKey(defaults: Http.Entries, done: Http.Entries, key: string, vals: seq<string>)
    requires key !in done
    ensures |vals| == 0 ==> Overridden(defaults, done[key := vals]) == Overridden(defaults, done)
    ensures |vals| > 0 ==> Overridden(defaults, done[key := vals]) == Overridden(defaults, done)[key := [Last(vals)]]
  {
    if |vals| == 0 {
      assert vals == [];
      OverrideEmpty(defaults, done, key);
    } else {
      OverrideLast(defaults, done, key, vals);
    }
  }

  /** The inner loop: every value of one key is Set in turn, so the last one stays. */
  method SetEach(target: Http.Header, key: string, vals: seq<string>)
    requires target.Valid() && Http.CanonicalKey(key) == key
    modifies target
    ensures target.Valid()
    ensures |vals| == 0 ==> target.entries == old(target.entries)
    ensures |vals| > 0 ==> target.entries == old(target.entries)[key := [Last(vals)]]
  {
    var i := 0;
    while i < |vals|
      invariant 0 <= i <= |vals|
      invariant target.Valid()
      invariant i == 0 ==> target.entries == old(target.entries)
      invariant i > 0 ==> target.entries == old(target.entries)[key := [vals[i - 1]]]
    {
      target.Set(key, vals[i]);
      i := i + 1;
    }
  }

  /** One turn of the outer loop: the values of one more key are Set. */
  method OverrideOne(target: Http.Header, key: string, vals: seq<string>, ghost defaults: Http.Entries, ghost done: Http.Entries)
    requires target.Valid() && Http.CanonicalKey(key) == key && key !in done
    requires target.entries == Overridden(defaults, done)
    modifies target
    ensures target.Valid()
    ensures target.entries == Overridden(defaults, done[key := vals])
  {
    SetEach(target, key, vals);
    OverrideKey(defaults, done, key, vals);
  }

  /**
   * The nested loop of ExecuteWithContext: for every key of the builder's
   * header and every value under it, Set the value on the request header.
   */
  method InjectHeaders(target: Http.Header, own: Http.Entries)
    requires target.Valid() && Http.CanonicalKeys(own)
    modifies target
    ensures target.Valid()
    ensures target.entries == Overridden(old(target.entries), own)
  {
    ghost var defaults := target.entries;
    ghost var done: Http.Entries := map[];
    var keys := own.Keys;
    OverrideNothing(defaults);
    while keys != {}
      invariant keys <= own.Keys && done.Keys == own.Keys - keys
      invariant forall k :: k in done ==> done[k] == own[k]
      invariant target.Valid()
      invariant target.entries == Overridden(defaults, done)
      decreases keys
    {
      var key :| key in keys;
      var vals := own[key];
      OverrideOne(target, key, vals, defaults, done);
      done := done[key := vals];
      keys := keys - {key};
    }
    assert done.Keys == own.Keys;
    assert done == own;
  }
}
