/**
 * The PostgREST client and its request builders
 * (postgrest/pkg/client.go and postgrest/pkg/request_builder.go).
 *
 * A `Client` holds the default headers. `From` starts a `RequestBuilder`
 * for a table; its entry points create the builders that carry a request:
 * a `QueryRequestBuilder` (method, payload, count mode), a
 * `FilterRequestBuilder` around one (filters and the one-shot negation
 * flag) and a `SelectRequestBuilder` around that (ordering, ranges,
 * single-object and count requests). Go embeds each builder in the next by
 * value; here the outer builder holds the inner one in a `const` field.
 * Every builder made from one `RequestBuilder` shares its query parameters
 * and its header: they are the same `Http.Values` and `Http.Header`
 * objects, so a change through one builder is seen by all.
 */
module Postgrest {
  import opened Wrappers
  import Strings
  import Format
  import Http
  import Sanitizer
  import Execution
  import opened ClientOptions

  /** A JSON payload: Go's nil, or a document already serialised. */
  datatype Payload = Nil | Json(text: string)

  /** `json.Marshal` of the payload: nil is written "null". */
  function Marshal(p: Payload): string
  {
    match p
    case Nil => "null"
    case Json(text) => text
  }

  /** The request ExecuteWithContext hands to the HTTP client. */
  datatype Request = Request(httpMethod: string, path: string, query: Http.Entries, header: Http.Entries, body: string)

  /** A filter value: `operator.criteria`, with "not." in front when negated. */
  function Condition(negate: bool, operator: string, criteria: string): string
  {
    (if negate then "not." + operator else operator) + "." + criteria
  }

  /** Reading a filter value back: the negation, the operator and the criteria. */
  function ParseCondition(c: string): Option<(bool, string, string)>
  {
    if '.' !in c then None
    else
      var i := Strings.FirstIndex(c, '.');
      var head, rest := c[..i], c[i + 1..];
      if head != "not" then Some((false, head, rest))
      else if '.' !in rest then None
      else
        var j := Strings.FirstIndex(rest, '.');
        Some((true, rest[..j], rest[j + 1..]))
  }

  /**
   * A filter value loses nothing: the negation, the operator and the
   * criteria can be read back, whatever the criteria hold, for every
   * operator without a '.' other than "not" itself.
   */
  lemma ConditionRoundTrip(negate: bool, operator: string, criteria: string)
    requires '.' !in operator && operator != "not"
    ensures ParseCondition(Condition(negate, operator, criteria)) == Some((negate, operator, criteria))
  {
    var c := Condition(negate, operator, criteria);
    if negate {
      var rest := operator + "." + criteria;
      assert c == "not" + ['.'] + rest;
      Strings.FirstIndexAfter("not", '.', rest);
      assert c[..3] == "not" && c[4..] == rest;
      assert rest == operator + ['.'] + criteria;
      Strings.FirstIndexAfter(operator, '.', criteria);
      assert rest[..|operator|] == operator && rest[|operator| + 1..] == criteria;
    } else {
      assert c == operator + ['.'] + criteria;
      Strings.FirstIndexAfter(operator, '.', criteria);
      assert c[..|operator|] == operator && c[|operator| + 1..] == criteria;
    }
  }

  /** Each value of a list filter, sanitised. */
  function Sanitized(values: seq<string>): (r: seq<string>)
    ensures |r| == |values|
    ensures forall i :: 0 <= i < |values| ==> r[i] == Sanitizer.SanitizeParam(values[i])
  {
    seq(|values|, i requires 0 <= i < |values| => Sanitizer.SanitizeParam(values[i]))
  }

  /** The loop of In, Cs, Cd, Ov and Ad: a slice of the sanitised values. */
  method SanitizeAll(values: seq<string>) returns (sanitized: seq<string>)
    ensures sanitized == Sanitized(values)
  {
    var a := new string[|values|];
    var i := 0;
    while i < |values|
      invariant 0 <= i <= |values|
      invariant forall k :: 0 <= k < i ==> a[k] == Sanitizer.SanitizeParam(values[k])
    {
      a[i] := Sanitizer.SanitizeParam(values[i]);
      i := i + 1;
    }
    sanitized := a[..];
  }

  /** The criteria of a list filter: the sanitised values, comma-separated, between `open` and `close`. */
  function ListCriteria(open: string, values: seq<string>, close: string): string
  {
    open + Strings.Join(Sanitized(values), ",") + close
  }

  /**
   * A list of values without reserved characters is read back by splitting
   * the criteria on ','; a value holding a ',' is quoted, so the comma
   * cannot be mistaken for a separator.
   */
  lemma ListCriteriaRoundTrip(values: seq<string>)
    requires |values| > 0
    requires forall i :: 0 <= i < |values| ==> !Sanitizer.HasReserved(values[i])
    ensures var c := ListCriteria("(", values, ")");
      c[0] == '(' && c[|c| - 1] == ')' && Strings.Split(c[1..|c| - 1], ',') == values
  {
    assert Sanitized(values) == values;
    assert Sanitizer.Reserved(',');
    assert forall k :: 0 <= k < |values| ==> ',' !in values[k];
    Strings.SplitJoin(values, ',');
    var c := ListCriteria("(", values, ")");
    assert c[1..|c| - 1] == Strings.Join(values, ",");
  }

  /** The criteria of a range filter: `(from,to)` in decimal. */
  function PairCriteria(from: Format.Int, to: Format.Int): string
  {
    "(" + Format.IntToString(from) + "," + Format.IntToString(to) + ")"
  }

  /** The two numbers of a range filter are read back from its criteria. */
  lemma PairCriteriaRoundTrip(from: Format.Int, to: Format.Int)
    ensures var c := PairCriteria(from, to);
      var parts := Strings.Split(c[1..|c| - 1], ',');
      |parts| == 2 && Format.ParseInt(parts[0]) == Some(from as int) && Format.ParseInt(parts[1]) == Some(to as int)
  {
    var a, b := Format.IntToString(from), Format.IntToString(to);
    var c := PairCriteria(from, to);
    assert c[1..|c| - 1] == Strings.Join([a, b], ",");
    assert ',' !in a && ',' !in b by {
      assert forall i :: 0 <= i < |a| ==> a[i] != ',';
      assert forall i :: 0 <= i < |b| ==> b[i] != ',';
    }
    Strings.SplitJoin([a, b], ',');
    Format.IntToStringRoundTrip(from);
    Format.IntToStringRoundTrip(to);
  }

  /** `%d-%d`: the Range parameter and the Range header. */
  function Span(from: Format.Int, to: Format.Int): string
  {
    Format.IntToString(from) + "-" + Format.IntToString(to)
  }

  /** A span of two non-negative numbers is read back by splitting it on '-'. */
  lemma SpanRoundTrip(from: Format.Int, to: Format.Int)
    requires from >= 0 && to >= 0
    ensures var parts := Strings.Split(Span(from, to), '-');
      |parts| == 2 && Format.ParseInt(parts[0]) == Some(from as int) && Format.ParseInt(parts[1]) == Some(to as int)
  {
    var a, b := Format.IntToString(from), Format.IntToString(to);
    assert Span(from, to) == Strings.Join([a, b], "-");
    assert '-' !in a && '-' !in b by {
      assert forall i :: 0 <= i < |a| ==> a[i] != '-';
      assert forall i :: 0 <= i < |b| ==> b[i] != '-';
    }
    Strings.SplitJoin([a, b], '-');
    Format.IntToStringRoundTrip(from);
    Format.IntToStringRoundTrip(to);
  }

  /** The inclusive end of a page of `size` rows starting at `start`, in Go's int arithmetic. */
  function PageEnd(size: Format.Int, start: Format.Int): (end: Format.Int)
    ensures 0 <= start && 1 <= size && start + size - 1 < 0x8000_0000_0000_0000 ==> end - start + 1 == size
  {
    Format.Wrap(start + size - 1)
  }

  /**
   * LimitWithOffset asks for exactly `size` rows: the Range header it
   * writes reads back as `start` and an end `size - 1` further on, as long
   * as the end does not overflow Go's int.
   */
  lemma PageRoundTrip(size: Format.Int, start: Format.Int)
    requires 0 <= start && 1 <= size && start + size - 1 < 0x8000_0000_0000_0000
    ensures var parts := Strings.Split(Span(start, PageEnd(size, start)), '-');
      |parts| == 2 && Format.ParseInt(parts[0]) == Some(start as int)
      && Format.ParseInt(parts[1]) == Some(start + size - 1)
  {
    SpanRoundTrip(start, PageEnd(size, start));
  }

  /** Limit(0) asks for the empty range "0--1". */
  lemma LimitZeroExample()
    ensures Span(0, PageEnd(0, 0)) == "0--1"
  {
    assert Format.IntToString(0) == "0";
    assert Format.IntToString(-1) == "-1";
  }

  /** The PostgREST client: the default headers every request starts from. */
  class Client {
    const baseURL: string
    const defaultHeaders: Http.Header

    ghost predicate Valid()
      reads this, defaultHeaders
    {
      defaultHeaders.Valid()
    }

    /** NewClient: the four default headers, then the options in order. */
    constructor (baseURL: string, opts: seq<ClientOption>)
      ensures Valid() && fresh(defaultHeaders)
      ensures this.baseURL == baseURL
      ensures defaultHeaders.entries == ApplyAll(DefaultHeaders, opts)
    {
      this.baseURL := baseURL;
      defaultHeaders := new Http.Header();
      new;
      SetDefaults();
      var i := 0;
      while i < |opts|
        invariant 0 <= i <= |opts|
        invariant Valid()
        invariant defaultHeaders.entries == ApplyAll(DefaultHeaders, opts[..i])
      {
        Apply(opts[i]);
        ApplyAllStep(DefaultHeaders, opts, i);
        i := i + 1;
      }
      assert opts[..|opts|] == opts;
    }

    /** The four Sets NewClient starts with. */
    method SetDefaults()
      requires Valid() && defaultHeaders.entries == map[]
      modifies defaultHeaders
      ensures Valid() && defaultHeaders.entries == DefaultHeaders
    {
      Http.KnownKeysCanonical();
      defaultHeaders.Set("Accept", "application/json");
      defaultHeaders.Set("Content-Type", "application/json");
      defaultHeaders.Set("Accept-Profile", "public");
      defaultHeaders.Set("Content-Profile", "public");
    }

    /** AddHeader: a replacing Set on the default headers. */
    method AddHeader(key: string, value: string)
      requires Valid()
      modifies defaultHeaders
      ensures Valid()
      ensures defaultHeaders.entries == Http.Replaced(old(defaultHeaders.entries), Http.CanonicalKey(key), value)
    {
      defaultHeaders.Set(key, value);
    }

    /** Running one option: WithTokenAuth, WithBasicAuth or WithSchema. */
    method Apply(opt: ClientOption)
      requires Valid()
      modifies defaultHeaders
      ensures Valid()
      ensures defaultHeaders.entries == ApplyOption(old(defaultHeaders.entries), opt)
    {
      Http.KnownKeysCanonical();
      match opt
      case TokenAuth(token) =>
        AddHeader("Authorization", "Bearer " + token);
      case BasicAuth(username, password) =>
        AddHeader("Authorization", "Basic " + BasicCredential(username, password));
      case Schema(schema) =>
        AddHeader("Accept-Profile", schema);
        AddHeader("Content-Profile", schema);
    }

    /** Headers: a copy of the defaults, which the caller may change freely. */
    method Headers() returns (h: Http.Header)
      requires Valid()
      ensures fresh(h) && h.Valid()
      ensures h.entries == defaultHeaders.entries
    {
      h := defaultHeaders.Clone();
    }

    /** From: a builder for `table`, with its own empty parameters and header. */
    method From(table: string) returns (b: RequestBuilder)
      ensures fresh(b) && fresh(b.params) && fresh(b.header)
      ensures b.client == this && b.path == "/" + table
      ensures b.params.entries == map[] && b.header.entries == map[] && b.header.Valid()
    {
      b := new RequestBuilder(this, "/" + table);
    }

    /** Rpc: a POST to the function `f` under the base URL, with an empty header. */
    method Rpc(f: string, params: Payload) returns (b: RpcRequestBuilder)
      ensures fresh(b) && fresh(b.header)
      ensures b.client == this && b.path == baseURL + "rpc/" + f && b.httpMethod == "POST" && b.params == params
      ensures b.header.entries == map[] && b.header.Valid()
    {
      b := new RpcRequestBuilder(this, baseURL + "rpc/" + f, params);
    }
  }

  /** The builder `From` returns: a table path, parameters and a header. */
  class RequestBuilder {
    const client: Client
    const path: string
    const params: Http.Values
    const header: Http.Header

    constructor (client: Client, path: string)
      ensures fresh(params) && fresh(header)
      ensures this.client == client && this.path == path
      ensures params.entries == map[] && header.entries == map[] && header.Valid()
    {
      this.client := client;
      this.path := path;
      params := new Http.Values();
      header := new Http.Header();
    }

    /** A query builder made from this one carries its client, path, parameters and header. */
    predicate Shares(q: QueryRequestBuilder)
    {
      q.client == client && q.path == path && q.params == params && q.header == header
    }

    /** Select: the `select` parameter holds the columns joined by ','; a GET without payload. */
    method Select(columns: seq<string>) returns (s: SelectRequestBuilder)
      modifies params
      ensures params.entries == Http.Replaced(old(params.entries), "select", Strings.Join(columns, ","))
      ensures fresh(s) && fresh(s.filter) && fresh(s.filter.query) && Shares(s.filter.query)
      ensures s.filter.query.httpMethod == "GET" && s.filter.query.json == Nil
      ensures !s.filter.query.isCount && !s.filter.negateNext
    {
      params.Set("select", Strings.Join(columns, ","));
      var q := new QueryRequestBuilder(client, path, "GET", Nil, params, header);
      var f := new FilterRequestBuilder(q);
      s := new SelectRequestBuilder(f);
    }

    /** Insert: Prefer return=representation; a POST of the payload. */
    method Insert(json: Payload) returns (q: QueryRequestBuilder)
      requires header.Valid()
      modifies header
      ensures header.Valid()
      ensures header.entries == Http.Replaced(old(header.entries), "Prefer", "return=representation")
      ensures fresh(q) && Shares(q) && q.httpMethod == "POST" && q.json == json && !q.isCount
    {
      Http.KnownKeysCanonical();
      header.Set("Prefer", "return=representation");
      q := new QueryRequestBuilder(client, path, "POST", json, params, header);
    }

    /** Upsert: Prefer return=representation,resolution=merge-duplicates; a POST of the payload. */
    method Upsert(json: Payload) returns (q: QueryRequestBuilder)
      requires header.Valid()
      modifies header
      ensures header.Valid()
      ensures header.entries == Http.Replaced(old(header.entries), "Prefer", "return=representation,resolution=merge-duplicates")
      ensures fresh(q) && Shares(q) && q.httpMethod == "POST" && q.json == json && !q.isCount
    {
      Http.KnownKeysCanonical();
      header.Set("Prefer", "return=representation,resolution=merge-duplicates");
      q := new QueryRequestBuilder(client, path, "POST", json, params, header);
    }

    /** Update: Prefer return=representation; a PATCH of the payload, open to filters. */
    method Update(json: Payload) returns (f: FilterRequestBuilder)
      requires header.Valid()
      modifies header
      ensures header.Valid()
      ensures header.entries == Http.Replaced(old(header.entries), "Prefer", "return=representation")
      ensures fresh(f) && fresh(f.query) && Shares(f.query)
      ensures f.query.httpMethod == "PATCH" && f.query.json == json && !f.query.isCount && !f.negateNext
    {
      Http.KnownKeysCanonical();
      header.Set("Prefer", "return=representation");
      var q := new QueryRequestBuilder(client, path, "PATCH", json, params, header);
      f := new FilterRequestBuilder(q);
    }

    /** Delete: a DELETE without payload, open to filters; the header is left alone. */
    method Delete() returns (f: FilterRequestBuilder)
      ensures fresh(f) && fresh(f.query) && Shares(f.query)
      ensures f.query.httpMethod == "DELETE" && f.query.json == Nil && !f.query.isCount && !f.negateNext
    {
      var q := new QueryRequestBuilder(client, path, "DELETE", Nil, params, header);
      f := new FilterRequestBuilder(q);
    }
  }

  /** A request ready to run: method, payload and count mode over the shared state. */
  class QueryRequestBuilder {
    const client: Client
    const params: Http.Values
    const header: Http.Header
    const path: string
    var httpMethod: string
    const json: Payload
    var isCount: bool

    constructor (client: Client, path: string, httpMethod: string, json: Payload, params: Http.Values, header: Http.Header)
      ensures this.client == client && this.path == path && this.httpMethod == httpMethod && this.json == json
      ensures this.params == params && this.header == header && !isCount
    {
      this.client := client;
      this.path := path;
      this.httpMethod := httpMethod;
      this.json := json;
      this.params := params;
      this.header := header;
      isCount := false;
    }

    /**
     * ExecuteWithContext, given the server's response: the request sent
     * (the path without its leading '/', the parameters, the default
     * headers overridden by the builder's, the marshalled payload) and what
     * becomes of the caller's result.
     */
    method Execute<V>(resp: Execution.Response, hasTarget: bool,
                      decodeError: string -> Option<Execution.ErrorBody>, decodeValue: string -> Option<V>)
      returns (request: Request, outcome: Execution.Outcome<V>)
      requires client.Valid() && header.Valid() && |path| > 0
      ensures request.httpMethod == httpMethod && request.path == path[1..] && request.body == Marshal(json)
      ensures request.query == params.entries
      ensures request.header == Execution.Overridden(client.defaultHeaders.entries, header.entries)
      ensures outcome == Execution.QueryOutcome(isCount, hasTarget, resp, decodeError, decodeValue)
    {
      var body := Marshal(json);
      var h := client.Headers();
      Execution.InjectHeaders(h, header.entries);
      request := Request(httpMethod, path[1..], params.entries, h.entries, body);
      outcome := Execution.QueryOutcome(isCount, hasTarget, resp, decodeError, decodeValue);
    }
  }

  /** A query builder that also takes filters. */
  class FilterRequestBuilder {
    const query: QueryRequestBuilder
    var negateNext: bool

    constructor (query: QueryRequestBuilder)
      ensures this.query == query && !negateNext
    {
      this.query := query;
      negateNext := false;
    }

    /** Not: the next filter, and only the next, is negated. */
    method Not()
      modifies this
      ensures negateNext
    {
      negateNext := true;
    }

    /** After a filter: one value appended under the column, the negation flag spent. */
    twostate predicate Filtered(column: string, operator: string, criteria: string)
      reads this, query, query.params
    {
      && !negateNext
      && query.params.entries == Http.Added(old(query.params.entries), column, Condition(old(negateNext), operator, criteria))
    }

    /** Filter: `operator.criteria` appended under the column, which is not sanitised. */
    method Filter(column: string, operator: string, criteria: string)
      modifies this, query.params
      ensures Filtered(column, operator, criteria)
    {
      var op := operator;
      if negateNext {
        negateNext := false;
        op := "not." + op;
      }
      query.params.Add(column, op + "." + criteria);
    }

    method Eq(column: string, value: string)
      modifies this, query.params
      ensures Filtered(column, "eq", Sanitizer.SanitizeParam(value))
    {
      Filter(column, "eq", Sanitizer.SanitizeParam(value));
    }

    method Neq(column: string, value: string)
      modifies this, query.params
      ensures Filtered(column, "neq", Sanitizer.SanitizeParam(value))
    {
      Filter(column, "neq", Sanitizer.SanitizeParam(value));
    }

    method Gt(column: string, value: string)
      modifies this, query.params
      ensures Filtered(column, "gt", Sanitizer.SanitizeParam(value))
    {
      Filter(column, "gt", Sanitizer.SanitizeParam(value));
    }

    method Gte(column: string, value: string)
      modifies this, query.params
      ensures Filtered(column, "gte", Sanitizer.SanitizeParam(value))
    {
      Filter(column, "gte", Sanitizer.SanitizeParam(value));
    }

    method Lt(column: string, value: string)
      modifies this, query.params
      ensures Filtered(column, "lt", Sanitizer.SanitizeParam(value))
    {
      Filter(column, "lt", Sanitizer.SanitizeParam(value));
    }

    method Lte(column: string, value: string)
      modifies this, query.params
      ensures Filtered(column, "lte", Sanitizer.SanitizeParam(value))
    {
      Filter(column, "lte", Sanitizer.SanitizeParam(value));
    }

    method Is(column: string, value: string)
      modifies this, query.params
      ensures Filtered(column, "is", Sanitizer.SanitizeParam(value))
    {
      Filter(column, "is", Sanitizer.SanitizeParam(value));
    }

    method Like(column: string, value: string)
      modifies this, query.params
      ensures Filtered(column, "like", Sanitizer.SanitizeParam(value))
    {
      Filter(column, "like", Sanitizer.SanitizeParam(value));
    }

    method Ilike(column: string, value: string)
      modifies this, query.params
      ensures Filtered(column, "ilike", Sanitizer.SanitizeParam(value))
    {
      Filter(column, "ilike", Sanitizer.SanitizeParam(value));
    }

    method Fts(column: string, value: string)
      modifies this, query.params
      ensures Filtered(column, "fts", Sanitizer.SanitizeParam(value))
    {
      Filter(column, "fts", Sanitizer.SanitizeParam(value));
    }

    method Plfts(column: string, value: string)
      modifies this, query.params
      ensures Filtered(column, "plfts", Sanitizer.SanitizeParam(value))
    {
      Filter(column, "plfts", Sanitizer.SanitizeParam(value));
    }

    method Phfts(column: string, value: string)
      modifies this, query.params
      ensures Filtered(column, "phfts", Sanitizer.SanitizeParam(value))
    {
      Filter(column, "phfts", Sanitizer.SanitizeParam(value));
    }

    method Wfts(column: string, value: string)
      modifies this, query.params
      ensures Filtered(column, "wfts", Sanitizer.SanitizeParam(value))
    {
      Filter(column, "wfts", Sanitizer.SanitizeParam(value));
    }

    method In(column: string, values: seq<string>)
      modifies this, query.params
      ensures Filtered(column, "in", ListCriteria("(", values, ")"))
    {
      var sanitized := SanitizeAll(values);
      Filter(column, "in", "(" + Strings.Join(sanitized, ",") + ")");
    }

    method Cs(column: string, values: seq<string>)
      modifies this, query.params
      ensures Filtered(column, "cs", ListCriteria("{", values, "}"))
    {
      var sanitized := SanitizeAll(values);
      Filter(column, "cs", "{" + Strings.Join(sanitized, ",") + "}");
    }

    method Cd(column: string, values: seq<string>)
      modifies this, query.params
      ensures Filtered(column, "cd", ListCriteria("{", values, "}"))
    {
      var sanitized := SanitizeAll(values);
      Filter(column, "cd", "{" + Strings.Join(sanitized, ",") + "}");
    }

    method Ov(column: string, values: seq<string>)
      modifies this, query.params
      ensures Filtered(column, "ov", ListCriteria("{", values, "}"))
    {
      var sanitized := SanitizeAll(values);
      Filter(column, "ov", "{" + Strings.Join(sanitized, ",") + "}");
    }

    method Sl(column: string, from: Format.Int, to: Format.Int)
      modifies this, query.params
      ensures Filtered(column, "sl", PairCriteria(from, to))
    {
      Filter(column, "sl", PairCriteria(from, to));
    }

    method Sr(column: string, from: Format.Int, to: Format.Int)
      modifies this, query.params
      ensures Filtered(column, "sr", PairCriteria(from, to))
    {
      Filter(column, "sr", PairCriteria(from, to));
    }

    method Nxl(column: string, from: Format.Int, to: Format.Int)
      modifies this, query.params
      ensures Filtered(column, "nxl", PairCriteria(from, to))
    {
      Filter(column, "nxl", PairCriteria(from, to));
    }

    method Nxr(column: string, from: Format.Int, to: Format.Int)
      modifies this, query.params
      ensures Filtered(column, "nxr", PairCriteria(from, to))
    {
      Filter(column, "nxr", PairCriteria(from, to));
    }

    method Ad(column: string, values: seq<string>)
      modifies this, query.params
      ensures Filtered(column, "ad", ListCriteria("{", values, "}"))
    {
      var sanitized := SanitizeAll(values);
      Filter(column, "ad", "{" + Strings.Join(sanitized, ",") + "}");
    }

    method IsNull(column: string)
      modifies this, query.params
      ensures Filtered(column, "is", "null")
    {
      Filter(column, "is", "null");
    }
  }

  /** A filter builder for a GET, with ordering, paging and count options. */
  class SelectRequestBuilder {
    const filter: FilterRequestBuilder

    constructor (filter: FilterRequestBuilder)
      ensures this.filter == filter
    {
      this.filter := filter;
    }

    /** A replacing Set of one parameter, nothing else changed. */
    twostate predicate ParamSet(key: string, value: string)
      reads filter, filter.query, filter.query.params
    {
      filter.query.params.entries == Http.Replaced(old(filter.query.params.entries), key, value)
    }

    method OrderBy(column: string, direction: string)
      modifies filter.query.params
      ensures ParamSet("order", column + "." + direction)
    {
      filter.query.params.Set("order", column + "." + direction);
    }

    method Range(from: Format.Int, to: Format.Int)
      modifies filter.query.params
      ensures ParamSet("range", Span(from, to))
    {
      filter.query.params.Set("range", Span(from, to));
    }

    method SingleRow()
      modifies filter.query.params
      ensures ParamSet("single-row", "true")
    {
      filter.query.params.Set("single-row", "true");
    }

    method OnlyPayload()
      modifies filter.query.params
      ensures ParamSet("only-payload", "true")
    {
      filter.query.params.Set("only-payload", "true");
    }

    method WithoutCount()
      modifies filter.query.params
      ensures ParamSet("without-count", "true")
    {
      filter.query.params.Set("without-count", "true");
    }

    method SingleValue()
      modifies filter.query.params
      ensures ParamSet("single-value", "true")
    {
      filter.query.params.Set("single-value", "true");
    }

    /** Limit: the first `size` rows. */
    method Limit(size: Format.Int)
      requires filter.query.header.Valid()
      modifies filter.query.header
      ensures filter.query.header.Valid()
      ensures filter.query.header.entries
           == Http.Replaced(Http.Replaced(old(filter.query.header.entries), "Range-Unit", "items"), "Range", Span(0, PageEnd(size, 0)))
    {
      LimitWithOffset(size, 0);
    }

    /** LimitWithOffset: Range-Unit items, Range from `start` to the inclusive end of the page. */
    method LimitWithOffset(size: Format.Int, start: Format.Int)
      requires filter.query.header.Valid()
      modifies filter.query.header
      ensures filter.query.header.Valid()
      ensures filter.query.header.entries
           == Http.Replaced(Http.Replaced(old(filter.query.header.entries), "Range-Unit", "items"), "Range", Span(start, PageEnd(size, start)))
    {
      Http.KnownKeysCanonical();
      filter.query.header.Set("Range-Unit", "items");
      filter.query.header.Set("Range", Span(start, PageEnd(size, start)));
    }

    /** Single: the server is asked for one object instead of an array. */
    method Single()
      requires filter.query.header.Valid()
      modifies filter.query.header
      ensures filter.query.header.Valid()
      ensures filter.query.header.entries == Http.Replaced(old(filter.query.header.entries), "Accept", "application/vnd.pgrst.object+json")
    {
      Http.KnownKeysCanonical();
      filter.query.header.Set("Accept", "application/vnd.pgrst.object+json");
    }

    /** Count: an exact count by HEAD request; the result will be the total. */
    method Count()
      requires filter.query.header.Valid()
      modifies filter.query, filter.query.header
      ensures filter.query.header.Valid()
      ensures filter.query.header.entries == Http.Replaced(old(filter.query.header.entries), "Prefer", "count=exact")
      ensures filter.query.isCount && filter.query.httpMethod == "HEAD"
    {
      Http.KnownKeysCanonical();
      filter.query.header.Set("Prefer", "count=exact");
      filter.query.isCount := true;
      filter.query.httpMethod := "HEAD";
    }
  }

  /** A call of a stored function: its path, payload and own header. */
  class RpcRequestBuilder {
    const client: Client
    const path: string
    const header: Http.Header
    const httpMethod: string
    const params: Payload

    constructor (client: Client, path: string, params: Payload)
      ensures fresh(header) && header.Valid() && header.entries == map[]
      ensures this.client == client && this.path == path && this.params == params && httpMethod == "POST"
    {
      this.client := client;
      this.path := path;
      this.params := params;
      httpMethod := "POST";
      header := new Http.Header();
    }

    /**
     * RpcRequestBuilder.ExecuteWithContext, given the server's response, as
     * written: a nil result is still handed to json.Unmarshal (see
     * Execution.RpcNilResultDiscrepancy). With a result passed, the outcome
     * is the one the query builder would give.
     */
    method Execute<V>(resp: Execution.Response, hasTarget: bool, isJson: string -> bool,
                      decodeError: string -> Option<Execution.ErrorBody>, decodeValue: string -> Option<V>)
      returns (request: Request, outcome: Execution.Outcome<V>)
      requires client.Valid() && header.Valid()
      ensures request.httpMethod == httpMethod && request.path == path && request.body == Marshal(params)
      ensures request.query == map[]
      ensures request.header == Execution.Overridden(client.defaultHeaders.entries, header.entries)
      ensures outcome == Execution.RpcOutcomeAsWritten(hasTarget, resp, isJson, decodeError, decodeValue)
      ensures hasTarget ==> outcome == Execution.RpcOutcome(hasTarget, resp, decodeError, decodeValue)
    {
      var body := Marshal(params);
      var h := client.Headers();
      Execution.InjectHeaders(h, header.entries);
      request := Request(httpMethod, path, map[], h.entries, body);
      outcome := Execution.RpcOutcomeAsWritten(hasTarget, resp, isJson, decodeError, decodeValue);
      if hasTarget {
        Execution.RpcAgreesWithTarget(resp, isJson, decodeError, decodeValue);
      }
    }
  }
}
