/**
 * The behaviour the package's tests check (the _test.go files of postgrest/pkg),
 * replayed on the model: each method builds a client or a request the way
 * a test does and promises what the test expects.
 */
module Scenarios {
  import opened Wrappers
  import Http
  import Execution
  import opened ClientOptions
  import opened Postgrest
  import Sanitizer
  import Base64
  import Utf8

  /** NewClient with no option: the four default headers. */
  method DefaultHeadersScenario() returns (accept: string, contentType: string, acceptProfile: string, contentProfile: string)
    ensures accept == "application/json" && contentType == "application/json"
    ensures acceptProfile == "public" && contentProfile == "public"
  {
    var c := new Client("https://example.com", []);
    assert c.defaultHeaders.entries == DefaultHeaders;
    Http.AcceptCanonical();
    Http.ContentTypeCanonical();
    Http.AcceptProfileCanonical();
    Http.ContentProfileCanonical();
    accept := c.defaultHeaders.Get("Accept");
    contentType := c.defaultHeaders.Get("Content-Type");
    acceptProfile := c.defaultHeaders.Get("Accept-Profile");
    contentProfile := c.defaultHeaders.Get("Content-Profile");
  }

  /** WithTokenAuth("s3cr3t"): a Bearer credential. */
  method TokenAuthScenario() returns (authorization: string)
    ensures authorization == "Bearer s3cr3t"
  {
    var opts := [TokenAuth("s3cr3t")];
    var c := new Client("https://example.com", opts);
    LastOptionWins(DefaultHeaders, opts, "Authorization", 0);
    Http.AuthorizationCanonical();
    authorization := c.defaultHeaders.Get("Authorization");
  }

  /** WithBasicAuth(username, password): a Basic credential (see ClientOptions.BasicAuthExample). */
  method BasicAuthScenario(username: string, password: string) returns (authorization: string)
    ensures authorization == "Basic " + BasicCredential(username, password)
    ensures Base64.Decode(authorization[6..]) == Some(Utf8.Encode(username + ":" + password))
  {
    var opts := [BasicAuth(username, password)];
    var c := new Client("https://example.com", opts);
    LastOptionWins(DefaultHeaders, opts, "Authorization", 0);
    Http.AuthorizationCanonical();
    authorization := c.defaultHeaders.Get("Authorization");
    assert authorization[6..] == BasicCredential(username, password);
  }

  /** WithSchema("private") replaces both profile defaults. */
  method SchemaScenario() returns (acceptProfile: string, contentProfile: string)
    ensures acceptProfile == "private" && contentProfile == "private"
  {
    var opts := [Schema("private")];
    var c := new Client("https://example.com", opts);
    LastOptionWins(DefaultHeaders, opts, "Accept-Profile", 0);
    LastOptionWins(DefaultHeaders, opts, "Content-Profile", 0);
    Http.AcceptProfileCanonical();
    Http.ContentProfileCanonical();
    acceptProfile := c.defaultHeaders.Get("Accept-Profile");
    contentProfile := c.defaultHeaders.Get("Content-Profile");
  }

  /** Headers hands out a copy: changing it leaves the client's defaults alone. */
  method HeadersCopyScenario() returns (changed: string, kept: string)
    ensures changed == "text/csv" && kept == "application/json"
  {
    var c := new Client("https://example.com", []);
    assert c.defaultHeaders.entries == DefaultHeaders;
    Http.AcceptCanonical();
    var h := c.Headers();
    h.Set("Accept", "text/csv");
    changed := h.Get("Accept");
    kept := c.defaultHeaders.Get("Accept");
  }

  /** The last of two options touching Authorization wins. */
  method LastOptionScenario() returns (authorization: string)
    ensures authorization == "Bearer second"
  {
    var opts := [TokenAuth("first"), TokenAuth("second")];
    var c := new Client("https://example.com", opts);
    LastOptionWins(DefaultHeaders, opts, "Authorization", 1);
    Http.AuthorizationCanonical();
    authorization := c.defaultHeaders.Get("Authorization");
  }

  /** Select("col1", "col2"): the select parameter, a GET without payload. */
  method SelectScenario() returns (select: string, httpMethod: string, json: Payload)
    ensures select == "col1,col2" && httpMethod == "GET" && json == Nil
  {
    var c := new Client("https://example.com", []);
    var b := c.From("example_table");
    var s := b.Select(["col1", "col2"]);
    select := s.filter.query.params.Get("select");
    httpMethod := s.filter.query.httpMethod;
    json := s.filter.query.json;
  }

  /** Insert and Upsert: Prefer, found under its lower-case spelling too, and a POST. */
  method InsertScenario() returns (insertPrefer: string, upsertPrefer: string, httpMethod: string)
    ensures insertPrefer == "return=representation"
    ensures upsertPrefer == "return=representation,resolution=merge-duplicates"
    ensures httpMethod == "POST"
  {
    var c := new Client("https://example.com", []);
    Http.KnownKeysCanonical();
    Http.LowerCaseKeyExample();
    var b := c.From("example_table");
    var q := b.Insert(Json("{\"key1\":\"val1\"}"));
    insertPrefer := q.header.Get("prefer");
    var b2 := c.From("example_table");
    var u := b2.Upsert(Json("{\"key1\":\"val1\"}"));
    upsertPrefer := u.header.Get("prefer");
    httpMethod := u.httpMethod;
  }

  /** Update is a PATCH and Delete a DELETE without payload. */
  method UpdateDeleteScenario() returns (updateMethod: string, deleteMethod: string, deletePayload: Payload)
    ensures updateMethod == "PATCH" && deleteMethod == "DELETE" && deletePayload == Nil
  {
    var c := new Client("https://example.com", []);
    var b := c.From("example_table");
    var f := b.Update(Json("{\"key1\":\"val1\"}"));
    updateMethod := f.query.httpMethod;
    var d := b.Delete();
    deleteMethod := d.query.httpMethod;
    deletePayload := d.query.json;
  }

  /** Not negates the next filter and no other. */
  method NotScenario(first: string, second: string, v: string, w: string) returns (a: seq<string>, b: seq<string>)
    requires first != second
    ensures a == ["not.eq." + Sanitizer.SanitizeParam(v)]
    ensures b == ["eq." + Sanitizer.SanitizeParam(w)]
  {
    var c := new Client("https://example.com", []);
    var rb := c.From("example_table");
    var f := rb.Delete();
    var sv, sw := Sanitizer.SanitizeParam(v), Sanitizer.SanitizeParam(w);
    assert Condition(true, "eq", sv) == "not.eq." + sv;
    assert Condition(false, "eq", sw) == "eq." + sw;
    f.Not();
    f.Eq(first, v);
    assert Http.ValuesOf(f.query.params.entries, first) == ["not.eq." + Sanitizer.SanitizeParam(v)];
    f.Eq(second, w);
    assert Http.ValuesOf(f.query.params.entries, second) == ["eq." + Sanitizer.SanitizeParam(w)];
    a := f.query.params.entries[first];
    b := f.query.params.entries[second];
  }

  /** Lte then Gte on one column: both values, in call order. */
  method MultivaluedScenario(column: string, low: string, high: string) returns (x: seq<string>)
    ensures x == ["lte." + Sanitizer.SanitizeParam(low), "gte." + Sanitizer.SanitizeParam(high)]
  {
    var c := new Client("https://example.com", []);
    var rb := c.From("example_table");
    var f := rb.Delete();
    var sl, sh := Sanitizer.SanitizeParam(low), Sanitizer.SanitizeParam(high);
    assert Condition(false, "lte", sl) == "lte." + sl;
    assert Condition(false, "gte", sh) == "gte." + sh;
    f.Lte(column, low);
    assert Http.ValuesOf(f.query.params.entries, column) == ["lte." + Sanitizer.SanitizeParam(low)];
    f.Gte(column, high);
    assert Http.ValuesOf(f.query.params.entries, column) == ["lte." + Sanitizer.SanitizeParam(low), "gte." + Sanitizer.SanitizeParam(high)];
    x := f.query.params.entries[column];
  }

  /** Filter stores the column as it is given: a quoted spelling finds nothing. */
  method RawColumnScenario() returns (raw: string, quoted: string)
    ensures raw == "eq.val" && quoted == ""
  {
    var c := new Client("https://example.com", []);
    var rb := c.From("example_table");
    var f := rb.Delete();
    f.Filter(":col.name", "eq", "val");
    raw := f.query.params.Get(":col.name");
    quoted := f.query.params.Get("\":col.name\"");
  }

  /** Single: the builder's own Accept header asks for one object. */
  method SingleScenario() returns (own: Http.Entries)
    ensures own == map["Accept" := ["application/vnd.pgrst.object+json"]]
  {
    var c := new Client("https://example.com/rest/v1/", []);
    var rb := c.From("example_table");
    var s := rb.Select(["*"]);
    s.Single();
    own := s.filter.query.header.entries;
  }

  /** A builder header overrides the client default in the request, and only there. */
  method OverrideScenario(q: QueryRequestBuilder, resp: Execution.Response, key: string, value: string)
    returns (sent: Http.Entries, kept: Http.Entries)
    requires q.client.Valid() && q.header.Valid() && |q.path| > 0
    requires q.header.entries == map[key := [value]]
    ensures sent == old(q.client.defaultHeaders.entries)[key := [value]]
    ensures kept == old(q.client.defaultHeaders.entries)
    ensures q.client.defaultHeaders.entries == old(q.client.defaultHeaders.entries)
    ensures q.header.entries == old(q.header.entries)
  {
    Execution.OverriddenBySingletons(q.client.defaultHeaders.entries, q.header.entries);
    var request, outcome := q.Execute(resp, true, (t: string) => None, (t: string) => Some(t));
    sent := request.header;
    kept := q.client.defaultHeaders.entries;
  }

  /** Count: an exact count by a HEAD request (see Execution.CountExample for its result). */
  method CountScenario() returns (httpMethod: string, own: Http.Entries, isCount: bool)
    ensures httpMethod == "HEAD" && own == map["Prefer" := ["count=exact"]] && isCount
  {
    var c := new Client("https://example.com/rest/v1/", []);
    var rb := c.From("example_table");
    var s := rb.Select(["*"]);
    s.Count();
    httpMethod := s.filter.query.httpMethod;
    own := s.filter.query.header.entries;
    isCount := s.filter.query.isCount;
  }
}
