/**
 * The parts of the storage client (storage.go) that decide what a request
 * looks like before it is sent: upload options merged with their defaults,
 * the object path with empty folders removed, the PUT/POST choice, the
 * defaults of a file listing, the public URL of an object, and how the
 * answer to a download is classified.
 */
module Storage {
  import opened Wrappers
  import Format
  import Http
  import Utf8

  /** The storage API under the project URL (StorageEndpoint of supabase.go). */
  const StorageEndpoint: string := "storage/v1"

  const DefaultLimit: Format.Int := 100
  const DefaultOffset: Format.Int := 0
  const DefaultFileCacheControl: string := "3600"
  const DefaultFileContent: string := "text/plain;charset=UTF-8"
  const DefaultFileUpsert: bool := false
  const DefaultSortColumn: string := "name"
  const DefaultSortOrder: string := "asc"

  /** A bucket of the storage client, with the project URL and API key it talks to. */
  datatype File = File(baseURL: string, apiKey: string, bucketId: string)

  datatype FileUploadOptions = FileUploadOptions(cacheControl: string, contentType: string, upsert: bool)

  /**
   * The options an upload uses: the defaults, each overridden by a
   * non-empty option, and Upsert always taken from the options given.
   */
  function MergedOptions(opts: Option<FileUploadOptions>): (m: FileUploadOptions)
    ensures m.cacheControl != "" && m.contentType != ""
    ensures opts.None? ==> m == FileUploadOptions(DefaultFileCacheControl, DefaultFileContent, DefaultFileUpsert)
    ensures opts.Some? ==> m.upsert == opts.value.upsert
    ensures opts.Some? && opts.value.cacheControl != "" ==> m.cacheControl == opts.value.cacheControl
    ensures opts.Some? && opts.value.contentType != "" ==> m.contentType == opts.value.contentType
    ensures opts.Some? && opts.value.cacheControl == "" ==> m.cacheControl == DefaultFileCacheControl
    ensures opts.Some? && opts.value.contentType == "" ==> m.contentType == DefaultFileContent
  {
    match opts
    case None => FileUploadOptions(DefaultFileCacheControl, DefaultFileContent, DefaultFileUpsert)
    case Some(o) =>
      FileUploadOptions(
        if o.cacheControl != "" then o.cacheControl else DefaultFileCacheControl,
        if o.contentType != "" then o.contentType else DefaultFileContent,
        o.upsert)
  }

  /** Merged options merge to themselves: nothing in them is empty any more. */
  lemma MergedOptionsIdempotent(opts: Option<FileUploadOptions>)
    ensures MergedOptions(Some(MergedOptions(opts))) == MergedOptions(opts)
  {
  }

  /** The first lines of UploadOrUpdate: start from the defaults, then copy what the caller set. */
  method MergeUploadOptions(opts: Option<FileUploadOptions>) returns (merged: FileUploadOptions)
    ensures merged == MergedOptions(opts)
  {
    merged := FileUploadOptions(DefaultFileCacheControl, DefaultFileContent, DefaultFileUpsert);
    if opts.Some? {
      if opts.value.cacheControl != "" {
        merged := merged.(cacheControl := opts.value.cacheControl);
      }
      if opts.value.contentType != "" {
        merged := merged.(contentType := opts.value.contentType);
      }
      merged := merged.(upsert := opts.value.upsert);
    }
  }

  /**
   * removeEmptyFolder: every "//", found left to right without overlap,
   * becomes "/".
   */
  function RemoveEmptyFolder(path: string): (r: string)
    ensures |r| <= |path|
  {
    if |path| < 2 then path
    else if path[0] == '/' && path[1] == '/' then "/" + RemoveEmptyFolder(path[2..])
    else [path[0]] + RemoveEmptyFolder(path[1..])
  }

  /** The path holds an empty folder: two slashes in a row. */
  predicate HasDoubleSlash(path: string)
  {
    exists i :: 0 <= i < |path| - 1 && path[i] == '/' && path[i + 1] == '/'
  }

  /** The characters of a path other than '/'. */
  function NonSlash(path: string): string
  {
    if path == [] then [] else (if path[0] == '/' then [] else [path[0]]) + NonSlash(path[1..])
  }

  /** A path without empty folders is left as it is. */
  lemma {:induction false} RemoveEmptyFolderFixedPoint(path: string)
    requires !HasDoubleSlash(path)
    ensures RemoveEmptyFolder(path) == path
  {
    if |path| >= 2 {
      assert !HasDoubleSlash(path[1..]) by {
        forall i | 0 <= i < |path| - 2 ensures !(path[1..][i] == '/' && path[1..][i + 1] == '/') {
          assert path[1..][i] == path[i + 1] && path[1..][i + 1] == path[i + 2];
        }
      }
      RemoveEmptyFolderFixedPoint(path[1..]);
      assert !(path[0] == '/' && path[1] == '/');
      assert path == [path[0]] + path[1..];
    }
  }

  /** Only slashes are removed: every other character stays, in order. */
  lemma {:induction false} RemoveEmptyFolderKeepsNames(path: string)
    ensures NonSlash(RemoveEmptyFolder(path)) == NonSlash(path)
  {
    if |path| >= 2 {
      if path[0] == '/' && path[1] == '/' {
        RemoveEmptyFolderKeepsNames(path[2..]);
        assert NonSlash(path) == NonSlash(path[1..]);
        assert path[1..][1..] == path[2..];
        assert NonSlash(path[1..]) == NonSlash(path[2..]);
        assert NonSlash("/" + RemoveEmptyFolder(path[2..])) == NonSlash(RemoveEmptyFolder(path[2..])) by {
          assert ("/" + RemoveEmptyFolder(path[2..]))[1..] == RemoveEmptyFolder(path[2..]);
        }
      } else {
        RemoveEmptyFolderKeepsNames(path[1..]);
        var r := [path[0]] + RemoveEmptyFolder(path[1..]);
        assert r[0] == path[0] && r[1..] == RemoveEmptyFolder(path[1..]);
      }
    }
  }

  /** A path without empty folders keeps none after its first character. */
  lemma NoDoubleSlashTail(a: string)
    requires |a| > 0 && !HasDoubleSlash(a)
    ensures !HasDoubleSlash(a[1..])
  {
    var t := a[1..];
    forall i | 0 <= i < |t| - 1 ensures !(t[i] == '/' && t[i + 1] == '/') {
      assert t[i] == a[i + 1] && t[i + 1] == a[i + 2];
    }
  }

  /**
   * The first empty folder is the first to go: when `a` holds no "//" and
   * does not end in '/', the "//" after it becomes "/" and the rest is
   * rewritten in turn. With RemoveEmptyFolderFixedPoint this pins every
   * path down, split at its first "//".
   */
  lemma {:induction false} RemoveEmptyFolderFirst(a: string, b: string)
    requires !HasDoubleSlash(a) && (a == [] || a[|a| - 1] != '/')
    ensures RemoveEmptyFolder(a + "//" + b) == a + "/" + RemoveEmptyFolder(b)
  {
    var path := a + "//" + b;
    if a == [] {
      assert path[2..] == b;
    } else {
      var t := a[1..];
      NoDoubleSlashTail(a);
      assert t == [] || t[|t| - 1] != '/';
      RemoveEmptyFolderFirst(t, b);
      assert !(path[0] == '/' && path[1] == '/') by {
        if |a| >= 2 {
          assert path[0] == a[0] && path[1] == a[1];
        } else {
          assert path[0] == a[|a| - 1];
        }
      }
      assert path[1..] == t + "//" + b;
      assert a + "/" + RemoveEmptyFolder(b) == [a[0]] + (t + "/" + RemoveEmptyFolder(b)) by {
        assert a == [a[0]] + t;
      }
    }
  }

  /** "a//b" loses its empty folder; "///" keeps one, so a second pass changes it again. */
  lemma RemoveEmptyFolderExamples()
    ensures RemoveEmptyFolder("a//b") == "a/b"
    ensures RemoveEmptyFolder("///") == "//"
    ensures RemoveEmptyFolder(RemoveEmptyFolder("///")) == "/"
    ensures RemoveEmptyFolder("a//b//c") == "a/b/c"
  {
    assert "a//b"[1..] == "//b" && "//b"[2..] == "b";
    assert "///"[2..] == "/";
    assert "//"[2..] == [];
  }

  /** The header keys UploadOrUpdate writes in lower case, in canonical form. */
  lemma CacheControlCanonical()
    ensures Http.CanonicalKey("Cache-Control") == "Cache-Control"
  {
    var key := "Cache-Control";
    assert forall i :: 0 <= i < |key| ==> Http.TokenChar(key[i]);
    assert forall i :: 0 <= i < |key| ==>
      key[i] == (if Http.WordStart(key, i, true) then Http.ToUpper(key[i]) else Http.ToLower(key[i]));
    Http.CanonicalWhenTitled(key);
  }

  lemma UpsertCanonical()
    ensures Http.CanonicalKey("X-Upsert") == "X-Upsert"
  {
    Http.CanonicalWhenTitled("X-Upsert");
  }

  lemma CacheControlKey()
    ensures Http.CanonicalKey("cache-control") == "Cache-Control"
  {
    Http.CanonicalCaseless("cache-control", "Cache-Control");
    CacheControlCanonical();
  }

  lemma ContentTypeKey()
    ensures Http.CanonicalKey("content-type") == "Content-Type"
  {
    Http.CanonicalCaseless("content-type", "Content-Type");
    Http.ContentTypeCanonical();
  }

  lemma UpsertKey()
    ensures Http.CanonicalKey("x-upsert") == "X-Upsert"
  {
    Http.CanonicalCaseless("x-upsert", "X-Upsert");
    UpsertCanonical();
  }

  /** strconv.FormatBool. */
  function FormatBool(b: bool): string
  {
    if b then "true" else "false"
  }

  /** An upload request before its body is attached. */
  datatype UploadRequest = UploadRequest(httpMethod: string, url: string, header: Http.Entries)

  /** The header an upload sends for the merged options. */
  function UploadHeader(apiKey: string, m: FileUploadOptions): Http.Entries
  {
    map["Authorization" := ["Bearer " + apiKey],
        "Cache-Control" := [m.cacheControl],
        "Content-Type" := [m.contentType],
        "X-Upsert" := [FormatBool(m.upsert)]]
  }

  /**
   * UploadOrUpdate up to sending: PUT to update an object and POST to
   * create it, at the object path without empty folders, with the
   * authorization and the merged options as headers.
   */
  method UploadOrUpdate(f: File, path: string, update: bool, opts: Option<FileUploadOptions>) returns (req: UploadRequest)
    ensures req.httpMethod == (if update then "PUT" else "POST")
    ensures req.url == f.baseURL + "/" + StorageEndpoint + "/object/" + RemoveEmptyFolder(f.bucketId + "/" + path)
    ensures req.header == UploadHeader(f.apiKey, MergedOptions(opts))
  {
    var merged := MergeUploadOptions(opts);
    var objectPath := RemoveEmptyFolder(f.bucketId + "/" + path);
    var httpMethod: string;
    if update {
      httpMethod := "PUT";
    } else {
      httpMethod := "POST";
    }
    var url := f.baseURL + "/" + StorageEndpoint + "/object/" + objectPath;
    var header := new Http.Header();
    Http.KnownKeysCanonical();
    CacheControlKey();
    ContentTypeKey();
    UpsertKey();
    header.Set("Authorization", "Bearer " + f.apiKey);
    header.Set("cache-control", merged.cacheControl);
    header.Set("content-type", merged.contentType);
    header.Set("x-upsert", FormatBool(merged.upsert));
    req := UploadRequest(httpMethod, url, header.entries);
  }

  datatype SortBy = SortBy(column: string, order: string)

  datatype FileSearchOptions = FileSearchOptions(limit: Format.Int, offset: Format.Int, sortBy: SortBy)

  /** The JSON body of a listing request. */
  datatype ListFileRequest = ListFileRequest(limit: Format.Int, offset: Format.Int, sortBy: SortBy, prefix: string)

  /** The search options List uses: a zero limit and empty sort fields take their defaults. */
  function Defaulted(o: FileSearchOptions): (d: FileSearchOptions)
    ensures d.limit != 0 && d.sortBy.column != "" && d.sortBy.order != ""
    ensures o.limit != 0 ==> d.limit == o.limit
    ensures o.limit == 0 ==> d.limit == DefaultLimit
    ensures d.offset == o.offset
    ensures o.sortBy.column != "" ==> d.sortBy.column == o.sortBy.column
    ensures o.sortBy.column == "" ==> d.sortBy.column == DefaultSortColumn
    ensures o.sortBy.order != "" ==> d.sortBy.order == o.sortBy.order
    ensures o.sortBy.order == "" ==> d.sortBy.order == DefaultSortOrder
  {
    FileSearchOptions(
      if o.limit == 0 then DefaultLimit else o.limit,
      o.offset,
      SortBy(if o.sortBy.column == "" then DefaultSortColumn else o.sortBy.column,
             if o.sortBy.order == "" then DefaultSortOrder else o.sortBy.order))
  }

  /** Defaulting twice is defaulting once. */
  lemma DefaultedIdempotent(o: FileSearchOptions)
    ensures Defaulted(Defaulted(o)) == Defaulted(o)
  {
  }

  /**
   * List up to sending: the options defaulted field by field, the body
   * with the listed folder as its prefix, posted to the bucket's list URL.
   */
  method List(f: File, queryPath: string, options: FileSearchOptions) returns (url: string, body: ListFileRequest)
    ensures url == f.baseURL + "/" + StorageEndpoint + "/object/list/" + f.bucketId
    ensures body.prefix == queryPath
    ensures body.limit == Defaulted(options).limit && body.offset == Defaulted(options).offset
    ensures body.sortBy == Defaulted(options).sortBy
  {
    var o := options;
    if o.limit == 0 {
      o := o.(limit := DefaultLimit);
    }
    if o.offset == 0 {
      o := o.(offset := DefaultOffset);
    }
    if o.sortBy.order == "" {
      o := o.(sortBy := o.sortBy.(order := DefaultSortOrder));
    }
    if o.sortBy.column == "" {
      o := o.(sortBy := o.sortBy.(column := DefaultSortColumn));
    }
    body := ListFileRequest(o.limit, o.offset, SortBy(o.sortBy.column, o.sortBy.order), queryPath);
    url := f.baseURL + "/" + StorageEndpoint + "/object/list/" + f.bucketId;
  }

  /** The public URL of an object of the bucket. */
  function PublicUrl(f: File, filePath: string): (url: string)
    ensures |url| == |f.baseURL| + |"/" + StorageEndpoint + "/object/public/"| + |f.bucketId| + 1 + |filePath|
  {
    f.baseURL + "/" + StorageEndpoint + "/object/public/" + f.bucketId + "/" + filePath
  }

  /** The object path is what follows the bucket's public prefix, so distinct paths have distinct URLs. */
  lemma PublicUrlRecoversPath(f: File, filePath: string)
    ensures var prefix := f.baseURL + "/" + StorageEndpoint + "/object/public/" + f.bucketId + "/";
      PublicUrl(f, filePath)[..|prefix|] == prefix && PublicUrl(f, filePath)[|prefix|..] == filePath
  {
  }

  lemma PublicUrlInjective(f: File, p: string, q: string)
    requires PublicUrl(f, p) == PublicUrl(f, q)
    ensures p == q
  {
    PublicUrlRecoversPath(f, p);
    PublicUrlRecoversPath(f, q);
  }

  /** The JSON error storage answers with. */
  datatype FileErrorResponse = FileErrorResponse(status: string, shortError: string, message: string)

  /** `FileErrorResponse.Error()`: the short error, a colon and a space, then the message. */
  function FileErrorText(e: FileErrorResponse): (t: string)
    ensures |t| == |e.shortError| + 2 + |e.message|
    ensures t[..|e.shortError|] == e.shortError && t[|e.shortError|..|e.shortError| + 2] == ": "
    ensures t[|e.shortError| + 2..] == e.message
  {
    e.shortError + ": " + e.message
  }

  /** What Download returns, or that it panics. */
  datatype DownloadResult =
    | Content(data: seq<Utf8.byte>)
    | NotFound                         // ErrNotFound
    | FileError(error: FileErrorResponse)
    | Panic                            // the body was not JSON, or was JSON null

  /**
   * Download after the response arrives. `decode` is json.Unmarshal into
   * a *FileErrorResponse: None when the body is not JSON, Some(None) when it
   * is null (the pointer stays nil, and reading its status panics).
   */
  function DownloadOutcome(status: int, body: seq<Utf8.byte>,
                           decode: seq<Utf8.byte> -> Option<Option<FileErrorResponse>>): (r: DownloadResult)
    ensures r.Content? <==> status == 200
    ensures r.Content? ==> r.data == body
    ensures r.NotFound? <==> status != 200 && decode(body).Some? && decode(body).value.Some? && decode(body).value.value.status == "404"
    ensures r.FileError? ==> status != 200 && decode(body) == Some(Some(r.error)) && r.error.status != "404"
    ensures r.Panic? <==> status != 200 && (decode(body).None? || decode(body).value.None?)
  {
    if status != 200 then
      match decode(body)
      case None => Panic
      case Some(None) => Panic
      case Some(Some(e)) => if e.status == "404" then NotFound else FileError(e)
    else Content(body)
  }

  /** A decoded 404 is ErrNotFound whatever its message; any other decoded status keeps its error. */
  lemma DownloadNotFoundExample(message: string)
    ensures var e := FileErrorResponse("404", "not_found", message);
      DownloadOutcome(400, [], (b: seq<Utf8.byte>) => Some(Some(e))) == NotFound
    ensures var e := FileErrorResponse("403", "Unauthorized", message);
      DownloadOutcome(400, [], (b: seq<Utf8.byte>) => Some(Some(e))) == FileError(e)
      && FileErrorText(e) == "Unauthorized: " + message
  {
  }
}
