/**
 * The default headers of a PostgREST client and the options of
 * postgrest/pkg/client.go that change them. Each option is a list of
 * header Sets; the client applies the defaults first and then the options
 * in argument order, so for every header the last option setting it wins.
 */
module ClientOptions {
  import opened Wrappers
  import Http
  import Base64
  import Utf8

  datatype ClientOption =
    | TokenAuth(token: string)                        // WithTokenAuth
    | BasicAuth(username: string, password: string)   // WithBasicAuth
    | Schema(schema: string)                          // WithSchema

  /** The four headers NewClient sets before any option runs. */
  const DefaultHeaders: Http.Entries := map[
    "Accept" := ["application/json"],
    "Content-Type" := ["application/json"],
    "Accept-Profile" := ["public"],
    "Content-Profile" := ["public"]]

  /**
   * The Basic credential of RFC 7617, section 2: the user-id, a colon and
   * the password, as UTF-8 bytes, in the base64 encoding of RFC 4648,
   * section 4.
   */
  function BasicCredential(username: string, password: string): (c: string)
    ensures Base64.Decode(c) == Some(Utf8.Encode(username + ":" + password))
  {
    Base64.DecodeEncode(Utf8.Encode(username + ":" + password));
    Base64.Encode(Utf8.Encode(username + ":" + password))
  }

  /** The headers one option Sets, through Client.AddHeader, in the order it Sets them. */
  function ApplyOption(m: Http.Entries, opt: ClientOption): Http.Entries
  {
    match opt
    case TokenAuth(token) => Http.Replaced(m, "Authorization", "Bearer " + token)
    case BasicAuth(username, password) => Http.Replaced(m, "Authorization", "Basic " + BasicCredential(username, password))
    case Schema(schema) => Http.Replaced(Http.Replaced(m, "Accept-Profile", schema), "Content-Profile", schema)
  }

  /** The headers after the options, applied in argument order. */
  function ApplyAll(m: Http.Entries, opts: seq<ClientOption>): Http.Entries
  {
    if |opts| == 0 then m else ApplyOption(ApplyAll(m, opts[..|opts| - 1]), opts[|opts| - 1])
  }

  lemma ApplyAllStep(m: Http.Entries, opts: seq<ClientOption>, i: nat)
    requires i < |opts|
    ensures ApplyAll(m, opts[..i + 1]) == ApplyOption(ApplyAll(m, opts[..i]), opts[i])
  {
    assert opts[..i + 1][..i] == opts[..i];
  }

  /** The header keys an option Sets. */
  function KeysOf(opt: ClientOption): set<string>
  {
    match opt
    case Schema(_) => {"Accept-Profile", "Content-Profile"}
    case _ => {"Authorization"}
  }

  /** The value the option leaves under each key it Sets. */
  function ValueFor(opt: ClientOption): string
  {
    match opt
    case TokenAuth(token) => "Bearer " + token
    case BasicAuth(username, password) => "Basic " + BasicCredential(username, password)
    case Schema(schema) => schema
  }

  /** One option Sets its keys to its value and leaves every other key alone. */
  lemma ApplyOptionKey(m: Http.Entries, opt: ClientOption, key: string)
    ensures key !in KeysOf(opt) ==> Http.ValuesOf(ApplyOption(m, opt), key) == Http.ValuesOf(m, key)
    ensures key in KeysOf(opt) ==> key in ApplyOption(m, opt) && ApplyOption(m, opt)[key] == [ValueFor(opt)]
    ensures ApplyOption(m, opt).Keys == m.Keys + KeysOf(opt)
  {
  }

  /** A header no option Sets keeps its default. */
  lemma {:induction false} UnsetKeyKeepsDefault(m: Http.Entries, opts: seq<ClientOption>, key: string)
    requires forall j :: 0 <= j < |opts| ==> key !in KeysOf(opts[j])
    ensures Http.ValuesOf(ApplyAll(m, opts), key) == Http.ValuesOf(m, key)
    decreases |opts|
  {
    if |opts| > 0 {
      var n := |opts| - 1;
      var prev := ApplyAll(m, opts[..n]);
      assert ApplyAll(m, opts) == ApplyOption(prev, opts[n]);
      assert key !in KeysOf(opts[n]);
      assert forall j :: 0 <= j < n ==> key !in KeysOf(opts[..n][j]) by {
        forall j | 0 <= j < n ensures key !in KeysOf(opts[..n][j]) {
          assert opts[..n][j] == opts[j];
        }
      }
      UnsetKeyKeepsDefault(m, opts[..n], key);
      ApplyOptionKey(prev, opts[n], key);
    }
  }

  /** Later options win: a header holds the value of the last option that Sets it. */
  lemma {:induction false} LastOptionWins(m: Http.Entries, opts: seq<ClientOption>, key: string, j: nat)
    requires j < |opts| && key in KeysOf(opts[j])
    requires forall l :: j < l < |opts| ==> key !in KeysOf(opts[l])
    ensures key in ApplyAll(m, opts) && ApplyAll(m, opts)[key] == [ValueFor(opts[j])]
    decreases |opts|
  {
    var n := |opts| - 1;
    ApplyOptionKey(ApplyAll(m, opts[..n]), opts[n], key);
    if j < n {
      assert forall l :: 0 <= l < n ==> opts[..n][l] == opts[l];
      LastOptionWins(m, opts[..n], key, j);
    }
  }

  lemma GroupsExample()
    ensures Base64.EncodeGroup(97, 100, 109) == "YWRt"
    ensures Base64.EncodeGroup(105, 110, 58) == "aW46"
    ensures Base64.EncodeGroup(115, 51, 99) == "czNj"
    ensures Base64.EncodeGroup(114, 51, 116) == "cjN0"
  {
    assert Base64.SextetChar(24) == 'Y' && Base64.SextetChar(22) == 'W' && Base64.SextetChar(17) == 'R';
    assert Base64.SextetChar(45) == 't' && Base64.SextetChar(26) == 'a' && Base64.SextetChar(56) == '4';
    assert Base64.SextetChar(58) == '6' && Base64.SextetChar(28) == 'c' && Base64.SextetChar(51) == 'z';
    assert Base64.SextetChar(13) == 'N' && Base64.SextetChar(35) == 'j' && Base64.SextetChar(52) == '0';
  }

  const ExampleBytes: seq<Utf8.byte> := [97, 100, 109, 105, 110, 58, 115, 51, 99, 114, 51, 116]

  lemma ExampleText()
    ensures Utf8.Encode("admin" + ":" + "s3cr3t") == ExampleBytes
  {
    assert "admin" + ":" + "s3cr3t" == "admin:s3cr3t";
    Utf8.EncodeAsciiBytes("admin:s3cr3t", ExampleBytes);
  }

  /** Twelve bytes encode as their four groups in order. */
  lemma EncodeFourGroups(b: seq<Utf8.byte>)
    requires |b| == 12
    ensures Base64.Encode(b) == Base64.EncodeGroup(b[0], b[1], b[2]) + (Base64.EncodeGroup(b[3], b[4], b[5])
                              + (Base64.EncodeGroup(b[6], b[7], b[8]) + Base64.EncodeGroup(b[9], b[10], b[11])))
  {
    assert Base64.Encode(b[9..]) == Base64.EncodeGroup(b[9], b[10], b[11]) by {
      Base64.EncodeStep(b[9..]);
      assert b[9..][3..] == [];
    }
    assert Base64.Encode(b[6..]) == Base64.EncodeGroup(b[6], b[7], b[8]) + Base64.Encode(b[9..]) by {
      Base64.EncodeStep(b[6..]);
      assert b[6..][3..] == b[9..];
    }
    assert Base64.Encode(b[3..]) == Base64.EncodeGroup(b[3], b[4], b[5]) + Base64.Encode(b[6..]) by {
      Base64.EncodeStep(b[3..]);
      assert b[3..][3..] == b[6..];
    }
    Base64.EncodeStep(b);
  }

  lemma EncodingOf(b: seq<Utf8.byte>)
    requires |b| == 12
    requires Base64.EncodeGroup(b[0], b[1], b[2]) == "YWRt" && Base64.EncodeGroup(b[3], b[4], b[5]) == "aW46"
    requires Base64.EncodeGroup(b[6], b[7], b[8]) == "czNj" && Base64.EncodeGroup(b[9], b[10], b[11]) == "cjN0"
    ensures Base64.Encode(b) == "YWRtaW46czNjcjN0"
  {
    EncodeFourGroups(b);
    assert "YWRt" + ("aW46" + ("czNj" + "cjN0")) == "YWRtaW46czNjcjN0";
  }

  lemma ExampleEncoding()
    ensures Base64.Encode(ExampleBytes) == "YWRtaW46czNjcjN0"
  {
    GroupsExample();
    EncodingOf(ExampleBytes);
  }

  /** The Authorization value of WithBasicAuth("admin", "s3cr3t"). */
  lemma BasicAuthExample()
    ensures BasicCredential("admin", "s3cr3t") == "YWRtaW46czNjcjN0"
  {
    ExampleText();
    ExampleEncoding();
  }
}
