/**
 * Go's `url.Values` and `http.Header`: both are maps from a key to the list
 * of its values, kept in insertion order. `Add` appends a value, `Set`
 * replaces the list by one value, `Get` gives the first value or "".
 * `http.Header` also writes every key in canonical form
 * (net/textproto's CanonicalMIMEHeaderKey), so that "prefer" and "Prefer"
 * name the same header.
 */
module Http {

  type Entries = map<string, seq<string>>

  /** The values stored under `key`, none when it is absent. */
  function ValuesOf(m: Entries, key: string): seq<string>
  {
    if key in m then m[key] else []
  }

  /** `Add`: one more value at the end of `key`'s list. */
  function Added(m: Entries, key: string, value: string): (r: Entries)
    ensures r.Keys == m.Keys + {key}
    ensures ValuesOf(r, key) == ValuesOf(m, key) + [value]
    ensures forall k :: k in m && k != key ==> r[k] == m[k]
  {
    m[key := ValuesOf(m, key) + [value]]
  }

  /** `Set`: `key` holds exactly `value`, whatever it held before. */
  function Replaced(m: Entries, key: string, value: string): (r: Entries)
    ensures r.Keys == m.Keys + {key}
    ensures r[key] == [value]
    ensures forall k :: k in m && k != key ==> r[k] == m[k]
  {
    m[key := [value]]
  }

  /** `Get`: the first value of `key`, or "" when there is none. */
  function First(m: Entries, key: string): string
  {
    if key in m && |m[key]| > 0 then m[key][0] else ""
  }

  /** After a `Set`, `Get` finds the value set. */
  lemma GetAfterSet(m: Entries, key: string, value: string)
    ensures First(Replaced(m, key, value), key) == value
  {
  }

  /** `Get` after an `Add` still finds the first value added under the key. */
  lemma GetAfterAdd(m: Entries, key: string, value: string)
    ensures First(Added(m, key, value), key) == if ValuesOf(m, key) == [] then value else m[key][0]
  {
  }

  /** Of two `Set`s on one key, the later one wins. */
  lemma SetLastWins(m: Entries, key: string, a: string, b: string)
    ensures Replaced(Replaced(m, key, a), key, b) == Replaced(m, key, b)
  {
  }

  /** A character allowed in a header field name (an RFC 9110 token character). */
  predicate TokenChar(c: char)
  {
    || 'a' <= c <= 'z' || 'A' <= c <= 'Z' || '0' <= c <= '9'
    || c in "!#$%&'*+-.^_`|~"
  }

  function ToUpper(c: char): char
  {
    if 'a' <= c <= 'z' then (c as int - 32) as char else c
  }

  function ToLower(c: char): char
  {
    if 'A' <= c <= 'Z' then (c as int + 32) as char else c
  }

  /** Upper case after each '-' and at the start, lower case elsewhere. */
  function TitleCase(s: string, upper: bool): (r: string)
    ensures |r| == |s|
  {
    if s == [] then []
    else
      var c := if upper then ToUpper(s[0]) else ToLower(s[0]);
      [c] + TitleCase(s[1..], c == '-')
  }

  /**
   * CanonicalMIMEHeaderKey: a key made only of token characters is put in
   * title case per '-'-separated word; any other key is left as it is.
   */
  function CanonicalKey(key: string): (r: string)
    ensures |r| == |key|
  {
    if forall i :: 0 <= i < |key| ==> TokenChar(key[i]) then TitleCase(key, true) else key
  }

  lemma {:induction false} TitleCaseTokens(s: string, upper: bool)
    requires forall i :: 0 <= i < |s| ==> TokenChar(s[i])
    ensures forall i :: 0 <= i < |s| ==> TokenChar(TitleCase(s, upper)[i])
    ensures TitleCase(TitleCase(s, upper), upper) == TitleCase(s, upper)
  {
    if s != [] {
      var c := if upper then ToUpper(s[0]) else ToLower(s[0]);
      TitleCaseTokens(s[1..], c == '-');
      var r := TitleCase(s, upper);
      assert r == [c] + TitleCase(s[1..], c == '-');
      assert r[1..] == TitleCase(s[1..], c == '-');
      assert (if upper then ToUpper(c) else ToLower(c)) == c;
    }
  }

  /** Canonicalising a canonical key changes nothing. */
  lemma CanonicalKeyIdempotent(key: string)
    ensures CanonicalKey(CanonicalKey(key)) == CanonicalKey(key)
  {
    if forall i :: 0 <= i < |key| ==> TokenChar(key[i]) {
      TitleCaseTokens(key, true);
    }
  }

  /** A word starts at position `i` of `s`. */
  predicate WordStart(s: string, i: nat, upper: bool)
    requires i < |s|
  {
    if i == 0 then upper else s[i - 1] == '-'
  }

  lemma {:induction false} TitleCaseAt(s: string, upper: bool, i: nat)
    requires i < |s|
    ensures TitleCase(s, upper)[i] == if WordStart(s, i, upper) then ToUpper(s[i]) else ToLower(s[i])
  {
    if i > 0 {
      var c := if upper then ToUpper(s[0]) else ToLower(s[0]);
      TitleCaseAt(s[1..], c == '-', i - 1);
    }
  }

  /** A key of token characters already in title case is canonical. */
  lemma CanonicalWhenTitled(s: string)
    requires forall i :: 0 <= i < |s| ==> TokenChar(s[i])
    requires forall i :: 0 <= i < |s| ==> s[i] == (if WordStart(s, i, true) then ToUpper(s[i]) else ToLower(s[i]))
    ensures CanonicalKey(s) == s
  {
    forall i | 0 <= i < |s| ensures TitleCase(s, true)[i] == s[i] {
      TitleCaseAt(s, true, i);
    }
  }

  /** Each header name the client writes is canonical already. */
  lemma AcceptCanonical()
    ensures CanonicalKey("Accept") == "Accept"
  {
    CanonicalWhenTitled("Accept");
  }

  lemma ContentTypeCanonical()
    ensures CanonicalKey("Content-Type") == "Content-Type"
  {
    CanonicalWhenTitled("Content-Type");
  }

  lemma AcceptProfileCanonical()
    ensures CanonicalKey("Accept-Profile") == "Accept-Profile"
  {
    CanonicalWhenTitled("Accept-Profile");
  }

  lemma ContentProfileCanonical()
    ensures CanonicalKey("Content-Profile") == "Content-Profile"
  {
    CanonicalWhenTitled("Content-Profile");
  }

  lemma AuthorizationCanonical()
    ensures CanonicalKey("Authorization") == "Authorization"
  {
    CanonicalWhenTitled("Authorization");
  }

  lemma PreferCanonical()
    ensures CanonicalKey("Prefer") == "Prefer"
  {
    CanonicalWhenTitled("Prefer");
  }

  lemma RangeCanonical()
    ensures CanonicalKey("Range") == "Range"
  {
    CanonicalWhenTitled("Range");
  }

  lemma RangeUnitCanonical()
    ensures CanonicalKey("Range-Unit") == "Range-Unit"
  {
    CanonicalWhenTitled("Range-Unit");
  }

  lemma ContentRangeCanonical()
    ensures CanonicalKey("Content-Range") == "Content-Range"
  {
    CanonicalWhenTitled("Content-Range");
  }

  lemma KnownKeysCanonical()
    ensures CanonicalKey("Accept") == "Accept"
    ensures CanonicalKey("Content-Type") == "Content-Type"
    ensures CanonicalKey("Accept-Profile") == "Accept-Profile"
    ensures CanonicalKey("Content-Profile") == "Content-Profile"
    ensures CanonicalKey("Authorization") == "Authorization"
    ensures CanonicalKey("Prefer") == "Prefer"
    ensures CanonicalKey("Range") == "Range"
    ensures CanonicalKey("Range-Unit") == "Range-Unit"
    ensures CanonicalKey("Content-Range") == "Content-Range"
  {
    AcceptCanonical();
    ContentTypeCanonical();
    AcceptProfileCanonical();
    ContentProfileCanonical();
    AuthorizationCanonical();
    PreferCanonical();
    RangeCanonical();
    RangeUnitCanonical();
    ContentRangeCanonical();
  }

  /** Title case does not depend on the case a key is written in. */
  lemma {:induction false} TitleCaseCaseless(s: string, t: string, upper: bool)
    requires |s| == |t| && forall i :: 0 <= i < |s| ==> ToLower(s[i]) == ToLower(t[i])
    ensures TitleCase(s, upper) == TitleCase(t, upper)
  {
    if s != [] {
      assert ToLower(s[0]) == ToLower(t[0]);
      assert ToUpper(s[0]) == ToUpper(t[0]);
      var c := if upper then ToUpper(s[0]) else ToLower(s[0]);
      TitleCaseCaseless(s[1..], t[1..], c == '-');
    }
  }

  /** Two spellings of a key that differ only in case have one canonical form. */
  lemma CanonicalCaseless(s: string, t: string)
    requires |s| == |t|
    requires forall i :: 0 <= i < |s| ==> TokenChar(s[i]) && ToLower(s[i]) == ToLower(t[i])
    ensures CanonicalKey(s) == CanonicalKey(t)
  {
    TitleCaseCaseless(s, t, true);
    assert forall i :: 0 <= i < |t| ==> TokenChar(t[i]) by {
      forall i | 0 <= i < |t| ensures TokenChar(t[i]) {
        assert ToLower(s[i]) == ToLower(t[i]);
      }
    }
  }

  /** A lower-case spelling finds the canonical key: "prefer" is "Prefer". */
  lemma LowerCaseKeyExample()
    ensures CanonicalKey("prefer") == "Prefer"
  {
    CanonicalCaseless("prefer", "Prefer");
    PreferCanonical();
  }

  /** All keys of a header map are canonical. */
  predicate CanonicalKeys(m: Entries)
  {
    forall k :: k in m ==> CanonicalKey(k) == k
  }

  /** url.Values, shared by reference between the builders of one request. */
  class Values {
    var entries: Entries

    constructor ()
      ensures entries == map[]
    {
      entries := map[];
    }

    method Add(key: string, value: string)
      modifies this
      ensures entries == Added(old(entries), key, value)
    {
      entries := Added(entries, key, value);
    }

    method Set(key: string, value: string)
      modifies this
      ensures entries == Replaced(old(entries), key, value)
    {
      entries := Replaced(entries, key, value);
    }

    function Get(key: string): string
      reads this
    {
      First(entries, key)
    }
  }

  /** http.Header: like Values, with every key canonicalised. */
  class Header {
    var entries: Entries

    ghost predicate Valid()
      reads this
    {
      CanonicalKeys(entries)
    }

    constructor ()
      ensures Valid() && entries == map[]
    {
      entries := map[];
    }

    method Set(key: string, value: string)
      requires Valid()
      modifies this
      ensures Valid()
      ensures entries == Replaced(old(entries), CanonicalKey(key), value)
    {
      CanonicalKeyIdempotent(key);
      entries := Replaced(entries, CanonicalKey(key), value);
    }

    function Get(key: string): string
      reads this
    {
      First(entries, CanonicalKey(key))
    }

    /** `Clone`: a new header with the same entries. */
    method Clone() returns (c: Header)
      requires Valid()
      ensures fresh(c) && c.Valid() && c.entries == entries
    {
      c := new Header();
      c.entries := entries;
    }
  }
}
