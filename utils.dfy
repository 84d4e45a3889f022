/**
 * The parameter sanitiser of postgrest/pkg/utils.go: a filter value that
 * holds one of PostgREST's reserved characters is wrapped in double quotes
 * so that the server reads it as a single value.
 */
module Sanitizer {
  import Strings

  /** The characters with a meaning of their own in PostgREST's filter grammar. */
  const ReservedChars: string := ",.:()"

  predicate Reserved(c: char)
  {
    c in ReservedChars
  }

  /** Some character of `s` is reserved. */
  predicate HasReserved(s: string)
  {
    exists i :: 0 <= i < |s| && Reserved(s[i])
  }

  function Quote(s: string): string
  {
    "\"" + s + "\""
  }

  /**
   * SanitizeParam: quoted when the value holds a reserved character,
   * returned as it is otherwise.
   */
  function SanitizeParam(param: string): (r: string)
    ensures HasReserved(param) ==> r == Quote(param)
    ensures !HasReserved(param) ==> r == param
  {
    if Strings.ContainsAny(param, ReservedChars) then Quote(param) else param
  }

  /** SanitizePatternParam: '%' becomes the wildcard '*', then SanitizeParam. */
  function SanitizePatternParam(pattern: string): (r: string)
    ensures '%' !in r
    ensures HasReserved(pattern) ==> r == Quote(Strings.ReplaceAll(pattern, '%', '*'))
    ensures !HasReserved(pattern) ==> r == Strings.ReplaceAll(pattern, '%', '*')
  {
    var replaced := Strings.ReplaceAll(pattern, '%', '*');
    assert HasReserved(replaced) <==> HasReserved(pattern) by {
      if HasReserved(pattern) {
        var i :| 0 <= i < |pattern| && Reserved(pattern[i]);
        assert Reserved(replaced[i]);
      }
      if HasReserved(replaced) {
        var i :| 0 <= i < |replaced| && Reserved(replaced[i]);
        assert Reserved(pattern[i]);
      }
    }
    var r := SanitizeParam(replaced);
    assert '%' !in replaced by {
      forall i | 0 <= i < |replaced| ensures replaced[i] != '%' { }
    }
    assert '%' !in Quote(replaced);
    r
  }

  /** The result is the value itself or the value with two quotes around it. */
  lemma SanitizeLength(param: string)
    ensures |SanitizeParam(param)| == |param| || |SanitizeParam(param)| == |param| + 2
    ensures |SanitizeParam(param)| == |param| + 2 <==> HasReserved(param)
  {
  }

  /** A value without reserved characters is a fixed point of SanitizeParam. */
  lemma SanitizeUnquotedFixedPoint(param: string)
    requires !HasReserved(param)
    ensures SanitizeParam(SanitizeParam(param)) == SanitizeParam(param) == param
  {
  }

  /**
   * SanitizeParam is not idempotent: a quoted value still holds its reserved
   * character, so a second call quotes it again.
   */
  lemma SanitizeQuotesAgain(param: string)
    requires HasReserved(param)
    ensures SanitizeParam(SanitizeParam(param)) == Quote(Quote(param))
    ensures SanitizeParam(SanitizeParam(param)) != SanitizeParam(param)
  {
    var i :| 0 <= i < |param| && Reserved(param[i]);
    assert Quote(param)[i + 1] == param[i];
  }

  /**
   * Pattern sanitising quotes exactly when SanitizeParam would quote the
   * pattern itself: '%' and '*' are not reserved, so they never decide it.
   */
  lemma PatternQuotingFollowsReserved(pattern: string)
    ensures SanitizePatternParam(pattern) != Strings.ReplaceAll(pattern, '%', '*')
        <==> SanitizeParam(pattern) != pattern
  {
  }

  /** The values used as examples for the sanitiser. */
  lemma SanitizeExamples()
    ensures SanitizeParam("a,b") == "\"a,b\""
    ensures SanitizeParam("abc") == "abc"
  {
    assert Reserved("a,b"[1]);
    assert !HasReserved("abc") by {
      forall i | 0 <= i < 3 ensures !Reserved("abc"[i]) { }
    }
  }

  /** '%' alone is not reserved: "50%" stays unquoted, "1.5%" is quoted for its '.'. */
  lemma PatternExamples()
    ensures SanitizePatternParam("50%") == "50*"
    ensures SanitizePatternParam("1.5%") == "\"1.5*\""
  {
    PercentExample();
    DecimalPercentExample();
  }

  /** A wildcard pattern without reserved characters is sent as it is. */
  lemma PercentExample()
    ensures SanitizePatternParam("50%") == "50*"
  {
    assert Strings.ReplaceAll("50%", '%', '*') == "50*";
    assert !HasReserved("50%") by {
      forall i | 0 <= i < 3 ensures !Reserved("50%"[i]) { }
    }
  }

  /** A pattern holding a '.' is quoted after the replacement. */
  lemma DecimalPercentExample()
    ensures SanitizePatternParam("1.5%") == "\"1.5*\""
  {
    assert Strings.ReplaceAll("1.5%", '%', '*') == "1.5*";
    assert Reserved("1.5%"[1]);
  }
}
