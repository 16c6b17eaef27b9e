/**
 * `CognitoAuth.get_token`: extracting the bearer token from the value of the
 * configured request header.
 */
module Token {
  import opened Wrappers
  import opened Text
  import opened Errors
  import opened Config

  /** The error name of every typed error `get_token` raises. */
  const INVALID_HEADER: string := "Invalid Cognito JWT header"
  const TOKEN_MISSING: string := "Token missing"
  const TOKEN_CONTAINS_SPACES: string := "Token contains spaces"

  function PrefixMismatchDescription(got: string, want: string): string {
    "Unsupported authorization type. Header prefix \"" + got + "\" does not match \"" + want + "\""
  }

  /**
   * What `get_token` produces: the token it returns, or what it raises. The
   * token is optional because the caller guards against `None`.
   */
  datatype TokenResult = Token(value: Option<string>) | Raised(failure: Failure)

  /** A typed `'Invalid Cognito JWT header'` error with the given description. */
  function InvalidHeader(description: string): TokenResult {
    Raised(AuthFailure(NewError(INVALID_HEADER, description)))
  }

  /**
   * `get_token`, given the header's value (`None` when the request lacks the
   * header) and the configured prefix. An absent header fails in
   * `None.split()`, a blank one in `parts[0]`, a prefix that is not a string
   * in `.lower()`; then come the prefix check, "exactly one part" and
   * "more than two parts", in that order.
   */
  function GetToken(headerValue: Option<string>, prefix: ConfigValue): (r: TokenResult)
    ensures r.Token? <==>
      headerValue.Some? && prefix.StrValue?
      && |Split(headerValue.value)| == 2
      && EqualsIgnoreCase(Split(headerValue.value)[0], prefix.s)
    ensures r.Token? ==>
      r.value.Some? && IsWord(r.value.value) && r.value.value == Split(headerValue.value)[1]
    ensures r == Raised(Crash(IndexError)) <==> headerValue.Some? && AllSpace(headerValue.value)
    ensures r == Raised(Crash(AttributeError)) <==>
      headerValue.None? || (!AllSpace(headerValue.value) && !prefix.StrValue?)
    ensures r.Raised? && r.failure.AuthFailure? ==>
      r.failure.err.error == INVALID_HEADER && r.failure.err.statusCode == 401
      && r.failure.err.headers == None
  {
    match headerValue
    case None => Raised(Crash(AttributeError))
    case Some(v) =>
      var parts := Split(v);
      SplitEmptyIff(v);
      if |parts| == 0 then Raised(Crash(IndexError))
      else if !prefix.StrValue? then Raised(Crash(AttributeError))
      else if Lower(parts[0]) != Lower(prefix.s) then
        InvalidHeader(PrefixMismatchDescription(Lower(parts[0]), Lower(prefix.s)))
      else if |parts| == 1 then InvalidHeader(TOKEN_MISSING)
      else if |parts| > 2 then InvalidHeader(TOKEN_CONTAINS_SPACES)
      else Token(Some(parts[1]))
  }

  /**
   * For a header made of whitespace-separated words the checks run in a fixed
   * order: prefix mismatch first, then "Token missing" for a single word, then
   * "Token contains spaces" for more than two; two words give the second.
   */
  lemma GetTokenOfWords(ws: seq<string>, prefix: string)
    requires |ws| >= 1 && AllWords(ws)
    ensures GetToken(Some(Join(ws)), StrValue(prefix)) ==
      if !EqualsIgnoreCase(ws[0], prefix) then
        InvalidHeader(PrefixMismatchDescription(Lower(ws[0]), Lower(prefix)))
      else if |ws| == 1 then InvalidHeader(TOKEN_MISSING)
      else if |ws| > 2 then InvalidHeader(TOKEN_CONTAINS_SPACES)
      else Token(Some(ws[1]))
  {
    SplitJoin(ws);
  }

  /**
   * Only the parts matter: any non-blank header, whatever whitespace it has
   * between, before or after its parts, is treated as its parts joined by
   * single spaces, so `GetTokenOfWords` gives its outcome.
   */
  lemma GetTokenViaWords(v: string, prefix: string)
    requires !AllSpace(v)
    ensures |Split(v)| >= 1
    ensures GetToken(Some(v), StrValue(prefix)) == GetToken(Some(Join(Split(v))), StrValue(prefix))
  {
    SplitJoin(Split(v));
    SplitEmptyIff(v);
    SplitEmptyIff(Join(Split(v)));
  }

  /** Round trip: the header `prefix + " " + t` yields `t`, whatever the case of the prefix. */
  lemma HeaderRoundTrip(sent: string, prefix: string, t: string)
    requires IsWord(sent) && IsWord(t) && EqualsIgnoreCase(sent, prefix)
    ensures GetToken(Some(sent + " " + t), StrValue(prefix)) == Token(Some(t))
  {
    assert Join([sent, t]) == sent + " " + t;
    GetTokenOfWords([sent, t], prefix);
  }

  /** A lone part that is not the prefix is reported as a prefix error, not as "Token missing". */
  lemma LoneForeignPrefix()
    ensures GetToken(Some("Basic"), StrValue("Bearer")) ==
      InvalidHeader(PrefixMismatchDescription("basic", "bearer"))
  {
    assert IsWord("Basic");
    assert Join(["Basic"]) == "Basic";
    assert Lower("Basic") == "basic";
    assert Lower("Bearer") == "bearer";
    GetTokenOfWords(["Basic"], "Bearer");
  }

  /** The prefix alone: "Token missing". */
  lemma PrefixAlone()
    ensures GetToken(Some("Bearer"), StrValue("Bearer")) == InvalidHeader(TOKEN_MISSING)
  {
    assert IsWord("Bearer");
    assert Join(["Bearer"]) == "Bearer";
    GetTokenOfWords(["Bearer"], "Bearer");
  }

  /** Three parts: "Token contains spaces". */
  lemma TokenWithSpace()
    ensures GetToken(Some("Bearer abc def"), StrValue("Bearer")) == InvalidHeader(TOKEN_CONTAINS_SPACES)
  {
    var ws := ["Bearer", "abc", "def"];
    assert IsWord(ws[0]) && IsWord(ws[1]) && IsWord(ws[2]);
    assert Join(ws) == "Bearer abc def" by {
      assert ws[1..][1..] == ["def"];
    }
    GetTokenOfWords(ws, "Bearer");
  }

  /** The prefix is compared case-insensitively. */
  lemma LowerCasePrefixAccepted()
    ensures GetToken(Some("bearer abc"), StrValue("Bearer")) == Token(Some("abc"))
  {
    assert IsWord("bearer") && IsWord("abc");
    assert Lower("Bearer") == "bearer";
    assert Lower("bearer") == "bearer";
    assert "bearer" + " " + "abc" == "bearer abc";
    HeaderRoundTrip("bearer", "Bearer", "abc");
  }

  /** Whitespace around a lone foreign part changes nothing: still the prefix error. */
  lemma PaddedForeignPrefix()
    ensures GetToken(Some(" Basic\t"), StrValue("Bearer")) ==
      InvalidHeader(PrefixMismatchDescription("basic", "bearer"))
  {
    assert " Basic\t" == [] + [' '] + ("Basic" + ['\t'] + []);
    SplitAtSpace([], ' ', "Basic" + ['\t'] + []);
    SplitAtSpace("Basic", '\t', []);
    SplitWord("Basic");
    assert Split(" Basic\t") == ["Basic"];
    assert Join(["Basic"]) == "Basic";
    GetTokenViaWords(" Basic\t", "Bearer");
    LoneForeignPrefix();
  }

  lemma SplitTabAndSpaces()
    ensures Split("Bearer\t  abc") == ["Bearer", "abc"]
  {
    assert IsWord("Bearer") && IsWord("abc");
    SplitWord("Bearer");
    SplitWord("abc");
    SplitAtSpace([], ' ', []);
    assert " " == [] + [' '] + [];
    SplitAtSpace(" ", ' ', "abc");
    assert " " + [' '] + "abc" == "  abc";
    assert Split("  abc") == ["abc"];
    assert "Bearer\t  abc" == "Bearer" + ['\t'] + "  abc";
    SplitAtSpace("Bearer", '\t', "  abc");
  }

  /** A tab and repeated spaces between prefix and token are accepted like a single space. */
  lemma TabAndSpacesSeparate()
    ensures GetToken(Some("Bearer\t  abc"), StrValue("Bearer")) == Token(Some("abc"))
  {
    SplitTabAndSpaces();
    assert Lower("Bearer") == "bearer";
  }
}
