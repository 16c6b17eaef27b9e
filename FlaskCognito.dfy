/**
 * The extension object (`CognitoAuth`), the per-request context it writes the
 * authenticated user into, and the request flow `_cognito_auth_required`
 * with its view wrapper `cognito_auth_required`.
 */
module FlaskCognito {
  import opened Wrappers
  import opened Text
  import opened Errors
  import opened Config
  import opened Token

  /** The claims of a verified token, by claim name. */
  type Payload = map<string, string>

  /** The arguments of one call of the token decoder (`cognitojwt.decode`). */
  datatype DecodeRequest = DecodeRequest(
    token: string,
    region: ConfigValue,
    appClientId: ConfigValue,
    userpoolId: ConfigValue,
    testmode: bool)

  /**
   * What one decoder call gives: the claims of a token it accepts, the message
   * of the `CognitoJWTException` it raises, or some other exception.
   */
  datatype DecodeResult = Decoded(payload: Payload) | Rejected(message: string) | OtherException(exception: string)

  /**
   * The token decoder. Each call of the flow consults it afresh, so two calls
   * may be given different decoders (the real one reads a clock and a network).
   */
  type Decoder = DecodeRequest -> DecodeResult

  const AUTHORIZATION_REQUIRED: string := "Authorization Required"
  const INVALID_TOKEN: string := "Invalid Cognito Authentication Token"
  const WELL_FORMED_TEXT: string := "Request does not contain a well-formed access token in "
  const BEGINNING_WITH: string := " beginning with \""

  /** The Flask application, reduced to its configuration. */
  class App {
    var config: AppConfig

    constructor (config: AppConfig)
      ensures this.config == config
    {
      this.config := config;
    }
  }

  /** The extension object; its fields are set by `InitApp`. */
  class CognitoAuth {
    var app: App?
    var region: ConfigValue
    var userpoolId: ConfigValue
    var appClientId: ConfigValue
    var jwtHeaderName: ConfigValue
    var jwtHeaderPrefix: ConfigValue
    var checkExpiration: ConfigValue

    /** The required fields, in the order `init_app` sets them. */
    function Fields(): (fs: seq<ConfigValue>)
      reads this
      ensures |fs| == |REQUIRED_KEYS|
    {
      [region, userpoolId, appClientId, jwtHeaderName, jwtHeaderPrefix]
    }

    function CurrentSettings(): Settings
      reads this
    {
      Settings(region, userpoolId, appClientId, jwtHeaderName, jwtHeaderPrefix, checkExpiration)
    }

    /** `CognitoAuth(app)` before its call of `init_app`; fields not yet set read as `None`. */
    constructor (app: App?)
      ensures this.app == app
      ensures Fields() == [NoneValue, NoneValue, NoneValue, NoneValue, NoneValue]
      ensures checkExpiration == NoneValue
    {
      this.app := app;
      region, userpoolId, appClientId := NoneValue, NoneValue, NoneValue;
      jwtHeaderName, jwtHeaderPrefix, checkExpiration := NoneValue, NoneValue, NoneValue;
    }

    /**
     * `init_app`: fills in the defaults, then reads the five required keys in
     * order, stopping at the first one that is absent or falsy. The fields read
     * before the failing key keep their new values; `err` is the exception's
     * message.
     */
    method InitApp(app: App) returns (err: Option<string>)
      modifies this, app
      ensures app.config == WithDefaults(old(app.config))
      ensures this.app == old(this.app)
      ensures var j := FirstFalsy(app.config);
        && Fields()[..j] == RequiredValues(app.config)[..j]
        && Fields()[j..] == old(Fields())[j..]
      ensures match ConfiguredSettings(app.config)
        case Success(s) => err == None && CurrentSettings() == s
        case Failure(m) => err == Some(m) && checkExpiration == old(checkExpiration)
    {
      SetDefaults(app);
      err := ReadRequired(app.config);
    }

    /** The `setdefault` loop of `init_app`. */
    static method SetDefaults(app: App)
      modifies app
      ensures app.config == WithDefaults(old(app.config))
    {
      var i := 0;
      while i < |CONFIG_DEFAULTS|
        invariant 0 <= i <= |CONFIG_DEFAULTS|
        invariant app.config == ApplyDefaults(old(app.config), CONFIG_DEFAULTS[..i])
      {
        var (k, v) := CONFIG_DEFAULTS[i];
        assert CONFIG_DEFAULTS[..i + 1][..i] == CONFIG_DEFAULTS[..i];
        app.config := SetDefault(app.config, k, v);
        i := i + 1;
      }
      assert CONFIG_DEFAULTS[..i] == CONFIG_DEFAULTS;
    }

    /** The required and optional reads of `init_app`, on the defaulted configuration. */
    method ReadRequired(c: AppConfig) returns (err: Option<string>)
      modifies this`region, this`userpoolId, this`appClientId, this`jwtHeaderName,
        this`jwtHeaderPrefix, this`checkExpiration
      ensures var j := FirstFalsy(c);
        && Fields()[..j] == RequiredValues(c)[..j]
        && Fields()[j..] == old(Fields())[j..]
      ensures match ConfiguredSettings(c)
        case Success(s) => err == None && CurrentSettings() == s
        case Failure(m) => err == Some(m) && checkExpiration == old(checkExpiration)
    {
      var r := GetRequiredConfig(c, REGION_KEY);
      if r.Failure? { FirstFalsyIs(c, 0); return Some(r.error); }
      region := r.value;
      r := GetRequiredConfig(c, USERPOOL_ID_KEY);
      if r.Failure? { FirstFalsyIs(c, 1); return Some(r.error); }
      userpoolId := r.value;
      r := GetRequiredConfig(c, APP_CLIENT_ID_KEY);
      if r.Failure? { FirstFalsyIs(c, 2); return Some(r.error); }
      appClientId := r.value;
      r := GetRequiredConfig(c, HEADER_NAME_KEY);
      if r.Failure? { FirstFalsyIs(c, 3); return Some(r.error); }
      jwtHeaderName := r.value;
      r := GetRequiredConfig(c, HEADER_PREFIX_KEY);
      if r.Failure? { FirstFalsyIs(c, 4); return Some(r.error); }
      jwtHeaderPrefix := r.value;
      checkExpiration := GetOr(c, CHECK_EXPIRATION_KEY, BoolValue(true));
      err := None;
    }
  }

  /** `CognitoAuth(app)`: the constructor, which runs `init_app` when given an application. */
  method NewCognitoAuth(app: App?) returns (auth: CognitoAuth, err: Option<string>)
    modifies app
    ensures fresh(auth) && auth.app == app
    ensures app == null ==> err == None && auth.CurrentSettings() == Settings(NoneValue, NoneValue, NoneValue, NoneValue, NoneValue, NoneValue)
    ensures app != null ==> app.config == WithDefaults(old(app.config))
    ensures app != null ==> match ConfiguredSettings(app.config)
      case Success(s) => err == None && auth.CurrentSettings() == s
      case Failure(m) => err == Some(m)
  {
    auth := new CognitoAuth(app);
    err := None;
    if app != null {
      err := auth.InitApp(app);
    }
  }

  /** The request-scoped state the flow writes; both read as `None` until set. */
  class RequestContext {
    var currentCognitoUser: Option<Payload>
    var currentCognitoIdentity: Option<Payload>

    constructor ()
      ensures currentCognitoUser == None && currentCognitoIdentity == None
    {
      currentCognitoUser, currentCognitoIdentity := None, None;
    }
  }

  /** `get_cognito_user`: the user descriptor is the payload itself. */
  function GetCognitoUser(payload: Payload): (user: Payload)
    ensures user == payload
  {
    payload
  }

  /** `get_identity`: no application identity is derived. */
  function GetIdentity(user: Payload): (identity: Option<Payload>)
    ensures identity == None
  {
    None
  }

  /**
   * The error raised when `get_token` returns `None`: the description names
   * the configured header, then the configured prefix in double quotes.
   */
  function AuthorizationRequired(s: Settings): (e: CognitoAuthError)
    ensures e.error == AUTHORIZATION_REQUIRED && e.statusCode == 401 && e.headers == None
    ensures var n, p := Format(s.jwtHeaderName), Format(s.jwtHeaderPrefix);
      var i, j := |WELL_FORMED_TEXT|, |WELL_FORMED_TEXT| + |n|;
      && |e.description| == j + |BEGINNING_WITH| + |p| + 1
      && e.description[..i] == WELL_FORMED_TEXT
      && e.description[i..j] == n
      && e.description[j..j + |BEGINNING_WITH|] == BEGINNING_WITH
      && e.description[j + |BEGINNING_WITH|..|e.description| - 1] == p
      && e.description[|e.description| - 1] == '"'
  {
    NewError(AUTHORIZATION_REQUIRED,
      WELL_FORMED_TEXT + Format(s.jwtHeaderName)
      + BEGINNING_WITH + Format(s.jwtHeaderPrefix) + "\"")
  }

  /** The decoder call for a token under the extension's settings. */
  function DecodeRequestFor(s: Settings, token: string): DecodeRequest {
    DecodeRequest(token, s.region, s.appClientId, s.userpoolId, !Truthy(s.checkExpiration))
  }

  /** How `_cognito_auth_required` ends: a user and identity for the context, or an exception. */
  datatype AuthOutcome = Authenticated(user: Payload, identity: Option<Payload>) | Failed(failure: Failure)

  /** The decoder calls `_cognito_auth_required` makes for a header value: none or one. */
  function DecodeCalls(s: Settings, headerValue: Option<string>): (calls: seq<DecodeRequest>)
    ensures calls == [] <==> GetToken(headerValue, s.jwtHeaderPrefix).Raised?
    ensures |calls| <= 1
    ensures |calls| == 1 ==>
      && Some(calls[0].token) == GetToken(headerValue, s.jwtHeaderPrefix).value
      && calls[0].testmode == !Truthy(s.checkExpiration)
      && calls[0].region == s.region && calls[0].appClientId == s.appClientId
      && calls[0].userpoolId == s.userpoolId
  {
    match GetToken(headerValue, s.jwtHeaderPrefix)
    case Raised(_) => []
    case Token(t) => if t.None? then [] else [DecodeRequestFor(s, t.value)]
  }

  /**
   * What `_cognito_auth_required` does for a header value, given the decoder.
   * It reads nothing from the request context.
   */
  function Authenticate(s: Settings, headerValue: Option<string>, decode: Decoder): (r: AuthOutcome)
    ensures GetToken(headerValue, s.jwtHeaderPrefix).Raised? ==>
      r == Failed(GetToken(headerValue, s.jwtHeaderPrefix).failure)
    ensures r.Authenticated? <==>
      DecodeCalls(s, headerValue) != [] && decode(DecodeCalls(s, headerValue)[0]).Decoded?
    ensures r.Authenticated? ==>
      r.user == decode(DecodeCalls(s, headerValue)[0]).payload && r.identity == None
    ensures DecodeCalls(s, headerValue) != [] && decode(DecodeCalls(s, headerValue)[0]).Rejected? ==>
      r == Failed(AuthFailure(NewError(INVALID_TOKEN, decode(DecodeCalls(s, headerValue)[0]).message)))
    ensures DecodeCalls(s, headerValue) != [] && decode(DecodeCalls(s, headerValue)[0]).OtherException? ==>
      r == Failed(DecoderException(decode(DecodeCalls(s, headerValue)[0]).exception))
  {
    match GetToken(headerValue, s.jwtHeaderPrefix)
    case Raised(f) => Failed(f)
    case Token(t) =>
      if t.None? then Failed(AuthFailure(AuthorizationRequired(s)))
      else
        match decode(DecodeRequestFor(s, t.value))
        case Rejected(m) => Failed(AuthFailure(NewError(INVALID_TOKEN, m)))
        case OtherException(x) => Failed(DecoderException(x))
        case Decoded(payload) => Authenticated(GetCognitoUser(payload), GetIdentity(payload))
  }

  /**
   * `_cognito_auth_required`: extracts the token, has it decoded, and writes
   * the user and identity into the request context. `failure` is the exception
   * it raises, `calls` the decoder calls it made.
   */
  method CognitoAuthRequired(auth: CognitoAuth, ctx: RequestContext, headerValue: Option<string>, decode: Decoder)
    returns (failure: Option<Failure>, calls: seq<DecodeRequest>)
    modifies ctx`currentCognitoUser, ctx`currentCognitoIdentity
    ensures calls == DecodeCalls(auth.CurrentSettings(), headerValue)
    ensures match Authenticate(auth.CurrentSettings(), headerValue, decode)
      case Authenticated(user, identity) =>
        failure == None && ctx.currentCognitoUser == Some(user) && ctx.currentCognitoIdentity == identity
      case Failed(f) =>
        failure == Some(f) && unchanged(ctx)
  {
    var token := GetToken(headerValue, auth.jwtHeaderPrefix);
    if token.Raised? {
      return Some(token.failure), [];
    }
    if token.value.None? {
      // Raises 'Authorization Required' in flask_cognito; unreachable, see NoAuthorizationRequired.
      assert false;
    }
    var request := DecodeRequestFor(auth.CurrentSettings(), token.value.value);
    calls := [request];
    var decoded := decode(request);
    if decoded.Rejected? {
      return Some(AuthFailure(NewError(INVALID_TOKEN, decoded.message))), calls;
    }
    if decoded.OtherException? {
      return Some(DecoderException(decoded.exception)), calls;
    }
    var payload := decoded.payload;
    ctx.currentCognitoUser := Some(GetCognitoUser(payload));
    ctx.currentCognitoIdentity := GetIdentity(payload);
    failure := None;
  }

  /** What the decorated view's caller sees: the view's return value, or the exception. */
  datatype ViewOutcome<R> = ViewReturned(value: R) | ViewFailed(failure: Failure)

  /**
   * The view produced by `cognito_auth_required(view)`: authenticates, and
   * only when that raised nothing runs `view`, which reads the user and
   * identity from the context.
   */
  method CognitoAuthRequiredView<R>(auth: CognitoAuth, ctx: RequestContext, headerValue: Option<string>,
                                   decode: Decoder, view: (Option<Payload>, Option<Payload>) -> R)
    returns (r: ViewOutcome<R>)
    modifies ctx`currentCognitoUser, ctx`currentCognitoIdentity
    ensures match Authenticate(auth.CurrentSettings(), headerValue, decode)
      case Authenticated(user, identity) =>
        r == ViewReturned(view(Some(user), identity))
        && ctx.currentCognitoUser == Some(user) && ctx.currentCognitoIdentity == identity
      case Failed(f) => r == ViewFailed(f) && unchanged(ctx)
  {
    var failure, _ := CognitoAuthRequired(auth, ctx, headerValue, decode);
    if failure.Some? {
      return ViewFailed(failure.value);
    }
    r := ViewReturned(view(ctx.currentCognitoUser, ctx.currentCognitoIdentity));
  }

  /** The exception an outcome raises, if any. */
  function Raised(o: AuthOutcome): Option<Failure> {
    if o.Failed? then Some(o.failure) else None
  }

  /** The context's user and identity after an outcome, given what they were before. */
  function ContextAfter(o: AuthOutcome, before: (Option<Payload>, Option<Payload>)): (Option<Payload>, Option<Payload>) {
    match o
    case Authenticated(user, identity) => (Some(user), identity)
    case Failed(_) => before
  }

  /**
   * Authenticating twice in one request, as a gated view that also calls the
   * flow by hand does. Each run decodes afresh; because the flow reads nothing
   * from the context, the second outcome is what its own decoder gives,
   * whatever the first run wrote.
   */
  method AuthenticateTwice(auth: CognitoAuth, ctx: RequestContext, headerValue: Option<string>,
                           decode1: Decoder, decode2: Decoder)
    returns (first: Option<Failure>, second: Option<Failure>)
    modifies ctx`currentCognitoUser, ctx`currentCognitoIdentity
    ensures first == Raised(Authenticate(auth.CurrentSettings(), headerValue, decode1))
    ensures second == Raised(Authenticate(auth.CurrentSettings(), headerValue, decode2))
    ensures (ctx.currentCognitoUser, ctx.currentCognitoIdentity) ==
      ContextAfter(Authenticate(auth.CurrentSettings(), headerValue, decode2),
        ContextAfter(Authenticate(auth.CurrentSettings(), headerValue, decode1),
          (old(ctx.currentCognitoUser), old(ctx.currentCognitoIdentity))))
  {
    var calls;
    first, calls := CognitoAuthRequired(auth, ctx, headerValue, decode1);
    second, calls := CognitoAuthRequired(auth, ctx, headerValue, decode2);
  }

  /**
   * Two runs have the same outcome exactly when their decoders give the same
   * verdict on the flow's call; in particular a repeated run leaves the same user.
   */
  lemma SameVerdictSameOutcome(s: Settings, headerValue: Option<string>, decode1: Decoder, decode2: Decoder)
    ensures Authenticate(s, headerValue, decode1) == Authenticate(s, headerValue, decode2)
            <==> forall q :: q in DecodeCalls(s, headerValue) ==> decode1(q) == decode2(q)
  {
    if DecodeCalls(s, headerValue) != [] {
      assert DecodeCalls(s, headerValue)[0] in DecodeCalls(s, headerValue);
      NoAuthorizationRequired(s, headerValue, decode1);
      if Authenticate(s, headerValue, decode1) == Authenticate(s, headerValue, decode2) {
        forall q | q in DecodeCalls(s, headerValue)
          ensures decode1(q) == decode2(q)
        {
          assert q == DecodeCalls(s, headerValue)[0];
        }
      }
    }
  }

  /** An extraction error propagates unchanged, and the decoder is never called. */
  lemma ExtractionErrorPropagates(s: Settings, headerValue: Option<string>, decode: Decoder)
    requires GetToken(headerValue, s.jwtHeaderPrefix).Raised?
    ensures DecodeCalls(s, headerValue) == []
    ensures Authenticate(s, headerValue, decode) == Failed(GetToken(headerValue, s.jwtHeaderPrefix).failure)
  {
  }

  /**
   * The `token is None` branch is dead: `get_token` returns a token or raises,
   * so the flow never raises 'Authorization Required'.
   */
  lemma NoAuthorizationRequired(s: Settings, headerValue: Option<string>, decode: Decoder)
    ensures GetToken(headerValue, s.jwtHeaderPrefix).Token? ==>
      GetToken(headerValue, s.jwtHeaderPrefix).value.Some?
    ensures var r := Authenticate(s, headerValue, decode);
      r.Failed? && r.failure.AuthFailure? ==> r.failure.err.error != AUTHORIZATION_REQUIRED
  {
  }

  /** A decoder failure with message `m` becomes 'Invalid Cognito Authentication Token' with description `m`. */
  lemma DecoderFailureWrapped(s: Settings, headerValue: Option<string>, decode: Decoder, m: string)
    requires DecodeCalls(s, headerValue) != []
    requires decode(DecodeCalls(s, headerValue)[0]) == Rejected(m)
    ensures Authenticate(s, headerValue, decode) == Failed(AuthFailure(CognitoAuthError(INVALID_TOKEN, m, 401, None)))
  {
  }

  /** Any other exception of the decoder propagates unwrapped, and nothing is written. */
  lemma DecoderExceptionPropagates(s: Settings, headerValue: Option<string>, decode: Decoder, x: string)
    requires DecodeCalls(s, headerValue) != []
    requires decode(DecodeCalls(s, headerValue)[0]) == OtherException(x)
    ensures Authenticate(s, headerValue, decode) == Failed(DecoderException(x))
  {
  }

  /** On a decoded token the user is the payload and the identity is `None`. */
  lemma DecodedPayloadIsUser(s: Settings, headerValue: Option<string>, decode: Decoder, payload: Payload)
    requires DecodeCalls(s, headerValue) != []
    requires decode(DecodeCalls(s, headerValue)[0]) == Decoded(payload)
    ensures Authenticate(s, headerValue, decode) == Authenticated(payload, None)
  {
  }

  /**
   * End to end: a header `prefix + " " + t` makes exactly one decoder call, for
   * `t`, with `testmode` the negation of the expiry setting; the request is
   * authenticated as the decoded payload or fails with the decoder's message.
   */
  lemma WellFormedHeader(s: Settings, sent: string, t: string, decode: Decoder)
    requires s.jwtHeaderPrefix.StrValue?
    requires IsWord(sent) && IsWord(t) && EqualsIgnoreCase(sent, s.jwtHeaderPrefix.s)
    ensures DecodeCalls(s, Some(sent + " " + t)) ==
      [DecodeRequest(t, s.region, s.appClientId, s.userpoolId, !Truthy(s.checkExpiration))]
    ensures Authenticate(s, Some(sent + " " + t), decode) ==
      match decode(DecodeRequest(t, s.region, s.appClientId, s.userpoolId, !Truthy(s.checkExpiration)))
      case Decoded(payload) => Authenticated(payload, None)
      case Rejected(m) => Failed(AuthFailure(NewError(INVALID_TOKEN, m)))
      case OtherException(x) => Failed(DecoderException(x))
  {
    HeaderRoundTrip(sent, s.jwtHeaderPrefix.s, t);
  }

  /**
   * Every typed error of the flow has status 401 and no headers, so the error
   * handler answers it with status 401 and a body whose `status_code` is 401.
   */
  lemma FlowErrorsAre401(s: Settings, headerValue: Option<string>, decode: Decoder)
    ensures var r := Authenticate(s, headerValue, decode);
      r.Failed? && r.failure.AuthFailure? ==>
        && r.failure.err.statusCode == 401 && r.failure.err.headers == None
        && HandleError(r.failure.err).status == 401
        && HandleError(r.failure.err).body[0] == ("status_code", IntField(401))
        && HandleError(r.failure.err).headers == None
  {
  }
}
