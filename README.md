# flask_cognito, modelled in Dafny

A model of the `flask_cognito` extension: Flask middleware that authenticates a
request by a bearer token issued by an AWS Cognito user pool. The model covers
its whole logic:

- the configuration step `init_app`: defaults for header name, header prefix and
  expiry checking, then five required keys (`Config.dfy`, and the `CognitoAuth`
  class in `FlaskCognito.dfy`);
- header parsing `get_token` with Python's `str.split()` and `str.lower()`
  (`Text.dfy`, `Token.dfy`);
- the error value `CognitoAuthError` and its error handler (`Errors.dfy`);
- the request flow `_cognito_auth_required` and the `cognito_auth_required`
  view wrapper, which write the user into a request context object
  (`FlaskCognito.dfy`).

The extension object, the Flask application and the request context are
classes. `CognitoAuth`'s methods change its own fields and, in
`CognitoAuth.SetDefaults`, the application's `config`; the module-level
`CognitoAuthRequired` writes the request context's user and identity.
Header parsing, the required-key reads and error rendering are functions. The token decoder
(`cognitojwt.decode`) is a parameter: a function from the call's arguments to
the claims, the message of a `CognitoJWTException`, or another exception.

The code gives no typed error for a missing or blank header:

- A request without the header does not get a typed "missing header" error. The
  code calls `None.split()` and fails with `AttributeError`.
- A blank header value is not reported as "Token missing". The code indexes
  `parts[0]` of an empty list and fails with `IndexError`.
- Both cases are `Crash` outcomes in the model; `Token.GetToken` states exactly
  when each one happens.

## Model

| member | source | states |
|---|---|---|
| `Text.Split` | flask_cognito.py:79 | every part of `s.split()` is a non-empty run of non-whitespace characters |
| `Text.SplitJoin` | flask_cognito.py:79 | splitting words joined by single spaces gives the same words back |
| `Text.SplitWord` | flask_cognito.py:79 | a single whitespace-free run splits into exactly itself |
| `Text.SplitAtSpace` | flask_cognito.py:79 | the parts of `a`, a whitespace character and `b` are the parts of `a` then those of `b`; with `SplitWord` this fixes `split()` on every string, dropping repeated, leading and trailing whitespace |
| `Text.Lower` | flask_cognito.py:81 | every character is mapped to its lower-case form, the length is kept and no upper-case letter remains |
| `Text.LowerIdempotent` | flask_cognito.py:81 | lowering an already lowered string changes nothing |
| `Text.EqualsIgnoreCase` | flask_cognito.py:81 | the lowered strings are equal exactly when the strings have equal length and agree character by character after lowering |
| `Text.SplitEmptyIff` | flask_cognito.py:79-81 | `s.split()` is empty exactly when `s` is empty or all whitespace |
| `Errors.NewError` | flask_cognito.py:26-31 | an error built from a name and a description has status 401 and no headers |
| `Errors.Str` | flask_cognito.py:36-37 | `str(e)` is the error name, one space, then the description |
| `Errors.Repr` | flask_cognito.py:33-34 | `repr(e)` is the prefix `CognitoAuthError: ` followed by the error name |
| `Errors.ReprIdentifiesError` | flask_cognito.py:33-34 | two errors have the same `repr` exactly when their error names are equal |
| `Errors.HandleError` | flask_cognito.py:98-104 | the body holds `status_code`, `error`, `description` in that order with the error's values; the response carries the error's own status and headers |
| `Errors.HandleErrorRoundTrip` | flask_cognito.py:98-104 | the rendered response determines the error it came from, so nothing is lost |
| `Config.SetDefault` | flask_cognito.py:48 | `setdefault` adds the key only when it is absent and changes no existing key |
| `Config.Truthy` | flask_cognito.py:68 | a value is falsy exactly when it is `None`, `False`, `0` or the empty string |
| `Config.ApplyDefaults` | flask_cognito.py:47-48 | the defaulting loop adds exactly the default keys that were missing and leaves every key already present as it was |
| `Config.ApplyDefaultsValues` | flask_cognito.py:47-48 | each key the loop adds holds its default value |
| `Config.WithDefaults` | flask_cognito.py:10-14 | after the loop, expiry, header name and prefix are the old values when present and `True`, `"Authorization"`, `"Bearer"` otherwise; all other keys are untouched |
| `Config.GetRequiredConfig` | flask_cognito.py:66-70 | succeeds exactly when the key is present with a truthy value and returns that value; otherwise the error message names the key |
| `Config.FirstFalsy` | flask_cognito.py:51-55 | gives the position of the first required key that is absent or falsy, with every earlier key accepted |
| `Config.ConfiguredSettings` | flask_cognito.py:51-58 | `init_app` succeeds exactly when all five required keys are truthy; the fields are then the config values; otherwise the message names the first rejected key |
| `Config.DefaultSettings` | flask_cognito.py:10-58 | with only the three provider coordinates configured, init gives header `Authorization`, prefix `Bearer` and expiry checking on |
| `Config.MissingCoordinate` | flask_cognito.py:51-69 | an absent or falsy region, pool id or client id makes init fail with a message naming that key, when the required keys read before it are accepted |
| `Config.EmptyPrefixNotDefaulted` | flask_cognito.py:47-55 | an explicitly empty prefix is not replaced by the default; init fails naming `COGNITO_JWT_HEADER_PREFIX` |
| `Token.GetToken` | flask_cognito.py:72-88 | returns a token exactly when the value has two parts and the first equals the prefix ignoring case; the token is the second part and holds no whitespace; absent header and non-string prefix crash with `AttributeError`, a blank value with `IndexError`; every typed error is `Invalid Cognito JWT header` with status 401 |
| `Token.GetTokenOfWords` | flask_cognito.py:81-88 | the checks run in order: prefix mismatch (description with both lowered strings), then one part gives "Token missing", then more than two gives "Token contains spaces", else the second part |
| `Token.GetTokenViaWords` | flask_cognito.py:79-88 | any non-blank header is treated as its parts joined by single spaces, so the precedence of `GetTokenOfWords` holds whatever whitespace separates or surrounds the parts |
| `Token.HeaderRoundTrip` | flask_cognito.py:79-88 | the header `prefix + " " + t`, with the prefix in any letter case, yields `t` |
| `Token.LoneForeignPrefix` | flask_cognito.py:81-82 | the lone part `Basic` gives the prefix error, not "Token missing" |
| `Token.PrefixAlone` | flask_cognito.py:83-84 | the header `Bearer` alone gives "Token missing" |
| `Token.TokenWithSpace` | flask_cognito.py:85-86 | `Bearer abc def` gives "Token contains spaces" |
| `Token.LowerCasePrefixAccepted` | flask_cognito.py:81 | `bearer abc` is accepted for prefix `Bearer` and yields `abc` |
| `Token.PaddedForeignPrefix` | flask_cognito.py:79-82 | ` Basic` followed by a tab still gives the prefix error |
| `Token.TabAndSpacesSeparate` | flask_cognito.py:79-88 | `Bearer`, a tab, two spaces and `abc` yields `abc` |
| `FlaskCognito.CognitoAuth.constructor` | flask_cognito.py:41-42 | stores the application and leaves the settings unset |
| `FlaskCognito.NewCognitoAuth` | flask_cognito.py:41-44 | `CognitoAuth(app)` runs `init_app` only when an application is given |
| `FlaskCognito.CognitoAuth.InitApp` | flask_cognito.py:46-58 | applies the defaults to the app's config; fields up to the first rejected key are set and the rest unchanged; on success the fields equal the configured settings, on failure the error message names the key |
| `FlaskCognito.CognitoAuth.SetDefaults` | flask_cognito.py:47-48 | the loop leaves the config equal to the old config with the defaults applied |
| `FlaskCognito.CognitoAuth.ReadRequired` | flask_cognito.py:50-58 | the five required reads stop at the first rejected key; `check_expiration` is set only when all five succeed |
| `FlaskCognito.RequestContext.constructor` | flask_cognito.py:17-20 | a fresh context has no current user and no current identity |
| `FlaskCognito.GetCognitoUser` | flask_cognito.py:90-92 | the user descriptor is the payload itself |
| `FlaskCognito.GetIdentity` | flask_cognito.py:94-96 | no application identity is derived: the result is `None` |
| `FlaskCognito.AuthorizationRequired` | flask_cognito.py:126-129 | the defensive error is `Authorization Required` with status 401 and no headers; its description is, in order and with nothing else, the fixed text, the configured header name, ` beginning with "`, the configured prefix and a closing `"` |
| `FlaskCognito.Authenticate` | flask_cognito.py:119-144 | an extraction error propagates unchanged; the request is authenticated exactly when the decoder accepts the one call, with the payload as user and `None` as identity; a rejection with message M becomes `Invalid Cognito Authentication Token` with description M; any other decoder exception propagates unwrapped |
| `FlaskCognito.DecodeCalls` | flask_cognito.py:131-138 | the decoder is called at most once; it is not called when extraction raises; the call gets the extracted token, the coordinates and `testmode = not check_expiration` |
| `FlaskCognito.CognitoAuthRequired` | flask_cognito.py:119-144 | on success writes exactly the user and the identity into the context; on any failure raises it and leaves the context unchanged; makes the decoder calls above |
| `FlaskCognito.CognitoAuthRequiredView` | flask_cognito.py:107-116 | the view runs only after authentication succeeds and sees the written user; otherwise the exception propagates and the view does not run |
| `FlaskCognito.AuthenticateTwice` | flask_cognito.py:119-144 | each of two runs in one request has the outcome its own decoder gives, since the flow reads nothing from the context; the context ends as the second outcome leaves what the first wrote |
| `FlaskCognito.SameVerdictSameOutcome` | flask_cognito.py:131-144 | two runs have the same outcome exactly when their decoders give the same verdict on the flow's call |
| `FlaskCognito.DecoderExceptionPropagates` | flask_cognito.py:131-139 | a decoder exception other than `CognitoJWTException` propagates unwrapped and nothing is written |
| `FlaskCognito.ExtractionErrorPropagates` | flask_cognito.py:124 | an extraction error propagates unchanged and the decoder is never called |
| `FlaskCognito.NoAuthorizationRequired` | flask_cognito.py:126-129 | `get_token` never returns `None`, so the flow never raises `Authorization Required` |
| `FlaskCognito.DecoderFailureWrapped` | flask_cognito.py:139-141 | a decoder failure with message M becomes `Invalid Cognito Authentication Token` with description M, status 401 and no headers |
| `FlaskCognito.DecodedPayloadIsUser` | flask_cognito.py:143-144 | after a successful decode the user is the payload and the identity is `None` |
| `FlaskCognito.WellFormedHeader` | flask_cognito.py:124-144 | a header `prefix + " " + t` makes one decoder call, for `t`; the outcome is the decoded payload, the wrapped rejection message or the decoder's other exception |
| `FlaskCognito.FlowErrorsAre401` | flask_cognito.py:26-31 | every typed error of the flow has status 401 and no headers; the handler answers it with status 401 and `status_code` 401 |

## Left out

- `cognitojwt.decode` is not modelled: signature checks, key fetching, issuer, audience and expiry checks and the clock belong to a foreign library and the network. The model takes the decoder as a function from its arguments to the claims, the message of a `CognitoJWTException`, or some other exception. Each run of the flow is given its own decoder, so a verdict that changes between runs (a token expiring) is covered.
- Flask and Werkzeug plumbing is not modelled: `LocalProxy`, `_request_ctx_stack`, `current_app.extensions`, `app.errorhandler` registration and `jsonify`. The extension object and the request context are passed explicitly. The rendered body is an ordered list of name/value pairs.
- The header lookup `request.headers.get(name)` is framework code. The flow takes the looked-up value, or `None` when the header is absent. Werkzeug's case-insensitive header names are therefore not modelled.
- `log.exception` calls are I/O only and are left out.
- `Text.Split` and `Text.Lower` are ASCII simplifications. Whitespace is every ASCII character Python's `str.split()` breaks on: space, tab, line feed, vertical tab, form feed, carriage return and the separators U+001C to U+001F. Only `A`-`Z` are lowered. Python's non-ASCII whitespace (such as U+0085 and U+00A0) and Unicode case mapping are not modelled.
- A missing or blank header, and a header prefix that is not a string, end in a `Crash` outcome naming the Python exception. The HTTP 500 response Flask would then send is not modelled.
- Configuration values are `None`, booleans, integers or strings. Other Python types are not modelled.
- Claims are modelled as a map from claim name to string.
- Fields that `init_app` has not yet set read as `None`. In Python, reading them would raise `AttributeError`.
- The insertion order that `setdefault` gives to new keys is not modelled, because the configuration is a map.
- The default `get_cognito_user` and `get_identity` hooks are modelled. Subclasses that override them are not. With the defaults, passing the payload rather than the user to `get_identity` at line 144 makes no difference.
- A view's own arguments are not modelled. A view is a function of the user and identity it reads from the context.
- `FlaskCognito.CognitoAuthRequired`: the unreachable `token is None` branch is an `assert false`. The raise in that branch is modelled in the specification function `Authenticate`, and `FlaskCognito.NoAuthorizationRequired` proves it never happens.
- Concurrency between requests is not modelled. The code has none of its own.
