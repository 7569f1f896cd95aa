/**
 * Bearer-token extraction for protected routes: read the `Authorization`
 * header, insist on a case-insensitive `bearer ` scheme, take the rest as the
 * token and hand it to the JWT verifier with fixed parameters. The verifier
 * (`jose.jwt.decode`) is an opaque oracle passed in as `decode`.
 */
module Auth {
  import opened Wrappers

  const Algorithm := "HS256"
  const BearerScheme := "bearer "
  const Unauthorized401 := 401
  const MissingBearerDetail := "Missing bearer token"
  const InvalidTokenDetail := "Invalid token: "
  const MissingConfigMessage := "Missing SUPABASE_JWT_SECRET or SUPABASE_ISS"

  /** The verifier's configuration, read from the environment when the module loads. */
  datatype Config = Config(jwtSecret: string, issuer: string)

  /** The arguments the verifier is called with besides the token. */
  datatype DecodeOptions = DecodeOptions(key: string, algorithms: seq<string>, issuer: string, verifyAud: bool)

  /** What the verifier does with a token: the decoded claims, or a `JWTError` and its message. */
  datatype DecodeOutcome<C> = Decoded(claims: C) | JwtError(message: string)

  /** An HTTP 401 with its detail, or the claims and the raw token. */
  datatype AuthOutcome<C> = Unauthorized(statusCode: int, detail: string) | Authenticated(claims: C, token: string)

  predicate Loaded(cfg: Config) {
    cfg.jwtSecret != "" && cfg.issuer != ""
  }

  /** Module load: both variables must be set and non-empty, or loading raises. */
  function LoadConfig(secretEnv: Option<string>, issuerEnv: Option<string>): (r: Result<Config, string>)
    ensures r.Success? <==> secretEnv.Some? && secretEnv.value != "" && issuerEnv.Some? && issuerEnv.value != ""
    ensures r.Success? ==> Loaded(r.value) &&
                           r.value.jwtSecret == secretEnv.value && r.value.issuer == issuerEnv.value
    ensures r.Failure? ==> r.error == MissingConfigMessage
  {
    if secretEnv.None? || secretEnv.value == "" || issuerEnv.None? || issuerEnv.value == "" then
      Failure(MissingConfigMessage)
    else
      Success(Config(secretEnv.value, issuerEnv.value))
  }

  /** Lower-casing one character: an upper-case ASCII letter becomes its lower-case letter, anything else is kept. */
  function LowerAscii(c: char): (r: char)
    ensures !('A' <= r <= 'Z')
    ensures r == c || ('A' <= c <= 'Z' && r as int == c as int + 32)
  {
    if 'A' <= c <= 'Z' then (c as int - 'A' as int + 'a' as int) as char else c
  }

  /** `s.lower()`, for ASCII letters. */
  function Lower(s: string): (r: string)
    ensures |r| == |s|
    ensures forall i | 0 <= i < |s| :: r[i] == LowerAscii(s[i])
  {
    if s == [] then [] else [LowerAscii(s[0])] + Lower(s[1..])
  }

  predicate StartsWith(s: string, p: string) {
    |p| <= |s| && s[..|p|] == p
  }

  /** The scheme check: `auth.lower().startswith("bearer ")`. */
  predicate HasBearerScheme(auth: string)
    ensures HasBearerScheme(auth) ==> |auth| >= 7 && auth[6] == ' '
  {
    StartsWith(Lower(auth), BearerScheme)
  }

  /** The scheme check character by character: seven characters that lower-case to `bearer `. */
  predicate BearerPrefix(auth: string) {
    |auth| >= 7 && forall i | 0 <= i < 7 :: LowerAscii(auth[i]) == "bearer "[i]
  }

  lemma HasBearerSchemeIff(auth: string)
    ensures HasBearerScheme(auth) <==> BearerPrefix(auth)
  {
  }

  /** The index of the first `sep` in `s`, if any. */
  function FirstIndexOf(s: string, sep: char): (r: Option<nat>)
    ensures r.Some? ==> r.value < |s| && s[r.value] == sep &&
                        forall j | 0 <= j < r.value :: s[j] != sep
    ensures r.None? ==> forall j | 0 <= j < |s| :: s[j] != sep
  {
    if s == [] then None
    else if s[0] == sep then Some(0)
    else match FirstIndexOf(s[1..], sep)
      case Some(i) => Some(i + 1)
      case None => None
  }

  /** `s.split(sep, 1)`: the whole string, or the parts before and after the first `sep`. */
  function SplitOnce(s: string, sep: char): (parts: seq<string>)
    ensures 1 <= |parts| <= 2
    ensures |parts| == 1 <==> sep !in s
    ensures |parts| == 1 ==> parts[0] == s
    ensures |parts| == 2 ==> s == parts[0] + [sep] + parts[1] && sep !in parts[0]
  {
    match FirstIndexOf(s, sep)
    case None => [s]
    case Some(i) =>
      assert s == s[..i] + [sep] + s[i + 1..];
      [s[..i], s[i + 1..]]
  }

  /** After a bearer scheme the first space is the one at index 6, so the split never lacks a second part. */
  lemma BearerSplit(auth: string)
    requires HasBearerScheme(auth)
    ensures var parts := SplitOnce(auth, ' '); |parts| == 2 && parts[1] == auth[7..]
  {
    HasBearerSchemeIff(auth);
    assert forall j | 0 <= j < 6 :: auth[j] != ' ' by {
      forall j | 0 <= j < 6 ensures auth[j] != ' ' {
        assert LowerAscii(auth[j]) == "bearer "[j];
      }
    }
    assert auth[6] == ' ';
    assert FirstIndexOf(auth, ' ') == Some(6);
  }

  /** The fixed verification parameters: the configured secret, HS256 only, the configured issuer, no audience check. */
  function DecodeOptionsFor(cfg: Config): (opts: DecodeOptions)
    ensures opts.algorithms == ["HS256"] && !opts.verifyAud
    ensures opts.key == cfg.jwtSecret && opts.issuer == cfg.issuer
    ensures Loaded(cfg) ==> opts.key != "" && opts.issuer != ""
  {
    DecodeOptions(cfg.jwtSecret, [Algorithm], cfg.issuer, false)
  }

  /**
   * `get_claims_and_token`, given the `Authorization` header if the request
   * has one. A missing or non-bearer header is a 401 before the verifier is
   * consulted; a verifier error is a 401 carrying its message; otherwise the
   * verifier's claims and the header minus its first seven characters.
   */
  function GetClaimsAndToken<C>(cfg: Config, authorization: Option<string>,
                                decode: (string, DecodeOptions) -> DecodeOutcome<C>): (r: AuthOutcome<C>)
    requires Loaded(cfg)
    ensures r.Unauthorized? ==> r.statusCode == 401
    ensures authorization.None? ==> r == Unauthorized(401, "Missing bearer token")
    ensures var auth := authorization.GetOr("");
      if !BearerPrefix(auth) then
        r == Unauthorized(401, "Missing bearer token")
      else
        match decode(auth[7..], DecodeOptions(cfg.jwtSecret, ["HS256"], cfg.issuer, false))
        case JwtError(message) => r == Unauthorized(401, "Invalid token: " + message)
        case Decoded(claims) => r == Authenticated(claims, auth[7..])
  {
    var auth := authorization.GetOr("");
    HasBearerSchemeIff(auth);
    if !HasBearerScheme(auth) then
      Unauthorized(Unauthorized401, MissingBearerDetail)
    else
      BearerSplit(auth);
      var token := SplitOnce(auth, ' ')[1];
      match decode(token, DecodeOptionsFor(cfg))
      case JwtError(e) => Unauthorized(Unauthorized401, InvalidTokenDetail + e)
      case Decoded(claims) => Authenticated(claims, token)
  }

  /** When the scheme check fails the verifier has no influence on the outcome: it is never consulted. */
  lemma RejectedWithoutDecoding<C>(cfg: Config, authorization: Option<string>,
                                   d1: (string, DecodeOptions) -> DecodeOutcome<C>,
                                   d2: (string, DecodeOptions) -> DecodeOutcome<C>)
    requires Loaded(cfg)
    requires !HasBearerScheme(authorization.GetOr(""))
    ensures GetClaimsAndToken(cfg, authorization, d1) == GetClaimsAndToken(cfg, authorization, d2)
    ensures GetClaimsAndToken(cfg, authorization, d1) == Unauthorized(401, "Missing bearer token")
  {
  }

  /** On acceptance the outcome depends on the verifier only through its answer for this one token and these options. */
  lemma DecodedOnce<C>(cfg: Config, authorization: Option<string>,
                       d1: (string, DecodeOptions) -> DecodeOutcome<C>,
                       d2: (string, DecodeOptions) -> DecodeOutcome<C>)
    requires Loaded(cfg)
    requires HasBearerScheme(authorization.GetOr(""))
    requires var auth := authorization.GetOr("");
      d1(auth[7..], DecodeOptionsFor(cfg)) == d2(auth[7..], DecodeOptionsFor(cfg))
    ensures GetClaimsAndToken(cfg, authorization, d1) == GetClaimsAndToken(cfg, authorization, d2)
  {
  }

  /**
   * The raw token is the header after its scheme, unchanged: re-presenting it
   * as `Bearer {token}` rebuilds the header whenever the client spelled the
   * scheme `Bearer `.
   */
  lemma TokenIsHeaderRemainder<C>(cfg: Config, auth: string, decode: (string, DecodeOptions) -> DecodeOutcome<C>)
    requires Loaded(cfg)
    requires GetClaimsAndToken(cfg, Some(auth), decode).Authenticated?
    ensures var token := GetClaimsAndToken(cfg, Some(auth), decode).token;
      HasBearerScheme(auth) && auth == auth[..7] + token &&
      (StartsWith(auth, "Bearer ") ==> "Bearer " + token == auth)
  {
  }

  lemma AcceptedExamples()
    ensures HasBearerScheme("Bearer x") && HasBearerScheme("BEARER x") && HasBearerScheme("bEaReR x")
  {
    assert BearerPrefix("Bearer x");
    HasBearerSchemeIff("Bearer x");
    assert BearerPrefix("BEARER x");
    HasBearerSchemeIff("BEARER x");
    assert BearerPrefix("bEaReR x");
    HasBearerSchemeIff("bEaReR x");
  }

  lemma RejectedExamples()
    ensures !HasBearerScheme("Bearer") && !HasBearerScheme("Bearerx") && !HasBearerScheme("Token x")
  {
    HasBearerSchemeIff("Bearerx");
    assert LowerAscii("Bearerx"[6]) != "bearer "[6];
    HasBearerSchemeIff("Token x");
    assert LowerAscii("Token x"[0]) != "bearer "[0];
  }

  lemma TokenExamples<C>(cfg: Config, claims: C)
    requires Loaded(cfg)
    ensures GetClaimsAndToken(cfg, Some("Bearer  a b"), (t, o) => Decoded(claims)) == Authenticated(claims, " a b")
    ensures GetClaimsAndToken(cfg, Some("Bearer "), (t, o) => Decoded(claims)) == Authenticated(claims, "")
  {
    assert BearerPrefix("Bearer  a b") && "Bearer  a b"[7..] == " a b";
    assert BearerPrefix("Bearer ") && "Bearer "[7..] == "";
  }

  lemma InvalidTokenExample<C>(cfg: Config)
    requires Loaded(cfg)
    ensures GetClaimsAndToken(cfg, Some("Bearer x"), (t, o) => DecodeOutcome<C>.JwtError("Signature has expired."))
            == Unauthorized(401, "Invalid token: Signature has expired.")
  {
    assert BearerPrefix("Bearer x");
    assert "Invalid token: " + "Signature has expired." == "Invalid token: Signature has expired.";
  }

  lemma MissingBearerExample<C>(cfg: Config, claims: C)
    requires Loaded(cfg)
    ensures GetClaimsAndToken(cfg, Some("Token x"), (t, o) => Decoded(claims))
            == Unauthorized(401, "Missing bearer token")
    ensures GetClaimsAndToken(cfg, None, (t, o) => Decoded(claims))
            == Unauthorized(401, "Missing bearer token")
  {
  }
}
