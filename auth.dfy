/**
 * The authentication middleware: the bearer token is the second space-separated piece of the
 * `Authorization` header (the header form of section 2.1 of RFC 6750, except that the scheme
 * word is never checked), the token verifier decides whether it is valid, and the role gate
 * admits a user whose role is in a given list.
 */
module AuthMiddleware {
  import opened Wrappers
  import opened Text

  /** The payload of a valid token; any of its fields may be absent. */
  datatype Claims = Claims(userId: Option<string>, email: Option<string>, role: Option<string>)

  /** What a middleware does with a request: answer it with an error, or call `next` with the user. */
  datatype Outcome = Refuse(code: nat, error: string) | Next(user: Claims)

  /** `header.split(' ')[1]`: the text between the first space and the next one (or the end). */
  function SecondPiece(header: string): (r: Option<string>)
    ensures r.None? <==> ' ' !in header
    ensures r.Some? ==> ' ' !in r.value && |r.value| < |header|
  {
    match IndexOf(header, ' ')
    case None => None
    case Some(i) => Some(Before(header[i + 1..], ' '))
  }

  /** Any scheme word, a space, the token, then nothing or a space: the token is the second piece. */
  lemma SecondPieceOfBearer(scheme: string, token: string, rest: string)
    requires ' ' !in scheme && ' ' !in token
    requires rest == [] || rest[0] == ' '
    ensures SecondPiece(scheme + " " + token + rest) == Some(token)
  {
    var header := scheme + " " + token + rest;
    assert header[..|scheme|] == scheme;
    assert header[|scheme|] == ' ';
    assert IndexOf(header, ' ') == Some(|scheme|);
    var after := header[|scheme| + 1..];
    assert after == token + rest;
    assert after[..|token|] == token;
    if rest == [] {
      assert after == token;
      assert Before(after, ' ') == token;
    } else {
      assert after[|token|] == ' ';
      assert IndexOf(after, ' ') == Some(|token|);
    }
  }

  /** Conversely every second piece comes from such a header: scheme, space, piece, the rest. */
  lemma SecondPieceSplits(header: string)
    requires SecondPiece(header).Some?
    ensures exists scheme, rest :: SplitsAs(header, scheme, SecondPiece(header).value, rest)
  {
    var scheme, rest := SplitWitness(header);
    assert SplitsAs(header, scheme, SecondPiece(header).value, rest);
  }

  /** `header` is a scheme word without spaces, a space, `token`, then nothing or a space and more. */
  predicate SplitsAs(header: string, scheme: string, token: string, rest: string)
  {
    ' ' !in scheme && (rest == [] || rest[0] == ' ') && header == scheme + " " + token + rest
  }

  lemma SplitWitness(header: string) returns (scheme: string, rest: string)
    requires SecondPiece(header).Some?
    ensures ' ' !in scheme && (rest == [] || rest[0] == ' ')
    ensures header == scheme + " " + SecondPiece(header).value + rest
  {
    var i := IndexOf(header, ' ').value;
    var after := header[i + 1..];
    var token := Before(after, ' ');
    scheme, rest := header[..i], after[|token|..];
    SplitAround(header, i);
    SplitAfterPiece(after);
    Regroup(scheme, " ", token, rest);
  }

  lemma SplitAround(s: string, i: nat)
    requires i < |s| && s[i] == ' '
    ensures s == s[..i] + (" " + s[i + 1..])
  {
  }

  lemma SplitAfterPiece(s: string)
    ensures s == Before(s, ' ') + s[|Before(s, ' ')|..]
  {
  }

  lemma Regroup(a: string, b: string, c: string, d: string)
    ensures a + (b + (c + d)) == a + b + c + d
  {
  }

  /**
   * `authHeader && authHeader.split(' ')[1]`, then `if (!token)`: a missing or empty header,
   * a header without a space, and an empty second piece all leave no token.
   */
  function ExtractToken(header: Option<string>): (r: Option<string>)
    ensures r.Some? ==> r.value != "" && ' ' !in r.value
    ensures header.None? || header.value == "" ==> r.None?
  {
    if header.None? || header.value == "" then None
    else
      match SecondPiece(header.value)
      case None => None
      case Some(t) => if t == "" then None else Some(t)
  }

  /**
   * `authenticateToken`: 401 without a token, 403 when the verifier rejects it, and otherwise
   * the verified payload is attached and `next` is called.
   */
  function Authenticate(header: Option<string>, verify: string -> Option<Claims>): (o: Outcome)
    ensures o.Next? <==> ExtractToken(header).Some? && verify(ExtractToken(header).value).Some?
    ensures o.Next? ==> o.user == verify(ExtractToken(header).value).value
    ensures o.Refuse? && ExtractToken(header).None? ==> o == Refuse(401, "Access token required")
    ensures o.Refuse? && ExtractToken(header).Some? ==> o == Refuse(403, "Invalid or expired token")
  {
    match ExtractToken(header)
    case None => Refuse(401, "Access token required")
    case Some(token) =>
      match verify(token)
      case None => Refuse(403, "Invalid or expired token")
      case Some(user) => Next(user)
  }

  /** A well-formed header with a token the verifier accepts lets the request through. */
  lemma BearerTokenAdmits(scheme: string, token: string, verify: string -> Option<Claims>)
    requires ' ' !in scheme && ' ' !in token && token != ""
    requires verify(token).Some?
    ensures Authenticate(Some(scheme + " " + token), verify) == Next(verify(token).value)
  {
    SecondPieceOfBearer(scheme, token, "");
    assert scheme + " " + token + "" == scheme + " " + token;
  }

  /** The scheme word is not looked at: any two schemes give the same outcome for one token. */
  lemma SchemeNotChecked(scheme1: string, scheme2: string, token: string, verify: string -> Option<Claims>)
    requires ' ' !in scheme1 && ' ' !in scheme2 && ' ' !in token
    ensures Authenticate(Some(scheme1 + " " + token), verify) == Authenticate(Some(scheme2 + " " + token), verify)
  {
    SecondPieceOfBearer(scheme1, token, "");
    SecondPieceOfBearer(scheme2, token, "");
    assert scheme1 + " " + token + "" == scheme1 + " " + token;
    assert scheme2 + " " + token + "" == scheme2 + " " + token;
  }

  /** A header that is only a token, with no scheme word before it, is refused with 401. */
  lemma BareTokenRefused(token: string, verify: string -> Option<Claims>)
    requires ' ' !in token
    ensures Authenticate(Some(token), verify) == Refuse(401, "Access token required")
  {
  }

  /** `authorizeRole(...roles)`: `next` exactly when the user's role is one of `roles`, else 403. */
  function AuthorizeRole(roles: seq<string>, user: Claims): (o: Outcome)
    ensures o.Next? <==> user.role.Some? && user.role.value in roles
    ensures o.Next? ==> o.user == user
    ensures o.Refuse? ==> o == Refuse(403, "Insufficient permissions")
  {
    if user.role.Some? && user.role.value in roles then Next(user)
    else Refuse(403, "Insufficient permissions")
  }

  /** With no roles listed, every user is refused. */
  lemma NoRolesRefusesEveryone(user: Claims)
    ensures AuthorizeRole([], user) == Refuse(403, "Insufficient permissions")
  {
  }
}
