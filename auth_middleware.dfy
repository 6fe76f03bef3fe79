/**
 * The request gates of src/middlewares/auth.middleware.js as decision functions.
 * The remote `verify-token` call is an input: `verify` maps a token to what the
 * auth service answers.
 */
module AuthMiddleware {
  import opened Wrappers

  /** The identity the auth service returns (`response.data.user`). */
  datatype User = User(id: string, userId: string, email: string, name: string, role: string)

  /**
   * The verifier's answer: a failed request (it throws), or a success whose body
   * may lack a `user` object.
   */
  datatype Verification = Rejected | Verified(user: Option<User>)

  datatype Outcome = NoToken | Unauthorized | Forbidden | Proceed(user: Option<User>)

  datatype Reply = Reply(code: nat, message: string)

  /** What a gate does to the request: answer it, or set `req.user` and call `next()` once. */
  datatype Effect = Respond(reply: Reply) | Next(user: Option<User>)

  // ---------------------------------------------------------------------------
  // `split(' ')`

  /** JavaScript `s.split(' ')`: the pieces between single spaces, empty pieces kept. */
  function Split(s: string): (parts: seq<string>)
    ensures |parts| >= 1
    ensures forall i :: 0 <= i < |parts| ==> ' ' !in parts[i]
  {
    if s == [] then [""]
    else if s[0] == ' ' then [""] + Split(s[1..])
    else
      var r := Split(s[1..]);
      [[s[0]] + r[0]] + r[1..]
  }

  /** `parts.join(' ')` */
  function Join(parts: seq<string>): string
    requires |parts| >= 1
  {
    if |parts| == 1 then parts[0] else parts[0] + " " + Join(parts[1..])
  }

  lemma {:induction false} SplitThenJoin(s: string)
    ensures Join(Split(s)) == s
  {
    if s != [] {
      SplitThenJoin(s[1..]);
      if s[0] == ' ' {
        assert s == " " + s[1..];
      } else {
        var r := Split(s[1..]);
        if |r| > 1 {
          assert r[1..][0] == r[1] && ([[s[0]] + r[0]] + r[1..])[1..] == r[1..];
        }
        assert s == [s[0]] + s[1..];
      }
    }
  }

  lemma {:induction false} SplitOfSpaceless(a: string)
    requires ' ' !in a
    ensures Split(a) == [a]
  {
    if a != [] {
      assert a[0] in a;
      assert forall c :: c in a[1..] ==> c in a;
      SplitOfSpaceless(a[1..]);
      assert a == [a[0]] + a[1..];
    }
  }

  /** A space-free first word splits off on its own. */
  lemma {:induction false} SplitAfterWord(a: string, b: string)
    requires ' ' !in a
    ensures Split(a + " " + b) == [a] + Split(b)
  {
    if a == [] {
      assert (a + " " + b)[1..] == b;
    } else {
      assert a[0] in a;
      assert forall c :: c in a[1..] ==> c in a;
      SplitAfterWord(a[1..], b);
      assert (a + " " + b)[1..] == a[1..] + " " + b;
      assert a == [a[0]] + a[1..];
    }
  }

  lemma {:induction false} JoinThenSplit(parts: seq<string>)
    requires |parts| >= 1
    requires forall i :: 0 <= i < |parts| ==> ' ' !in parts[i]
    ensures Split(Join(parts)) == parts
  {
    if |parts| == 1 {
      SplitOfSpaceless(parts[0]);
    } else {
      JoinThenSplit(parts[1..]);
      SplitAfterWord(parts[0], Join(parts[1..]));
    }
  }

  // ---------------------------------------------------------------------------
  // Token extraction

  /** `req.headers.authorization?.split(' ')[1]`, where an empty word counts as no token. */
  function BearerToken(header: Option<string>): (t: Option<string>)
    ensures t.Some? ==> t.value != "" && ' ' !in t.value
  {
    match header
    case None => None
    case Some(h) =>
      var words := Split(h);
      if |words| >= 2 && words[1] != "" then Some(words[1]) else None
  }

  /**
   * A header with a space is `scheme + " " + token + rest` with a space-free
   * scheme and token and `rest` empty or starting with a space; its token is
   * that second word, and there is none when the word is empty.
   */
  lemma TokenIsSecondWord(scheme: string, token: string, rest: string)
    requires ' ' !in scheme && ' ' !in token
    requires rest == "" || rest[0] == ' '
    ensures BearerToken(Some(scheme + " " + token + rest)) == if token == "" then None else Some(token)
  {
    var h := scheme + " " + token + rest;
    assert h == scheme + " " + (token + rest);
    SplitAfterWord(scheme, token + rest);
    if rest == "" {
      assert token + rest == token;
      SplitOfSpaceless(token);
    } else {
      assert token + rest == token + " " + rest[1..];
      SplitAfterWord(token, rest[1..]);
    }
  }

  /** A header without a space, such as a bare `Bearer`, carries no token. */
  lemma NoSecondWord(h: string)
    requires ' ' !in h
    ensures BearerToken(Some(h)) == None
  {
    SplitOfSpaceless(h);
  }

  lemma BearerHeader(token: string)
    requires token != "" && ' ' !in token
    ensures BearerToken(Some("Bearer " + token)) == Some(token)
  {
    TokenIsSecondWord("Bearer", token, "");
    assert "Bearer " + token == "Bearer" + " " + token + "";
  }

  // ---------------------------------------------------------------------------
  // The gates

  /** authenticateUser: any verified caller passes, with whatever user the verifier returned. */
  function AuthenticateUser(header: Option<string>, verify: string -> Verification): (r: Outcome)
    ensures r == NoToken <==> BearerToken(header).None?
    ensures r == Unauthorized <==> BearerToken(header).Some? && verify(BearerToken(header).value).Rejected?
    ensures r.Proceed? ==> BearerToken(header).Some? && verify(BearerToken(header).value) == Verified(r.user)
    ensures !r.Forbidden?
  {
    match BearerToken(header)
    case None => NoToken
    case Some(token) =>
      match verify(token)
      case Rejected => Unauthorized
      case Verified(u) => Proceed(u)
  }

  /**
   * authenticateRole(allowedRoles): the verified user's role must be listed.
   * A verifier answer without a user makes `user.role` throw, which the
   * handler's catch turns into 401.
   */
  function AuthenticateRole(allowedRoles: seq<string>, header: Option<string>, verify: string -> Verification): (r: Outcome)
    ensures r == NoToken <==> BearerToken(header).None?
    ensures r.Proceed? ==>
      r.user.Some? && r.user.value.role in allowedRoles &&
      BearerToken(header).Some? && verify(BearerToken(header).value) == Verified(r.user)
    ensures r == Forbidden <==>
      BearerToken(header).Some? && verify(BearerToken(header).value).Verified? &&
      verify(BearerToken(header).value).user.Some? &&
      verify(BearerToken(header).value).user.value.role !in allowedRoles
    ensures r == Unauthorized <==>
      BearerToken(header).Some? &&
      (verify(BearerToken(header).value).Rejected? || verify(BearerToken(header).value).user.None?)
    ensures BearerToken(header).Some? && verify(BearerToken(header).value).Verified? &&
            verify(BearerToken(header).value).user.Some? &&
            verify(BearerToken(header).value).user.value.role in allowedRoles ==>
      r == Proceed(verify(BearerToken(header).value).user)
  {
    match BearerToken(header)
    case None => NoToken
    case Some(token) =>
      match verify(token)
      case Rejected => Unauthorized
      case Verified(None) => Unauthorized
      case Verified(Some(u)) => if u.role in allowedRoles then Proceed(Some(u)) else Forbidden
  }

  /** The response each outcome sends, or the `req.user` assignment and single `next()` call. */
  function EffectOf(o: Outcome): (e: Effect)
    ensures e.Next? <==> o.Proceed?
    ensures e.Respond? ==> e.reply.code == (if o.Forbidden? then 403 else 401)
    ensures o.Proceed? ==> e == Next(o.user)
    ensures o.NoToken? ==> e.reply.message == "No token provided"
    ensures o.Unauthorized? ==> e.reply.message == "Unauthorized"
    ensures o.Forbidden? ==> e.reply.message == "Access denied: insufficient role"
  {
    match o
    case NoToken => Respond(Reply(401, "No token provided"))
    case Unauthorized => Respond(Reply(401, "Unauthorized"))
    case Forbidden => Respond(Reply(403, "Access denied: insufficient role"))
    case Proceed(u) => Next(u)
  }

  // ---------------------------------------------------------------------------
  // What the gates promise

  /** Without a token neither gate consults the verifier. */
  lemma TokenCheckedFirst(allowedRoles: seq<string>, header: Option<string>, v1: string -> Verification, v2: string -> Verification)
    requires BearerToken(header).None?
    ensures AuthenticateUser(header, v1) == AuthenticateUser(header, v2) == NoToken
    ensures AuthenticateRole(allowedRoles, header, v1) == AuthenticateRole(allowedRoles, header, v2) == NoToken
    ensures EffectOf(NoToken) == Respond(Reply(401, "No token provided"))
  {
  }

  /** A 403 means the token was present and verified, and only the role was wrong. */
  lemma ForbiddenMeansVerified(allowedRoles: seq<string>, header: Option<string>, verify: string -> Verification)
    requires AuthenticateRole(allowedRoles, header, verify) == Forbidden
    ensures BearerToken(header).Some?
    ensures verify(BearerToken(header).value).Verified?
    ensures verify(BearerToken(header).value).user.Some?
    ensures verify(BearerToken(header).value).user.value.role !in allowedRoles
  {
  }

  /** A caller the role gate lets through carries a listed role and is the verifier's user. */
  lemma RoleGateProceeds(allowedRoles: seq<string>, header: Option<string>, verify: string -> Verification)
    requires AuthenticateRole(allowedRoles, header, verify).Proceed?
    ensures var u := AuthenticateRole(allowedRoles, header, verify).user;
      u.Some? && u.value.role in allowedRoles &&
      AuthenticateUser(header, verify) == Proceed(u) &&
      EffectOf(Proceed(u)) == Next(u)
  {
  }

  /** With the default `allowedRoles = []` every verified user is refused with 403. */
  lemma DefaultRolesDenyAll(header: Option<string>, verify: string -> Verification)
    requires BearerToken(header).Some?
    requires verify(BearerToken(header).value).Verified?
    requires verify(BearerToken(header).value).user.Some?
    ensures AuthenticateRole([], header, verify) == Forbidden
  {
  }

  /** The two gates agree on every refusal but 403, and a verifier failure is 401 in both. */
  lemma GatesAgreeOnAuthentication(allowedRoles: seq<string>, header: Option<string>, verify: string -> Verification)
    ensures AuthenticateUser(header, verify) == NoToken <==> AuthenticateRole(allowedRoles, header, verify) == NoToken
    ensures AuthenticateUser(header, verify) == Unauthorized ==> AuthenticateRole(allowedRoles, header, verify) == Unauthorized
    ensures AuthenticateRole(allowedRoles, header, verify).Proceed? ==> AuthenticateUser(header, verify).Proceed?
  {
  }
}
