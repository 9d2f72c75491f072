/** `middleware/auth.ts`: bearer-token authentication and role checks. The auth service's
    `getUser` and the `profiles` lookup are parameters: what each answers for its argument. */
module Auth {
  import opened Common
  import opened Strings
  import opened Http

  /** The user the auth service returns for a token. */
  datatype AuthUser = AuthUser(id: string, email: Option<string>)

  /** `req.headers.authorization?.replace('Bearer ', '')`, and none when that is missing or
      empty (`!token`). */
  function BearerToken(header: Option<string>): (token: Option<string>)
    ensures header.None? ==> token.None?
    ensures token.Some? ==> token.value != "" && |token.value| <= |header.value|
  {
    match header
    case None => None
    case Some(h) =>
      var t := ReplaceFirst(h, "Bearer ", "");
      if t == "" then None else Some(t)
  }

  /** A header `Bearer <rest>` yields `<rest>`, and none when `<rest>` is empty. */
  lemma BearerTokenOfBearerHeader(rest: string)
    ensures BearerToken(Some("Bearer " + rest)) == if rest == "" then None else Some(rest)
  {
    var h := "Bearer " + rest;
    assert OccursAt(h, "Bearer ", 0) by {
      assert h[0..7] == "Bearer ";
    }
    assert IndexOf(h, "Bearer ") == Some(0);
    assert h[..0] + "" + h[7..] == rest;
  }

  /** A header without `Bearer ` in it is used as the token as it is. */
  lemma BearerTokenOfRawHeader(h: string)
    requires !Contains(h, "Bearer ") && h != ""
    ensures BearerToken(Some(h)) == Some(h)
  {
  }

  /** Only the first `Bearer ` anywhere in the header is removed, not a leading prefix. */
  lemma BearerTokenRemovesFirstOccurrence()
    ensures BearerToken(Some("Basic Bearer abc")) == Some("Basic abc")
  {
    var h := "Basic Bearer abc";
    forall j | 0 <= j < 6 ensures !OccursAt(h, "Bearer ", j) {
      assert h[j..j + 7][1] == h[j + 1] != 'e';
    }
    assert OccursAt(h, "Bearer ", 6) by { assert h[6..13] == "Bearer "; }
    assert IndexOf(h, "Bearer ") == Some(6);
    assert h[..6] + "" + h[13..] == "Basic abc" by {
      assert h[..6] == "Basic ";
      assert h[13..] == "abc";
    }
  }

  /** A doubled prefix loses only its first copy. */
  lemma BearerTokenRemovesOneCopy()
    ensures BearerToken(Some("Bearer Bearer x")) == Some("Bearer x")
  {
    BearerTokenOfBearerHeader("Bearer x");
  }

  /** `authenticateUser`: 401 without a token (nothing is looked up), 401 for a token the auth
      service rejects or a user without a profile, 500 when a lookup throws; otherwise
      `req.user` is set from the user and its profile's role, and `next()` is called once. */
  method AuthenticateUser(ex: Exchange, getUser: string -> Lookup<AuthUser>, getProfile: string -> Lookup<Profile>)
    modifies ex
    ensures ex.authorization == old(ex.authorization) && ex.body == old(ex.body)
    ensures ex.params == old(ex.params) && ex.query == old(ex.query)
    ensures var token := BearerToken(old(ex.authorization));
      token.None? ==>
        ex.reply == Some(Reply(401, ErrorBody("Authentication token required"))) &&
        ex.user == old(ex.user) && ex.nextCalls == old(ex.nextCalls)
    ensures var token := BearerToken(old(ex.authorization));
      token.Some? && getUser(token.value).Threw? ==>
        ex.reply == Some(Reply(500, ErrorBody("Authentication failed"))) &&
        ex.user == old(ex.user) && ex.nextCalls == old(ex.nextCalls)
    ensures var token := BearerToken(old(ex.authorization));
      token.Some? && getUser(token.value).Missing? ==>
        ex.reply == Some(Reply(401, ErrorBody("Invalid authentication token"))) &&
        ex.user == old(ex.user) && ex.nextCalls == old(ex.nextCalls)
    ensures var token := BearerToken(old(ex.authorization));
      token.Some? && getUser(token.value).Found? ==>
        var u := getUser(token.value).value;
        match getProfile(u.id)
        case Threw =>
          ex.reply == Some(Reply(500, ErrorBody("Authentication failed"))) &&
          ex.user == old(ex.user) && ex.nextCalls == old(ex.nextCalls)
        case Missing =>
          ex.reply == Some(Reply(401, ErrorBody("User profile not found"))) &&
          ex.user == old(ex.user) && ex.nextCalls == old(ex.nextCalls)
        case Found(p) =>
          ex.user == Some(User(u.id, u.email, p.role, p)) &&
          ex.nextCalls == old(ex.nextCalls) + [Continue] && ex.reply == old(ex.reply)
  {
    var token := BearerToken(ex.authorization);
    if token.None? {
      ex.Send(401, ErrorBody("Authentication token required"));
      return;
    }
    var found := getUser(token.value);
    if found.Threw? {
      ex.Send(500, ErrorBody("Authentication failed"));
      return;
    }
    if found.Missing? {
      ex.Send(401, ErrorBody("Invalid authentication token"));
      return;
    }
    var u := found.value;
    var profile := getProfile(u.id);
    if profile.Threw? {
      ex.Send(500, ErrorBody("Authentication failed"));
      return;
    }
    if profile.Missing? {
      ex.Send(401, ErrorBody("User profile not found"));
      return;
    }
    ex.user := Some(User(u.id, u.email, profile.value.role, profile.value));
    ex.Next(Continue);
  }

  /** The argument of `requireRole`: one role or a list of them. */
  datatype Roles = One(role: string) | Many(roles: seq<string>)

  /** `Array.isArray(roles) ? roles : [roles]`. */
  function AllowedRoles(roles: Roles): (r: seq<string>)
    ensures roles.One? ==> r == [roles.role]
    ensures roles.Many? ==> r == roles.roles
  {
    match roles
    case One(role) => [role]
    case Many(rs) => rs
  }

  datatype Gate = Unauthenticated | Forbidden | Pass

  /** `requireRole`: 401 'Authentication required' without a user, 403 'Insufficient
      permissions' for a role not allowed, `next()` otherwise. */
  function RequireRole(roles: Roles, user: Option<User>): (g: Gate)
    ensures g == Unauthenticated <==> user.None?
    ensures g == Pass <==> user.Some? && user.value.role in AllowedRoles(roles)
    ensures g == Forbidden <==> user.Some? && user.value.role !in AllowedRoles(roles)
  {
    if user.None? then Unauthenticated
    else if user.value.role in AllowedRoles(roles) then Pass
    else Forbidden
  }

  /** The reply a gate sends, when it sends one. */
  function GateReply(g: Gate): Option<Reply> {
    match g
    case Unauthenticated => Some(Reply(401, ErrorBody("Authentication required")))
    case Forbidden => Some(Reply(403, ErrorBody("Insufficient permissions")))
    case Pass => None
  }

  /** The middleware `requireRole(roles)` returns, run on an exchange. */
  method EnforceRole(ex: Exchange, roles: Roles)
    modifies ex
    ensures ex.user == old(ex.user) && ex.body == old(ex.body) && ex.authorization == old(ex.authorization)
    ensures ex.params == old(ex.params) && ex.query == old(ex.query)
    ensures RequireRole(roles, old(ex.user)) == Pass ==>
      ex.nextCalls == old(ex.nextCalls) + [Continue] && ex.reply == old(ex.reply)
    ensures RequireRole(roles, old(ex.user)) != Pass ==>
      ex.nextCalls == old(ex.nextCalls) && ex.reply == GateReply(RequireRole(roles, old(ex.user)))
  {
    var g := RequireRole(roles, ex.user);
    if g == Pass {
      ex.Next(Continue);
    } else {
      var reply := GateReply(g).value;
      ex.Send(reply.status, reply.body);
    }
  }

  const AdminRoles: Roles := One("admin")
  const ExpertRoles: Roles := Many(["expert", "admin"])

  /** `requireAdmin` admits exactly the role `admin`. */
  lemma RequireAdminIff(user: User)
    ensures RequireRole(AdminRoles, Some(user)) == Pass <==> user.role == "admin"
  {
  }

  /** `requireExpert` admits exactly the roles `expert` and `admin`: a client is refused. */
  lemma RequireExpertIff(user: User)
    ensures RequireRole(ExpertRoles, Some(user)) == Pass <==> user.role == "expert" || user.role == "admin"
    ensures user.role == "client" ==> RequireRole(ExpertRoles, Some(user)) == Forbidden
  {
  }
}
