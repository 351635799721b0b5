/** The authentication middleware: `protect` finds the caller from a token,
    `authorize` gates a route on the caller's role. */
module Auth {
  import opened Http
  import Strings
  import opened UserModel

  /** The authenticated caller that `protect` puts on the request. */
  datatype Principal = Principal(id: string, role: string)

  const NotAuthorizedMessage: string := "Not authorized to access this route"
  const UserNotFoundMessage: string := "User not found"

  /** The token `protect` picks: from an Authorization header that starts with
      "Bearer" the second space-separated field (if any), otherwise the cookie. */
  function TokenFrom(authorization: Option<string>, cookieToken: Option<string>): Option<string> {
    if Truthy(authorization) && Strings.StartsWith(authorization.value, "Bearer") then
      var parts := Strings.Split(authorization.value, ' ');
      if |parts| > 1 then Some(parts[1]) else None
    else if Truthy(cookieToken) then cookieToken
    else None
  }

  /** `Bearer <token>` yields the token, whatever the cookie holds. */
  lemma BearerHeaderWins(token: string, cookieToken: Option<string>)
    requires ' ' !in token
    ensures TokenFrom(Some("Bearer " + token), cookieToken) == Some(token)
  {
    var h := "Bearer " + token;
    assert h == "Bearer" + [' '] + token;
    assert h[..6] == "Bearer";
    Strings.SplitAfterPrefix("Bearer", ' ', token);
    Strings.SplitWithoutSeparator(token, ' ');
    assert Strings.Split(h, ' ') == ["Bearer", token];
  }

  /** A header that starts with "Bearer" but has no space gives no token:
      the cookie is not consulted. */
  lemma BareBearerIgnoresCookie(cookieToken: Option<string>)
    ensures TokenFrom(Some("Bearer"), cookieToken) == None
  {
    Strings.SplitWithoutSeparator("Bearer", ' ');
  }

  /** Without a "Bearer" header the cookie token is used when it is non-empty. */
  lemma CookieFallback(authorization: Option<string>, cookieToken: Option<string>)
    requires !(Truthy(authorization) && Strings.StartsWith(authorization.value, "Bearer"))
    ensures TokenFrom(authorization, cookieToken) == (if Truthy(cookieToken) then cookieToken else None)
  {
  }

  /** `protect`. `verify` stands for `jwt.verify` with the server's secret:
      the id the token was signed for, or None when verification throws. */
  method Protect(authorization: Option<string>, cookieToken: Option<string>,
                 verify: string -> Option<string>, users: map<string, User>)
    returns (r: Result<Principal>)
    ensures var t := TokenFrom(authorization, cookieToken);
      r == Err(HttpError(401, NotAuthorizedMessage)) <==> !Truthy(t) || verify(t.value).None?
    ensures var t := TokenFrom(authorization, cookieToken);
      r == Err(HttpError(404, UserNotFoundMessage)) <==>
        Truthy(t) && verify(t.value).Some? && verify(t.value).value !in users
    ensures r.Ok? <==> var t := TokenFrom(authorization, cookieToken);
      Truthy(t) && verify(t.value).Some? && verify(t.value).value in users
    ensures r.Ok? ==> var id := verify(TokenFrom(authorization, cookieToken).value).value;
      r.value == Principal(id, users[id].role)
  {
    var token: Option<string> := None;
    if Truthy(authorization) && Strings.StartsWith(authorization.value, "Bearer") {
      var parts := Strings.Split(authorization.value, ' ');
      if |parts| > 1 {
        token := Some(parts[1]);
      }
    } else if Truthy(cookieToken) {
      token := cookieToken;
    }
    if !Truthy(token) {
      return Err(HttpError(401, NotAuthorizedMessage));
    }
    var decoded := verify(token.value);
    if decoded.None? {
      return Err(HttpError(401, NotAuthorizedMessage));
    }
    if decoded.value !in users {
      return Err(HttpError(404, UserNotFoundMessage));
    }
    r := Ok(Principal(decoded.value, users[decoded.value].role));
  }

  function RoleRefusedMessage(role: string): string {
    "User role " + role + " is not authorized to access this route"
  }

  /** `authorize(...roles)`: 401 without a caller, 403 for a role outside the
      list, the caller otherwise. */
  function Authorize(roles: seq<string>, user: Option<Principal>): (r: Result<Principal>)
    ensures user.None? ==> r == Err(HttpError(401, NotAuthorizedMessage))
    ensures user.Some? && user.value.role !in roles ==> r == Err(HttpError(403, RoleRefusedMessage(user.value.role)))
    ensures r.Ok? <==> user.Some? && user.value.role in roles
    ensures r.Ok? ==> r.value == user.value
  {
    if user.None? then Err(HttpError(401, NotAuthorizedMessage))
    else if user.value.role !in roles then Err(HttpError(403, RoleRefusedMessage(user.value.role)))
    else Ok(user.value)
  }

  /** The roles of `authorize('admin', 'staff')`. */
  const StaffRoles: seq<string> := [AdminRole, StaffRole]

  /** The roles of `authorize('admin')`. */
  const AdminRoles: seq<string> := [AdminRole]

  predicate IsStaff(p: Principal) {
    p.role == AdminRole || p.role == StaffRole
  }

  /** The controllers' owner-or-staff check on an order. */
  predicate MayAccessOrder(p: Principal, owner: string) {
    IsStaff(p) || owner == p.id
  }
}
