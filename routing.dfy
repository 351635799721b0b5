/** Express dispatch as the route files use it: routes in registration order,
    each a path pattern, a verb and its middleware stages. */
module Routing {
  import opened Http
  import Auth

  datatype Segment = Lit(name: string) | Param

  /** The middleware in front of a controller. Validator chains only record
      their errors for the controller; the upload parser either attaches the
      file or ends the request with the error it passes to `next`. */
  datatype Stage = Protect | Authorize(roles: seq<string>) | Validate | Upload

  datatype Route<E> = Route(path: seq<Segment>, verb: Verb, endpoint: E, stages: seq<Stage>)

  /** ASCII letters folded to lower case. A case-insensitive JavaScript
      regular expression without the `u` flag never folds a non-ASCII character
      onto an ASCII one, so against the ASCII literals of the route files this
      is exactly its comparison. */
  function FoldCase(c: char): char {
    if 'A' <= c <= 'Z' then (c as int + 32) as char else c
  }

  predicate SameIgnoringCase(a: string, b: string) {
    |a| == |b| && forall k :: 0 <= k < |a| ==> FoldCase(a[k]) == FoldCase(b[k])
  }

  predicate SegmentsMatch(pattern: seq<Segment>, path: seq<string>) {
    && |pattern| == |path|
    && forall i :: 0 <= i < |path| ==>
         (if pattern[i].Lit? then SameIgnoringCase(path[i], pattern[i].name) else path[i] != "")
  }

  /** A request path, as its segments after the mount point (a trailing slash
      is a last empty segment), against a route pattern. `express.Router()`
      with no options is case-insensitive and not strict: literals match in
      any case, and one trailing slash is ignored. */
  predicate PathMatches(pattern: seq<Segment>, path: seq<string>) {
    || SegmentsMatch(pattern, path)
    || (|path| == |pattern| + 1 && path[|pattern|] == "" && SegmentsMatch(pattern, path[..|pattern|]))
  }

  predicate Handles<E>(route: Route<E>, verb: Verb, path: seq<string>) {
    route.verb == verb && PathMatches(route.path, path)
  }

  /** The index of the first route, from `from` on, that handles the request. */
  function FirstHandler<E>(routes: seq<Route<E>>, verb: Verb, path: seq<string>, from: nat): (r: Option<nat>)
    requires from <= |routes|
    ensures r.Some? ==> from <= r.value < |routes| && Handles(routes[r.value], verb, path)
    ensures r.Some? ==> forall j :: from <= j < r.value ==> !Handles(routes[j], verb, path)
    ensures r.None? ==> forall j :: from <= j < |routes| ==> !Handles(routes[j], verb, path)
    decreases |routes| - from
  {
    if from == |routes| then None
    else if Handles(routes[from], verb, path) then Some(from)
    else FirstHandler(routes, verb, path, from + 1)
  }

  /** The first route that handles a request is the one Express dispatches to. */
  lemma {:induction false} FirstHandlerIs<E>(routes: seq<Route<E>>, verb: Verb, path: seq<string>, from: nat, k: nat)
    requires from <= k < |routes|
    requires Handles(routes[k], verb, path)
    requires forall j :: from <= j < k ==> !Handles(routes[j], verb, path)
    ensures FirstHandler(routes, verb, path, from) == Some(k)
    decreases k - from
  {
    if from < k {
      FirstHandlerIs(routes, verb, path, from + 1, k);
    }
  }

  const NoRouteMessage: string := "Not Found - The requested resource does not exist"

  /** Runs the stages in order. `authenticated` is what `protect` yields for
      this request, and `uploadError` the message of the error, if any, that
      multer passes to `next` for its multipart body (an unexpected file
      field, or a refusal by the upload middleware's filter or limits). Such an
      error carries no status, so the error handler answers 500. The result is
      the caller the controller sees, if any. */
  function RunStages(stages: seq<Stage>, authenticated: Result<Auth.Principal>, uploadError: Option<string>,
                     user: Option<Auth.Principal>): Result<Option<Auth.Principal>>
    decreases |stages|
  {
    if stages == [] then Ok(user)
    else
      match stages[0]
      case Protect =>
        if authenticated.Err? then Err(authenticated.failure)
        else RunStages(stages[1..], authenticated, uploadError, Some(authenticated.value))
      case Authorize(roles) =>
        var gate := Auth.Authorize(roles, user);
        if gate.Err? then Err(gate.failure) else RunStages(stages[1..], authenticated, uploadError, user)
      case Validate => RunStages(stages[1..], authenticated, uploadError, user)
      case Upload =>
        if uploadError.Some? then Err(HttpError(UnhandledStatus, uploadError.value))
        else RunStages(stages[1..], authenticated, uploadError, user)
  }

  datatype Admission<E> = Admission(endpoint: E, user: Option<Auth.Principal>)

  /** Which controller a request reaches, and as whom, or why it stops earlier. */
  function Dispatch<E>(routes: seq<Route<E>>, verb: Verb, path: seq<string>, authenticated: Result<Auth.Principal>,
                       uploadError: Option<string>): Result<Admission<E>> {
    match FirstHandler(routes, verb, path, 0)
    case None => Err(HttpError(404, NoRouteMessage))
    case Some(k) =>
      match RunStages(routes[k].stages, authenticated, uploadError, None)
      case Err(f) => Err(f)
      case Ok(user) => Ok(Admission(routes[k].endpoint, user))
  }

  /** A route guarded by `protect` alone admits exactly the authenticated callers. */
  lemma ProtectOnly(authenticated: Result<Auth.Principal>, uploadError: Option<string>)
    ensures RunStages([Protect], authenticated, uploadError, None) ==
      if authenticated.Ok? then Ok(Some(authenticated.value)) else Err(authenticated.failure)
  {
  }

  /** A route guarded by `protect` and `authorize(roles)`, then validators and
      perhaps the upload parser, admits exactly the authenticated callers whose
      role is listed and whose upload, if the route parses one, succeeds. */
  lemma ProtectThenAuthorize(roles: seq<string>, authenticated: Result<Auth.Principal>, uploadError: Option<string>,
                             rest: seq<Stage>)
    requires forall i :: 0 <= i < |rest| ==> rest[i] == Validate || rest[i] == Upload
    ensures var r := RunStages([Protect, Authorize(roles)] + rest, authenticated, uploadError, None);
      && (authenticated.Err? ==> r == Err(authenticated.failure))
      && (authenticated.Ok? && authenticated.value.role !in roles ==>
            r == Err(HttpError(403, Auth.RoleRefusedMessage(authenticated.value.role))))
      && (authenticated.Ok? && authenticated.value.role in roles && uploadError.Some? && Upload in rest ==>
            r == Err(HttpError(UnhandledStatus, uploadError.value)))
      && (r.Ok? <==> authenticated.Ok? && authenticated.value.role in roles && (uploadError.None? || Upload !in rest))
      && (r.Ok? ==> r.value == Some(authenticated.value))
  {
    var stages := [Protect, Authorize(roles)] + rest;
    assert stages[0] == Protect;
    assert stages[1..] == [Authorize(roles)] + rest;
    if authenticated.Ok? {
      var user := Some(authenticated.value);
      assert stages[1..][0] == Authorize(roles);
      assert stages[1..][1..] == rest;
      if authenticated.value.role in roles {
        PassThrough(rest, authenticated, uploadError, user);
      }
    }
  }

  /** Validators never stop a request; the upload parser stops it exactly when
      multer reports an error, with a 500. */
  lemma {:induction false} PassThrough(stages: seq<Stage>, authenticated: Result<Auth.Principal>, uploadError: Option<string>,
                                       user: Option<Auth.Principal>)
    requires forall i :: 0 <= i < |stages| ==> stages[i] == Validate || stages[i] == Upload
    ensures RunStages(stages, authenticated, uploadError, user) ==
      if uploadError.Some? && Upload in stages then Err(HttpError(UnhandledStatus, uploadError.value)) else Ok(user)
    decreases |stages|
  {
    if stages != [] {
      PassThrough(stages[1..], authenticated, uploadError, user);
      assert Upload in stages <==> stages[0] == Upload || Upload in stages[1..];
    }
  }
}
