/**
 The `delete-user` edge function as a decision procedure. The platform
 services it calls (`auth.getUser`, the `has_role` RPC, `auth.admin.deleteUser`)
 are parameters; the outcome records the response, whether the request body
 was read, and which user id, if any, was handed to `deleteUser`.
 */
module DeleteUser {
  import opened Common
  import opened Http

  /** What `req.json()` yields: a parse failure, or the `userId` field. */
  datatype JsonBody = Unparsable(message: string) | Parsed(userId: Option<string>)

  datatype Request = Request(verb: string, authorization: Option<string>, body: JsonBody)

  /** `{ data: { user }, error }` of `getUser`, with the user's id. */
  datatype GetUserAnswer = GetUserAnswer(error: Option<string>, userId: Option<string>)

  /** A thrown value: an `Error` with its message, or anything else. */
  datatype Thrown = ErrorValue(message: string) | OtherValue

  /** The services, as functions of what the handler passes them. */
  datatype Services = Services(
    getUser: string -> GetUserAnswer,      // keyed by the Authorization header
    hasAdminRole: string -> bool,          // has_role(id, 'admin'); a failed RPC answers false
    deleteUser: string -> Option<Thrown>)  // the error deleteUser reports, if any

  datatype Outcome = Outcome(response: Response, bodyRead: bool, deleted: Option<string>)

  const NoAuthHeader: string := "No authorization header"
  const Unauthorized: string := "Unauthorized"
  const OnlyAdmins: string := "Only admins can delete users"
  const UserIdRequired: string := "User ID is required"
  const UnknownError: string := "An unknown error occurred"
  const DeletedMessage: string := "User deleted successfully"

  /** The catch block: the error's message, or a generic one for non-errors. */
  function ErrorResponse(t: Thrown): (r: Response)
    ensures r.status == 500 && CarriesCors(r)
    ensures t.ErrorValue? ==> r.body == ErrorJson(t.message)
    ensures t.OtherValue? ==> r.body == ErrorJson(UnknownError)
  {
    JsonResponse(500, ErrorJson(if t.ErrorValue? then t.message else UnknownError))
  }

  /** Every check a deletion needs: not a preflight, a non-empty header, an
      authenticated caller, an admin caller, a readable non-empty `userId`. */
  predicate ChecksPass(req: Request, svc: Services) {
    && req.verb != OptionsMethod
    && Truthy(req.authorization)
    && svc.getUser(req.authorization.value).error.None?
    && svc.getUser(req.authorization.value).userId.Some?
    && svc.hasAdminRole(svc.getUser(req.authorization.value).userId.value)
    && req.body.Parsed?
    && Truthy(req.body.userId)
  }

  /** The request handler, checks in source order. */
  function Handle(req: Request, svc: Services): (o: Outcome)
    ensures CarriesCors(o.response)
    ensures o.deleted.Some? <==> ChecksPass(req, svc)
    ensures o.deleted.Some? ==> o.deleted == req.body.userId
    ensures o.response.status == 200 <==>
              req.verb == OptionsMethod || (o.deleted.Some? && svc.deleteUser(o.deleted.value).None?)
    ensures o.response.status in {200, 403, 500}
    ensures o.response.status == 403 <==>
              && req.verb != OptionsMethod && Truthy(req.authorization)
              && svc.getUser(req.authorization.value).error.None?
              && svc.getUser(req.authorization.value).userId.Some?
              && !svc.hasAdminRole(svc.getUser(req.authorization.value).userId.value)
  {
    if req.verb == OptionsMethod then Outcome(Preflight(), false, None)
    else if !Truthy(req.authorization) then
      Outcome(ErrorResponse(ErrorValue(NoAuthHeader)), false, None)
    else
      var who := svc.getUser(req.authorization.value);
      if who.error.Some? || who.userId.None? then
        Outcome(ErrorResponse(ErrorValue(Unauthorized)), false, None)
      else if !svc.hasAdminRole(who.userId.value) then
        Outcome(JsonResponse(403, ErrorJson(OnlyAdmins)), false, None)
      else match req.body
        case Unparsable(msg) => Outcome(ErrorResponse(ErrorValue(msg)), true, None)
        case Parsed(userId) =>
          if !Truthy(userId) then Outcome(ErrorResponse(ErrorValue(UserIdRequired)), true, None)
          else match svc.deleteUser(userId.value)
            case Some(err) => Outcome(ErrorResponse(err), true, userId)
            case None =>
              Outcome(JsonResponse(200, SuccessJson(Some(DeletedMessage))), true, userId)
  }

  /** A preflight answers with the CORS headers and an empty body before any
      other check. */
  lemma PreflightShortCircuits(req: Request, svc: Services)
    requires req.verb == OptionsMethod
    ensures Handle(req, svc) == Outcome(Preflight(), false, None)
  {
  }

  /** A missing or empty Authorization header fails before the caller is
      looked up. */
  lemma MissingHeaderRejected(req: Request, svc: Services)
    requires req.verb != OptionsMethod && !Truthy(req.authorization)
    ensures var o := Handle(req, svc);
      o.response == JsonResponse(500, ErrorJson(NoAuthHeader)) && !o.bodyRead && o.deleted.None?
  {
  }

  /** An authentication error or no user answers 500 `Unauthorized`. */
  lemma UnauthenticatedRejected(req: Request, svc: Services)
    requires req.verb != OptionsMethod && Truthy(req.authorization)
    requires var who := svc.getUser(req.authorization.value); who.error.Some? || who.userId.None?
    ensures var o := Handle(req, svc);
      o.response == JsonResponse(500, ErrorJson(Unauthorized)) && !o.bodyRead && o.deleted.None?
  {
  }

  /** A non-admin caller gets 403 before the body is read, and nothing is
      deleted. */
  lemma NonAdminForbidden(req: Request, svc: Services)
    requires req.verb != OptionsMethod && Truthy(req.authorization)
    requires var who := svc.getUser(req.authorization.value);
      who.error.None? && who.userId.Some? && !svc.hasAdminRole(who.userId.value)
    ensures var o := Handle(req, svc);
      o.response == JsonResponse(403, ErrorJson(OnlyAdmins)) && !o.bodyRead && o.deleted.None?
  {
  }

  /** An admin whose request body does not parse gets 500 with the parser's
      message, after the body was read, and nothing is deleted. */
  lemma UnparsableBodyRejected(req: Request, svc: Services)
    requires req.verb != OptionsMethod && Truthy(req.authorization)
    requires var who := svc.getUser(req.authorization.value);
      who.error.None? && who.userId.Some? && svc.hasAdminRole(who.userId.value)
    requires req.body.Unparsable?
    ensures var o := Handle(req, svc);
      o.response == ErrorResponse(ErrorValue(req.body.message)) && o.bodyRead && o.deleted.None?
  {
  }

  /** An admin who sends no (or an empty) `userId` gets 500
      `User ID is required`, and nothing is deleted. */
  lemma MissingUserIdRejected(req: Request, svc: Services)
    requires req.verb != OptionsMethod && Truthy(req.authorization)
    requires var who := svc.getUser(req.authorization.value);
      who.error.None? && who.userId.Some? && svc.hasAdminRole(who.userId.value)
    requires req.body.Parsed? && !Truthy(req.body.userId)
    ensures var o := Handle(req, svc);
      o.response == JsonResponse(500, ErrorJson(UserIdRequired)) && o.bodyRead && o.deleted.None?
  {
  }

  /** Once deletion is attempted, its error decides the answer: 500 with the
      error's message, or 200 with the success message. */
  lemma DeletionAnswer(req: Request, svc: Services)
    requires ChecksPass(req, svc)
    ensures var o := Handle(req, svc);
      var err := svc.deleteUser(req.body.userId.value);
      && o.deleted == req.body.userId
      && (err.Some? ==> o.response == ErrorResponse(err.value))
      && (err.None? ==> o.response == JsonResponse(200, SuccessJson(Some(DeletedMessage))))
  {
  }

  /** Scenario: a member asking to delete `u` is refused with 403 and `u` is
      not deleted. */
  lemma MemberCannotDelete(token: string, callerId: string)
    requires token != ""
    ensures var svc := Services(_ => GetUserAnswer(None, Some(callerId)), _ => false, _ => None);
      var o := Handle(Request("POST", Some(token), Parsed(Some("u"))), svc);
      o.response.status == 403 && o.response.body == ErrorJson(OnlyAdmins) && o.deleted.None?
  {
  }
}
