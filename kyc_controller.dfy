/**
 * The `/kyc` routes (kyc.controller.ts): the access-token and role guards in
 * front of every handler, body validation, and the ownership checks the
 * controller adds to `GET /kyc/:id` and `PATCH /kyc/:id`.
 */
module KycController {
  import opened Wrappers
  import opened Common
  import opened KycEntity
  import opened KycDto
  import opened Kyc
  import opened Guards

  datatype Route =
    | SubmitRoute    // POST /kyc
    | PendingRoute   // GET /kyc/pending
    | ReviewedRoute  // GET /kyc/reviewed
    | FindOneRoute   // GET /kyc/:id
    | ApproveRoute   // PATCH /kyc/:id/approve
    | RejectRoute    // PATCH /kyc/:id/reject
    | UpdateRoute    // PATCH /kyc/:id

  /** The `@Roles(...)` of each handler; an empty set means no `@Roles`. */
  function RequiredRoles(route: Route): set<Role> {
    match route
    case SubmitRoute => {User}
    case UpdateRoute => {User}
    case FindOneRoute => {}
    case _ => {Officer}
  }

  /** Which routes a caller can get past the guards of. */
  lemma RouteAccess(c: Caller)
    ensures Authorize(Some(c), RequiredRoles(SubmitRoute)).Ok? <==> c.role == User
    ensures Authorize(Some(c), RequiredRoles(UpdateRoute)).Ok? <==> c.role == User
    ensures Authorize(Some(c), RequiredRoles(FindOneRoute)).Ok?
    ensures forall route :: route in {PendingRoute, ReviewedRoute, ApproveRoute, RejectRoute} ==>
      (Authorize(Some(c), RequiredRoles(route)).Ok? <==> c.role == Officer)
  {
  }

  /** `findOne` in the controller: a non-officer may only read their own record. */
  function ViewAccess(found: Result<KycRecord, Error>, caller: Caller): (r: Result<KycRecord, Error>)
    ensures found.Err? ==> r == found
    ensures found.Ok? && (caller.role == Officer || found.value.owner == caller.id) ==> r == found
    ensures found.Ok? && caller.role != Officer && found.value.owner != caller.id ==>
      r == Err(Forbidden("You can only view your own KYC"))
  {
    if found.Err? then found
    else if caller.role != Officer && found.value.owner != caller.id then
      Err(Forbidden("You can only view your own KYC"))
    else found
  }

  /** GET /kyc/:id. */
  function FindOneHandler(svc: KycService, caller: Option<Caller>, id: Uuid): (r: Result<KycRecord, Error>)
    reads svc
    ensures r.Ok? <==> (caller.Some? && id in svc.records &&
      (caller.value.role == Officer || svc.records[id].owner == caller.value.id))
    ensures r.Ok? ==> r.value == svc.records[id]
    ensures caller.Some? && id !in svc.records ==> r == Err(NotFound("KYC not found"))
  {
    var c :- Authorize(caller, RequiredRoles(FindOneRoute));
    ViewAccess(svc.FindOne(id), c)
  }

  /** The only records a USER can ever read are their own. */
  lemma UsersReadOnlyTheirOwn(svc: KycService, c: Caller, id: Uuid)
    requires c.role == User
    requires FindOneHandler(svc, Some(c), id).Ok?
    ensures FindOneHandler(svc, Some(c), id).value.owner == c.id
  {
  }

  /** GET /kyc/pending. */
  function PendingHandler(svc: KycService, caller: Option<Caller>, createdAt: Uuid -> Timestamp)
    : (r: Result<seq<KycRecord>, Error>)
    reads svc
    requires svc.Valid()
    ensures r.Ok? <==> caller.Some? && caller.value.role == Officer
    ensures r.Ok? ==> forall k :: k in r.value <==> k in svc.records.Values && k.status == Pending
  {
    var _ :- Authorize(caller, RequiredRoles(PendingRoute));
    Ok(svc.FindPending(createdAt))
  }

  /** GET /kyc/reviewed. */
  function ReviewedHandler(svc: KycService, caller: Option<Caller>): (r: Result<seq<KycRecord>, Error>)
    reads svc
    requires svc.Valid()
    ensures r.Ok? <==> caller.Some? && caller.value.role == Officer
    ensures r.Ok? ==> forall k :: k in r.value <==> k in svc.records.Values && k.status != Pending
  {
    var _ :- Authorize(caller, RequiredRoles(ReviewedRoute));
    Ok(svc.FindReviewed())
  }

  /** The body rules of RejectKycDto: `reason` a non-empty string. */
  function ParseRejectBody(body: map<string, Json>): (r: Result<string, Error>)
    ensures r.Ok? <==> "reason" in body && body["reason"].JString? && body["reason"].s != ""
    ensures r.Ok? ==> r.value == body["reason"].s
    ensures "reason" in body && body["reason"] == JString("") ==>
      r == Err(BadRequest(Some("Reject reason is required")))
  {
    if "reason" in body && body["reason"].JString? then
      if body["reason"].s == "" then Err(BadRequest(Some("Reject reason is required")))
      else Ok(body["reason"].s)
    else Err(BadRequest(None))
  }

  /** POST /kyc: guards, then the pipe, then the service. */
  method SubmitHandler(svc: KycService, caller: Option<Caller>, body: map<string, Json>)
    returns (r: Result<KycRecord, Error>)
    requires svc.Valid()
    modifies svc
    ensures svc.Valid()
    ensures !(caller.Some? && caller.value.role == User) ==> r.Err? && r.error != BadRequest(None)
    ensures caller.Some? && caller.value.role == User && !ValidCreateKycDto(body) ==> r == Err(BadRequest(None))
    ensures r.Ok? <==> (caller.Some? && caller.value.role == User && ValidCreateKycDto(body) &&
      !old(svc.HasRecordOf(caller.value.id)))
    ensures r.Ok? ==> (r.value.owner == caller.value.id && r.value.status == Pending &&
      svc.records == old(svc.records)[r.value.id := r.value])
    ensures r.Err? ==> svc.records == old(svc.records) && svc.nextId == old(svc.nextId)
  {
    var auth := Authorize(caller, RequiredRoles(SubmitRoute));
    if auth.Err? {
      return Err(auth.error);
    }
    var dto := ParseCreateKycDto(body);
    if dto.Err? {
      return Err(BadRequest(None));
    }
    r := svc.Create(auth.value, dto.value);
  }

  /** PATCH /kyc/:id/approve. */
  method ApproveHandler(svc: KycService, caller: Option<Caller>, id: Uuid, now: Timestamp)
    returns (r: Result<KycRecord, Error>)
    requires svc.Valid()
    modifies svc
    ensures svc.Valid()
    ensures r.Ok? <==> (caller.Some? && caller.value.role == Officer &&
      id in old(svc.records) && old(svc.records[id].status) == Pending)
    ensures r.Ok? ==> (r.value == ApprovedBy(old(svc.records[id]), caller.value.id, now) &&
      svc.records == old(svc.records)[id := r.value])
    ensures r.Err? ==> svc.records == old(svc.records)
  {
    var auth := Authorize(caller, RequiredRoles(ApproveRoute));
    if auth.Err? {
      return Err(auth.error);
    }
    r := svc.Approve(id, auth.value, now);
  }

  /** PATCH /kyc/:id/reject: guards, then the reason rules, then the service. */
  method RejectHandler(svc: KycService, caller: Option<Caller>, id: Uuid, body: map<string, Json>, now: Timestamp)
    returns (r: Result<KycRecord, Error>)
    requires svc.Valid()
    modifies svc
    ensures svc.Valid()
    ensures r.Ok? <==> (caller.Some? && caller.value.role == Officer && ParseRejectBody(body).Ok? &&
      id in old(svc.records) && old(svc.records[id].status) == Pending)
    ensures r.Ok? ==> (r.value == RejectedBy(old(svc.records[id]), caller.value.id, now, body["reason"].s) &&
      svc.records == old(svc.records)[id := r.value])
    ensures r.Ok? ==> r.value.rejectReason.Some? && r.value.rejectReason.value != ""
    ensures r.Err? ==> svc.records == old(svc.records)
  {
    var auth := Authorize(caller, RequiredRoles(RejectRoute));
    if auth.Err? {
      return Err(auth.error);
    }
    var reason := ParseRejectBody(body);
    if reason.Err? {
      return Err(reason.error);
    }
    r := svc.Reject(id, auth.value, reason.value, now);
  }

  /**
   * PATCH /kyc/:id: only a USER, only on their own record, and the service
   * then refuses approved records.
   */
  method UpdateHandler(svc: KycService, caller: Option<Caller>, id: Uuid, patch: UpdateKycDto)
    returns (r: Result<KycRecord, Error>)
    requires svc.Valid()
    modifies svc
    ensures svc.Valid()
    ensures (caller.Some? && caller.value.role == User && id in old(svc.records) &&
             old(svc.records[id].owner) != caller.value.id) ==>
      r == Err(Forbidden("You can only update your own KYC"))
    ensures r.Ok? <==> (caller.Some? && caller.value.role == User && id in old(svc.records) &&
      old(svc.records[id].owner) == caller.value.id && old(svc.records[id].status) != Approved)
    ensures r.Ok? ==> (r.value == Revised(old(svc.records[id]), patch) &&
      svc.records == old(svc.records)[id := r.value])
    ensures r.Err? ==> svc.records == old(svc.records)
  {
    var auth := Authorize(caller, RequiredRoles(UpdateRoute));
    if auth.Err? {
      return Err(auth.error);
    }
    var found := svc.FindOne(id);
    if found.Err? {
      return Err(found.error);
    }
    if found.value.owner != auth.value.id {
      return Err(Forbidden("You can only update your own KYC"));
    }
    r := svc.Update(id, patch);
  }
}
