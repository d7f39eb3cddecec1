/** `src/app/api/admin/properties/route.ts`: the admin-only list of every
    property, and the admin-only approval decision on one property. */
module AdminPropertiesRoute {
  import opened Domain
  import opened Sorting
  import Store

  const AdminRequired := Failure(401, "Unauthorized - Admin access required")
  const MissingFields := Failure(400, "Property ID and status (true/false) are required")
  const UpdateFailed := Failure(500, "Failed to update property status")

  function PropertyCreatedAt(p: Property): int
  {
    p.createdAt
  }

  /** `GET /api/admin/properties`: every property whatever its approval,
      newest first, for an admin only. */
  function ListAll(rows: seq<Property>, session: Session): (r: Result<seq<Property>>)
    ensures r.Err? <==> !IsAdmin(session)
    ensures r.Err? ==> r.failure == AdminRequired
    ensures r.Ok? ==> multiset(r.value) == multiset(rows) && SortedDesc(r.value, PropertyCreatedAt)
  {
    if !IsAdmin(session) then Err(AdminRequired) else Ok(OrderByDesc(rows, PropertyCreatedAt))
  }

  /** `status ? "APPROVED" : "REJECTED"`: a decision never yields PENDING. */
  function Decision(status: bool): (a: PropertyStatus)
    ensures a != PropertyStatus.Pending
    ensures a == PropertyStatus.Approved <==> status
    ensures a == PropertyStatus.Rejected <==> !status
  {
    if status then PropertyStatus.Approved else PropertyStatus.Rejected
  }

  /** The body of `PUT`: `propertyId` (absent or 0 is falsy) and `status`,
      which is `None` unless the body holds a boolean. */
  datatype ApprovalRequest = ApprovalRequest(propertyId: Option<int>, status: Option<bool>)

  /** The guards of `PUT`, in order; `None` when all pass. */
  function Refusal(rows: seq<Property>, session: Session, req: ApprovalRequest): (r: Option<Failure>)
    ensures r.None? ==> IsAdmin(session) && req.propertyId.Some? && req.propertyId.value != 0 &&
                        req.status.Some? && exists i :: 0 <= i < |rows| && rows[i].id == req.propertyId.value
    ensures r.Some? ==> r.value in {AdminRequired, MissingFields, UpdateFailed}
  {
    if !IsAdmin(session) then Some(AdminRequired)
    else if req.propertyId.None? || req.propertyId.value == 0 || req.status.None? then Some(MissingFields)
    else if Store.IndexOf(rows, PropertyIdOf, req.propertyId.value).None? then Some(UpdateFailed)
    else None
  }

  /** `PUT /api/admin/properties`: only the `approved` column of the one
      addressed property changes. */
  method Decide(t: Store.PropertyTable, session: Session, req: ApprovalRequest) returns (r: Result<Property>)
    requires t.Valid()
    modifies t
    ensures t.Valid() && t.nextId == old(t.nextId)
    ensures r.Err? <==> Refusal(old(t.rows), session, req).Some?
    ensures r.Err? ==> r.failure == Refusal(old(t.rows), session, req).value && t.rows == old(t.rows)
    ensures r.Ok? ==> exists i :: 0 <= i < |old(t.rows)| && old(t.rows)[i].id == req.propertyId.value &&
                                  r.value == old(t.rows)[i].(approved := Decision(req.status.value)) &&
                                  t.rows == old(t.rows)[i := r.value]
  {
    if session.None? || session.value.role != Role.Admin {
      return Err(AdminRequired);
    }
    if req.propertyId.None? || req.propertyId.value == 0 || req.status.None? {
      return Err(MissingFields);
    }
    var approvedStatus := Decision(req.status.value);
    var index := Store.IndexOf(t.rows, PropertyIdOf, req.propertyId.value);
    if index.None? {
      return Err(UpdateFailed);
    }
    var updated := t.rows[index.value].(approved := approvedStatus);
    t.rows := t.rows[index.value := updated];
    r := Ok(updated);
  }
}
