/** `src/app/dashboard/admin/page.tsx`: every property, the pending ones,
    the users, the approve/reject action, the refresh of the pending list
    and the counts. The network answers are parameters. */
module AdminDashboard {
  import opened Domain
  import opened Lists
  import PropertiesRoute

  const LoadFailed := "Failed to load dashboard data"

  function WithApproval(status: PropertyStatus): Property -> Property
  {
    (p: Property) => p.(approved := status)
  }

  /** `prev.map(p => p.id === id ? { ...p, approved: status } : p)`: the
      properties with that id take the decision and every other one is
      kept as it was. */
  function Decided(all: seq<Property>, id: int, status: PropertyStatus): (r: seq<Property>)
    ensures |r| == |all|
    ensures forall i :: 0 <= i < |all| ==> r[i] == if all[i].id == id then all[i].(approved := status) else all[i]
  {
    var r := MapWhere(all, PropertyIdIs(id), WithApproval(status));
    assert forall i :: 0 <= i < |all| && PropertyIdIs(id)(all[i]) ==> r[i] == WithApproval(status)(all[i]);
    r
  }

  /** The answers of the four requests `fetchDashboard` makes at once. */
  datatype Responses = Responses(approved: seq<Property>, pending: seq<Property>, rejected: seq<Property>,
                                 users: seq<User>)

  /** Each list holds only properties in the state it was asked for. */
  predicate WellSorted(res: Responses)
  {
    && (forall i :: 0 <= i < |res.approved| ==> res.approved[i].approved == PropertyStatus.Approved)
    && (forall i :: 0 <= i < |res.pending| ==> res.pending[i].approved == PropertyStatus.Pending)
    && (forall i :: 0 <= i < |res.rejected| ==> res.rejected[i].approved == PropertyStatus.Rejected)
  }

  /** The page's state. */
  class Page {
    var allProperties: seq<Property>
    var pendingProperties: seq<Property>
    var users: seq<User>
    var loading: bool
    var pendingLoading: bool
    var error: Option<string>
    var updating: Option<int>

    /** The pending list is exactly the pending properties, in order. */
    ghost predicate Consistent()
      reads this
    {
      pendingProperties == Filter(allProperties, PropertyIs(PropertyStatus.Pending))
    }

    constructor()
      ensures allProperties == [] && pendingProperties == [] && users == []
      ensures loading && !pendingLoading && error.None? && updating.None?
      ensures Consistent()
    {
      allProperties := [];
      pendingProperties := [];
      users := [];
      loading := true;
      pendingLoading := false;
      error := None;
      updating := None;
    }

    /** `fetchDashboard`: the approved, pending and rejected lists are
        concatenated in that order and the pending one kept apart; if any
        request fails, all three lists are emptied and the error set. */
    method FetchDashboard(responses: Option<Responses>)
      modifies this
      ensures responses.Some? ==>
                allProperties == responses.value.approved + responses.value.pending + responses.value.rejected &&
                pendingProperties == responses.value.pending && users == responses.value.users && error.None?
      ensures responses.None? ==>
                allProperties == [] && pendingProperties == [] && users == [] && error == Some(LoadFailed)
      ensures responses.None? || WellSorted(responses.value) ==> Consistent()
      ensures !loading && updating == old(updating) && pendingLoading == old(pendingLoading)
    {
      loading := true;
      error := None;
      if responses.Some? {
        var res := responses.value;
        allProperties := res.approved + res.pending + res.rejected;
        pendingProperties := res.pending;
        users := res.users;
        if WellSorted(res) {
          PendingOfConcatenation(res);
        }
      } else {
        error := Some(LoadFailed);
        allProperties := [];
        pendingProperties := [];
        users := [];
      }
      loading := false;
    }

    /** `refreshPendingProperties`: `response` is what `GET /api/properties`
        returned, `None` on failure, which changes nothing. */
    method RefreshPending(response: Option<seq<Property>>)
      modifies this
      ensures response.Some? ==> allProperties == response.value &&
                                 pendingProperties == Filter(response.value, PropertyIs(PropertyStatus.Pending))
      ensures response.None? ==> allProperties == old(allProperties) && pendingProperties == old(pendingProperties)
      ensures response.Some? || old(Consistent()) ==> Consistent()
      ensures users == old(users) && error == old(error) && !pendingLoading
      ensures loading == old(loading) && updating == old(updating)
    {
      pendingLoading := true;
      if response.Some? {
        var data := response.value;
        allProperties := data;
        pendingProperties := Filter(data, PropertyIs(PropertyStatus.Pending));
      }
      pendingLoading := false;
    }

    /** `handleUpdateStatus`: `ok` is whether the `PUT` succeeded. Only the
        property with that id takes the new state and only it leaves the
        pending list; a failure changes neither list. */
    method UpdateStatus(id: int, status: PropertyStatus, ok: bool)
      requires status == PropertyStatus.Approved || status == PropertyStatus.Rejected
      modifies this
      ensures !ok ==> allProperties == old(allProperties) && pendingProperties == old(pendingProperties)
      ensures ok ==> allProperties == Decided(old(allProperties), id, status)
      ensures ok ==> pendingProperties == Filter(old(pendingProperties), PropertyIdIsNot(id))
      ensures old(Consistent()) ==> Consistent()
      ensures users == old(users) && updating.None?
      ensures error == old(error) && loading == old(loading) && pendingLoading == old(pendingLoading)
    {
      updating := Some(id);
      if ok {
        var updated := Decided(allProperties, id, status);
        var remaining := Filter(pendingProperties, PropertyIdIsNot(id));
        FilterAfterMapWhere(allProperties, PropertyIs(PropertyStatus.Pending), PropertyIdIs(id),
                            PropertyIdIsNot(id), WithApproval(status));
        allProperties, pendingProperties := updated, remaining;
      }
      updating := None;
    }
  }

  /** Of well-sorted answers, only the pending list holds pending
      properties. */
  lemma PendingOfConcatenation(res: Responses)
    requires WellSorted(res)
    ensures Filter(res.approved + res.pending + res.rejected, PropertyIs(PropertyStatus.Pending)) == res.pending
  {
    var pending := PropertyIs(PropertyStatus.Pending);
    FilterAppend(res.approved + res.pending, res.rejected, pending);
    FilterAppend(res.approved, res.pending, pending);
    NoneSelected(res.approved, pending);
    NoneSelected(res.rejected, pending);
    FilterKeepsAll(res.pending, pending);
  }

  lemma {:induction false} NoneSelected(s: seq<Property>, p: Property -> bool)
    requires forall i :: 0 <= i < |s| ==> !p(s[i])
    ensures Filter(s, p) == []
  {
    if s != [] {
      NoneSelected(s[1..], p);
    }
  }

  /** The refresh asks `GET /api/properties` without a status, which lists
      only approved properties, so the refreshed pending list is always
      empty. */
  lemma RefreshFromDefaultSearchFindsNoPending(rows: seq<Property>, q: PropertiesRoute.PropertyQuery,
                                               data: seq<Property>)
    requires q.status.None?
    requires multiset(data) == multiset(Filter(rows, PropertiesRoute.AdmittedBy(q)))
    ensures Filter(data, PropertyIs(PropertyStatus.Pending)) == []
  {
    forall i | 0 <= i < |data|
      ensures !PropertyIs(PropertyStatus.Pending)(data[i])
    {
      PropertiesRoute.SearchListsExactlyAdmitted(rows, q, data, data[i]);
    }
    NoneSelected(data, PropertyIs(PropertyStatus.Pending));
  }

  /** The counts on the summary cards. */
  datatype Counts = Counts(approvedProperties: nat, rejectedProperties: nat,
                           adminUsers: nat, landlordUsers: nat, tenantUsers: nat)

  /** The counts; every user has exactly one of the three roles, so the role
      counts add up to the number of users. */
  function Summary(allProperties: seq<Property>, users: seq<User>): (c: Counts)
    ensures c.approvedProperties == |Filter(allProperties, PropertyIs(PropertyStatus.Approved))|
    ensures c.rejectedProperties == |Filter(allProperties, PropertyIs(PropertyStatus.Rejected))|
    ensures c.approvedProperties + c.rejectedProperties <= |allProperties|
    ensures c.adminUsers == |Filter(users, UserIs(Role.Admin))|
    ensures c.landlordUsers == |Filter(users, UserIs(Role.Landlord))|
    ensures c.tenantUsers == |Filter(users, UserIs(Role.Tenant))|
    ensures c.adminUsers + c.landlordUsers + c.tenantUsers == |users|
  {
    DisjointFiltersBound(allProperties, PropertyIs(PropertyStatus.Approved), PropertyIs(PropertyStatus.Rejected));
    RoleCountsSum(users);
    Counts(|Filter(allProperties, PropertyIs(PropertyStatus.Approved))|,
           |Filter(allProperties, PropertyIs(PropertyStatus.Rejected))|,
           |Filter(users, UserIs(Role.Admin))|,
           |Filter(users, UserIs(Role.Landlord))|,
           |Filter(users, UserIs(Role.Tenant))|)
  }

  lemma {:induction false} RoleCountsSum(users: seq<User>)
    ensures |Filter(users, UserIs(Role.Admin))| + |Filter(users, UserIs(Role.Landlord))| +
            |Filter(users, UserIs(Role.Tenant))| == |users|
  {
    if users != [] {
      RoleCountsSum(users[1..]);
    }
  }
}
