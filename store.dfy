/** The back end's endpoints over its collections. Each endpoint is a method
    of `Store`: it checks the caller's role and ownership in the order the
    route does, looks the documents up, and either answers with an error code
    leaving the collections as they were, or saves what the route saves. A
    save that schema validation would refuse answers ServerError; a route
    that saves two documents can fail after the first save, and then the
    first stays saved. */
module Platform {
  import opened Common
  import opened DonationModel
  import opened DonationRules
  import opened VolunteerModel
  import opened VolunteerRules
  import opened OrderModel
  import opened OrderAnalytics

  class Store {
    /** The user directory (only order creation looks users up by id). */
    var users: map<Id, Profile>
    var donations: map<Id, Donation>
    var volunteers: map<Id, Volunteer>
    var assignments: map<Id, Assignment>
    var orders: map<Id, Order>
    /** The next fresh document id; every stored document's id is below it. */
    var nextId: nat

    /** Every stored document passed schema validation when it was saved. */
    ghost predicate Valid()
      reads this
    {
      && (forall id :: id in donations ==> id < nextId && SchemaValid(donations[id]))
      && (forall id :: id in volunteers ==> id < nextId && VolunteerValid(volunteers[id]))
      && (forall id :: id in assignments ==> id < nextId && AssignmentValid(assignments[id]))
      && (forall id :: id in orders ==> id < nextId && OrderValid(orders[id]))
    }

    /** A database with the given users and no documents yet. */
    constructor (users: map<Id, Profile>)
      ensures Valid()
      ensures this.users == users
      ensures donations == map[] && volunteers == map[] && assignments == map[] && orders == map[]
      ensures nextId == 0
    {
      this.users := users;
      donations := map[];
      volunteers := map[];
      assignments := map[];
      orders := map[];
      nextId := 0;
    }

    // ============================================================ donations

    /** POST /api/donations/create */
    method CreateDonation(actor: Actor, req: DonationRequest, now: Time) returns (code: Code, created: Option<Id>)
      requires Valid()
      modifies this`donations, this`nextId
      ensures Valid()
      ensures code in {Forbidden, BadRequest, ServerError, Created}
      ensures code == Forbidden <==> actor.profile.role != Restaurant
      ensures code == BadRequest <==> actor.profile.role == Restaurant && MissingRequired(req)
      ensures actor.profile.role == Restaurant && !MissingRequired(req) ==>
                (code == ServerError <==> RequestedUnit(req).None? || OrgOrName(actor.profile) == "")
      ensures code != Created ==> created.None? && donations == old(donations) && nextId == old(nextId)
      ensures code == Created ==>
                && actor.profile.role == Restaurant && !MissingRequired(req) && RequestedUnit(req).Some?
                && created == Some(old(nextId)) && old(nextId) !in old(donations)
                && nextId == old(nextId) + 1
                && donations == old(donations)[old(nextId) := Offered(actor, req, RequestedUnit(req).value, now)]
    {
      if actor.profile.role != Restaurant {
        return Forbidden, None;
      }
      if MissingRequired(req) {
        return BadRequest, None;
      }
      var unit := RequestedUnit(req);
      if unit.None? || OrgOrName(actor.profile) == "" {
        return ServerError, None;
      }
      var id := nextId;
      donations := donations[id := Offered(actor, req, unit.value, now)];
      nextId := nextId + 1;
      return Created, Some(id);
    }

    /** PATCH /api/donations/:id/status: only a restaurant that does not own
        the donation is refused; any valid status is written. */
    method UpdateDonationStatus(actor: Actor, id: Id, status: string, now: Time)
      returns (code: Code, updated: Option<Donation>)
      requires Valid()
      modifies this`donations
      ensures Valid()
      ensures code in {NotFound, Forbidden, ServerError, Ok}
      ensures code == NotFound <==> id !in old(donations)
      ensures code == Forbidden <==>
                id in old(donations) && actor.profile.role == Restaurant && old(donations)[id].restaurant != actor.id
      ensures id in old(donations) && !(actor.profile.role == Restaurant && old(donations)[id].restaurant != actor.id) ==>
                (code == ServerError <==> ParseStatus(status).None?)
      ensures code != Ok ==> updated.None? && donations == old(donations)
      ensures code == Ok ==>
                && id in old(donations) && ParseStatus(status).Some?
                && updated == Some(WithStatus(old(donations)[id], ParseStatus(status).value, now))
                && donations == old(donations)[id := updated.value]
    {
      if id !in donations {
        return NotFound, None;
      }
      var d := donations[id];
      if actor.profile.role == Restaurant && d.restaurant != actor.id {
        return Forbidden, None;
      }
      var s := ParseStatus(status);
      if s.None? {
        return ServerError, None;
      }
      var r := WithStatus(d, s.value, now);
      donations := donations[id := r];
      return Ok, Some(r);
    }

    /** GET /api/donations/available: the open, unexpired donations. */
    method AvailableDonations(actor: Actor, now: Time) returns (code: Code, list: seq<(Id, Donation)>)
      requires Valid()
      ensures code == Forbidden <==> actor.profile.role != NGO
      ensures code != Forbidden ==> code == Ok
      ensures code == Forbidden ==> list == []
      ensures forall k :: 0 <= k < |list| ==>
                list[k].0 in donations && list[k].1 == donations[list[k].0]
                && list[k].1.status == Available && list[k].1.expiryTime > now
      ensures code == Ok ==> forall id :: (id in donations && donations[id].status == Available
                                          && donations[id].expiryTime > now) ==> (id, donations[id]) in list
      ensures forall k, l :: 0 <= k < l < |list| ==> list[k].0 < list[l].0
    {
      if actor.profile.role != NGO {
        return Forbidden, [];
      }
      list := InIdOrder(donations, MatchingIds(donations, OpenAt(now)), nextId);
      code := Ok;
    }

    /** PATCH /api/donations/:id/claim: an NGO claims an available donation. */
    method ClaimDonation(actor: Actor, id: Id, now: Time) returns (code: Code, claimed: Option<Donation>)
      requires Valid()
      modifies this`donations
      ensures Valid()
      ensures code in {Forbidden, NotFound, BadRequest, Ok}
      ensures code == Forbidden <==> actor.profile.role != NGO
      ensures code == NotFound <==> actor.profile.role == NGO && id !in old(donations)
      ensures actor.profile.role == NGO && id in old(donations) ==>
                (code == BadRequest <==> old(donations)[id].status != Available)
      ensures code != Ok ==> claimed.None? && donations == old(donations)
      ensures code == Ok ==>
                && actor.profile.role == NGO && id in old(donations) && old(donations)[id].status == Available
                && claimed == Some(ClaimFor(old(donations)[id], actor, now))
                && donations == old(donations)[id := claimed.value]
    {
      if actor.profile.role != NGO {
        return Forbidden, None;
      }
      if id !in donations {
        return NotFound, None;
      }
      var d := donations[id];
      if d.status != Available {
        return BadRequest, None;
      }
      var r := ClaimFor(d, actor, now);
      donations := donations[id := r];
      return Ok, Some(r);
    }

    /** GET /api/donations/my-claimed: the donations the NGO claimed. */
    method MyClaimed(actor: Actor) returns (code: Code, list: seq<(Id, Donation)>)
      requires Valid()
      ensures code == Forbidden <==> actor.profile.role != NGO
      ensures code != Forbidden ==> code == Ok
      ensures code == Forbidden ==> list == []
      ensures forall k :: 0 <= k < |list| ==>
                list[k].0 in donations && list[k].1 == donations[list[k].0]
                && list[k].1.claimedBy == Some(actor.id)
      ensures code == Ok ==> forall id :: id in donations && donations[id].claimedBy == Some(actor.id)
                                          ==> (id, donations[id]) in list
      ensures forall k, l :: 0 <= k < l < |list| ==> list[k].0 < list[l].0
    {
      if actor.profile.role != NGO {
        return Forbidden, [];
      }
      list := InIdOrder(donations, MatchingIds(donations, ClaimedByNgo(actor.id)), nextId);
      code := Ok;
    }

    /** GET /api/donations/my-donations: the restaurant's own donations. */
    method MyDonations(actor: Actor) returns (code: Code, list: seq<(Id, Donation)>)
      requires Valid()
      ensures code == Forbidden <==> actor.profile.role != Restaurant
      ensures code != Forbidden ==> code == Ok
      ensures code == Forbidden ==> list == []
      ensures forall k :: 0 <= k < |list| ==>
                list[k].0 in donations && list[k].1 == donations[list[k].0]
                && list[k].1.restaurant == actor.id
      ensures code == Ok ==> forall id :: id in donations && donations[id].restaurant == actor.id
                                          ==> (id, donations[id]) in list
      ensures forall k, l :: 0 <= k < l < |list| ==> list[k].0 < list[l].0
    {
      if actor.profile.role != Restaurant {
        return Forbidden, [];
      }
      list := InIdOrder(donations, MatchingIds(donations, OfRestaurant(actor.id)), nextId);
      code := Ok;
    }

    /** PATCH /api/donations/:id/acknowledge: only the claimant finds the
        donation; it is completed whatever its status. */
    method Acknowledge(actor: Actor, id: Id, req: AcknowledgeRequest, now: Time)
      returns (code: Code, acknowledged: Option<Donation>)
      requires Valid()
      modifies this`donations
      ensures Valid()
      ensures code in {Forbidden, NotFound, Ok}
      ensures code == Forbidden <==> actor.profile.role != NGO
      ensures actor.profile.role == NGO ==>
                (code == NotFound <==> id !in old(donations) || old(donations)[id].claimedBy != Some(actor.id))
      ensures code != Ok ==> acknowledged.None? && donations == old(donations)
      ensures code == Ok ==>
                && id in old(donations) && old(donations)[id].claimedBy == Some(actor.id)
                && acknowledged == Some(Acknowledged(old(donations)[id], req, now))
                && donations == old(donations)[id := acknowledged.value]
    {
      if actor.profile.role != NGO {
        return Forbidden, None;
      }
      if id !in donations || donations[id].claimedBy != Some(actor.id) {
        return NotFound, None;
      }
      var r := Acknowledged(donations[id], req, now);
      donations := donations[id := r];
      return Ok, Some(r);
    }

    /** GET /api/donations/stats: counts, totals and the six-month trend of
        the restaurant's donations (`sixMonthsAgo` and `monthOf` stand for the
        calendar arithmetic of the clock). */
    method DonationStatsOf(actor: Actor, sixMonthsAgo: Time, monthOf: Time -> int)
      returns (code: Code, stats: Option<DonationStats>)
      requires Valid()
      ensures code == Forbidden <==> actor.profile.role != Restaurant
      ensures code != Forbidden ==> code == Ok
      ensures code == Forbidden <==> stats.None?
      ensures code == Ok ==>
                var ds := Docs(InIdOrder(donations, MatchingIds(donations, OfRestaurant(actor.id)), nextId));
                var cs := CompletedOnes(ds);
                var st := stats.value;
                && st.totalDonations == |ds|
                && st.totalMealsServed == MealsSum(cs) && st.totalBeneficiaries == BeneficiariesSum(cs)
                && st.ngoCount == |Claimants(cs)| && st.ngoCount <= st.completed
                && st.available == CountStatus(ds, Available) && st.claimed == CountStatus(ds, Claimed)
                && st.pickedUp == CountStatus(ds, PickedUp) && st.completed == |cs|
                && st.expired == CountStatus(ds, Expired)
                && st.available + st.claimed + st.pickedUp + st.completed + st.expired == st.totalDonations
                && (forall key :: key in st.monthlyData <==> MonthCount(cs, sixMonthsAgo, monthOf, key) > 0)
                && (forall key :: key in st.monthlyData ==>
                      st.monthlyData[key] == MonthBucket(MonthMeals(cs, sixMonthsAgo, monthOf, key),
                                                         MonthCount(cs, sixMonthsAgo, monthOf, key)))
    {
      if actor.profile.role != Restaurant {
        return Forbidden, None;
      }
      var ds := Docs(InIdOrder(donations, MatchingIds(donations, OfRestaurant(actor.id)), nextId));
      var cs := CompletedOnes(ds);
      ClaimantsBound(cs);
      StatusCountsPartition(ds);
      var monthly := MonthlyTrend(cs, sixMonthsAgo, monthOf);
      stats := Some(DonationStats(|ds|, MealsSum(cs), BeneficiariesSum(cs), |Claimants(cs)|,
                                  CountStatus(ds, Available), CountStatus(ds, Claimed),
                                  CountStatus(ds, PickedUp), |cs|, CountStatus(ds, Expired), monthly));
      code := Ok;
    }

    // =========================================================== volunteers

    /** GET /api/volunteers/volunteers */
    method ListVolunteers(actor: Actor) returns (code: Code, list: seq<(Id, Volunteer)>)
      requires Valid()
      ensures code == Forbidden <==> actor.profile.role != NGO
      ensures code != Forbidden ==> code == Ok
      ensures code == Forbidden ==> list == []
      ensures forall k :: 0 <= k < |list| ==>
                list[k].0 in volunteers && list[k].1 == volunteers[list[k].0] && list[k].1.ngo == actor.id
      ensures code == Ok ==> forall id :: id in volunteers && volunteers[id].ngo == actor.id
                                          ==> (id, volunteers[id]) in list
      ensures forall k, l :: 0 <= k < l < |list| ==> list[k].0 < list[l].0
    {
      if actor.profile.role != NGO {
        return Forbidden, [];
      }
      list := InIdOrder(volunteers, VolunteersOf(volunteers, actor.id), nextId);
      code := Ok;
    }

    /** POST /api/volunteers/volunteers */
    method AddVolunteer(actor: Actor, req: VolunteerRequest, now: Time) returns (code: Code, created: Option<Id>)
      requires Valid()
      modifies this`volunteers, this`nextId
      ensures Valid()
      ensures code in {Forbidden, BadRequest, ServerError, Created}
      ensures code == Forbidden <==> actor.profile.role != NGO
      ensures code == BadRequest <==> actor.profile.role == NGO && MissingContact(req)
      ensures actor.profile.role == NGO && !MissingContact(req) ==>
                (code == ServerError <==> RequestedAvailability(req.availability).None? || NameOrOrg(actor.profile) == "")
      ensures code != Created ==> created.None? && volunteers == old(volunteers) && nextId == old(nextId)
      ensures code == Created ==>
                && actor.profile.role == NGO && !MissingContact(req)
                && RequestedAvailability(req.availability).Some?
                && created == Some(old(nextId)) && old(nextId) !in old(volunteers) && nextId == old(nextId) + 1
                && volunteers == old(volunteers)[old(nextId) :=
                     Enlisted(actor, req, RequestedAvailability(req.availability).value, now)]
    {
      if actor.profile.role != NGO {
        return Forbidden, None;
      }
      if MissingContact(req) {
        return BadRequest, None;
      }
      var availability := RequestedAvailability(req.availability);
      if availability.None? || NameOrOrg(actor.profile) == "" {
        return ServerError, None;
      }
      var id := nextId;
      volunteers := volunteers[id := Enlisted(actor, req, availability.value, now)];
      nextId := nextId + 1;
      return Created, Some(id);
    }

    /** PATCH /api/volunteers/volunteers/:id: only the owning NGO finds the volunteer. */
    method UpdateVolunteer(actor: Actor, id: Id, patch: VolunteerPatch) returns (code: Code, updated: Option<Volunteer>)
      requires Valid()
      modifies this`volunteers
      ensures Valid()
      ensures code in {Forbidden, NotFound, ServerError, Ok}
      ensures code == Forbidden <==> actor.profile.role != NGO
      ensures code == NotFound <==>
                actor.profile.role == NGO && (id !in old(volunteers) || old(volunteers)[id].ngo != actor.id)
      ensures actor.profile.role == NGO && id in old(volunteers) && old(volunteers)[id].ngo == actor.id ==>
                (code == ServerError <==> !PatchEnumsValid(patch))
      ensures code != Ok ==> updated.None? && volunteers == old(volunteers)
      ensures code == Ok ==>
                && id in old(volunteers) && old(volunteers)[id].ngo == actor.id && PatchEnumsValid(patch)
                && updated == Some(Patched(old(volunteers)[id], patch))
                && volunteers == old(volunteers)[id := updated.value]
    {
      if actor.profile.role != NGO {
        return Forbidden, None;
      }
      if id !in volunteers || volunteers[id].ngo != actor.id {
        return NotFound, None;
      }
      if !PatchEnumsValid(patch) {
        return ServerError, None;
      }
      var v := Patched(volunteers[id], patch);
      volunteers := volunteers[id := v];
      return Ok, Some(v);
    }

    /** DELETE /api/volunteers/volunteers/:id: the volunteer's assignments stay. */
    method DeleteVolunteer(actor: Actor, id: Id) returns (code: Code)
      requires Valid()
      modifies this`volunteers
      ensures Valid()
      ensures code in {Forbidden, NotFound, Ok}
      ensures code == Forbidden <==> actor.profile.role != NGO
      ensures actor.profile.role == NGO ==>
                (code == NotFound <==> id !in old(volunteers) || old(volunteers)[id].ngo != actor.id)
      ensures code != Ok ==> volunteers == old(volunteers)
      ensures code == Ok ==> id in old(volunteers) && volunteers == old(volunteers) - {id}
    {
      if actor.profile.role != NGO {
        return Forbidden;
      }
      if id !in volunteers || volunteers[id].ngo != actor.id {
        return NotFound;
      }
      volunteers := volunteers - {id};
      return Ok;
    }

    /** GET /api/volunteers/assignments */
    method ListAssignments(actor: Actor) returns (code: Code, list: seq<(Id, Assignment)>)
      requires Valid()
      ensures code == Forbidden <==> actor.profile.role != NGO
      ensures code != Forbidden ==> code == Ok
      ensures code == Forbidden ==> list == []
      ensures forall k :: 0 <= k < |list| ==>
                list[k].0 in assignments && list[k].1 == assignments[list[k].0] && list[k].1.ngo == actor.id
      ensures code == Ok ==> forall id :: id in assignments && assignments[id].ngo == actor.id
                                          ==> (id, assignments[id]) in list
      ensures forall k, l :: 0 <= k < l < |list| ==> list[k].0 < list[l].0
    {
      if actor.profile.role != NGO {
        return Forbidden, [];
      }
      list := InIdOrder(assignments, AssignmentsOf(assignments, actor.id), nextId);
      code := Ok;
    }

    /** Whether the task passes save's enum checks (`priority || 'medium'`). */
    static predicate TaskEnumsValid(req: AssignmentRequest) {
      ParseTaskType(req.taskType).Some? && RequestedPriority(req.priority).Some?
    }

    /** The donations after a linked donation was marked picked-up. */
    static function PickedUpIn(ds: map<Id, Donation>, donation: Option<Id>): map<Id, Donation> {
      if donation.Some? && donation.value in ds then ds[donation.value := MarkPickedUp(ds[donation.value])] else ds
    }

    /** Whether the request names a volunteer of `ngo`. */
    static predicate VolunteerOwned(vs: map<Id, Volunteer>, ngo: Id, req: AssignmentRequest) {
      req.volunteerId.Some? && req.volunteerId.value in vs && vs[req.volunteerId.value].ngo == ngo
    }

    /** Whether the request links no donation, or one claimed by `ngo`. */
    static predicate DonationLinkable(ds: map<Id, Donation>, ngo: Id, req: AssignmentRequest) {
      req.donationId.None? || (req.donationId.value in ds && ds[req.donationId.value].claimedBy == Some(ngo))
    }

    /** POST /api/volunteers/assignments: the linked donation is saved as
        picked-up before the assignment is validated, so a task refused by
        validation still leaves the donation picked-up. */
    method CreateAssignment(actor: Actor, req: AssignmentRequest, now: Time) returns (code: Code, created: Option<Id>)
      requires Valid()
      modifies this`donations, this`assignments, this`volunteers, this`nextId
      ensures Valid()
      ensures code == Forbidden <==> actor.profile.role != NGO
      ensures code == BadRequest <==> actor.profile.role == NGO && MissingTaskFields(req)
      ensures code == NotFound <==>
                && actor.profile.role == NGO && !MissingTaskFields(req)
                && !(VolunteerOwned(old(volunteers), actor.id, req) && DonationLinkable(old(donations), actor.id, req))
      ensures code == ServerError <==>
                && actor.profile.role == NGO && !MissingTaskFields(req)
                && VolunteerOwned(old(volunteers), actor.id, req) && DonationLinkable(old(donations), actor.id, req)
                && !TaskEnumsValid(req)
      ensures code == Created <==>
                && actor.profile.role == NGO && !MissingTaskFields(req)
                && VolunteerOwned(old(volunteers), actor.id, req) && DonationLinkable(old(donations), actor.id, req)
                && TaskEnumsValid(req)
      ensures code != ServerError && code != Created ==>
                donations == old(donations) && volunteers == old(volunteers)
                && assignments == old(assignments) && nextId == old(nextId)
      ensures code == ServerError ==>
                && donations == PickedUpIn(old(donations), req.donationId)
                && volunteers == old(volunteers) && assignments == old(assignments) && nextId == old(nextId)
      ensures code != Created ==> created.None?
      ensures code == Created ==>
                var vid := req.volunteerId.value;
                && donations == PickedUpIn(old(donations), req.donationId)
                && created == Some(old(nextId)) && old(nextId) !in old(assignments) && nextId == old(nextId) + 1
                && assignments == old(assignments)[old(nextId) :=
                     Issued(actor, old(volunteers)[vid], req, ParseTaskType(req.taskType).value,
                            RequestedPriority(req.priority).value, now)]
                && volunteers == old(volunteers)[vid := Engaged(old(volunteers)[vid], old(nextId))]
    {
      if actor.profile.role != NGO {
        return Forbidden, None;
      }
      if MissingTaskFields(req) {
        return BadRequest, None;
      }
      var vid := req.volunteerId.value;
      if vid !in volunteers || volunteers[vid].ngo != actor.id {
        return NotFound, None;
      }
      if req.donationId.Some? {
        var did := req.donationId.value;
        if did !in donations || donations[did].claimedBy != Some(actor.id) {
          return NotFound, None;
        }
      }
      code, created := Issue(actor, req, now);
    }

    /** Creating an assignment once the caller, the fields and the volunteer
        and donation references have been checked: the linked donation is
        saved as picked up, then the enums are validated, then the assignment
        is stored and its volunteer engaged. */
    method Issue(actor: Actor, req: AssignmentRequest, now: Time) returns (code: Code, created: Option<Id>)
      requires Valid() && !MissingTaskFields(req)
      requires VolunteerOwned(volunteers, actor.id, req) && DonationLinkable(donations, actor.id, req)
      modifies this`donations, this`assignments, this`volunteers, this`nextId
      ensures Valid()
      ensures code in {ServerError, Created}
      ensures code == Created <==> TaskEnumsValid(req)
      ensures donations == PickedUpIn(old(donations), req.donationId)
      ensures code == ServerError ==>
                created.None? && volunteers == old(volunteers) && assignments == old(assignments) && nextId == old(nextId)
      ensures code == Created ==>
                var vid := req.volunteerId.value;
                && created == Some(old(nextId)) && old(nextId) !in old(assignments) && nextId == old(nextId) + 1
                && assignments == old(assignments)[old(nextId) :=
                     Issued(actor, old(volunteers)[vid], req, ParseTaskType(req.taskType).value,
                            RequestedPriority(req.priority).value, now)]
                && volunteers == old(volunteers)[vid := Engaged(old(volunteers)[vid], old(nextId))]
    {
      var volunteer := volunteers[req.volunteerId.value];
      if req.donationId.Some? {
        PickUp(req.donationId.value);
      }
      var taskType := ParseTaskType(req.taskType);
      var priority := RequestedPriority(req.priority);
      if taskType.None? || priority.None? {
        return ServerError, None;
      }
      var id := SaveAssignment(Issued(actor, volunteer, req, taskType.value, priority.value, now));
      return Created, Some(id);
    }

    /** The first save of creating an assignment: the linked donation is
        marked picked up. */
    method PickUp(did: Id)
      requires Valid() && did in donations
      modifies this`donations
      ensures Valid()
      ensures donations == PickedUpIn(old(donations), Some(did))
    {
      donations := donations[did := MarkPickedUp(donations[did])];
    }

    /** The second half of creating an assignment: the assignment is stored
        under a fresh id, and its volunteer is engaged on it. */
    method SaveAssignment(a: Assignment) returns (id: Id)
      requires Valid() && AssignmentValid(a) && a.volunteer in volunteers
      modifies this`assignments, this`volunteers, this`nextId
      ensures Valid()
      ensures id == old(nextId) && id !in old(assignments) && nextId == old(nextId) + 1
      ensures assignments == old(assignments)[id := a]
      ensures volunteers == old(volunteers)[a.volunteer := Engaged(old(volunteers)[a.volunteer], id)]
    {
      id := nextId;
      assignments := assignments[id := a];
      nextId := nextId + 1;
      volunteers := volunteers[a.volunteer := Engaged(volunteers[a.volunteer], id)];
    }

    /** The volunteers after an assignment moved to `status`: completing or
        cancelling releases its volunteer, when that volunteer still exists. */
    static function ReleasedIn(vs: map<Id, Volunteer>, a: Assignment, status: string): map<Id, Volunteer> {
      if (status == "completed" || status == "cancelled") && a.volunteer in vs
      then vs[a.volunteer := Released(vs[a.volunteer], status == "completed")]
      else vs
    }

    /** PATCH /api/volunteers/assignments/:id/status: only an NGO that does not
        own the assignment is refused; the volunteer is released and saved
        before the assignment is validated. */
    method UpdateAssignmentStatus(actor: Actor, id: Id, status: string, feedback: Option<Feedback>, now: Time)
      returns (code: Code, updated: Option<Assignment>)
      requires Valid()
      modifies this`assignments, this`volunteers
      ensures Valid()
      ensures code in {NotFound, Forbidden, ServerError, Ok}
      ensures code == NotFound <==> id !in old(assignments)
      ensures code == Forbidden <==>
                id in old(assignments) && actor.profile.role == NGO && old(assignments)[id].ngo != actor.id
      ensures code in {NotFound, Forbidden} ==> volunteers == old(volunteers) && assignments == old(assignments)
      ensures id in old(assignments) && !(actor.profile.role == NGO && old(assignments)[id].ngo != actor.id) ==>
                && volunteers == ReleasedIn(old(volunteers), old(assignments)[id], status)
                && (code == ServerError <==> ParseAssignmentStatus(status).None? || !FeedbackValid(feedback))
      ensures code != Ok ==> updated.None? && assignments == old(assignments)
      ensures code == Ok ==>
                && id in old(assignments) && ParseAssignmentStatus(status).Some?
                && updated == Some(Progressed(old(assignments)[id], ParseAssignmentStatus(status).value, feedback, now))
                && assignments == old(assignments)[id := updated.value]
    {
      if id !in assignments {
        return NotFound, None;
      }
      var a := assignments[id];
      if actor.profile.role == NGO && a.ngo != actor.id {
        return Forbidden, None;
      }
      var s := ParseAssignmentStatus(status);
      Release(a, status);
      if s.None? || !FeedbackValid(feedback) {
        return ServerError, None;
      }
      var r := Progressed(a, s.value, feedback, now);
      assignments := assignments[id := r];
      return Ok, Some(r);
    }

    /** The first save of a status update: completing or cancelling an
        assignment releases its volunteer, when that volunteer still exists. */
    method Release(a: Assignment, status: string)
      requires Valid()
      modifies this`volunteers
      ensures Valid()
      ensures volunteers == ReleasedIn(old(volunteers), a, status)
    {
      if (status == "completed" || status == "cancelled") && a.volunteer in volunteers {
        volunteers := volunteers[a.volunteer := Released(volunteers[a.volunteer], status == "completed")];
      }
    }

    /** GET /api/volunteers/stats */
    method AssignmentStats(actor: Actor) returns (code: Code, stats: Option<VolunteerStats>)
      requires Valid()
      ensures code == Forbidden <==> actor.profile.role != NGO
      ensures code != Forbidden ==> code == Ok
      ensures code == Forbidden <==> stats.None?
      ensures code == Ok ==>
                var vs := Docs(InIdOrder(volunteers, VolunteersOf(volunteers, actor.id), nextId));
                var as_ := Docs(InIdOrder(assignments, AssignmentsOf(assignments, actor.id), nextId));
                var st := stats.value;
                && st.totalVolunteers == |vs| && st.totalAssignments == |as_|
                && st.activeVolunteers == CountVolunteerStatus(vs, Active)
                && st.onAssignment == CountVolunteerStatus(vs, OnAssignment)
                && st.pendingAssignments == CountAssignmentStatus(as_, Assigned)
                && st.inProgress == CountAssignmentStatus(as_, InProgress)
                && st.completedAssignments == CountAssignmentStatus(as_, AssignmentStatus.Completed)
                && st.activeVolunteers + st.onAssignment <= st.totalVolunteers
                && st.pendingAssignments + st.inProgress + st.completedAssignments <= st.totalAssignments
    {
      if actor.profile.role != NGO {
        return Forbidden, None;
      }
      var vs := Docs(InIdOrder(volunteers, VolunteersOf(volunteers, actor.id), nextId));
      var as_ := Docs(InIdOrder(assignments, AssignmentsOf(assignments, actor.id), nextId));
      VolunteerStatusPartition(vs);
      AssignmentStatusPartition(as_);
      stats := Some(VolunteerStats(|vs|, CountVolunteerStatus(vs, Active), CountVolunteerStatus(vs, OnAssignment),
                                   |as_|, CountAssignmentStatus(as_, Assigned), CountAssignmentStatus(as_, InProgress),
                                   CountAssignmentStatus(as_, AssignmentStatus.Completed)));
      code := Ok;
    }

    // =============================================================== orders

    /** GET /api/orders/analytics; `period` is the query parameter, absent
        meaning "month"; `monthAgo` and `yearAgo` stand for the calendar steps
        of the clock. */
    method OrderAnalyticsOf(actor: Actor, period: Option<string>, now: Time, monthAgo: Time, yearAgo: Time)
      returns (code: Code, analytics: Option<Analytics>)
      requires Valid()
      ensures code == Forbidden <==> actor.profile.role != Restaurant
      ensures code != Forbidden ==> code == Ok
      ensures code == Forbidden <==> analytics.None?
      ensures code == Ok ==>
                IsAnalytics(analytics.value, Docs(InIdOrder(orders, OrdersOf(orders, actor.id), nextId)),
                            if period.Some? then period.value else "month", now, monthAgo, yearAgo)
    {
      if actor.profile.role != Restaurant {
        return Forbidden, None;
      }
      var p := if period.Some? then period.value else "month";
      var os := Docs(InIdOrder(orders, OrdersOf(orders, actor.id), nextId));
      QueriedOrdersValid(orders, OrdersOf(orders, actor.id), nextId);
      var a := Analyze(os, p, now, monthAgo, yearAgo);
      return Ok, Some(a);
    }

    /** GET /api/orders/feedbacks: the twenty most recent rated feedbacks on
        the restaurant's orders, newest first. */
    method RecentFeedbacksOf(actor: Actor) returns (code: Code, list: seq<FeedbackView>)
      requires Valid()
      ensures code == Forbidden <==> actor.profile.role != Restaurant
      ensures code != Forbidden ==> code == Ok
      ensures code == Forbidden ==> list == []
      ensures code == Ok ==> IsFeedbackListing(list, InIdOrder(orders, OrdersOf(orders, actor.id), nextId))
      ensures forall v :: v in list ==>
                && v.orderId in orders && orders[v.orderId].restaurant == actor.id
                && HasRating(orders[v.orderId])
                && v.rating == orders[v.orderId].customerFeedback.value.rating.value
                && v.addedAt == orders[v.orderId].customerFeedback.value.addedAt
    {
      if actor.profile.role != Restaurant {
        return Forbidden, [];
      }
      var entries := InIdOrder(orders, OrdersOf(orders, actor.id), nextId);
      list := RecentFeedbacks(entries);
      RecentFeedbacksListing(entries);
      forall v | v in list
        ensures v.orderId in orders && orders[v.orderId].restaurant == actor.id && HasRating(orders[v.orderId])
        ensures v.rating == orders[v.orderId].customerFeedback.value.rating.value
        ensures v.addedAt == orders[v.orderId].customerFeedback.value.addedAt
      {
        QueriedView(orders, OrdersOf(orders, actor.id), nextId, v);
      }
      code := Ok;
    }

    /** POST /api/orders/create: any caller orders from any user id; the order
        is paid, pending, and named after the restaurant and the customer. */
    method CreateOrder(actor: Actor, restaurantId: Id, items: seq<OrderItem>, totalAmount: Option<int>,
                       orderType: string, deliveryAddress: string, now: Time)
      returns (code: Code, created: Option<Id>)
      requires Valid()
      modifies this`orders, this`nextId
      ensures Valid()
      ensures code in {NotFound, ServerError, Created}
      ensures code == NotFound <==> restaurantId !in users || actor.id !in users
      ensures restaurantId in users && actor.id in users ==>
                (code == ServerError <==>
                   || RequestedOrderType(orderType).None? || totalAmount.None?
                   || OrgOrName(users[restaurantId]) == "" || users[actor.id].name == "")
      ensures code != Created ==> created.None? && orders == old(orders) && nextId == old(nextId)
      ensures code == Created ==>
                && restaurantId in users && actor.id in users
                && RequestedOrderType(orderType).Some? && totalAmount.Some?
                && created == Some(old(nextId)) && old(nextId) !in old(orders) && nextId == old(nextId) + 1
                && orders == old(orders)[old(nextId) :=
                     NewOrder(restaurantId, OrgOrName(users[restaurantId]), actor.id, users[actor.id].name,
                              items, totalAmount.value, RequestedOrderType(orderType).value, Paid,
                              deliveryAddress, now)]
    {
      if restaurantId !in users || actor.id !in users {
        return NotFound, None;
      }
      var restaurant := users[restaurantId];
      var customer := users[actor.id];
      var t := RequestedOrderType(orderType);
      if t.None? || totalAmount.None? || OrgOrName(restaurant) == "" || customer.name == "" {
        return ServerError, None;
      }
      var id := nextId;
      orders := orders[id := NewOrder(restaurantId, OrgOrName(restaurant), actor.id, customer.name, items,
                                      totalAmount.value, t.value, Paid, deliveryAddress, now)];
      nextId := nextId + 1;
      return Created, Some(id);
    }

    /** PATCH /api/orders/:id/feedback: only the order's customer; any status. */
    method AddOrderFeedback(actor: Actor, id: Id, rating: Option<int>, comment: string, now: Time)
      returns (code: Code, updated: Option<Order>)
      requires Valid()
      modifies this`orders
      ensures Valid()
      ensures code in {NotFound, Forbidden, ServerError, Ok}
      ensures code == NotFound <==> id !in old(orders)
      ensures id in old(orders) ==> (code == Forbidden <==> old(orders)[id].customer != actor.id)
      ensures id in old(orders) && old(orders)[id].customer == actor.id ==>
                (code == ServerError <==> rating.Some? && !(1 <= rating.value <= 5))
      ensures code != Ok ==> updated.None? && orders == old(orders)
      ensures code == Ok ==>
                && id in old(orders)
                && updated == Some(WithFeedback(old(orders)[id], rating, comment, now))
                && orders == old(orders)[id := updated.value]
    {
      if id !in orders {
        return NotFound, None;
      }
      var o := orders[id];
      if o.customer != actor.id {
        return Forbidden, None;
      }
      if rating.Some? && !(1 <= rating.value <= 5) {
        return ServerError, None;
      }
      var r := WithFeedback(o, rating, comment, now);
      orders := orders[id := r];
      return Ok, Some(r);
    }
  }
}
