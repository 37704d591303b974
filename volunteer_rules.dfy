/** The pure part of the volunteer endpoints: new and patched volunteers, the
    volunteer side of an assignment's life, new and progressed assignments,
    the queries and the NGO's statistics. */
module VolunteerRules {
  import opened Common
  import opened VolunteerModel

  /** A volunteer has a current assignment exactly when it is on assignment. */
  predicate BusyCoherent(v: Volunteer) {
    v.currentAssignment.Some? <==> v.status == OnAssignment
  }

  /** The fields a volunteer's record keeps whatever happens to its status. */
  predicate SameContact(v: Volunteer, w: Volunteer) {
    && v.ngo == w.ngo && v.ngoName == w.ngoName && v.name == w.name && v.email == w.email
    && v.phone == w.phone && v.address == w.address && v.availability == w.availability
    && v.skills == w.skills && v.rating == w.rating && v.createdAt == w.createdAt
  }

  // ------------------------------------------------------------ volunteers

  /** The body of an add-volunteer request. */
  datatype VolunteerRequest = VolunteerRequest(
    name: string, email: string, phone: string, address: string,
    availability: string, skills: Option<seq<string>>)

  /** `!name || !email || !phone`. */
  predicate MissingContact(req: VolunteerRequest) {
    req.name == "" || req.email == "" || req.phone == ""
  }

  /** `availability || 'Flexible'`, then the enum check. */
  function RequestedAvailability(s: string): (r: Option<Availability>)
    ensures s == "" ==> r == Some(Flexible)
    ensures s != "" ==> (r.Some? <==> exists a :: AvailabilityName(a) == s)
  {
    if s == "" then Some(Flexible) else ParseAvailability(s)
  }

  /** The volunteer an NGO's add request saves: the schema defaults, the
      request's contact fields, skills defaulting to none, and the NGO's name
      (`name || organizationName`) as a snapshot. */
  function Enlisted(ngo: Actor, req: VolunteerRequest, availability: Availability, now: Time): (v: Volunteer)
    ensures v.ngo == ngo.id && v.ngoName == NameOrOrg(ngo.profile)
    ensures v.name == req.name && v.email == req.email && v.phone == req.phone
    ensures v.address == req.address && v.availability == availability
    ensures v.skills == (if req.skills.Some? then req.skills.value else [])
    ensures v.status == Active && BusyCoherent(v)
    ensures v.totalAssignments == 0 && v.completedAssignments == 0 && v.rating == 0
    ensures v.createdAt == now
    ensures VolunteerValid(v) <==> !MissingContact(req) && NameOrOrg(ngo.profile) != ""
  {
    NewVolunteer(ngo.id, NameOrOrg(ngo.profile), req.name, req.email, req.phone, req.address,
                 availability, if req.skills.Some? then req.skills.value else [], now)
  }

  /** The body of an update-volunteer request; "" or None means not supplied. */
  datatype VolunteerPatch = VolunteerPatch(
    name: string, email: string, phone: string, address: string,
    availability: string, skills: Option<seq<string>>, status: string)

  /** Whether the supplied enum fields pass save's enum checks. */
  predicate PatchEnumsValid(p: VolunteerPatch) {
    (p.availability == "" || ParseAvailability(p.availability).Some?)
    && (p.status == "" || ParseVolunteerStatus(p.status).Some?)
  }

  /** An update: each supplied field overwrites, the others stay; the NGO, the
      counters, the rating and the current assignment are never touched. */
  function Patched(v: Volunteer, p: VolunteerPatch): (r: Volunteer)
    requires PatchEnumsValid(p)
    ensures r.name == (if p.name != "" then p.name else v.name)
    ensures r.email == (if p.email != "" then p.email else v.email)
    ensures r.phone == (if p.phone != "" then p.phone else v.phone)
    ensures r.address == (if p.address != "" then p.address else v.address)
    ensures p.availability != "" ==> AvailabilityName(r.availability) == p.availability
    ensures p.availability == "" ==> r.availability == v.availability
    ensures r.skills == (if p.skills.Some? then p.skills.value else v.skills)
    ensures p.status != "" ==> VolunteerStatusName(r.status) == p.status
    ensures p.status == "" ==> r.status == v.status
    ensures r == v.(name := r.name, email := r.email, phone := r.phone, address := r.address,
                    availability := r.availability, skills := r.skills, status := r.status)
    ensures VolunteerValid(v) ==> VolunteerValid(r)
  {
    v.(name := if p.name != "" then p.name else v.name,
       email := if p.email != "" then p.email else v.email,
       phone := if p.phone != "" then p.phone else v.phone,
       address := if p.address != "" then p.address else v.address,
       availability := if p.availability != "" then ParseAvailability(p.availability).value else v.availability,
       skills := if p.skills.Some? then p.skills.value else v.skills,
       status := if p.status != "" then ParseVolunteerStatus(p.status).value else v.status)
  }

  /** An update may set the status by hand and so break busy coherence: a
      volunteer on assignment set back to active keeps its current assignment. */
  lemma PatchedStatusLeavesAssignment(v: Volunteer, p: VolunteerPatch)
    requires BusyCoherent(v) && v.status == OnAssignment
    requires p.status == "active" && p.availability == ""
    ensures !BusyCoherent(Patched(v, p))
  {
  }

  /** What creating an assignment does to its volunteer: on assignment, the new
      assignment current, one more assignment counted; whatever the volunteer's
      status was, so a current assignment is overwritten. */
  function Engaged(v: Volunteer, assignment: Id): (r: Volunteer)
    ensures r.status == OnAssignment && r.currentAssignment == Some(assignment)
    ensures r.totalAssignments == v.totalAssignments + 1
    ensures r.completedAssignments == v.completedAssignments
    ensures BusyCoherent(r) && SameContact(v, r)
    ensures VolunteerValid(v) ==> VolunteerValid(r)
  {
    v.(status := OnAssignment, currentAssignment := Some(assignment),
       totalAssignments := v.totalAssignments + 1)
  }

  /** What completing (`completed` true) or cancelling an assignment does to its
      volunteer: active again, no current assignment, one more completion counted
      only on completion. */
  function Released(v: Volunteer, completed: bool): (r: Volunteer)
    ensures r.status == Active && r.currentAssignment.None?
    ensures r.completedAssignments == v.completedAssignments + (if completed then 1 else 0)
    ensures r.totalAssignments == v.totalAssignments
    ensures BusyCoherent(r) && SameContact(v, r)
    ensures VolunteerValid(v) ==> VolunteerValid(r)
  {
    if completed then
      v.(status := Active, currentAssignment := None, completedAssignments := v.completedAssignments + 1)
    else
      v.(status := Active, currentAssignment := None)
  }

  /** Nothing stops a second assignment for a busy volunteer: the first one
      is no longer current, and both are counted. */
  lemma {:induction false} SecondAssignmentOverwrites(v: Volunteer, first: Id, second: Id)
    requires first != second
    ensures var w := Engaged(Engaged(v, first), second);
            w.currentAssignment == Some(second) && w.currentAssignment != Some(first)
            && w.totalAssignments == v.totalAssignments + 2
  {
    var once := Engaged(v, first);
    assert once.totalAssignments == v.totalAssignments + 1;
  }

  /** Nothing stops a second completion of the same assignment: a new volunteer
      given one assignment that is completed twice counts more completions than
      assignments. */
  lemma {:induction false} RepeatedCompletionOvercounts(v: Volunteer, assignment: Id)
    requires v.totalAssignments == 0 && v.completedAssignments == 0
    ensures var w := Released(Released(Engaged(v, assignment), true), true);
            w.totalAssignments == 1 && w.completedAssignments == 2
  {
    var e := Engaged(v, assignment);
    var once := Released(e, true);
    assert once.completedAssignments == 1;
  }

  // ----------------------------------------------------------- assignments

  /** The body of a create-assignment request. */
  datatype AssignmentRequest = AssignmentRequest(
    volunteerId: Option<Id>, donationId: Option<Id>, taskType: string, taskDescription: string,
    pickupLocation: string, distributionLocation: string, scheduledDate: Option<Time>,
    estimatedDuration: string, priority: string, notes: string)

  /** `!volunteerId || !taskType || !taskDescription || !scheduledDate`. */
  predicate MissingTaskFields(req: AssignmentRequest) {
    req.volunteerId.None? || req.taskType == "" || req.taskDescription == "" || req.scheduledDate.None?
  }

  /** `priority || 'medium'`, then the enum check. */
  function RequestedPriority(s: string): (r: Option<Priority>)
    ensures s == "" ==> r == Some(Medium)
    ensures s != "" ==> (r.Some? <==> exists p :: PriorityName(p) == s)
  {
    if s == "" then Some(Medium) else ParsePriority(s)
  }

  /** The assignment a create request saves: the schema defaults, the linked
      volunteer and donation, and the volunteer's name as a snapshot. */
  function Issued(ngo: Actor, volunteer: Volunteer, req: AssignmentRequest, taskType: TaskType,
                  priority: Priority, now: Time): (a: Assignment)
    requires !MissingTaskFields(req)
    ensures a.ngo == ngo.id && a.volunteer == req.volunteerId.value
    ensures a.volunteerName == volunteer.name && a.donation == req.donationId
    ensures a.taskType == taskType && a.priority == priority && a.status == Assigned
    ensures a.taskDescription == req.taskDescription && a.notes == req.notes
    ensures a.pickupLocation == req.pickupLocation && a.distributionLocation == req.distributionLocation
    ensures a.scheduledDate == req.scheduledDate.value && a.estimatedDuration == req.estimatedDuration
    ensures !a.notificationSent && a.createdAt == now
    ensures a.acceptedAt.None? && a.startedAt.None? && a.feedback.None? && a.completedAt.None?
    ensures VolunteerValid(volunteer) ==> AssignmentValid(a)
  {
    NewAssignment(ngo.id, req.volunteerId.value, volunteer.name, req.donationId, taskType,
                  req.taskDescription, req.pickupLocation, req.distributionLocation,
                  req.scheduledDate.value, req.estimatedDuration, priority, req.notes, now)
  }

  /** A status update: any status is written, whatever the current one; the
      move to accepted, in-progress or completed stamps its own time; supplied
      feedback replaces the old whatever the new status. */
  function Progressed(a: Assignment, s: AssignmentStatus, feedback: Option<Feedback>, now: Time): (r: Assignment)
    ensures r.status == s
    ensures r.acceptedAt == (if s == Accepted then Some(now) else a.acceptedAt)
    ensures r.startedAt == (if s == InProgress then Some(now) else a.startedAt)
    ensures r.completedAt == (if s == AssignmentStatus.Completed then Some(now) else a.completedAt)
    ensures r.feedback == (if feedback.Some? then feedback else a.feedback)
    ensures r == a.(status := s, acceptedAt := r.acceptedAt, startedAt := r.startedAt,
                    completedAt := r.completedAt, feedback := r.feedback)
    ensures AssignmentValid(a) && FeedbackValid(feedback) ==> AssignmentValid(r)
  {
    var r := a.(status := s);
    var r := if s == Accepted then r.(acceptedAt := Some(now))
             else if s == InProgress then r.(startedAt := Some(now))
             else if s == AssignmentStatus.Completed then r.(completedAt := Some(now))
             else r;
    if feedback.Some? then r.(feedback := feedback) else r
  }

  // --------------------------------------------------- queries and stats

  function VolunteersOf(vs: map<Id, Volunteer>, ngo: Id): (ids: set<Id>)
    ensures forall id :: id in ids <==> id in vs && vs[id].ngo == ngo
  {
    IdsWhere(vs, (v: Volunteer) => v.ngo == ngo)
  }

  function AssignmentsOf(as_: map<Id, Assignment>, ngo: Id): (ids: set<Id>)
    ensures forall id :: id in ids <==> id in as_ && as_[id].ngo == ngo
  {
    IdsWhere(as_, (a: Assignment) => a.ngo == ngo)
  }

  function CountVolunteerStatus(vs: seq<Volunteer>, s: VolunteerStatus): (n: nat)
    ensures n <= |vs|
  {
    Count(vs, (v: Volunteer) => v.status == s)
  }

  function CountAssignmentStatus(as_: seq<Assignment>, s: AssignmentStatus): (n: nat)
    ensures n <= |as_|
  {
    Count(as_, (a: Assignment) => a.status == s)
  }

  /** Every volunteer is active, inactive or on assignment. */
  lemma {:induction false} VolunteerStatusPartition(vs: seq<Volunteer>)
    ensures CountVolunteerStatus(vs, Active) + CountVolunteerStatus(vs, Inactive)
          + CountVolunteerStatus(vs, OnAssignment) == |vs|
  {
    if vs != [] {
      VolunteerStatusPartition(vs[..|vs| - 1]);
    }
  }

  /** Every assignment is in exactly one of the five statuses. */
  lemma {:induction false} AssignmentStatusPartition(as_: seq<Assignment>)
    ensures CountAssignmentStatus(as_, Assigned) + CountAssignmentStatus(as_, Accepted)
          + CountAssignmentStatus(as_, InProgress) + CountAssignmentStatus(as_, AssignmentStatus.Completed)
          + CountAssignmentStatus(as_, Cancelled) == |as_|
  {
    if as_ != [] {
      AssignmentStatusPartition(as_[..|as_| - 1]);
    }
  }

  /** The NGO statistics. */
  datatype VolunteerStats = VolunteerStats(
    totalVolunteers: nat, activeVolunteers: nat, onAssignment: nat,
    totalAssignments: nat, pendingAssignments: nat, inProgress: nat, completedAssignments: nat)
}
