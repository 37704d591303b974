/** The Volunteer and Assignment documents: enums, defaults, rating ranges and
    what saving them validates. */
module VolunteerModel {
  import opened Common

  datatype VolunteerStatus = Active | Inactive | OnAssignment

  datatype Availability = FullTime | PartTime | Weekends | Flexible

  datatype TaskType = Pickup | Distribution | Both

  datatype Priority = Low | Medium | High | Urgent

  datatype AssignmentStatus = Assigned | Accepted | InProgress | Completed | Cancelled

  function VolunteerStatusName(s: VolunteerStatus): string {
    match s
    case Active => "active"
    case Inactive => "inactive"
    case OnAssignment => "on-assignment"
  }

  function ParseVolunteerStatus(s: string): (r: Option<VolunteerStatus>)
    ensures r.Some? ==> VolunteerStatusName(r.value) == s
    ensures r.None? ==> forall st :: VolunteerStatusName(st) != s
  {
    if s == "active" then Some(Active)
    else if s == "inactive" then Some(Inactive)
    else if s == "on-assignment" then Some(OnAssignment)
    else None
  }

  function AvailabilityName(a: Availability): string {
    match a
    case FullTime => "Full-time"
    case PartTime => "Part-time"
    case Weekends => "Weekends"
    case Flexible => "Flexible"
  }

  function ParseAvailability(s: string): (r: Option<Availability>)
    ensures r.Some? ==> AvailabilityName(r.value) == s
    ensures r.None? ==> forall a :: AvailabilityName(a) != s
  {
    if s == "Full-time" then Some(FullTime)
    else if s == "Part-time" then Some(PartTime)
    else if s == "Weekends" then Some(Weekends)
    else if s == "Flexible" then Some(Flexible)
    else None
  }

  function TaskTypeName(t: TaskType): string {
    match t
    case Pickup => "Pickup"
    case Distribution => "Distribution"
    case Both => "Both"
  }

  function ParseTaskType(s: string): (r: Option<TaskType>)
    ensures r.Some? ==> TaskTypeName(r.value) == s
    ensures r.None? ==> forall t :: TaskTypeName(t) != s
  {
    if s == "Pickup" then Some(Pickup)
    else if s == "Distribution" then Some(Distribution)
    else if s == "Both" then Some(Both)
    else None
  }

  function PriorityName(p: Priority): string {
    match p
    case Low => "low"
    case Medium => "medium"
    case High => "high"
    case Urgent => "urgent"
  }

  function ParsePriority(s: string): (r: Option<Priority>)
    ensures r.Some? ==> PriorityName(r.value) == s
    ensures r.None? ==> forall p :: PriorityName(p) != s
  {
    if s == "low" then Some(Low)
    else if s == "medium" then Some(Medium)
    else if s == "high" then Some(High)
    else if s == "urgent" then Some(Urgent)
    else None
  }

  function AssignmentStatusName(s: AssignmentStatus): string {
    match s
    case Assigned => "assigned"
    case Accepted => "accepted"
    case InProgress => "in-progress"
    case Completed => "completed"
    case Cancelled => "cancelled"
  }

  function ParseAssignmentStatus(s: string): (r: Option<AssignmentStatus>)
    ensures r.Some? ==> AssignmentStatusName(r.value) == s
    ensures r.None? ==> forall st :: AssignmentStatusName(st) != s
  {
    if s == "assigned" then Some(Assigned)
    else if s == "accepted" then Some(Accepted)
    else if s == "in-progress" then Some(InProgress)
    else if s == "completed" then Some(Completed)
    else if s == "cancelled" then Some(Cancelled)
    else None
  }

  datatype Volunteer = Volunteer(
    ngo: Id,
    ngoName: string,
    name: string,
    email: string,
    phone: string,
    address: string,
    availability: Availability,
    skills: seq<string>,
    status: VolunteerStatus,
    currentAssignment: Option<Id>,
    totalAssignments: int,
    completedAssignments: int,
    rating: int,
    createdAt: Time)

  /** Required strings non-empty and the rating within [0, 5]. */
  predicate VolunteerValid(v: Volunteer) {
    v.ngoName != "" && v.name != "" && v.email != "" && v.phone != ""
    && 0 <= v.rating <= 5
  }

  /** A new volunteer with the schema's defaults: active, no current assignment,
      both counters 0, rating 0. */
  function NewVolunteer(ngo: Id, ngoName: string, name: string, email: string, phone: string,
                        address: string, availability: Availability, skills: seq<string>,
                        createdAt: Time): (v: Volunteer)
    ensures v.status == Active && v.currentAssignment.None?
    ensures v.totalAssignments == 0 && v.completedAssignments == 0 && v.rating == 0
    ensures v.ngo == ngo && v.availability == availability && v.skills == skills
    ensures VolunteerValid(v) <==> ngoName != "" && name != "" && email != "" && phone != ""
  {
    Volunteer(ngo, ngoName, name, email, phone, address, availability, skills,
              Active, None, 0, 0, 0, createdAt)
  }

  /** Feedback on an assignment; the rating is optional. */
  datatype Feedback = Feedback(rating: Option<int>, comment: string)

  /** The feedback rating, when present, lies in [1, 5]. */
  predicate FeedbackValid(f: Option<Feedback>) {
    f.Some? && f.value.rating.Some? ==> 1 <= f.value.rating.value <= 5
  }

  /** Locations are opaque address strings here; coordinates are not modelled. */
  datatype Assignment = Assignment(
    ngo: Id,
    volunteer: Id,
    volunteerName: string,
    donation: Option<Id>,
    taskType: TaskType,
    taskDescription: string,
    pickupLocation: string,
    distributionLocation: string,
    scheduledDate: Time,
    estimatedDuration: string,
    status: AssignmentStatus,
    priority: Priority,
    notes: string,
    notificationSent: bool,
    acceptedAt: Option<Time>,
    startedAt: Option<Time>,
    completedAt: Option<Time>,
    feedback: Option<Feedback>,
    createdAt: Time)

  predicate AssignmentValid(a: Assignment) {
    a.volunteerName != "" && a.taskDescription != "" && FeedbackValid(a.feedback)
  }

  /** A new assignment with the schema's defaults: status assigned, no
      notification sent, no timestamps, no feedback. */
  function NewAssignment(ngo: Id, volunteer: Id, volunteerName: string, donation: Option<Id>,
                         taskType: TaskType, taskDescription: string, pickupLocation: string,
                         distributionLocation: string, scheduledDate: Time,
                         estimatedDuration: string, priority: Priority, notes: string,
                         createdAt: Time): (a: Assignment)
    ensures a.status == Assigned && !a.notificationSent
    ensures a.acceptedAt.None? && a.startedAt.None? && a.completedAt.None? && a.feedback.None?
    ensures a.ngo == ngo && a.volunteer == volunteer && a.volunteerName == volunteerName
    ensures a.donation == donation && a.priority == priority && a.taskType == taskType
    ensures AssignmentValid(a) <==> volunteerName != "" && taskDescription != ""
  {
    Assignment(ngo, volunteer, volunteerName, donation, taskType, taskDescription,
               pickupLocation, distributionLocation, scheduledDate, estimatedDuration,
               Assigned, priority, notes, false, None, None, None, None, createdAt)
  }
}
