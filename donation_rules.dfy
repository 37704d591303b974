/** The pure part of the donation endpoints: what each transition does to one
    Donation document, the coherence properties it keeps or breaks, the
    queries behind the list endpoints and the restaurant statistics. */
module DonationRules {
  import opened Common
  import opened DonationModel

  /** `claimedBy` is set exactly when the status is claimed, picked-up or completed. */
  predicate ClaimCoherent(d: Donation) {
    d.claimedBy.Some? <==> d.status in {Claimed, PickedUp, DonationStatus.Completed}
  }

  /** The completion stamp and the acknowledgement are set exactly when the
      status is completed. */
  predicate CompletionCoherent(d: Donation) {
    (d.completedAt.Some? && d.acknowledgement.Some?) <==> d.status == DonationStatus.Completed
  }

  /** The restaurant's offer itself: who offered what, where and until when. */
  predicate SameOffer(d: Donation, e: Donation) {
    && d.restaurant == e.restaurant && d.restaurantName == e.restaurantName
    && d.foodType == e.foodType && d.quantity == e.quantity && d.unit == e.unit
    && d.description == e.description && d.pickupAddress == e.pickupAddress
    && d.expiryTime == e.expiryTime && d.createdAt == e.createdAt
  }

  predicate SameClaim(d: Donation, e: Donation) {
    d.claimedBy == e.claimedBy && d.claimedByName == e.claimedByName && d.claimedAt == e.claimedAt
  }

  predicate SameCompletion(d: Donation, e: Donation) {
    && d.completedAt == e.completedAt && d.mealsServed == e.mealsServed
    && d.beneficiaries == e.beneficiaries && d.acknowledgement == e.acknowledgement
  }

  /** The body of a create request; absent strings are "", absent values None. */
  datatype DonationRequest = DonationRequest(
    foodType: string, quantity: Option<int>, unit: string, description: string,
    pickupAddress: string, expiryTime: Option<Time>)

  /** `!foodType || !quantity || !pickupAddress || !expiryTime`. */
  predicate MissingRequired(req: DonationRequest) {
    req.foodType == "" || req.quantity == None || req.quantity == Some(0)
    || req.pickupAddress == "" || req.expiryTime.None?
  }

  /** `unit || 'servings'`, then the enum check; None when save would refuse it. */
  function RequestedUnit(req: DonationRequest): (r: Option<Unit>)
    ensures req.unit == "" ==> r == Some(Servings)
    ensures req.unit != "" ==> (r.Some? <==> exists u :: UnitName(u) == req.unit)
    ensures req.unit != "" && r.Some? ==> UnitName(r.value) == req.unit
  {
    if req.unit == "" then Some(Servings) else ParseUnit(req.unit)
  }

  /** The donation a restaurant's create request saves: the schema defaults,
      the request's fields, and a snapshot of the restaurant's display name. */
  function Offered(restaurant: Actor, req: DonationRequest, unit: Unit, now: Time): (d: Donation)
    requires !MissingRequired(req)
    ensures d.status == Available && ClaimCoherent(d) && CompletionCoherent(d)
    ensures d.restaurant == restaurant.id && d.restaurantName == OrgOrName(restaurant.profile)
    ensures d.foodType == req.foodType && d.quantity == req.quantity.value && d.unit == unit
    ensures d.description == req.description
    ensures d.pickupAddress == req.pickupAddress && d.expiryTime == req.expiryTime.value
    ensures d.claimedBy.None? && d.claimedByName.None? && d.claimedAt.None?
    ensures d.completedAt.None? && d.acknowledgement.None?
    ensures d.mealsServed == 0 && d.beneficiaries == 0 && d.createdAt == now
    ensures SchemaValid(d) <==> OrgOrName(restaurant.profile) != ""
  {
    NewDonation(restaurant.id, OrgOrName(restaurant.profile), req.foodType, req.quantity.value,
                unit, req.description, req.pickupAddress, req.expiryTime.value, now)
  }

  /** A claim by an NGO. */
  function ClaimFor(d: Donation, ngo: Actor, now: Time): (r: Donation)
    ensures r.status == Claimed && r.claimedBy == Some(ngo.id)
    ensures r.claimedByName == Some(OrgOrName(ngo.profile)) && r.claimedAt == Some(now)
    ensures SameOffer(d, r) && SameCompletion(d, r)
    ensures ClaimCoherent(r)
    ensures d.status == Available && CompletionCoherent(d) ==> CompletionCoherent(r)
    ensures SchemaValid(d) ==> SchemaValid(r)
  {
    d.(status := Claimed, claimedBy := Some(ngo.id), claimedByName := Some(OrgOrName(ngo.profile)),
       claimedAt := Some(now))
  }

  /** The generic status edit: any status is written, whatever the current one;
      a move to completed stamps completedAt and touches nothing else. */
  function WithStatus(d: Donation, s: DonationStatus, now: Time): (r: Donation)
    ensures r.status == s
    ensures s == DonationStatus.Completed ==> r.completedAt == Some(now)
    ensures s != DonationStatus.Completed ==> r.completedAt == d.completedAt
    ensures SameOffer(d, r) && SameClaim(d, r) && r.acknowledgement == d.acknowledgement
    ensures r.mealsServed == d.mealsServed && r.beneficiaries == d.beneficiaries
    ensures SchemaValid(d) ==> SchemaValid(r)
  {
    var r := d.(status := s);
    if s == DonationStatus.Completed then r.(completedAt := Some(now)) else r
  }

  /** What creating an assignment linked to a donation does to it: the status
      becomes picked-up, whatever it was. */
  function MarkPickedUp(d: Donation): (r: Donation)
    ensures r.status == PickedUp
    ensures SameOffer(d, r) && SameClaim(d, r) && SameCompletion(d, r)
    ensures d.claimedBy.Some? ==> ClaimCoherent(r)
    ensures d.status != DonationStatus.Completed && CompletionCoherent(d) ==> CompletionCoherent(r)
    ensures SchemaValid(d) ==> SchemaValid(r)
  {
    d.(status := PickedUp)
  }

  /** The body of an acknowledge request. */
  datatype AcknowledgeRequest = AcknowledgeRequest(
    mealsServed: Option<int>, beneficiaries: Option<int>, photo: string, note: string)

  /** The claimant's acknowledgement: completed, with all completion fields
      written together, whatever the status was. */
  function Acknowledged(d: Donation, req: AcknowledgeRequest, now: Time): (r: Donation)
    ensures r.status == DonationStatus.Completed && r.completedAt == Some(now)
    ensures r.mealsServed == OrZero(req.mealsServed) && r.beneficiaries == OrZero(req.beneficiaries)
    ensures r.acknowledgement == Some(Acknowledgement(req.photo, req.note, now))
    ensures CompletionCoherent(r)
    ensures d.claimedBy.Some? ==> ClaimCoherent(r)
    ensures SameOffer(d, r) && SameClaim(d, r)
    ensures SchemaValid(d) ==> SchemaValid(r)
  {
    d.(status := DonationStatus.Completed, completedAt := Some(now),
       mealsServed := OrZero(req.mealsServed), beneficiaries := OrZero(req.beneficiaries),
       acknowledgement := Some(Acknowledgement(req.photo, req.note, now)))
  }

  /** On the path create, claim, assign a volunteer, acknowledge, every
      intermediate donation is claim- and completion-coherent, and the end
      state records the claimant and the meals served. */
  lemma {:induction false} ClaimAssignAcknowledgePath(restaurant: Actor, req: DonationRequest, unit: Unit,
                                   ngo: Actor, ack: AcknowledgeRequest, t0: Time, t1: Time, t2: Time)
    requires !MissingRequired(req)
    ensures var d0 := Offered(restaurant, req, unit, t0);
            var d1 := ClaimFor(d0, ngo, t1);
            var d2 := MarkPickedUp(d1);
            var d3 := Acknowledged(d2, ack, t2);
            && ClaimCoherent(d1) && CompletionCoherent(d1)
            && ClaimCoherent(d2) && CompletionCoherent(d2)
            && ClaimCoherent(d3) && CompletionCoherent(d3)
            && d3.claimedBy == Some(ngo.id) && d3.mealsServed == OrZero(ack.mealsServed)
            && SameOffer(d0, d3)
  {
  }

  /** The status edit does not keep claim coherence: a restaurant that sets a
      claimed donation back to available leaves its claimant in place. */
  lemma StatusEditKeepsStaleClaimant(d: Donation, now: Time)
    requires d.claimedBy.Some?
    ensures !ClaimCoherent(WithStatus(d, Available, now))
    ensures WithStatus(d, Available, now).claimedBy == d.claimedBy
  {
  }

  /** Nor completion coherence: setting completed through the status edit
      stamps completedAt but attaches no acknowledgement. */
  lemma StatusEditCompletesWithoutAcknowledgement(d: Donation, now: Time)
    requires d.acknowledgement.None?
    ensures !CompletionCoherent(WithStatus(d, DonationStatus.Completed, now))
  {
  }

  /** Assigning a volunteer to an already completed donation moves it back to
      picked-up while its completion stamp and acknowledgement stay. */
  lemma AssignmentReopensCompleted(d: Donation)
    requires d.status == DonationStatus.Completed && CompletionCoherent(d)
    ensures !CompletionCoherent(MarkPickedUp(d))
    ensures MarkPickedUp(d).acknowledgement == d.acknowledgement
  {
  }

  // ---------------------------------------------------------------- queries

  /** The filters of the list endpoints. */
  datatype DonationQuery =
    | OfRestaurant(restaurant: Id)   // my-donations and stats
    | OpenAt(now: Time)              // available: status available, not yet expired
    | ClaimedByNgo(ngo: Id)          // my-claimed

  predicate Matches(q: DonationQuery, d: Donation) {
    match q
    case OfRestaurant(r) => d.restaurant == r
    case OpenAt(now) => d.status == Available && d.expiryTime > now
    case ClaimedByNgo(n) => d.claimedBy == Some(n)
  }

  function MatchingIds(ds: map<Id, Donation>, q: DonationQuery): (ids: set<Id>)
    ensures forall id :: id in ids <==> id in ds && Matches(q, ds[id])
  {
    IdsWhere(ds, (d: Donation) => Matches(q, d))
  }

  // ------------------------------------------------------------- statistics

  function CountStatus(ds: seq<Donation>, s: DonationStatus): (n: nat)
    ensures n <= |ds|
  {
    Count(ds, (d: Donation) => d.status == s)
  }

  /** `donations.filter(d => d.status === 'completed')`. */
  function CompletedOnes(ds: seq<Donation>): (cs: seq<Donation>)
    ensures |cs| == CountStatus(ds, DonationStatus.Completed)
    ensures forall k :: 0 <= k < |cs| ==> cs[k].status == DonationStatus.Completed
    ensures forall d :: d in cs <==> d in ds && d.status == DonationStatus.Completed
  {
    if ds == [] then []
    else
      var init := CompletedOnes(ds[..|ds| - 1]);
      var last := ds[|ds| - 1];
      assert ds == ds[..|ds| - 1] + [last];
      if last.status == DonationStatus.Completed then init + [last] else init
  }

  function MealsSum(cs: seq<Donation>): int {
    if cs == [] then 0 else MealsSum(cs[..|cs| - 1]) + cs[|cs| - 1].mealsServed
  }

  function BeneficiariesSum(cs: seq<Donation>): int {
    if cs == [] then 0 else BeneficiariesSum(cs[..|cs| - 1]) + cs[|cs| - 1].beneficiaries
  }

  /** The distinct claimants among the given donations (those with one). */
  function Claimants(cs: seq<Donation>): (ngos: set<Id>)
    ensures forall n :: n in ngos <==> exists k :: 0 <= k < |cs| && cs[k].claimedBy == Some(n)
  {
    if cs == [] then {}
    else
      var init := Claimants(cs[..|cs| - 1]);
      var last := cs[|cs| - 1];
      assert forall k :: 0 <= k < |cs| - 1 ==> cs[..|cs| - 1][k] == cs[k];
      if last.claimedBy.Some? then init + {last.claimedBy.value} else init
  }

  /** There are never more distinct claimants than donations. */
  lemma {:induction false} ClaimantsBound(cs: seq<Donation>)
    ensures |Claimants(cs)| <= |cs|
  {
    if cs != [] {
      ClaimantsBound(cs[..|cs| - 1]);
    }
  }

  /** The five status counts of the stats endpoint add up to the total. */
  lemma {:induction false} StatusCountsPartition(ds: seq<Donation>)
    ensures CountStatus(ds, Available) + CountStatus(ds, Claimed) + CountStatus(ds, PickedUp)
          + CountStatus(ds, DonationStatus.Completed) + CountStatus(ds, Expired) == |ds|
  {
    if ds != [] {
      StatusCountsPartition(ds[..|ds| - 1]);
    }
  }

  /** Meals served counts completed donations only: appending one that is not
      completed leaves the total unchanged. */
  lemma {:induction false} MealsIgnoreOpenDonations(ds: seq<Donation>, d: Donation)
    requires d.status != DonationStatus.Completed
    ensures MealsSum(CompletedOnes(ds + [d])) == MealsSum(CompletedOnes(ds))
    ensures BeneficiariesSum(CompletedOnes(ds + [d])) == BeneficiariesSum(CompletedOnes(ds))
  {
    assert (ds + [d])[..|ds + [d]| - 1] == ds;
  }

  /** One calendar month's entry of the stats trend. */
  datatype MonthBucket = MonthBucket(meals: int, count: nat)

  /** Whether a completed donation falls in the trend window (an absent
      completedAt never compares as later). */
  predicate CompletedSince(d: Donation, since: Time) {
    d.completedAt.Some? && d.completedAt.value >= since
  }

  function MonthCount(cs: seq<Donation>, since: Time, monthOf: Time -> int, key: int): nat {
    if cs == [] then 0
    else
      var d := cs[|cs| - 1];
      MonthCount(cs[..|cs| - 1], since, monthOf, key)
        + (if CompletedSince(d, since) && monthOf(d.completedAt.value) == key then 1 else 0)
  }

  function MonthMeals(cs: seq<Donation>, since: Time, monthOf: Time -> int, key: int): int {
    if cs == [] then 0
    else
      var d := cs[|cs| - 1];
      MonthMeals(cs[..|cs| - 1], since, monthOf, key)
        + (if CompletedSince(d, since) && monthOf(d.completedAt.value) == key then d.mealsServed else 0)
  }

  /** A month with no completions has no meals. */
  lemma {:induction false} EmptyMonthHasNoMeals(cs: seq<Donation>, since: Time, monthOf: Time -> int, key: int)
    requires MonthCount(cs, since, monthOf, key) == 0
    ensures MonthMeals(cs, since, monthOf, key) == 0
  {
    if cs != [] {
      EmptyMonthHasNoMeals(cs[..|cs| - 1], since, monthOf, key);
    }
  }

  /** The monthly trend of the stats endpoint: one bucket per calendar month
      (`monthOf` gives a completion time's month) that has a completion since
      `since`, holding that month's donation count and meals served. */
  method MonthlyTrend(cs: seq<Donation>, since: Time, monthOf: Time -> int)
    returns (trend: map<int, MonthBucket>)
    ensures forall key :: key in trend <==> MonthCount(cs, since, monthOf, key) > 0
    ensures forall key :: key in trend ==>
      trend[key] == MonthBucket(MonthMeals(cs, since, monthOf, key), MonthCount(cs, since, monthOf, key))
  {
    trend := map[];
    var i := 0;
    while i < |cs|
      invariant 0 <= i <= |cs|
      invariant forall key :: key in trend <==> MonthCount(cs[..i], since, monthOf, key) > 0
      invariant forall key :: key in trend ==>
        trend[key] == MonthBucket(MonthMeals(cs[..i], since, monthOf, key), MonthCount(cs[..i], since, monthOf, key))
    {
      var d := cs[i];
      assert cs[..i + 1][..i] == cs[..i];
      ghost var before := trend;
      if CompletedSince(d, since) {
        var key := monthOf(d.completedAt.value);
        if key !in trend {
          EmptyMonthHasNoMeals(cs[..i], since, monthOf, key);
          trend := trend[key := MonthBucket(0, 0)];
        }
        trend := trend[key := MonthBucket(trend[key].meals + d.mealsServed, trend[key].count + 1)];
      }
      forall k
        ensures MonthCount(cs[..i + 1], since, monthOf, k) == MonthCount(cs[..i], since, monthOf, k)
          + (if CompletedSince(d, since) && monthOf(d.completedAt.value) == k then 1 else 0)
        ensures MonthMeals(cs[..i + 1], since, monthOf, k) == MonthMeals(cs[..i], since, monthOf, k)
          + (if CompletedSince(d, since) && monthOf(d.completedAt.value) == k then d.mealsServed else 0)
      {
      }
      i := i + 1;
    }
    assert cs[..i] == cs;
  }

  /** The restaurant statistics. */
  datatype DonationStats = DonationStats(
    totalDonations: nat, totalMealsServed: int, totalBeneficiaries: int, ngoCount: nat,
    available: nat, claimed: nat, pickedUp: nat, completed: nat, expired: nat,
    monthlyData: map<int, MonthBucket>)
}
