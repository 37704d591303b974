/** Client walks through the endpoints: what a sequence of requests leaves
    in the store, proved from the endpoints' contracts alone. */
module Scenarios {
  import opened Common
  import opened DonationModel
  import opened DonationRules
  import opened VolunteerModel
  import opened VolunteerRules
  import opened Platform

  /** A restaurant offers food, an NGO claims it, sends a volunteer, and
      acknowledges the meals; the volunteer then completes the task. Every
      step keeps the donation coherent, and a second claim is refused. */
  method DonationJourney() {
    var restaurant := Actor(1, Profile(Restaurant, "Ann", "Bistro"));
    var ngo := Actor(2, Profile(NGO, "Bo", "Food Bank"));
    var store := new Store(map[1 := restaurant.profile, 2 := ngo.profile]);

    var code, created := store.CreateDonation(
      restaurant, DonationRequest("rice", Some(10), "", "", "Main St", Some(90000)), 1000);
    assert code == Created && created == Some(0);
    var did := created.value;
    assert store.donations[did].status == Available && store.donations[did].unit == Servings;
    assert store.donations[did].restaurantName == "Bistro";

    var refused, _ := store.ClaimDonation(restaurant, did, 1100);
    assert refused == Forbidden;

    var claimed, _ := store.ClaimDonation(ngo, did, 1200);
    assert claimed == Ok;
    assert store.donations[did].claimedBy == Some(ngo.id) && store.donations[did].claimedByName == Some("Food Bank");
    assert ClaimCoherent(store.donations[did]) && CompletionCoherent(store.donations[did]);

    EnlistAndSend(store, ngo, did);
  }

  /** A second claim of the claimed donation is refused; the NGO enlists a
      volunteer and sends them to pick the donation up. */
  method EnlistAndSend(store: Store, ngo: Actor, did: Id)
    requires store.Valid() && ngo.profile.role == NGO && ngo.profile.name != "" && store.nextId == 1
    requires did in store.donations && store.donations[did].status == Claimed
    requires store.donations[did].claimedBy == Some(ngo.id)
    modifies store
  {
    var again, _ := store.ClaimDonation(ngo, did, 1300);
    assert again == BadRequest;

    var added, vid := store.AddVolunteer(ngo, VolunteerRequest("Vic", "vic@example.org", "555", "", "", None), 1400);
    assert added == Created && vid == Some(1);
    assert store.volunteers[1].availability == Flexible && store.volunteers[1].status == Active;

    SendAndAcknowledge(store, ngo, did);
  }

  /** The rest of the journey: the NGO sends its volunteer to pick the
      donation up, acknowledges the meals, and the volunteer completes the task. */
  method SendAndAcknowledge(store: Store, ngo: Actor, did: Id)
    requires store.Valid() && ngo.profile.role == NGO && store.nextId == 2
    requires did in store.donations && store.donations[did].status == Claimed
    requires store.donations[did].claimedBy == Some(ngo.id)
    requires 1 in store.volunteers && store.volunteers[1].ngo == ngo.id && store.volunteers[1].name == "Vic"
    requires store.volunteers[1].completedAssignments == 0 && store.volunteers[1].totalAssignments == 0
    modifies store
  {
    var sent, aid := store.CreateAssignment(
      ngo, AssignmentRequest(Some(1), Some(did), "Pickup", "collect the rice", "", "", Some(5000), "", "", ""), 1500);
    assert sent == Created && aid == Some(2);
    assert store.donations[did].status == PickedUp;
    assert store.volunteers[1].status == OnAssignment && store.volunteers[1].currentAssignment == Some(2);
    assert store.volunteers[1].totalAssignments == 1;
    assert store.assignments[2].priority == Medium && store.assignments[2].volunteerName == "Vic";
    assert store.assignments[2].volunteer == 1 && store.assignments[2].ngo == ngo.id;

    AcknowledgeAndComplete(store, ngo, did);
  }

  /** The NGO acknowledges the meals of the picked-up donation, then marks
      the volunteer's assignment completed, which frees the volunteer. */
  method AcknowledgeAndComplete(store: Store, ngo: Actor, did: Id)
    requires store.Valid() && ngo.profile.role == NGO
    requires did in store.donations && store.donations[did].claimedBy == Some(ngo.id)
    requires 2 in store.assignments && store.assignments[2].ngo == ngo.id && store.assignments[2].volunteer == 1
    requires 1 in store.volunteers && store.volunteers[1].status == OnAssignment
    requires store.volunteers[1].completedAssignments == 0 && store.volunteers[1].totalAssignments == 1
    modifies store
  {
    var acked, _ := store.Acknowledge(ngo, did, AcknowledgeRequest(Some(40), None, "", "thanks"), 1600);
    assert acked == Ok;
    assert store.donations[did].status == DonationStatus.Completed;
    assert store.donations[did].mealsServed == 40 && store.donations[did].beneficiaries == 0;
    assert ClaimCoherent(store.donations[did]) && CompletionCoherent(store.donations[did]);

    var done, _ := store.UpdateAssignmentStatus(ngo, 2, "completed", None, 1700);
    assert done == Ok;
    assert store.assignments[2].status == AssignmentStatus.Completed && store.assignments[2].completedAt == Some(1700);
    assert store.volunteers[1].status == Active && store.volunteers[1].currentAssignment.None?;
    assert store.volunteers[1].completedAssignments == 1 && store.volunteers[1].totalAssignments == 1;
  }

  /** A restaurant puts its claimed donation back to available; the first
      claimant stays recorded, and a second NGO can then claim it. */
  method StaleClaimant() {
    var restaurant := Actor(1, Profile(Restaurant, "Ann", ""));
    var first := Actor(2, Profile(NGO, "Bo", "Food Bank"));
    var second := Actor(3, Profile(NGO, "Cy", ""));
    var store := new Store(map[1 := restaurant.profile, 2 := first.profile, 3 := second.profile]);

    var code, created := store.CreateDonation(
      restaurant, DonationRequest("bread", Some(3), "pieces", "", "Side St", Some(90000)), 1000);
    assert code == Created && created == Some(0);
    assert store.donations[0].restaurantName == "Ann" && store.donations[0].unit == Pieces;

    var claimed, _ := store.ClaimDonation(first, 0, 1100);
    assert claimed == Ok;
    assert store.donations[0].claimedBy == Some(2) && store.donations[0].restaurant == 1;

    ResetAndReclaim(store, restaurant, first, second);
  }

  /** The restaurant resets the claimed donation 0 to available; a second
      NGO claims it, the first NGO can no longer acknowledge it, and an
      unknown status is refused. */
  method ResetAndReclaim(store: Store, restaurant: Actor, first: Actor, second: Actor)
    requires store.Valid()
    requires restaurant == Actor(1, Profile(Restaurant, "Ann", ""))
    requires first == Actor(2, Profile(NGO, "Bo", "Food Bank")) && second == Actor(3, Profile(NGO, "Cy", ""))
    requires 0 in store.donations && store.donations[0].restaurant == 1
    requires store.donations[0].status == Claimed && store.donations[0].claimedBy == Some(2)
    modifies store
  {
    var reset, _ := store.UpdateDonationStatus(restaurant, 0, "available", 1200);
    assert reset == Ok;
    assert store.donations[0].claimedBy == Some(2) && !ClaimCoherent(store.donations[0]);

    var stolen, _ := store.ClaimDonation(second, 0, 1300);
    assert stolen == Ok && store.donations[0].claimedBy == Some(3) && store.donations[0].claimedByName == Some("Cy");

    var late, _ := store.Acknowledge(first, 0, AcknowledgeRequest(None, None, "", ""), 1400);
    assert late == NotFound;

    var bad, _ := store.UpdateDonationStatus(restaurant, 0, "gone", 1500);
    assert bad == ServerError && store.donations[0].status == Claimed;
  }
}
