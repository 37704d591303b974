# Food-donation platform back end: lifecycle and analytics model

This project models the Express route handlers of a food-donation platform.
It covers the handlers that move documents through their lifecycles, and
the statistics derived from those documents. There are three roles:

- restaurants, which post surplus food as Donations;
- NGOs, which claim Donations and send their Volunteers out on Assignments;
- customers, who place Orders at restaurants and rate them.

The model has these layers:

- **Document models** (`DonationModel`, `VolunteerModel`, `OrderModel`).
  They hold the Mongoose schemas as datatypes:
  - the enumerations, with their stored spellings and parsers;
  - the defaults a new document gets;
  - the validation a save runs. Required strings must be non-empty, enum
    values must parse, and ratings must lie between 1 and 5.
- **Lifecycle rules** (`DonationRules`, `VolunteerRules`). These are the
  field updates that each route applies to one document: claim, status
  edit, mark picked up, acknowledge, enlist, patch, engage and release a
  volunteer, issue and progress an assignment. They also hold the counts
  and sums behind the two statistics endpoints.
- **Order analytics** (`OrderAnalytics`, `Ordering`). This layer holds:
  - the time window chosen by the `period` parameter;
  - revenue, status counts and the rating histogram;
  - the per-day trend loop and the item-tally loop;
  - the top-5 popular items and the 20 most recent feedbacks.
- **The store** (`Platform.Store`). This is a class whose fields are the
  collections (users, donations, volunteers, assignments, orders) and the
  next fresh id. It has one method per endpoint. Each method:
  - checks role and ownership in the order the route does;
  - answers with the route's HTTP outcome (`Common.Code`);
  - saves what the route saves.

  Every stored document always satisfies its schema (`Store.Valid`). When a
  route saves two documents and the second save fails, the first stays
  saved. This happens in two places:
  - assignment creation saves the donation as picked-up before the
    assignment's enums are validated;
  - an assignment status update releases the volunteer before the
    assignment is validated.
- **Scenarios** (`Scenarios`). These are request sequences whose outcomes
  are proved from the endpoint contracts alone:
  - the full donation journey;
  - a stale claimant left behind by a status reset.

Absent request fields follow JavaScript truthiness:

- an absent string is `""`;
- an absent number is `None`;
- `x || 0` is `OrZero`.

Lists come back in ascending id order, which is creation order.

## Model

| member | source | states |
|---|---|---|
| Common.HttpStatus | routes/donation.js:120-156 | each outcome maps to exactly one status code and back (200, 201, 400, 403, 404, 500); only Ok and Created are 2xx |
| Common.InIdOrder | routes/donation.js:201-206 | a query's result holds exactly the stored documents that match, each with its own id, in strictly ascending id order |
| DonationModel.ParseStatus | models/Donation.js:38-42 | a status string is accepted exactly when it is the stored spelling of a donation status, and parses back to that status |
| DonationModel.ParseUnit | models/Donation.js:21-25 | a unit string is accepted exactly when it spells one of the schema's units |
| DonationModel.NewDonation | models/Donation.js:3-86 | a new donation is available, unclaimed, not completed, with zero meals/beneficiaries; it validates iff restaurantName, foodType and pickupAddress are non-empty |
| DonationRules.RequestedUnit | routes/donation.js:139 | an absent unit defaults to servings; a given unit is accepted iff it names a schema unit, and then it is that unit |
| DonationRules.Offered | routes/donation.js:132-143 | a posted donation carries the request's food type, quantity, unit, description, address and expiry, the restaurant's id and snapshot name, and `now` as createdAt; it is available, unclaimed, uncompleted, with zero meals and beneficiaries; it validates iff that name is non-empty |
| DonationRules.ClaimFor | routes/donation.js:232-239 | a claim sets status claimed, claimant id, snapshot name and time, keeps the offer and completion fields, and makes the donation claim-coherent |
| DonationRules.WithStatus | routes/donation.js:175-181 | a status edit sets the status, stamps completedAt only for completed, and leaves the claim, acknowledgement and counts untouched |
| DonationRules.MarkPickedUp | routes/volunteer.js:218-220 | linking a donation to an assignment sets status picked-up and changes nothing else |
| DonationRules.Acknowledged | routes/donation.js:288-298 | acknowledgement completes the donation at `now` with meals/beneficiaries defaulting to 0 and records photo, note and time; the result is completion-coherent |
| DonationRules.ClaimAssignAcknowledgePath | routes/donation.js:216-298 | along create → claim → assign volunteer → acknowledge, every donation is claim- and completion-coherent and the end state keeps the offer, claimant and meals |
| DonationRules.StatusEditKeepsStaleClaimant | routes/donation.js:175-181 | resetting a claimed donation to available keeps its claimant, so claim coherence is lost |
| DonationRules.StatusEditCompletesWithoutAcknowledgement | routes/donation.js:175-179 | setting status completed by the edit route, without an acknowledgement, breaks completion coherence |
| DonationRules.AssignmentReopensCompleted | routes/volunteer.js:207-221 | linking a completed donation to a new assignment moves it back to picked-up while keeping its acknowledgement |
| DonationRules.CompletedOnes | routes/donation.js:42 | the completed sub-list holds exactly the completed donations, and its length is their count |
| DonationRules.Claimants | routes/donation.js:47-52 | the distinct-NGO set is exactly the claimants that appear on the completed donations |
| DonationRules.ClaimantsBound | routes/donation.js:47-52 | the distinct-NGO count never exceeds the number of completed donations |
| DonationRules.StatusCountsPartition | routes/donation.js:55-61 | the five status counts add up to the total number of donations |
| DonationRules.MealsIgnoreOpenDonations | routes/donation.js:42-44 | a donation that is not completed adds nothing to the meals and beneficiaries totals |
| DonationRules.EmptyMonthHasNoMeals | routes/donation.js:70-82 | a month with no completed donations since the cut-off has no meals |
| DonationRules.MonthlyTrend | routes/donation.js:63-82 | the trend has a key exactly for the months with a completion since the cut-off, and each entry holds that month's count and meals |
| VolunteerModel.ParseVolunteerStatus | models/Volunteer.js:38-42 | a volunteer status string is accepted exactly when it spells one of the schema's statuses |
| VolunteerModel.ParseAvailability | models/Volunteer.js:29-33 | an availability string is accepted exactly when it spells one of the schema's values |
| VolunteerModel.ParseTaskType | models/Volunteer.js:88-92 | a task type is accepted exactly when it spells Pickup, Distribution or Both |
| VolunteerModel.ParsePriority | models/Volunteer.js:124-128 | a priority is accepted exactly when it spells low, medium, high or urgent |
| VolunteerModel.ParseAssignmentStatus | models/Volunteer.js:119-123 | an assignment status is accepted exactly when it spells one of the schema's statuses |
| VolunteerModel.NewVolunteer | models/Volunteer.js:3-66 | a new volunteer is active, unassigned, with zero counters and rating; it validates iff ngoName, name, email and phone are non-empty |
| VolunteerModel.NewAssignment | models/Volunteer.js:68-165 | a new assignment is assigned, unnotified, with no timestamps or feedback; it validates iff volunteerName and taskDescription are non-empty |
| VolunteerRules.RequestedAvailability | routes/volunteer.js:70 | an absent availability defaults to Flexible; a given one is accepted iff it names a schema value |
| VolunteerRules.Enlisted | routes/volunteer.js:57-72 | an added volunteer carries the request's name, email, phone and address, skills defaulting to [], the NGO's id and name, and `now` as createdAt; it is active and not busy, with zero counters and rating; it validates iff the contact fields and the NGO name are non-empty |
| VolunteerRules.Patched | routes/volunteer.js:103-111 | each truthy field of the patch overwrites, and the result is the old record with only those seven fields replaced, so owner, counters, rating, current assignment and createdAt never change; validity is preserved |
| VolunteerRules.PatchedStatusLeavesAssignment | routes/volunteer.js:111 | patching a busy volunteer's status to active leaves the current assignment set, so busy coherence is lost |
| VolunteerRules.Engaged | routes/volunteer.js:240-244 | engaging sets on-assignment and the current assignment and adds one to the total, keeping contact data and validity |
| VolunteerRules.Released | routes/volunteer.js:280-298 | releasing sets active with no current assignment and adds one completion only when completed |
| VolunteerRules.SecondAssignmentOverwrites | routes/volunteer.js:197-244 | a busy volunteer can be given a second assignment, which replaces the first as current while both are counted |
| VolunteerRules.RepeatedCompletionOvercounts | routes/volunteer.js:280-290 | completing the same assignment twice yields more completions than assignments |
| VolunteerRules.RequestedPriority | routes/volunteer.js:234 | an absent priority defaults to medium; a given one is accepted iff it names a schema priority |
| VolunteerRules.Issued | routes/volunteer.js:223-236 | a created assignment is assigned to the requested volunteer under the volunteer's name, with the parsed task type and priority, the request's description, locations, scheduled date, duration and notes, created now, not yet notified, accepted, started, completed or rated, and validates when the volunteer does |
| VolunteerRules.Progressed | routes/volunteer.js:274-303 | a status update sets the status, stamps exactly the timestamp that status names, keeps the old feedback unless new feedback is given, and is otherwise the old record unchanged; it preserves validity when the feedback is valid |
| VolunteerRules.VolunteerStatusPartition | routes/volunteer.js:328-331 | the volunteer status counts add up to the number of volunteers |
| VolunteerRules.AssignmentStatusPartition | routes/volunteer.js:332-335 | the assignment status counts add up to the number of assignments |
| OrderModel.ParseOrderStatus | models/Order.js:37-41 | an order status string is accepted exactly when it spells one of the schema's statuses |
| OrderModel.ParseOrderType | models/Order.js:32-36 | an order type is accepted exactly when it spells "Order for Me" or "Donate a Meal" |
| OrderModel.RequestedOrderType | routes/order.js:217 | an absent order type defaults to Order for Me; a given one is accepted iff it names a schema type |
| OrderModel.NewOrder | models/Order.js:3-79 | a new order is pending, paid by card, without feedback, and stores the given items, parties, snapshot names, amount, type, payment status, delivery address and creation time; it validates iff restaurantName and customerName are non-empty |
| OrderModel.WithFeedback | routes/order.js:251-257 | adding feedback replaces the whole feedback object and nothing else; the order stays valid iff a given rating lies in 1..5 |
| Ordering.Insert | routes/order.js:136-137 | inserting keeps a descending list descending and adds exactly one element |
| Ordering.InsertStable | routes/order.js:136-137 | inserting an element ahead of a list puts it first among the elements of its key and keeps every key's elements in order |
| Ordering.SortDesc | routes/order.js:136-137 | sorting yields a permutation of the input in descending key order |
| Ordering.SortDescStable | routes/order.js:136-137 | the sort is stable: for every key, its elements come out in the order they went in |
| Ordering.PermutationDistinct | routes/order.js:136-137 | a permutation of a duplicate-free list is duplicate-free |
| Ordering.Take | routes/order.js:138 | taking k yields exactly the first min(k, n) elements, with no repetition when the input has none |
| Ordering.TopSorted | routes/order.js:136-138 | the top k of a ranking holds min(k, n) elements in descending key order |
| Ordering.TopDrawnFrom | routes/order.js:136-138 | the top k of a ranking is a sub-multiset of its input |
| Ordering.TopDominates | routes/order.js:136-138 | every element cut from the top k has a key no larger than any element kept |
| Ordering.TopDistinctBy | routes/order.js:136-138 | when no two input elements agree on a field, no two elements of the top k do either |
| Ordering.WithKeyPrefix | routes/order.js:138 | cutting a sequence short keeps, for every key, a prefix of that key's elements |
| Ordering.TopStable | routes/order.js:136-138 | for every key, the elements the top k keeps are the first of that key's elements in input order, so ties go to the earlier element |
| OrderAnalytics.WindowPeriod | routes/order.js:46-61 | day, week and year select their own windows and every other period selects the month window |
| OrderAnalytics.TrendDays | routes/order.js:88 | the trend covers 7, 30 or 365 days for week, month, year, and 1 day for anything else |
| OrderAnalytics.UnknownPeriodSplits | routes/order.js:46-88 | an unknown period uses the month window but a one-day trend |
| OrderAnalytics.InWindow | routes/order.js:63 | the windowed orders are exactly those created at or after the start, and there are as many as the orders counted by that test |
| OrderAnalytics.WindowNarrows | routes/order.js:63 | a later start selects a subset: filtering twice equals filtering by the later start, and the later window holds no more orders |
| OrderAnalytics.WindowRefilters | routes/order.js:63 | filtering by an earlier start and then a later one equals filtering by the later one |
| OrderAnalytics.DeliveredOnes | routes/order.js:64 | the completed orders are exactly the delivered ones, and their count is the delivered count |
| OrderAnalytics.RevenueIgnoresUndelivered | routes/order.js:64-67 | an order that is not delivered changes neither revenue nor the delivered count |
| OrderAnalytics.OrderTypeSplit | routes/order.js:73-74 | the two order-type counts add up to the number of orders |
| OrderAnalytics.OrderStatusPartition | routes/order.js:77-84 | the six status counts add up to the number of orders |
| OrderAnalytics.AverageOf | routes/order.js:68-70 | the average is 0 for no orders, and otherwise times the count gives the total |
| OrderAnalytics.RatedOnes | routes/order.js:110 | the rated orders are exactly those with a feedback carrying a truthy rating, and there are as many as the orders counted by that test |
| OrderAnalytics.RatingHistogramTotal | routes/order.js:115-122 | with ratings validated into 1..5, the five histogram buckets add up to the number of rated orders |
| OrderAnalytics.CountItem | routes/order.js:128-132 | one item adds its quantity to its name's count (a missing or zero count becomes the quantity), and a name met for the first time is appended to the key order |
| OrderAnalytics.TallyItems | routes/order.js:127-133 | after one order's items, each name's count is its old count plus that order's quantity for it, names stay distinct, only mentioned names are added, and they are appended in order of first appearance |
| OrderAnalytics.ExtendMembers | routes/order.js:127-133 | the names after an order's items are the names before and the names those items mention |
| OrderAnalytics.ExtendDistinct | routes/order.js:127-133 | appending first appearances never repeats a name |
| OrderAnalytics.FirstMentionsMembers | routes/order.js:125-134 | the key order of the tally holds exactly the names some order mentions |
| OrderAnalytics.FirstMentionsDistinct | routes/order.js:125-134 | the key order of the tally holds each name once |
| OrderAnalytics.ItemTallies | routes/order.js:125-134 | each tallied name carries the total quantity ordered under it, names are distinct, exactly the names mentioned in some order appear, and they come in order of first mention |
| OrderAnalytics.MentionedNames | routes/order.js:125-134 | the set holds exactly the item names some order mentions |
| OrderAnalytics.DistinctNamesCount | routes/order.js:136 | tallies under distinct names have exactly as many names as entries |
| OrderAnalytics.PopularItems | routes/order.js:136-139 | exactly min(5, n) tallies, in non-increasing count order, a sub-multiset of the tallies, with distinct names when the tallies have them; among equal counts the kept tallies are the first in input order, in that order |
| OrderAnalytics.PopularItemsDominate | routes/order.js:136-139 | every item left out of the popular list has a count no larger than any item in it |
| OrderAnalytics.OnDay | routes/order.js:95-98 | a day's orders are exactly the orders created on that day, and there are as many as the orders counted by that test |
| OrderAnalytics.DayBucketOf | routes/order.js:100-106 | a day's completed count never exceeds its order count |
| OrderAnalytics.DailyTrends | routes/order.js:86-107 | the trend has exactly the last `days` days up to today, each holding that day's order count, delivered revenue and delivered count |
| OrderAnalytics.TopItems | routes/order.js:125-139 | exactly min(5, number of distinct mentioned names) items, each name once, largest first, each the total quantity of a mentioned name, no mentioned name left out has a larger total than one kept, and among equal totals the names kept are the first mentioned, in order of first mention |
| OrderAnalytics.TalliesRankPopular | routes/order.js:125-139 | ranking exact tallies of the mentioned names, in order of first mention, yields the popular items: min(5, n) distinct names, largest first, none left out larger than one kept, ties to the first mentioned |
| OrderAnalytics.Analyze | routes/order.js:63-158 | every figure is the count, sum or average defined above, over the window, the delivered orders in it, or all orders, as the route chooses, and the popular items are those of the delivered orders; the type counts split the delivered orders, the status counts split all orders, and the rating buckets split the rated ones |
| OrderAnalytics.FeedbackViews | routes/order.js:174-189 | there are exactly as many entries as orders with a rating, every such order has its entry, and every entry comes from such an order |
| OrderAnalytics.FeedbackViewsAscending | routes/order.js:174-189 | over a query result, whose ids ascend, the entries' order ids ascend too, so no order has two entries |
| OrderAnalytics.QueriedView | routes/order.js:174-189 | an entry listed from a query result belongs to a rated order the query selected and carries that order's rating and time |
| OrderAnalytics.RecentFeedbacks | routes/order.js:174-180 | exactly min(20, n) entries, newest first, all taken from the rated orders |
| OrderAnalytics.RecentFeedbacksDominate | routes/order.js:179-180 | every feedback left out is no newer than any feedback returned |
| OrderAnalytics.RecentFeedbacksDistinct | routes/order.js:174-180 | over a query result, no order appears twice in the listing |
| OrderAnalytics.RecentFeedbacksListing | routes/order.js:168-196 | over a query result, the listing has min(20, n) entries, newest first, each order once, all rated, and none left out newer than one listed |
| Platform.Store.CreateDonation | routes/donation.js:120-156 | 403 iff not a restaurant, 400 iff a required field is missing, 500 iff the unit or restaurant name fails validation; on 201 exactly one new donation, the offered one, is stored under a fresh id |
| Platform.Store.UpdateDonationStatus | routes/donation.js:159-192 | 404 iff unknown, 403 iff another restaurant's donation, 500 iff the status is not a schema status; otherwise only that donation changes, by the status edit |
| Platform.Store.AvailableDonations | routes/donation.js:195-213 | NGOs only; exactly the available donations that expire after now |
| Platform.Store.ClaimDonation | routes/donation.js:216-250 | 403 iff not an NGO, 404 iff unknown, 400 iff not available; otherwise only that donation changes, to the claimed one |
| Platform.Store.MyClaimed | routes/donation.js:253-268 | NGOs only; exactly the donations the caller claimed |
| Platform.Store.MyDonations | routes/donation.js:102-117 | restaurants only; exactly the caller's donations |
| Platform.Store.Acknowledge | routes/donation.js:271-309 | 403 iff not an NGO, 404 iff the donation is unknown or not claimed by the caller; otherwise only that donation changes, to the acknowledged one |
| Platform.Store.DonationStatsOf | routes/donation.js:32-99 | restaurants only; totals, status counts that sum to the total, distinct-NGO count, and the monthly trend over the caller's donations |
| Platform.Store.ListVolunteers | routes/volunteer.js:33-48 | NGOs only; exactly the caller's volunteers |
| Platform.Store.AddVolunteer | routes/volunteer.js:51-85 | 403 iff not an NGO, 400 iff name, email or phone is missing, 500 iff availability or NGO name fails validation; on 201 one new volunteer is stored |
| Platform.Store.UpdateVolunteer | routes/volunteer.js:88-124 | 403 iff not an NGO, 404 iff not the caller's volunteer, 500 iff a patched enum is invalid; otherwise only that volunteer changes, by the patch |
| Platform.Store.DeleteVolunteer | routes/volunteer.js:127-150 | 403 iff not an NGO, 404 iff not the caller's volunteer; otherwise exactly that volunteer is removed |
| Platform.Store.ListAssignments | routes/volunteer.js:153-169 | NGOs only; exactly the caller's assignments |
| Platform.Store.CreateAssignment | routes/volunteer.js:172-255 | 403/400/404/500/201 each iff its condition; on 500 the linked donation is already saved as picked-up; on 201 that plus one new assignment and its volunteer engaged |
| Platform.Store.PickUp | routes/volunteer.js:218-220 | the linked donation is saved as picked-up and no other document changes |
| Platform.Store.Issue | routes/volunteer.js:218-244 | after the checks pass: the donation is picked up first; 201 iff task type and priority are valid, then one new assignment is stored and its volunteer engaged; on 500 nothing else changes |
| Platform.Store.SaveAssignment | routes/volunteer.js:238-244 | stores the assignment under a fresh id and engages its volunteer with that id, keeping every document valid |
| Platform.Store.Release | routes/volunteer.js:280-298 | completing or cancelling releases the assignment's volunteer, if it still exists; any other status changes no volunteer |
| Platform.Store.UpdateAssignmentStatus | routes/volunteer.js:258-316 | 404 iff unknown, 403 iff another NGO's; the volunteer is released on completed/cancelled even when the save then fails with 500 (a feedback rating outside 1..5, since both releasing statuses are schema statuses); on 200 only that assignment changes |
| Platform.Store.AssignmentStats | routes/volunteer.js:319-343 | NGOs only; volunteer and assignment counts per status over the caller's documents, bounded by their totals |
| Platform.Store.OrderAnalyticsOf | routes/order.js:32-165 | restaurants only; the period defaults to month; the result is the analytics of exactly the caller's orders, popular items included |
| Platform.Store.RecentFeedbacksOf | routes/order.js:168-196 | restaurants only; the feedback listing of the caller's rated orders: min(20, n) entries, newest first, each order once, none left out newer than one listed, each carrying its order's rating and time |
| Platform.Store.CreateOrder | routes/order.js:199-233 | 404 iff restaurant or customer is not a user; 500 iff order type, amount or a snapshot name fails validation; on 201 one new paid order is stored |
| Platform.Store.AddOrderFeedback | routes/order.js:236-268 | 404 iff unknown, 403 iff the caller is not the customer, 500 iff the rating is outside 1..5; otherwise only that order's feedback changes |

## Left out

- Authentication middleware (token check, 401 and the "user not found" 404): the caller is given as a trusted `Actor` whose profile the middleware loaded.
- Any 500 from the database itself: connection failures, malformed ids, cast errors on non-numeric or non-date input, invalid `Date` values. Only schema validation failures are modelled as ServerError.
- Concurrency: requests run one at a time. Racing claims and lost updates are not modelled.
- `populate` and the routes' `sort` options (createdAt, claimedAt, scheduledDate, descending): lists come back in ascending id order. Only the two top-k endpoints sort.
- Location coordinates: pickup and distribution locations are plain address strings, and their coordinates are not represented.
- Email notification, image upload, the profile routes, the front end and server start-up are not part of this model.
- The clock's calendar arithmetic: `monthAgo`, `yearAgo`, `sixMonthsAgo` and the month key of a date are parameters. The day and week windows are now − k·86400000 ms, ignoring local time zones and daylight-saving shifts. Trend days are UTC day numbers, `createdAt / 86400000`.
- Amounts and quantities are integers, for example cents. Arbitrary floating-point numbers are not modelled.
- OrderAnalytics.Analyze: averageOrderValue and averageRating are exact quotients. The rounding to 2 and 1 decimals with `Math.round` is not modelled.
- OrderAnalytics.ItemTallies: tallies come in first-appearance order. JavaScript's `Object.entries` would list integer-like item names first, and only the order among equal counts depends on this.
- OrderAnalytics.ItemTallies: the tally is an exact map from item names to totals. The route counts into a plain JavaScript object, where names inherited from `Object.prototype` misbehave: an item named "constructor" starts from the inherited function and ends up as a string, and one named "__proto__" is lost. The model treats every name as an ordinary key, and so does OrderAnalytics.TallyItems.
- OrderAnalytics.RecentFeedbacks: ties on `addedAt` keep id order. The database's order among equal timestamps is unspecified.
- Platform.Store.UpdateDonationStatus: a `status` absent from the body is taken as "", which validation refuses (500). Mongoose would instead unset the field and save.
- Platform.Store.UpdateAssignmentStatus: a `status` absent from the body is treated the same way as in UpdateDonationStatus.
- Platform.Store.CreateDonation: the restaurant name is taken from the authenticated profile. The route reloads the same user by id, and that lookup cannot fail after authentication.
- Ratings are whole numbers. A fractional rating such as 4.5 passes the schema's bounds but falls into no histogram bucket; the model does not represent it.
- No expiry sweep sets the `expired` status: only the restaurant's status edit (`WithStatus`) can set it, as in the source.
