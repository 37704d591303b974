/** The restaurant's order analytics: the window selected by `period`, revenue
    over delivered orders, status and type breakdowns, the daily trend, the
    rating histogram and the most popular items; and the feedback listing. */
module OrderAnalytics {
  import opened Common
  import opened OrderModel
  import Ordering

  // ----------------------------------------------------------------- window

  datatype Period = Day | Week | Month | Year

  /** The window `period` selects; any unrecognised value behaves like month. */
  function WindowPeriod(period: string): (p: Period)
    ensures p == Day <==> period == "day"
    ensures p == Week <==> period == "week"
    ensures p == Year <==> period == "year"
    ensures p == Month <==> period != "day" && period != "week" && period != "year"
  {
    if period == "day" then Day
    else if period == "week" then Week
    else if period == "year" then Year
    else Month
  }

  /** `daysInPeriod` of the trend: 7, 30 or 365 days for week, month and year,
      and 1 for anything else, an unrecognised period included. */
  function TrendDays(period: string): (n: nat)
    ensures n == 7 <==> period == "week"
    ensures n == 30 <==> period == "month"
    ensures n == 365 <==> period == "year"
    ensures n == 1 <==> period != "week" && period != "month" && period != "year"
  {
    if period == "week" then 7 else if period == "month" then 30 else if period == "year" then 365 else 1
  }

  /** For an unrecognised period the window is a month but the trend a single day. */
  lemma UnknownPeriodSplits(period: string)
    requires period != "day" && period != "week" && period != "month" && period != "year"
    ensures WindowPeriod(period) == Month && TrendDays(period) == 1
  {
  }

  /** The window's first instant: whole days back for day and week; one
      calendar month or year back (supplied by the clock) for month and year. */
  function WindowStart(p: Period, now: Time, monthAgo: Time, yearAgo: Time): (start: Time)
    ensures p == Day ==> start == now - MsPerDay
    ensures p == Week ==> start == now - 7 * MsPerDay
    ensures p == Month ==> start == monthAgo
    ensures p == Year ==> start == yearAgo
  {
    match p
    case Day => now - MsPerDay
    case Week => now - 7 * MsPerDay
    case Month => monthAgo
    case Year => yearAgo
  }

  /** `orders.filter(order => order.createdAt >= startDate)`. */
  function InWindow(os: seq<Order>, start: Time): (r: seq<Order>)
    ensures |r| == Count(os, (o: Order) => o.createdAt >= start)
    ensures forall o :: o in r <==> o in os && o.createdAt >= start
  {
    if os == [] then []
    else
      var last := os[|os| - 1];
      assert os == os[..|os| - 1] + [last];
      InWindow(os[..|os| - 1], start) + (if last.createdAt >= start then [last] else [])
  }

  /** A later start narrows the window: the later window is the earlier one,
      filtered again, and holds no more orders. */
  lemma WindowNarrows(os: seq<Order>, early: Time, late: Time)
    requires early <= late
    ensures InWindow(os, late) == InWindow(InWindow(os, early), late)
    ensures |InWindow(os, late)| <= |InWindow(os, early)|
  {
    WindowRefilters(os, early, late);
    var e := InWindow(os, early);
    assert |InWindow(e, late)| == Count(e, (o: Order) => o.createdAt >= late);
  }

  lemma {:induction false} WindowRefilters(os: seq<Order>, early: Time, late: Time)
    requires early <= late
    ensures InWindow(os, late) == InWindow(InWindow(os, early), late)
  {
    if os != [] {
      var init := os[..|os| - 1];
      var last := os[|os| - 1];
      WindowRefilters(init, early, late);
      var tail := if last.createdAt >= late then [last] else [];
      assert InWindow(os, late) == InWindow(init, late) + tail;
      if last.createdAt >= early {
        var e := InWindow(os, early);
        assert e == InWindow(init, early) + [last];
        assert e[..|e| - 1] == InWindow(init, early) && e[|e| - 1] == last;
        assert InWindow(e, late) == InWindow(InWindow(init, early), late) + tail;
      } else {
        assert tail == [];
        assert InWindow(os, early) == InWindow(init, early);
      }
    }
  }

  // ------------------------------------------------------------ breakdowns

  function CountOrderStatus(os: seq<Order>, s: OrderStatus): (n: nat)
    ensures n <= |os|
  {
    Count(os, (o: Order) => o.status == s)
  }

  function CountOrderType(os: seq<Order>, t: OrderType): (n: nat)
    ensures n <= |os|
  {
    Count(os, (o: Order) => o.orderType == t)
  }

  /** `filter(o => o.status === 'delivered')`. */
  function DeliveredOnes(os: seq<Order>): (r: seq<Order>)
    ensures |r| == CountOrderStatus(os, Delivered)
    ensures forall o :: o in r <==> o in os && o.status == Delivered
  {
    if os == [] then []
    else
      var last := os[|os| - 1];
      assert os == os[..|os| - 1] + [last];
      DeliveredOnes(os[..|os| - 1]) + (if last.status == Delivered then [last] else [])
  }

  /** `reduce((sum, o) => sum + o.totalAmount, 0)`. */
  function Revenue(os: seq<Order>): int {
    if os == [] then 0 else Revenue(os[..|os| - 1]) + os[|os| - 1].totalAmount
  }

  /** Revenue counts delivered orders only: an order of any other status adds nothing. */
  lemma {:induction false} RevenueIgnoresUndelivered(os: seq<Order>, o: Order)
    requires o.status != Delivered
    ensures Revenue(DeliveredOnes(os + [o])) == Revenue(DeliveredOnes(os))
    ensures CountOrderStatus(os + [o], Delivered) == CountOrderStatus(os, Delivered)
  {
    assert (os + [o])[..|os + [o]| - 1] == os;
    assert DeliveredOnes(os + [o]) == DeliveredOnes(os) + [];
    assert DeliveredOnes(os) + [] == DeliveredOnes(os);
  }

  /** The two order types split the delivered orders: orderForMe plus
      donatedMeals is the number of delivered orders. */
  lemma {:induction false} OrderTypeSplit(os: seq<Order>)
    ensures CountOrderType(os, OrderForMe) + CountOrderType(os, DonateAMeal) == |os|
  {
    if os != [] {
      OrderTypeSplit(os[..|os| - 1]);
    }
  }

  /** The six status counts add up to the number of orders counted. */
  lemma {:induction false} OrderStatusPartition(os: seq<Order>)
    ensures CountOrderStatus(os, Pending) + CountOrderStatus(os, Confirmed)
          + CountOrderStatus(os, Preparing) + CountOrderStatus(os, Ready)
          + CountOrderStatus(os, Delivered) + CountOrderStatus(os, Cancelled) == |os|
  {
    if os != [] {
      OrderStatusPartition(os[..|os| - 1]);
    }
  }

  /** `total / count`, or 0 when there is nothing to average (unrounded). */
  function AverageOf(total: int, count: nat): (avg: real)
    ensures count == 0 ==> avg == 0.0
    ensures count > 0 ==> avg * (count as real) == total as real
  {
    if count > 0 then (total as real) / (count as real) else 0.0
  }

  // --------------------------------------------------------------- ratings

  /** `o.customerFeedback && o.customerFeedback.rating`: a truthy rating. */
  predicate Rated(o: Order) {
    o.customerFeedback.Some? && o.customerFeedback.value.rating.Some?
    && o.customerFeedback.value.rating.value != 0
  }

  function RatingOf(o: Order): int
    requires Rated(o)
  {
    o.customerFeedback.value.rating.value
  }

  function RatedOnes(os: seq<Order>): (r: seq<Order>)
    ensures |r| == Count(os, Rated)
    ensures forall o :: o in r <==> o in os && Rated(o)
  {
    if os == [] then []
    else
      var last := os[|os| - 1];
      assert os == os[..|os| - 1] + [last];
      RatedOnes(os[..|os| - 1]) + (if Rated(last) then [last] else [])
  }

  function RatingSum(rs: seq<Order>): int
    requires forall o :: o in rs ==> Rated(o)
  {
    if rs == [] then 0
    else
      assert rs[|rs| - 1] in rs;
      assert forall o :: o in rs[..|rs| - 1] ==> o in rs;
      RatingSum(rs[..|rs| - 1]) + RatingOf(rs[|rs| - 1])
  }

  /** One bucket of the rating histogram: the rated orders whose rating is `k`. */
  function CountRating(rs: seq<Order>, k: int): (n: nat)
    ensures n <= |rs|
  {
    if rs == [] then 0
    else CountRating(rs[..|rs| - 1], k) + (if Rated(rs[|rs| - 1]) && RatingOf(rs[|rs| - 1]) == k then 1 else 0)
  }

  /** With every rating an integer in [1, 5] (what saving an order enforces), the
      five buckets of the histogram add up to the number of rated orders. */
  lemma {:induction false} RatingHistogramTotal(os: seq<Order>)
    requires forall o :: o in os ==> CustomerFeedbackValid(o.customerFeedback)
    ensures var rs := RatedOnes(os);
            CountRating(rs, 1) + CountRating(rs, 2) + CountRating(rs, 3)
            + CountRating(rs, 4) + CountRating(rs, 5) == |rs|
  {
    if os != [] {
      var init := os[..|os| - 1];
      assert forall o :: o in init ==> o in os;
      RatingHistogramTotal(init);
      var rs := RatedOnes(os);
      if Rated(os[|os| - 1]) {
        assert rs[..|rs| - 1] == RatedOnes(init);
      } else {
        assert rs == RatedOnes(init);
      }
    }
  }

  // ----------------------------------------------------------- popular items

  datatype ItemCount = ItemCount(name: string, count: int)

  function CountOf(c: ItemCount): int { c.count }

  function NameOf(c: ItemCount): string { c.name }

  /** The quantity of the items named `name` among `items`. */
  function ItemsQty(items: seq<OrderItem>, name: string): int {
    if items == [] then 0
    else ItemsQty(items[..|items| - 1], name)
         + (if items[|items| - 1].name == name then items[|items| - 1].quantity else 0)
  }

  /** The quantity of `name` ordered across `os`. */
  function ItemTotal(os: seq<Order>, name: string): int {
    if os == [] then 0 else ItemTotal(os[..|os| - 1], name) + ItemsQty(os[|os| - 1].items, name)
  }

  predicate ItemsMention(items: seq<OrderItem>, name: string) {
    exists j :: 0 <= j < |items| && items[j].name == name
  }

  /** Whether some order of `os` has an item named `name`. */
  predicate Mentions(os: seq<Order>, name: string) {
    exists i :: 0 <= i < |os| && ItemsMention(os[i].items, name)
  }

  /** The distinct item names the orders `os` mention. */
  ghost function MentionedNames(os: seq<Order>): (names: set<string>)
    ensures forall name :: name in names <==> Mentions(os, name)
  {
    var names := set i, j | 0 <= i < |os| && 0 <= j < |os[i].items| :: os[i].items[j].name;
    assert forall name :: Mentions(os, name) ==> name in names by {
      forall name | Mentions(os, name) ensures name in names {
        var i :| 0 <= i < |os| && ItemsMention(os[i].items, name);
        var j :| 0 <= j < |os[i].items| && os[i].items[j].name == name;
      }
    }
    names
  }

  lemma {:induction false} UnmentionedItemsQty(items: seq<OrderItem>, name: string)
    requires !ItemsMention(items, name)
    ensures ItemsQty(items, name) == 0
  {
    if items != [] {
      var init := items[..|items| - 1];
      forall j | 0 <= j < |init| ensures init[j].name != name {
        assert init[j] == items[j];
      }
      UnmentionedItemsQty(init, name);
    }
  }

  lemma {:induction false} UnmentionedItemTotal(os: seq<Order>, name: string)
    requires !Mentions(os, name)
    ensures ItemTotal(os, name) == 0
  {
    if os != [] {
      var init := os[..|os| - 1];
      forall i | 0 <= i < |init| ensures !ItemsMention(init[i].items, name) {
        assert init[i] == os[i];
      }
      UnmentionedItemTotal(init, name);
      assert !ItemsMention(os[|os| - 1].items, name);
      UnmentionedItemsQty(os[|os| - 1].items, name);
    }
  }

  function Names(tallies: seq<ItemCount>): set<string> {
    set i | 0 <= i < |tallies| :: tallies[i].name
  }

  /** Tallies under distinct names have as many names as tallies. */
  lemma {:induction false} DistinctNamesCount(tallies: seq<ItemCount>)
    requires Ordering.DistinctBy(tallies, NameOf)
    ensures |Names(tallies)| == |tallies|
  {
    if tallies != [] {
      var init := tallies[..|tallies| - 1];
      var last := tallies[|tallies| - 1];
      assert Ordering.DistinctBy(init, NameOf) by {
        forall i, j | 0 <= i < j < |init| ensures NameOf(init[i]) != NameOf(init[j]) {
          assert init[i] == tallies[i] && init[j] == tallies[j];
        }
      }
      DistinctNamesCount(init);
      assert Names(tallies) == Names(init) + {last.name} by {
        forall n | n in Names(tallies) ensures n in Names(init) + {last.name} {
          var k :| 0 <= k < |tallies| && tallies[k].name == n;
          if k < |init| { assert init[k] == tallies[k]; }
        }
        forall n | n in Names(init) ensures n in Names(tallies) {
          var k :| 0 <= k < |init| && init[k].name == n;
          assert tallies[k] == init[k];
        }
      }
      assert last.name !in Names(init) by {
        forall k | 0 <= k < |init| ensures init[k].name != last.name {
          assert NameOf(tallies[k]) != NameOf(tallies[|tallies| - 1]);
        }
      }
    }
  }

  /** `counts[name]`, or 0 for a name not yet counted. */
  function CountedOr0(counts: map<string, int>, name: string): int {
    if name in counts then counts[name] else 0
  }

  /** `names` followed by the names of `items` it does not hold yet, each
      once, in order of first appearance. */
  function Extend(names: seq<string>, items: seq<OrderItem>): seq<string> {
    if items == [] then names
    else
      var r := Extend(names, items[..|items| - 1]);
      var n := items[|items| - 1].name;
      if n in r then r else r + [n]
  }

  /** One more item extends the names by its own, unless it is already there. */
  lemma ExtendStep(names0: seq<string>, items: seq<OrderItem>, j: nat)
    requires j < |items|
    ensures Extend(names0, items[..j + 1]) ==
              var r := Extend(names0, items[..j]);
              if items[j].name in r then r else r + [items[j].name]
  {
    assert items[..j + 1][..j] == items[..j];
  }

  /** The extended names are the old ones and the names of `items`. */
  lemma {:induction false} ExtendMembers(names0: seq<string>, items: seq<OrderItem>)
    ensures forall n :: n in Extend(names0, items) <==> n in names0 || ItemsMention(items, n)
  {
    if items != [] {
      var j := |items| - 1;
      ExtendMembers(names0, items[..j]);
      MentionExtends(items, j);
      assert items[..j + 1] == items;
    }
  }

  /** Extending never repeats a name. */
  lemma {:induction false} ExtendDistinct(names0: seq<string>, items: seq<OrderItem>)
    requires Ordering.Distinct(names0)
    ensures Ordering.Distinct(Extend(names0, items))
  {
    if items != [] {
      var init := items[..|items| - 1];
      ExtendDistinct(names0, init);
      var r := Extend(names0, init);
      var n := items[|items| - 1].name;
      if n !in r {
        forall a, b | 0 <= a < b < |r + [n]| ensures (r + [n])[a] != (r + [n])[b] {
          assert (r + [n])[a] == r[a];
          if b < |r| { assert (r + [n])[b] == r[b]; }
        }
      }
    }
  }

  /** The item names of `os`, each once, in order of first mention: the key
      order of the route's `itemCounts` object. */
  function FirstMentions(os: seq<Order>): seq<string> {
    if os == [] then [] else Extend(FirstMentions(os[..|os| - 1]), os[|os| - 1].items)
  }

  /** The first mentions are exactly the mentioned names. */
  lemma {:induction false} FirstMentionsMembers(os: seq<Order>)
    ensures forall n :: n in FirstMentions(os) <==> Mentions(os, n)
  {
    if os != [] {
      var i := |os| - 1;
      FirstMentionsMembers(os[..i]);
      ExtendMembers(FirstMentions(os[..i]), os[i].items);
      OrdersMentionExtends(os, i);
      assert os[..i + 1] == os;
    }
  }

  /** No name is mentioned first twice. */
  lemma {:induction false} FirstMentionsDistinct(os: seq<Order>)
    ensures Ordering.Distinct(FirstMentions(os))
  {
    if os != [] {
      FirstMentionsDistinct(os[..|os| - 1]);
      ExtendDistinct(FirstMentions(os[..|os| - 1]), os[|os| - 1].items);
    }
  }

  /** Each mentioned name with its total, in order of first mention. */
  ghost function FirstMentionTallies(os: seq<Order>): seq<ItemCount> {
    var order := FirstMentions(os);
    seq(|order|, k requires 0 <= k < |order| => ItemCount(order[k], ItemTotal(os, order[k])))
  }

  /** One item's step of the tally: a name with a truthy count grows by the
      item's quantity; otherwise the count is set to the quantity, and a
      name met for the first time joins `names`. */
  method CountItem(counts0: map<string, int>, names0: seq<string>, item: OrderItem)
    returns (counts: map<string, int>, names: seq<string>)
    requires forall n :: n in counts0 <==> n in names0
    ensures forall n :: n in counts <==> n in names
    ensures names == if item.name in names0 then names0 else names0 + [item.name]
    ensures forall n :: n in counts ==>
              counts[n] == CountedOr0(counts0, n) + (if n == item.name then item.quantity else 0)
  {
    counts, names := counts0, names0;
    if item.name in counts && counts[item.name] != 0 {
      counts := counts[item.name := counts[item.name] + item.quantity];
    } else {
      if item.name !in counts {
        names := names + [item.name];
      }
      counts := counts[item.name := item.quantity];
    }
  }

  /** The inner loop of the `itemCounts` tally over one order's items: adds
      each item's quantity to the count of its name, appending names met for
      the first time to `names`. */
  method TallyItems(counts0: map<string, int>, names0: seq<string>, items: seq<OrderItem>)
    returns (counts: map<string, int>, names: seq<string>)
    requires forall n :: n in counts0 <==> n in names0
    requires forall a, b :: 0 <= a < b < |names0| ==> names0[a] != names0[b]
    ensures forall n :: n in counts <==> n in names
    ensures forall a, b :: 0 <= a < b < |names| ==> names[a] != names[b]
    ensures forall n :: n in counts <==> n in counts0 || ItemsMention(items, n)
    ensures forall n :: n in counts ==> counts[n] == CountedOr0(counts0, n) + ItemsQty(items, n)
    ensures names == Extend(names0, items)
  {
    counts, names := counts0, names0;
    var j := 0;
    while j < |items|
      invariant 0 <= j <= |items|
      invariant names == Extend(names0, items[..j])
      invariant forall n :: n in counts <==> n in names
      invariant forall n :: n in counts ==> counts[n] == CountedOr0(counts0, n) + ItemsQty(items[..j], n)
    {
      var before := counts;
      ExtendMembers(names0, items[..j]);
      forall n | n !in counts ensures CountedOr0(counts0, n) + ItemsQty(items[..j], n) == 0 {
        UnmentionedItemsQty(items[..j], n);
      }
      counts, names := CountItem(counts, names, items[j]);
      ExtendStep(names0, items, j);
      QtyStep(items, j);
      forall n | n in counts ensures counts[n] == CountedOr0(counts0, n) + ItemsQty(items[..j + 1], n) {
        if n != items[j].name {
          assert n in before;
        }
      }
      j := j + 1;
    }
    assert items[..j] == items;
    ExtendMembers(names0, items);
    ExtendDistinct(names0, items);
    assert Ordering.Distinct(names);
  }

  /** One more item adds its quantity to its own name's total only. */
  lemma QtyStep(items: seq<OrderItem>, j: nat)
    requires j < |items|
    ensures forall n :: ItemsQty(items[..j + 1], n) ==
                          ItemsQty(items[..j], n) + (if items[j].name == n then items[j].quantity else 0)
  {
    assert items[..j + 1][..j] == items[..j] && items[..j + 1][j] == items[j];
  }

  lemma MentionExtends(items: seq<OrderItem>, j: nat)
    requires j < |items|
    ensures forall n :: ItemsMention(items[..j + 1], n) <==> ItemsMention(items[..j], n) || items[j].name == n
  {
    forall n | ItemsMention(items[..j + 1], n) ensures ItemsMention(items[..j], n) || items[j].name == n {
      var k :| 0 <= k < j + 1 && items[..j + 1][k].name == n;
      if k < j { assert items[..j][k].name == n; }
    }
    forall n | ItemsMention(items[..j], n) ensures ItemsMention(items[..j + 1], n) {
      var k :| 0 <= k < j && items[..j][k].name == n;
      assert items[..j + 1][k].name == n;
    }
    assert items[..j + 1][j] == items[j];
  }

  lemma OrdersMentionExtends(os: seq<Order>, i: nat)
    requires i < |os|
    ensures forall n :: Mentions(os[..i + 1], n) <==> Mentions(os[..i], n) || ItemsMention(os[i].items, n)
  {
    forall n | Mentions(os[..i + 1], n) ensures Mentions(os[..i], n) || ItemsMention(os[i].items, n) {
      var k :| 0 <= k < i + 1 && ItemsMention(os[..i + 1][k].items, n);
      if k < i { assert os[..i][k] == os[..i + 1][k]; }
    }
    forall n | Mentions(os[..i], n) ensures Mentions(os[..i + 1], n) {
      var k :| 0 <= k < i && ItemsMention(os[..i][k].items, n);
      assert os[..i + 1][k] == os[..i][k];
    }
    assert os[..i + 1][i] == os[i];
  }

  /** The `itemCounts` tally: one entry per item name met in `os`, in order of
      first appearance, holding the total quantity ordered under that name. */
  method ItemTallies(os: seq<Order>) returns (tallies: seq<ItemCount>)
    ensures forall i :: 0 <= i < |tallies| ==> tallies[i].count == ItemTotal(os, tallies[i].name)
    ensures forall i, j :: 0 <= i < j < |tallies| ==> tallies[i].name != tallies[j].name
    ensures forall name :: name in Names(tallies) <==> Mentions(os, name)
    ensures |tallies| == |FirstMentions(os)|
    ensures forall i :: 0 <= i < |tallies| ==> tallies[i].name == FirstMentions(os)[i]
  {
    var counts: map<string, int> := map[];
    var names: seq<string> := [];
    var i := 0;
    while i < |os|
      invariant 0 <= i <= |os|
      invariant names == FirstMentions(os[..i])
      invariant forall n :: n in counts <==> n in names
      invariant forall n :: n in counts ==> counts[n] == ItemTotal(os[..i], n)
    {
      var counts0 := counts;
      FirstMentionsMembers(os[..i]);
      FirstMentionsDistinct(os[..i]);
      counts, names := TallyItems(counts, names, os[i].items);
      assert os[..i + 1][..i] == os[..i] && os[..i + 1][i] == os[i];
      forall n | n in counts ensures counts[n] == ItemTotal(os[..i + 1], n) {
        if n !in counts0 {
          UnmentionedItemTotal(os[..i], n);
        }
      }
      i := i + 1;
    }
    assert os[..i] == os;
    FirstMentionsMembers(os);
    FirstMentionsDistinct(os);
    tallies := seq(|names|, k requires 0 <= k < |names| => ItemCount(names[k], counts[names[k]]));
    assert forall n :: n in Names(tallies) <==> n in names by {
      forall n | n in names ensures n in Names(tallies) {
        var k :| 0 <= k < |names| && names[k] == n;
        assert tallies[k].name == n;
      }
    }
  }

  /** `popularItems`: the five largest tallies (all of them when there are
      fewer), largest first, ties in order of first appearance, each tally at
      most once. */
  function PopularItems(tallies: seq<ItemCount>): (top: seq<ItemCount>)
    ensures |top| == if |tallies| <= 5 then |tallies| else 5
    ensures forall i, j :: 0 <= i < j < |top| ==> top[i].count >= top[j].count
    ensures multiset(top) <= multiset(tallies)
    ensures Ordering.DistinctBy(tallies, NameOf) ==> Ordering.DistinctBy(top, NameOf)
    ensures forall v :: Ordering.WithKey(top, CountOf, v) <= Ordering.WithKey(tallies, CountOf, v)
  {
    var top := Ordering.Take(Ordering.SortDesc(tallies, CountOf), 5);
    Ordering.TopSorted(tallies, CountOf, 5);
    Ordering.TopStable(tallies, CountOf, 5);
    Ordering.TopDrawnFrom(tallies, CountOf, 5);
    assert Ordering.DistinctBy(tallies, NameOf) ==> Ordering.DistinctBy(top, NameOf) by {
      if Ordering.DistinctBy(tallies, NameOf) {
        Ordering.TopDistinctBy(tallies, CountOf, 5, NameOf);
      }
    }
    top
  }

  /** No item left out of the popular list was ordered more than one kept. */
  lemma PopularItemsDominate(tallies: seq<ItemCount>, left: ItemCount, kept: ItemCount)
    requires left in tallies && left !in PopularItems(tallies) && kept in PopularItems(tallies)
    ensures left.count <= kept.count
  {
    Ordering.TopDominates(tallies, CountOf, 5, left, kept);
  }

  // ---------------------------------------------------------------- trends

  /** The UTC calendar day (the ISO date key) of an instant. */
  function DayOf(t: Time): int { t / MsPerDay }

  datatype DayBucket = DayBucket(orders: nat, revenue: int, completed: nat)

  function OnDay(os: seq<Order>, day: int): (r: seq<Order>)
    ensures |r| == Count(os, (o: Order) => DayOf(o.createdAt) == day)
    ensures forall o :: o in r <==> o in os && DayOf(o.createdAt) == day
  {
    if os == [] then []
    else
      var last := os[|os| - 1];
      assert os == os[..|os| - 1] + [last];
      OnDay(os[..|os| - 1], day) + (if DayOf(last.createdAt) == day then [last] else [])
  }

  /** The trend entry of one day: its orders, and its delivered orders' revenue and number. */
  function DayBucketOf(os: seq<Order>, day: int): (b: DayBucket)
    ensures b.completed <= b.orders
  {
    var dayOrders := OnDay(os, day);
    var done := DeliveredOnes(dayOrders);
    DayBucket(|dayOrders|, Revenue(done), |done|)
  }

  /** The `trends` loop: one entry for each of the last `days` days up to
      `today`, each the bucket of that day's orders. */
  method DailyTrends(os: seq<Order>, today: int, days: nat) returns (trends: map<int, DayBucket>)
    ensures forall day :: day in trends <==> today - days < day <= today
    ensures forall day :: day in trends ==> trends[day] == DayBucketOf(os, day)
  {
    trends := map[];
    var i := days;
    while i > 0
      invariant 0 <= i <= days
      invariant forall day :: day in trends <==> today - days < day <= today - i
      invariant forall day :: day in trends ==> trends[day] == DayBucketOf(os, day)
    {
      i := i - 1;
      var key := today - i;
      var dayOrders := OnDay(os, key);
      var dayCompleted := DeliveredOnes(dayOrders);
      trends := trends[key := DayBucket(|dayOrders|, Revenue(dayCompleted), |dayCompleted|)];
    }
  }

  // ---------------------------------------------------------------- result

  datatype StatusCounts = StatusCounts(
    pending: nat, confirmed: nat, preparing: nat, ready: nat, delivered: nat, cancelled: nat)

  datatype RatingDistribution = RatingDistribution(
    five: nat, four: nat, three: nat, two: nat, one: nat)

  datatype Analytics = Analytics(
    period: string,
    totalOrders: nat,
    completedOrders: nat,
    totalRevenue: int,
    averageOrderValue: real,
    orderForMe: nat,
    donatedMeals: nat,
    statusCounts: StatusCounts,
    trends: map<int, DayBucket>,
    averageRating: real,
    totalFeedbacks: nat,
    ratingDistribution: RatingDistribution,
    popularItems: seq<ItemCount>)

  /** `top` is the popular-items list of the orders `os`: five names (every
      mentioned name when fewer are mentioned), each once, largest total
      first, each with the total quantity ordered under it, and no name left
      out was ordered more than one kept; among equal totals, the names kept
      are the first mentioned, in order of first mention. */
  ghost predicate IsPopularItems(top: seq<ItemCount>, os: seq<Order>) {
    var mentioned := MentionedNames(os);
    && |top| == (if |mentioned| <= 5 then |mentioned| else 5)
    && (forall i, j :: 0 <= i < j < |top| ==> top[i].name != top[j].name)
    && (forall i, j :: 0 <= i < j < |top| ==> top[i].count >= top[j].count)
    && (forall c :: c in top ==> c.name in mentioned && c.count == ItemTotal(os, c.name))
    && (forall name, c :: name in mentioned && c in top && ItemCount(name, ItemTotal(os, name)) !in top ==>
          ItemTotal(os, name) <= c.count)
    && (forall v :: Ordering.WithKey(top, CountOf, v) <= Ordering.WithKey(FirstMentionTallies(os), CountOf, v))
  }

  /** The route's popular items over the orders `os`. */
  method TopItems(os: seq<Order>) returns (top: seq<ItemCount>)
    ensures IsPopularItems(top, os)
  {
    var tallies := ItemTallies(os);
    top := PopularItems(tallies);
    TalliesRankPopular(os, tallies);
  }

  /** Exact tallies named in order of first mention are the first-mention tallies. */
  lemma FirstMentionOrder(os: seq<Order>, tallies: seq<ItemCount>)
    requires forall i :: 0 <= i < |tallies| ==> tallies[i].count == ItemTotal(os, tallies[i].name)
    requires |tallies| == |FirstMentions(os)|
    requires forall i :: 0 <= i < |tallies| ==> tallies[i].name == FirstMentions(os)[i]
    ensures tallies == FirstMentionTallies(os)
  {
  }

  /** Ranking the tallies of `os` gives its popular items. */
  lemma TalliesRankPopular(os: seq<Order>, tallies: seq<ItemCount>)
    requires forall i :: 0 <= i < |tallies| ==> tallies[i].count == ItemTotal(os, tallies[i].name)
    requires forall i, j :: 0 <= i < j < |tallies| ==> tallies[i].name != tallies[j].name
    requires forall name :: name in Names(tallies) <==> Mentions(os, name)
    requires |tallies| == |FirstMentions(os)|
    requires forall i :: 0 <= i < |tallies| ==> tallies[i].name == FirstMentions(os)[i]
    ensures IsPopularItems(PopularItems(tallies), os)
  {
    var top := PopularItems(tallies);
    assert forall v :: Ordering.WithKey(top, CountOf, v) <= Ordering.WithKey(FirstMentionTallies(os), CountOf, v) by {
      FirstMentionOrder(os, tallies);
    }
    assert Names(tallies) == MentionedNames(os);
    assert Ordering.DistinctBy(tallies, NameOf);
    DistinctNamesCount(tallies);
    assert forall i, j :: 0 <= i < j < |top| ==> top[i].name != top[j].name by {
      forall i, j | 0 <= i < j < |top| ensures top[i].name != top[j].name {
        assert NameOf(top[i]) != NameOf(top[j]);
      }
    }
    forall c | c in top ensures c.name in MentionedNames(os) && c.count == ItemTotal(os, c.name) {
      assert c in multiset(tallies);
      var k :| 0 <= k < |tallies| && tallies[k] == c;
      assert c.name in Names(tallies);
    }
    forall name, c | name in MentionedNames(os) && c in top && ItemCount(name, ItemTotal(os, name)) !in top
      ensures ItemTotal(os, name) <= c.count
    {
      assert name in Names(tallies);
      var k :| 0 <= k < |tallies| && tallies[k].name == name;
      assert c in multiset(tallies);
      PopularItemsDominate(tallies, tallies[k], c);
    }
  }

  /** `a` is the analytics of a restaurant's orders `os` at `now`: the window
      totals, revenue, type, rating and item figures use the delivered orders
      in the window, the trends use the window, and the status counts use
      all of `os`. */
  ghost predicate IsAnalytics(a: Analytics, os: seq<Order>, period: string, now: Time, monthAgo: Time, yearAgo: Time) {
    var window := InWindow(os, WindowStart(WindowPeriod(period), now, monthAgo, yearAgo));
    var delivered := DeliveredOnes(window);
    var rated := RatedOnes(delivered);
    && a.period == period
    && a.totalOrders == |window| && a.completedOrders == |delivered|
    && a.totalRevenue == Revenue(delivered)
    && a.averageOrderValue == AverageOf(Revenue(delivered), |delivered|)
    && a.orderForMe == CountOrderType(delivered, OrderForMe)
    && a.donatedMeals == CountOrderType(delivered, DonateAMeal)
    && a.statusCounts == StatusCounts(
         CountOrderStatus(os, Pending), CountOrderStatus(os, Confirmed),
         CountOrderStatus(os, Preparing), CountOrderStatus(os, Ready),
         CountOrderStatus(os, Delivered), CountOrderStatus(os, Cancelled))
    && (forall day :: day in a.trends <==> DayOf(now) - TrendDays(period) < day <= DayOf(now))
    && (forall day :: day in a.trends ==> a.trends[day] == DayBucketOf(window, day))
    && a.totalFeedbacks == |rated|
    && a.averageRating == AverageOf(RatingSum(rated), |rated|)
    && a.ratingDistribution == RatingDistribution(
         CountRating(rated, 5), CountRating(rated, 4), CountRating(rated, 3),
         CountRating(rated, 2), CountRating(rated, 1))
    && IsPopularItems(a.popularItems, delivered)
  }

  /** The analytics route's computation. Besides the figures, the order types
      split the delivered orders, the status counts split all orders, and,
      over validated orders, the rating buckets split the rated ones. */
  method Analyze(os: seq<Order>, period: string, now: Time, monthAgo: Time, yearAgo: Time)
    returns (a: Analytics)
    requires forall o :: o in os ==> OrderValid(o)
    ensures IsAnalytics(a, os, period, now, monthAgo, yearAgo)
    ensures a.orderForMe + a.donatedMeals == a.completedOrders
    ensures var s := a.statusCounts;
            s.pending + s.confirmed + s.preparing + s.ready + s.delivered + s.cancelled == |os|
    ensures var d := a.ratingDistribution;
            d.five + d.four + d.three + d.two + d.one == a.totalFeedbacks
  {
    var startDate := WindowStart(WindowPeriod(period), now, monthAgo, yearAgo);
    var filtered := InWindow(os, startDate);
    var completed := DeliveredOnes(filtered);
    var totalRevenue := Revenue(completed);
    OrderTypeSplit(completed);
    OrderStatusPartition(os);
    var statusCounts := StatusCounts(
      CountOrderStatus(os, Pending), CountOrderStatus(os, Confirmed),
      CountOrderStatus(os, Preparing), CountOrderStatus(os, Ready),
      CountOrderStatus(os, Delivered), CountOrderStatus(os, Cancelled));
    var trends := DailyTrends(filtered, DayOf(now), TrendDays(period));
    var withFeedback := RatedOnes(completed);
    assert forall o :: o in completed ==> o in os;
    RatingHistogramTotal(completed);
    var distribution := RatingDistribution(
      CountRating(withFeedback, 5), CountRating(withFeedback, 4), CountRating(withFeedback, 3),
      CountRating(withFeedback, 2), CountRating(withFeedback, 1));
    var popular := TopItems(completed);
    a := Analytics(period, |filtered|, |completed|, totalRevenue,
                   AverageOf(totalRevenue, |completed|),
                   CountOrderType(completed, OrderForMe), CountOrderType(completed, DonateAMeal),
                   statusCounts, trends,
                   AverageOf(RatingSum(withFeedback), |withFeedback|),
                   |withFeedback|, distribution, popular);
  }

  /** `Order.find({ restaurant })`. */
  function OrdersOf(os: map<Id, Order>, restaurant: Id): (ids: set<Id>)
    ensures forall id :: id in ids <==> id in os && os[id].restaurant == restaurant
  {
    IdsWhere(os, (o: Order) => o.restaurant == restaurant)
  }

  /** A query over schema-valid stored orders returns schema-valid orders. */
  lemma QueriedOrdersValid(os: map<Id, Order>, ids: set<Id>, bound: nat)
    requires forall id :: id in os ==> OrderValid(os[id])
    ensures forall o :: o in Docs(InIdOrder(os, ids, bound)) ==> OrderValid(o)
  {
    var entries := InIdOrder(os, ids, bound);
    forall o | o in Docs(entries) ensures OrderValid(o) {
      var k :| 0 <= k < |Docs(entries)| && Docs(entries)[k] == o;
      assert entries[k].0 in os;
    }
  }

  // ------------------------------------------------------------- feedbacks

  /** One entry of the feedback listing. */
  datatype FeedbackView = FeedbackView(
    orderId: Id, customerName: string, rating: int, comment: string, addedAt: Time, orderDate: Time)

  function AddedAtOf(v: FeedbackView): int { v.addedAt }

  function OrderIdOf(v: FeedbackView): Id { v.orderId }

  /** Whether an order carries a rating (`'customerFeedback.rating': { $exists: true }`). */
  predicate HasRating(o: Order) {
    o.customerFeedback.Some? && o.customerFeedback.value.rating.Some?
  }

  /** The listing's entry for a rated order. */
  function ViewOf(e: (Id, Order)): (v: FeedbackView)
    requires HasRating(e.1)
    ensures v.orderId == e.0 && v.rating == e.1.customerFeedback.value.rating.value
    ensures v.addedAt == e.1.customerFeedback.value.addedAt
  {
    var f := e.1.customerFeedback.value;
    FeedbackView(e.0, e.1.customerName, f.rating.value, f.comment, f.addedAt, e.1.createdAt)
  }

  /** The listing's entries of the rated orders among `entries`, in their order:
      every rated order appears, and nothing else does. */
  function FeedbackViews(entries: seq<(Id, Order)>): (vs: seq<FeedbackView>)
    ensures |vs| == Count(entries, (e: (Id, Order)) => HasRating(e.1))
    ensures forall e :: e in entries && HasRating(e.1) ==> ViewOf(e) in vs
    ensures forall v :: v in vs ==> exists e :: e in entries && HasRating(e.1) && ViewOf(e) == v
  {
    if entries == [] then []
    else
      var init := entries[..|entries| - 1];
      var last := entries[|entries| - 1];
      assert entries == init + [last];
      FeedbackViews(init) + (if HasRating(last.1) then [ViewOf(last)] else [])
  }

  /** Over a query result, whose ids ascend, the views keep that order, so no
      order has two views. */
  lemma {:induction false} FeedbackViewsAscending(entries: seq<(Id, Order)>)
    requires IdsAscending(entries)
    ensures forall i, j :: 0 <= i < j < |FeedbackViews(entries)| ==>
              FeedbackViews(entries)[i].orderId < FeedbackViews(entries)[j].orderId
  {
    if entries != [] {
      var init := entries[..|entries| - 1];
      var last := entries[|entries| - 1];
      DistinctPrefix(entries);
      FeedbackViewsAscending(init);
      var vs := FeedbackViews(entries);
      var before := FeedbackViews(init);
      forall v | v in before ensures v.orderId < last.0 {
        var e :| e in init && HasRating(e.1) && ViewOf(e) == v;
        var k :| 0 <= k < |init| && init[k] == e;
        assert entries[k] == e;
      }
      if HasRating(last.1) {
        assert vs == before + [ViewOf(last)];
        forall i, j | 0 <= i < j < |vs| ensures vs[i].orderId < vs[j].orderId {
          if j == |vs| - 1 { assert vs[i] in before; }
        }
      }
    }
  }

  lemma DistinctPrefix(entries: seq<(Id, Order)>)
    requires entries != [] && IdsAscending(entries)
    ensures IdsAscending(entries[..|entries| - 1])
  {
  }

  /** A view listed from a query result belongs to a rated order the query
      selected, and carries that order's rating and time. */
  lemma QueriedView(os: map<Id, Order>, ids: set<Id>, bound: nat, v: FeedbackView)
    requires v in FeedbackViews(InIdOrder(os, ids, bound))
    ensures v.orderId in os && v.orderId in ids && HasRating(os[v.orderId])
    ensures v.rating == os[v.orderId].customerFeedback.value.rating.value
    ensures v.addedAt == os[v.orderId].customerFeedback.value.addedAt
  {
    var entries := InIdOrder(os, ids, bound);
    var e :| e in entries && HasRating(e.1) && ViewOf(e) == v;
    var k :| 0 <= k < |entries| && entries[k] == e;
  }

  /** The twenty most recent feedbacks (all of them when there are fewer),
      newest first. */
  function RecentFeedbacks(entries: seq<(Id, Order)>): (top: seq<FeedbackView>)
    ensures |top| == if |FeedbackViews(entries)| <= 20 then |FeedbackViews(entries)| else 20
    ensures forall i, j :: 0 <= i < j < |top| ==> top[i].addedAt >= top[j].addedAt
    ensures forall v :: v in top ==> v in FeedbackViews(entries)
  {
    var views := FeedbackViews(entries);
    Ordering.TopSorted(views, AddedAtOf, 20);
    Ordering.TopDrawnFrom(views, AddedAtOf, 20);
    Ordering.Take(Ordering.SortDesc(views, AddedAtOf), 20)
  }

  /** Over a query result the listing names each order at most once. */
  lemma RecentFeedbacksDistinct(entries: seq<(Id, Order)>)
    requires IdsAscending(entries)
    ensures var top := RecentFeedbacks(entries);
            forall i, j :: 0 <= i < j < |top| ==> top[i].orderId != top[j].orderId
  {
    var views := FeedbackViews(entries);
    FeedbackViewsAscending(entries);
    assert Ordering.DistinctBy(views, OrderIdOf);
    Ordering.TopDistinctBy(views, AddedAtOf, 20, OrderIdOf);
    var top := RecentFeedbacks(entries);
    assert Ordering.DistinctBy(top, OrderIdOf);
  }

  /** No feedback left out of the listing is more recent than one kept. */
  lemma RecentFeedbacksDominate(entries: seq<(Id, Order)>, left: FeedbackView, kept: FeedbackView)
    requires left in FeedbackViews(entries) && left !in RecentFeedbacks(entries)
    requires kept in RecentFeedbacks(entries)
    ensures left.addedAt <= kept.addedAt
  {
    Ordering.TopDominates(FeedbackViews(entries), AddedAtOf, 20, left, kept);
  }

  /** `list` is the feedback listing of the query result `entries`: the
      twenty most recent rated feedbacks (all of them when there are fewer),
      newest first, each order at most once, and none left out newer than one
      listed. */
  ghost predicate IsFeedbackListing(list: seq<FeedbackView>, entries: seq<(Id, Order)>) {
    var views := FeedbackViews(entries);
    && |list| == (if |views| <= 20 then |views| else 20)
    && (forall i, j :: 0 <= i < j < |list| ==> list[i].addedAt >= list[j].addedAt)
    && (forall i, j :: 0 <= i < j < |list| ==> list[i].orderId != list[j].orderId)
    && (forall v :: v in list ==> v in views)
    && (forall v, w :: v in views && v !in list && w in list ==> v.addedAt <= w.addedAt)
  }

  /** Over a query result, RecentFeedbacks is the feedback listing. */
  lemma RecentFeedbacksListing(entries: seq<(Id, Order)>)
    requires IdsAscending(entries)
    ensures IsFeedbackListing(RecentFeedbacks(entries), entries)
  {
    RecentFeedbacksDistinct(entries);
    var list := RecentFeedbacks(entries);
    forall v, w | v in FeedbackViews(entries) && v !in list && w in list ensures v.addedAt <= w.addedAt {
      RecentFeedbacksDominate(entries, v, w);
    }
  }
}
