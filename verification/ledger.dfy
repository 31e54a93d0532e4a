/** The subscription handlers: adding a subscription, listing a user's
    subscriptions by next payment date, and the monthly spend analytics. */
module Ledger {
  import opened Base
  import opened SubscriptionModel
  import Sorting

  /** All stored subscriptions, of every user. */
  type Ledger = seq<Subscription>

  // ---------------------------------------------------------------------------
  // Adding

  /** 400 "Missing required fields", 500 "Failed to add subscription" when
      the save rejects the document, or 201 with the stored subscription. */
  datatype AddResponse = MissingRequiredFields | AddFailed | Added(subscription: Subscription)

  datatype AddOutcome = AddOutcome(ledger: Ledger, response: AddResponse)

  /** `addSubscription`: a falsy required field gives 400 and stores nothing;
      past the guard only the price can still be rejected (a string such as
      "abc" does not cast to a number), which gives 500 and stores nothing;
      otherwise the document built from the body, owned by the requester, is
      appended. */
  function AddSubscription(ledger: Ledger, requester: UserId, body: SubscriptionInput): (o: AddOutcome)
    ensures o.response.MissingRequiredFields? <==> !HasRequiredFields(body)
    ensures o.response.AddFailed? <==> HasRequiredFields(body) && FromInput(requester, body).None?
    ensures !o.response.Added? ==> o.ledger == ledger
    ensures o.response.Added? ==>
      && o.ledger == ledger + [o.response.subscription]
      && FromInput(requester, body) == Some(o.response.subscription)
  {
    if !HasRequiredFields(body) then AddOutcome(ledger, MissingRequiredFields)
    else match FromInput(requester, body)
      case None => AddOutcome(ledger, AddFailed)
      case Some(s) => AddOutcome(ledger + [s], Added(s))
  }

  /** A price of 0 is refused as missing when it arrives as a number, but the
      text "0" that the client's form sends is truthy, passes the guard, and
      is stored as the price 0. */
  lemma ZeroPriceKinds(ledger: Ledger, requester: UserId, body: SubscriptionInput)
    requires HasRequiredFields(body.(price := Num(1.0)))
    ensures AddSubscription(ledger, requester, body.(price := Num(0.0))).response == MissingRequiredFields
    ensures var o := AddSubscription(ledger, requester, body.(price := Str("0")));
      o.response.Added? && o.response.subscription.price == Some(0.0)
  {
    ParseNatText(0);
    assert NatText(0) == "0";
  }

  // ---------------------------------------------------------------------------
  // Listing

  /** `Subscription.find({ user })`: the requester's records, in stored order,
      each as often as it is stored (equal records are distinct documents). */
  function Owned(ledger: Ledger, owner: UserId): (r: Ledger)
    ensures forall s :: s in r <==> s in ledger && s.user == owner
    ensures |r| <= |ledger|
    ensures (forall i :: 0 <= i < |ledger| ==> ledger[i].user != owner) ==> r == []
  {
    if |ledger| == 0 then []
    else
      (if ledger[0].user == owner then [ledger[0]] else []) + Owned(ledger[1..], owner)
  }

  /** Each of the requester's records appears as often as it is stored, and
      no other record appears. */
  lemma {:induction false} OwnedCounts(ledger: Ledger, owner: UserId)
    ensures forall s :: multiset(Owned(ledger, owner))[s] == if s.user == owner then multiset(ledger)[s] else 0
  {
    if |ledger| > 0 {
      OwnedCounts(ledger[1..], owner);
      assert ledger == [ledger[0]] + ledger[1..];
    }
  }

  /** The query distributes over concatenation: the records of two runs are
      the records of each, in order. */
  lemma {:induction false} OwnedAppend(a: Ledger, b: Ledger, owner: UserId)
    ensures Owned(a + b, owner) == Owned(a, owner) + Owned(b, owner)
  {
    if |a| == 0 {
      assert a + b == b;
    } else {
      assert (a + b)[0] == a[0];
      assert (a + b)[1..] == a[1..] + b;
      OwnedAppend(a[1..], b, owner);
    }
  }

  function DateKey(s: Subscription): real {
    s.nextPaymentDate as real
  }

  /** `getSubscriptions`: exactly the requester's records, each as often as
      stored, in non-decreasing order of next payment date. */
  function ListSubscriptions(ledger: Ledger, requester: UserId): (r: Ledger)
    ensures multiset(r) == multiset(Owned(ledger, requester))
    ensures forall s :: s in r <==> s in ledger && s.user == requester
    ensures forall i, j :: 0 <= i < j < |r| ==> r[i].nextPaymentDate <= r[j].nextPaymentDate
  {
    var r := Sorting.SortBy(Owned(ledger, requester), DateKey);
    assert forall s :: s in r <==> s in multiset(r);
    r
  }

  // ---------------------------------------------------------------------------
  // Analytics

  /** `sub.price || 0`. */
  function PriceOrZero(s: Subscription): real {
    match s.price
    case Some(p) => p
    case None => 0.0
  }

  /** The monthly equivalent of one subscription: a yearly price is spread
      over 12 months, a weekly price counts 4.33 times, and every other cycle
      (monthly, custom, anything) counts once. */
  function MonthlyAmount(s: Subscription): (m: real)
    ensures m == PriceOrZero(s) * CycleFactor(s.billingCycle)
    ensures s.price.None? ==> m == 0.0
    ensures PriceOrZero(s) >= 0.0 ==> m >= 0.0
  {
    var p := PriceOrZero(s);
    if s.billingCycle == "monthly" then p
    else if s.billingCycle == "yearly" then p / 12.0
    else if s.billingCycle == "weekly" then p * 4.33
    else p
  }

  /** The normalization as a factor of the cycle alone: 1/12 for "yearly",
      4.33 for "weekly", 1 for every other cycle. */
  function CycleFactor(cycle: string): real {
    if cycle == "yearly" then 1.0 / 12.0 else if cycle == "weekly" then 4.33 else 1.0
  }

  /** `sub.category || "Other"`. */
  function CategoryKey(s: Subscription): (k: string)
    ensures k != ""
    ensures s.category == "" ==> k == "Other"
    ensures s.category != "" ==> k == s.category
  {
    if s.category == "" then "Other" else s.category
  }

  /** The running `total`. */
  function Total(subs: seq<Subscription>): real {
    if |subs| == 0 then 0.0 else Total(subs[..|subs| - 1]) + MonthlyAmount(subs[|subs| - 1])
  }

  /** The total of two runs of records is the sum of their totals: the order
      in which records are visited does not matter for it, and a record adds
      exactly its monthly amount. */
  lemma {:induction false} TotalAppend(a: seq<Subscription>, b: seq<Subscription>)
    ensures Total(a + b) == Total(a) + Total(b)
  {
    if |b| > 0 {
      var n := |b| - 1;
      assert (a + b)[..|a + b| - 1] == a + b[..n];
      assert (a + b)[|a + b| - 1] == b[n];
      TotalAppend(a, b[..n]);
    } else {
      assert a + b == a;
    }
  }

  /** The total spend, monthly equivalent, of the subscriptions in one bucket. */
  function CategorySpend(subs: seq<Subscription>, category: string): real {
    if |subs| == 0 then 0.0
    else
      var last := subs[|subs| - 1];
      CategorySpend(subs[..|subs| - 1], category) + (if CategoryKey(last) == category then MonthlyAmount(last) else 0.0)
  }

  /** One entry of `categoryDistribution`. */
  datatype CategoryAmount = CategoryAmount(category: string, amount: real)

  function Categories(b: seq<CategoryAmount>): (r: seq<string>)
    ensures |r| == |b|
    ensures forall i :: 0 <= i < |b| ==> r[i] == b[i].category
  {
    if |b| == 0 then [] else [b[0].category] + Categories(b[1..])
  }

  function SumAmounts(b: seq<CategoryAmount>): real {
    if |b| == 0 then 0.0 else b[0].amount + SumAmounts(b[1..])
  }

  /** The amount of the bucket named `category`, 0 if there is none. */
  function AmountOf(b: seq<CategoryAmount>, category: string): real {
    if |b| == 0 then 0.0
    else if b[0].category == category then b[0].amount
    else AmountOf(b[1..], category)
  }

  /** `categoryMap[cat] += amount`, with a new entry appended at the end when
      the category has not been seen. */
  function AddTo(b: seq<CategoryAmount>, category: string, amount: real): (r: seq<CategoryAmount>)
    ensures Categories(r) == if category in Categories(b) then Categories(b) else Categories(b) + [category]
    ensures SumAmounts(r) == SumAmounts(b) + amount
    ensures forall c :: AmountOf(r, c) == AmountOf(b, c) + (if c == category then amount else 0.0)
  {
    if |b| == 0 then [CategoryAmount(category, amount)]
    else if b[0].category == category then [CategoryAmount(category, b[0].amount + amount)] + b[1..]
    else
      var r := [b[0]] + AddTo(b[1..], category, amount);
      assert r[1..] == AddTo(b[1..], category, amount);
      assert Categories(b) == [b[0].category] + Categories(b[1..]);
      r
  }

  /** The buckets after folding every subscription into `categoryMap`: at
      most one bucket per record, and none exactly when there are no records. */
  function Distribute(subs: seq<Subscription>): (r: seq<CategoryAmount>)
    ensures |r| <= |subs|
    ensures |r| == 0 <==> |subs| == 0
  {
    if |subs| == 0 then []
    else
      var last := subs[|subs| - 1];
      var b := Distribute(subs[..|subs| - 1]);
      var r := AddTo(b, CategoryKey(last), MonthlyAmount(last));
      assert |Categories(r)| == |r| && |Categories(b)| == |b|;
      r
  }

  /** The bucket key of every subscription, in order. */
  function KeysOf(subs: seq<Subscription>): (r: seq<string>)
    ensures |r| == |subs|
    ensures forall i :: 0 <= i < |subs| ==> r[i] == CategoryKey(subs[i])
  {
    if |subs| == 0 then [] else KeysOf(subs[..|subs| - 1]) + [CategoryKey(subs[|subs| - 1])]
  }

  /** The distinct elements of `s` in order of first occurrence: the reference
      for how a JavaScript object enumerates string keys it was given. */
  function FirstOccurrences(s: seq<string>): (r: seq<string>)
    ensures forall x :: x in r <==> x in s
    ensures forall i, j :: 0 <= i < j < |r| ==> r[i] != r[j]
  {
    if |s| == 0 then []
    else
      var d := FirstOccurrences(s[..|s| - 1]);
      assert forall x :: x in s <==> x in s[..|s| - 1] || x == s[|s| - 1] by {
        assert s == s[..|s| - 1] + [s[|s| - 1]];
      }
      if s[|s| - 1] in d then d else d + [s[|s| - 1]]
  }

  /** The buckets are named by the distinct category keys, in order of first
      occurrence. */
  lemma {:induction false} DistributeCategories(subs: seq<Subscription>)
    ensures Categories(Distribute(subs)) == FirstOccurrences(KeysOf(subs))
  {
    if |subs| > 0 {
      var init := subs[..|subs| - 1];
      DistributeCategories(init);
      var ks := KeysOf(subs);
      assert ks[..|ks| - 1] == KeysOf(init);
      assert ks[|ks| - 1] == CategoryKey(subs[|subs| - 1]);
    }
  }

  /** Before rounding, the buckets add up to the total. */
  lemma {:induction false} DistributeSum(subs: seq<Subscription>)
    ensures SumAmounts(Distribute(subs)) == Total(subs)
  {
    if |subs| > 0 {
      DistributeSum(subs[..|subs| - 1]);
    }
  }

  /** Each bucket holds its category's spend. */
  lemma {:induction false} DistributeAmounts(subs: seq<Subscription>, c: string)
    ensures AmountOf(Distribute(subs), c) == CategorySpend(subs, c)
  {
    if |subs| > 0 {
      DistributeAmounts(subs[..|subs| - 1], c);
    }
  }

  /** In a bucket list with distinct names, each bucket's amount is the amount
      looked up by its name. */
  lemma {:induction false} AmountOfDistinct(b: seq<CategoryAmount>, i: int)
    requires 0 <= i < |b|
    requires forall p, q :: 0 <= p < q < |b| ==> b[p].category != b[q].category
    ensures AmountOf(b, b[i].category) == b[i].amount
  {
    if i > 0 {
      AmountOfDistinct(b[1..], i - 1);
    }
  }

  /** The analytics response, without the clock-derived month and year. */
  datatype Report = Report(total: real, categoryDistribution: seq<CategoryAmount>)

  /** `getSubscriptionAnalytics` over all of the requester's subscriptions,
      whatever their payment date. */
  function Analytics(ledger: Ledger, requester: UserId): (r: Report)
    ensures SumAmounts(r.categoryDistribution) == r.total
    ensures forall c :: AmountOf(r.categoryDistribution, c) == CategorySpend(Owned(ledger, requester), c)
    ensures |r.categoryDistribution| == 0 <==> Owned(ledger, requester) == []
  {
    var subs := Owned(ledger, requester);
    DistributeSum(subs);
    forall c ensures AmountOf(Distribute(subs), c) == CategorySpend(subs, c) {
      DistributeAmounts(subs, c);
    }
    Report(Total(subs), Distribute(subs))
  }

  /** A category key occurs among the keys exactly when some subscription has it. */
  lemma KeysOfMembership(subs: seq<Subscription>, c: string)
    ensures c in KeysOf(subs) <==> exists s :: s in subs && CategoryKey(s) == c
  {
    var ks := KeysOf(subs);
    if c in ks {
      var i :| 0 <= i < |ks| && ks[i] == c;
      assert subs[i] in subs;
    }
    if exists s :: s in subs && CategoryKey(s) == c {
      var s :| s in subs && CategoryKey(s) == c;
      var i :| 0 <= i < |subs| && subs[i] == s;
      assert ks[i] == c;
    }
  }

  /** The analytics buckets: every category key of the user's subscriptions
      (an empty category counting as "Other") appears exactly once, and in
      order of first occurrence. */
  lemma {:induction false} AnalyticsBuckets(ledger: Ledger, requester: UserId)
    ensures var d := Analytics(ledger, requester).categoryDistribution;
      var subs := Owned(ledger, requester);
      && Categories(d) == FirstOccurrences(KeysOf(subs))
      && (forall i, j :: 0 <= i < j < |d| ==> d[i].category != d[j].category)
      && (forall c :: c in Categories(d) <==> exists s :: s in subs && CategoryKey(s) == c)
  {
    var subs := Owned(ledger, requester);
    var d := Distribute(subs);
    DistributeCategories(subs);
    var cs := Categories(d);
    forall i, j | 0 <= i < j < |d| ensures d[i].category != d[j].category {
      assert cs[i] == d[i].category && cs[j] == d[j].category;
    }
    forall c ensures c in cs <==> exists s :: s in subs && CategoryKey(s) == c {
      KeysOfMembership(subs, c);
    }
  }

  /** The analytics amounts: each bucket holds its category's monthly spend,
      and before rounding the buckets add up to the total. */
  lemma {:induction false} AnalyticsAmounts(ledger: Ledger, requester: UserId)
    ensures var r := Analytics(ledger, requester);
      var subs := Owned(ledger, requester);
      && (forall i :: 0 <= i < |r.categoryDistribution| ==>
            r.categoryDistribution[i].amount == CategorySpend(subs, r.categoryDistribution[i].category))
      && SumAmounts(r.categoryDistribution) == r.total
  {
    var subs := Owned(ledger, requester);
    var d := Distribute(subs);
    DistributeSum(subs);
    AnalyticsBuckets(ledger, requester);
    forall i | 0 <= i < |d| ensures d[i].amount == CategorySpend(subs, d[i].category) {
      AmountOfDistinct(d, i);
      DistributeAmounts(subs, d[i].category);
    }
  }

  /** A user without subscriptions gets total 0 and no buckets. */
  lemma AnalyticsEmpty(ledger: Ledger, requester: UserId)
    requires forall i :: 0 <= i < |ledger| ==> ledger[i].user != requester
    ensures Analytics(ledger, requester) == Report(0.0, [])
  {
  }

  /** The record with its payment date erased. */
  function Undated(s: Subscription): Subscription {
    s.(nextPaymentDate := 0)
  }

  /** Two ledgers that differ at most in payment dates. */
  predicate SameExceptDates(a: Ledger, b: Ledger) {
    |a| == |b| && forall i :: 0 <= i < |a| ==> Undated(a[i]) == Undated(b[i])
  }

  lemma {:induction false} OwnedIgnoresDates(a: Ledger, b: Ledger, owner: UserId)
    requires SameExceptDates(a, b)
    ensures SameExceptDates(Owned(a, owner), Owned(b, owner))
  {
    if |a| > 0 {
      assert Undated(a[0]) == Undated(b[0]);
      assert SameExceptDates(a[1..], b[1..]) by {
        forall i | 0 <= i < |a| - 1 ensures Undated(a[1..][i]) == Undated(b[1..][i]) {
          assert a[1..][i] == a[i + 1] && b[1..][i] == b[i + 1];
        }
      }
      OwnedIgnoresDates(a[1..], b[1..], owner);
    }
  }

  lemma UndatedSameBucket(x: Subscription, y: Subscription)
    requires Undated(x) == Undated(y)
    ensures MonthlyAmount(x) == MonthlyAmount(y) && CategoryKey(x) == CategoryKey(y)
  {
    assert x.price == Undated(x).price == Undated(y).price == y.price;
    assert x.billingCycle == Undated(y).billingCycle && x.category == Undated(y).category;
  }

  lemma {:induction false} FoldsIgnoreDates(a: Ledger, b: Ledger)
    requires SameExceptDates(a, b)
    ensures Total(a) == Total(b) && Distribute(a) == Distribute(b)
  {
    if |a| > 0 {
      var n := |a| - 1;
      UndatedSameBucket(a[n], b[n]);
      assert SameExceptDates(a[..n], b[..n]) by {
        forall i | 0 <= i < n ensures Undated(a[..n][i]) == Undated(b[..n][i]) {
          assert a[..n][i] == a[i] && b[..n][i] == b[i];
        }
      }
      FoldsIgnoreDates(a[..n], b[..n]);
    }
  }

  /** Analytics counts every subscription of the user, whatever its next
      payment date: moving payment dates never changes the report. */
  lemma {:induction false} AnalyticsIgnoresDates(a: Ledger, b: Ledger, requester: UserId)
    requires SameExceptDates(a, b)
    ensures Analytics(a, requester) == Analytics(b, requester)
  {
    OwnedIgnoresDates(a, b, requester);
    FoldsIgnoreDates(Owned(a, requester), Owned(b, requester));
  }

  function Sample(owner: UserId, price: real, category: string, cycle: string): Subscription {
    Subscription(owner, "sample", Some(price), 0, Some(DefaultColor), category, cycle, None, None, None)
  }

  /** Three subscriptions of user 1 (12 a year, 10 a month, 5 a week) and one
      of user 2. */
  const ExampleLedger: Ledger := [Sample(1, 12.0, "Cloud", "yearly"), Sample(1, 10.0, "Music", "monthly"),
                                  Sample(1, 5.0, "Cloud", "weekly"), Sample(2, 99.0, "Music", "monthly")]

  lemma ExampleOwned()
    ensures Owned(ExampleLedger, 1) == ExampleLedger[..3]
  {
    var l := ExampleLedger;
    var a, b, c, d := l[0], l[1], l[2], l[3];
    assert Owned([d], 1) == [] by { assert [d][1..] == []; }
    assert Owned([c, d], 1) == [c] by { assert [c, d][1..] == [d]; }
    assert Owned([b, c, d], 1) == [b, c] by { assert [b, c, d][1..] == [c, d]; }
    assert Owned(l, 1) == [a, b, c] by { assert l[1..] == [b, c, d]; }
  }

  lemma ExampleTotal()
    ensures Total(ExampleLedger[..3]) == 32.65
  {
    var l := ExampleLedger;
    var a, b, c := l[0], l[1], l[2];
    var subs := [a, b, c];
    assert l[..3] == subs;
    assert subs[..2] == [a, b] && [a, b][..1] == [a] && [a][..0] == [];
    assert MonthlyAmount(a) == 1.0 && MonthlyAmount(b) == 10.0 && MonthlyAmount(c) == 21.65;
    assert Total([a]) == 1.0;
    assert Total([a, b]) == 11.0;
  }

  lemma ExampleDistribution()
    ensures Distribute(ExampleLedger[..3]) == [CategoryAmount("Cloud", 22.65), CategoryAmount("Music", 10.0)]
  {
    var l := ExampleLedger;
    var a, b, c := l[0], l[1], l[2];
    var subs := [a, b, c];
    assert l[..3] == subs;
    assert subs[..2] == [a, b] && [a, b][..1] == [a] && [a][..0] == [];
    assert Distribute([a]) == [CategoryAmount("Cloud", 1.0)];
    assert Distribute([a, b]) == [CategoryAmount("Cloud", 1.0), CategoryAmount("Music", 10.0)];
    var two := [CategoryAmount("Cloud", 1.0), CategoryAmount("Music", 10.0)];
    assert AddTo(two, "Cloud", 21.65) == [CategoryAmount("Cloud", 22.65), CategoryAmount("Music", 10.0)] by {
      assert two[1..] == [CategoryAmount("Music", 10.0)];
    }
  }

  /** The worked example: 1 + 10 + 21.65 = 32.65 a month, with the two Cloud
      plans in one bucket and user 2's subscription left out. */
  lemma {:induction false} AnalyticsExample()
    ensures Analytics(ExampleLedger, 1)
         == Report(32.65, [CategoryAmount("Cloud", 22.65), CategoryAmount("Music", 10.0)])
  {
    ExampleOwned();
    ExampleTotal();
    ExampleDistribution();
  }

  /** The records whose category is missing or "Other". */
  function OtherRecords(subs: seq<Subscription>): (r: seq<Subscription>)
    ensures forall x :: x in r <==> x in subs && (x.category == "" || x.category == "Other")
  {
    if |subs| == 0 then []
    else
      var last := subs[|subs| - 1];
      assert forall x :: x in subs <==> x in subs[..|subs| - 1] || x == last by {
        assert subs == subs[..|subs| - 1] + [last];
      }
      OtherRecords(subs[..|subs| - 1]) + (if last.category == "" || last.category == "Other" then [last] else [])
  }

  lemma {:induction false} OtherSpend(subs: seq<Subscription>)
    ensures CategorySpend(subs, "Other") == Total(OtherRecords(subs))
  {
    if |subs| > 0 {
      var init, last := subs[..|subs| - 1], subs[|subs| - 1];
      OtherSpend(init);
      var o := OtherRecords(init);
      if last.category == "" || last.category == "Other" {
        assert (o + [last])[..|o + [last]| - 1] == o;
      } else {
        assert o + [] == o;
      }
    }
  }

  lemma NoEmptyBucket(subs: seq<Subscription>)
    ensures "" !in Categories(Distribute(subs))
  {
    DistributeCategories(subs);
    var ks := KeysOf(subs);
    assert "" !in ks by {
      forall i | 0 <= i < |ks| ensures ks[i] != "" {
        assert ks[i] == CategoryKey(subs[i]);
      }
    }
  }

  /** A missing category and an explicit "Other" fall into one bucket: the
      "Other" bucket holds the monthly spend of exactly those records, and
      no bucket is named by the empty string. */
  lemma EmptyCategoryIsOther(ledger: Ledger, requester: UserId)
    ensures var d := Analytics(ledger, requester).categoryDistribution;
      && AmountOf(d, "Other") == Total(OtherRecords(Owned(ledger, requester)))
      && "" !in Categories(d)
  {
    var subs := Owned(ledger, requester);
    OtherSpend(subs);
    DistributeAmounts(subs, "Other");
    NoEmptyBucket(subs);
  }

}
