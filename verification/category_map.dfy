/** The analytics handler as written: its `categoryMap` is a plain object
    literal, so category names that are properties of `Object.prototype` do not
    start out as missing buckets. The model of the intended behaviour is
    `Ledger.Analytics`. */
module CategoryMap {
  import opened Base
  import opened SubscriptionModel
  import opened Ledger

  /** The function-valued properties every `{}` inherits. For such a category,
      `categoryMap[cat]` is a function (truthy, so it is not reset to 0) and
      `+=` turns it into a string; `value.toFixed(2)` on that string then
      throws, and the handler answers 500. */
  const InheritedMethods: set<string> := {
    "constructor", "hasOwnProperty", "isPrototypeOf", "propertyIsEnumerable",
    "toLocaleString", "toString", "valueOf",
    "__defineGetter__", "__defineSetter__", "__lookupGetter__", "__lookupSetter__"}

  /** For this category, `categoryMap[cat] += amount` assigns a string to the
      prototype accessor, which ignores it: the bucket never exists. */
  const ProtoAccessor: string := "__proto__"

  datatype AnalyticsResponse = Ok200(report: Report) | Error500

  function WithoutProtoAccessor(subs: seq<Subscription>): (r: seq<Subscription>)
    ensures forall s :: s in r <==> s in subs && CategoryKey(s) != ProtoAccessor
  {
    if |subs| == 0 then []
    else (if CategoryKey(subs[0]) != ProtoAccessor then [subs[0]] else []) + WithoutProtoAccessor(subs[1..])
  }

  lemma {:induction false} WithoutProtoAccessorKeepsAll(subs: seq<Subscription>)
    requires forall i :: 0 <= i < |subs| ==> CategoryKey(subs[i]) != ProtoAccessor
    ensures WithoutProtoAccessor(subs) == subs
  {
    if |subs| > 0 {
      WithoutProtoAccessorKeepsAll(subs[1..]);
      assert [subs[0]] + subs[1..] == subs;
    }
  }

  /** `getSubscriptionAnalytics` as written. */
  function AnalyticsAsWritten(ledger: Ledger, requester: UserId): (r: AnalyticsResponse)
    ensures var subs := Owned(ledger, requester);
      r.Error500? <==> exists s :: s in subs && CategoryKey(s) in InheritedMethods
  {
    var subs := Owned(ledger, requester);
    if exists i :: 0 <= i < |subs| && CategoryKey(subs[i]) in InheritedMethods then Error500
    else Ok200(Report(Total(subs), Distribute(WithoutProtoAccessor(subs))))
  }

  /** For every other category name the code as written computes exactly the
      intended report. */
  lemma {:induction false} AsWrittenAgreesOnOrdinaryNames(ledger: Ledger, requester: UserId)
    requires forall s :: s in Owned(ledger, requester) ==>
      CategoryKey(s) !in InheritedMethods && CategoryKey(s) != ProtoAccessor
    ensures AnalyticsAsWritten(ledger, requester) == Ok200(Analytics(ledger, requester))
  {
    var subs := Owned(ledger, requester);
    assert forall i :: 0 <= i < |subs| ==> subs[i] in subs;
    WithoutProtoAccessorKeepsAll(subs);
  }

  /** A subscription in category "constructor" makes the handler fail, where
      the intended report has a "constructor" bucket. */
  lemma InheritedNameFails()
    ensures AnalyticsAsWritten([Sample(1, 5.0, "constructor", "monthly")], 1) == Error500
    ensures Analytics([Sample(1, 5.0, "constructor", "monthly")], 1)
         == Report(5.0, [CategoryAmount("constructor", 5.0)])
  {
    var a := Sample(1, 5.0, "constructor", "monthly");
    assert Owned([a], 1) == [a] by { assert [a][1..] == []; }
    assert [a][..0] == [];
    assert a in Owned([a], 1);
  }

  /** A subscription in category "__proto__" is counted in the total but has
      no bucket, so the buckets no longer add up to the total. */
  lemma ProtoBucketDropped()
    ensures var r := AnalyticsAsWritten([Sample(1, 5.0, "__proto__", "monthly")], 1);
      r == Ok200(Report(5.0, [])) && SumAmounts(r.report.categoryDistribution) != r.report.total
  {
    var a := Sample(1, 5.0, "__proto__", "monthly");
    assert Owned([a], 1) == [a] by { assert [a][1..] == []; }
    assert [a][..0] == [];
    assert WithoutProtoAccessor([a]) == [] by { assert [a][1..] == []; }
  }
}
