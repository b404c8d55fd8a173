/**
  The two rule lookup facades, `getRuleBasedCharges` (route keys) and
  `getRuleBasedChargesForLocation` (location keys). Each short-circuits on an
  empty routing, collects the groups of every listed vendor, builds the
  vendor criteria, flattens the keys of every order and merges everything
  into the filter it hands to the charge-template store. The store read is a
  parameter `find`; `None` stands for a read that threw, which the facade
  turns into an empty list.
 */
module RuleLookup {
  import opened JsValues
  import opened Records
  import opened VendorCriteria
  import opened Combinations

  /** The move type every rule-based lookup excludes. */
  const BY_LEG: string := "BY_LEG"

  /** The final filter: the vendor criteria together with a move type that
      must differ from `moveTypeNe` and an index that must meet
      `multiQueryIndexIn`. */
  datatype FinalQuery = FinalQuery(criteria: Criteria, moveTypeNe: string, multiQueryIndexIn: seq<Value>)

  /** Concatenation of the lists in order, as a flat map or repeated spread
      pushes build it. */
  function Flatten<T>(xss: seq<seq<T>>): seq<T> {
    if xss == [] then [] else Flatten(xss[..|xss| - 1]) + xss[|xss| - 1]
  }

  lemma {:induction false} FlattenAppend<T>(a: seq<seq<T>>, b: seq<seq<T>>)
    ensures Flatten(a + b) == Flatten(a) + Flatten(b)
  {
    if b == [] {
      assert a + b == a;
    } else {
      var b' := b[..|b| - 1];
      assert (a + b)[..|a + b| - 1] == a + b';
      FlattenAppend(a, b');
    }
  }

  lemma {:induction false} FlattenMember<T>(xss: seq<seq<T>>, x: T)
    ensures x in Flatten(xss) <==> exists k :: 0 <= k < |xss| && x in xss[k]
  {
    if xss != [] {
      var init := xss[..|xss| - 1];
      FlattenMember(init, x);
      assert forall k :: 0 <= k < |init| ==> init[k] == xss[k];
    }
  }

  /** Lists of the same lengths, position by position, flatten to lists of
      the same length. */
  lemma {:induction false} FlattenSameLength<T, U>(xss: seq<seq<T>>, yss: seq<seq<U>>)
    requires |xss| == |yss|
    requires forall k :: 0 <= k < |xss| ==> |xss[k]| == |yss[k]|
    ensures |Flatten(xss)| == |Flatten(yss)|
  {
    if xss != [] {
      FlattenSameLength(xss[..|xss| - 1], yss[..|yss| - 1]);
    }
  }

  /** The groups of each listed vendor. */
  function GroupLists(vendors: seq<Value>, gi: Option<GroupInformation>): seq<seq<string>> {
    seq(|vendors|, i requires 0 <= i < |vendors| => VendorGroups(gi, vendors[i]))
  }

  /** The group ids once every listed vendor's groups are pushed. */
  function VendorGroupIds(vendorList: Option<seq<Value>>, gi: Option<GroupInformation>): seq<string> {
    match vendorList
    case None => []
    case Some(vendors) => Flatten(GroupLists(vendors, gi))
  }

  /** `groupIds` is the vendors' group lists concatenated in vendor order,
      duplicates kept: one vendor contributes its own groups, and a longer
      vendor list contributes those of its parts one after the other. */
  lemma VendorGroupIdsConcat(a: seq<Value>, b: seq<Value>, gi: Option<GroupInformation>)
    ensures VendorGroupIds(Some(a + b), gi) == VendorGroupIds(Some(a), gi) + VendorGroupIds(Some(b), gi)
    ensures VendorGroupIds(Some([]), gi) == []
    ensures forall v :: VendorGroupIds(Some([v]), gi) == VendorGroups(gi, v)
  {
    assert GroupLists(a + b, gi) == GroupLists(a, gi) + GroupLists(b, gi);
    FlattenAppend(GroupLists(a, gi), GroupLists(b, gi));
    forall v
      ensures VendorGroupIds(Some([v]), gi) == VendorGroups(gi, v)
    {
      var lists := GroupLists([v], gi);
      assert lists == [VendorGroups(gi, v)];
      assert lists[..|lists| - 1] == [];
      assert Flatten(lists) == Flatten(lists[..|lists| - 1]) + lists[|lists| - 1];
      assert Flatten(lists) == VendorGroups(gi, v);
    }
  }

  /** A group id is collected exactly when some listed vendor belongs to it. */
  lemma VendorGroupIdsMember(vendors: seq<Value>, gi: Option<GroupInformation>, g: string)
    ensures g in VendorGroupIds(Some(vendors), gi) <==> exists i :: 0 <= i < |vendors| && g in VendorGroups(gi, vendors[i])
  {
    FlattenMember(GroupLists(vendors, gi), g);
    assert forall i :: 0 <= i < |vendors| ==> GroupLists(vendors, gi)[i] == VendorGroups(gi, vendors[i]);
  }

  /** The payload's group ids are the texts of the groups of the listed vendors. */
  lemma PayloadGroupsMember(info: AdditionalInfo)
    ensures forall v :: v in Strs(VendorGroupIds(info.vendorList, info.groupInformation)) <==>
      v.Str? && info.vendorList.Some? &&
      exists i :: 0 <= i < |info.vendorList.value| && v.s in VendorGroups(info.groupInformation, info.vendorList.value[i])
  {
    forall v
      ensures v in Strs(VendorGroupIds(info.vendorList, info.groupInformation)) <==>
        v.Str? && info.vendorList.Some? &&
        exists i :: 0 <= i < |info.vendorList.value| && v.s in VendorGroups(info.groupInformation, info.vendorList.value[i])
    {
      StrsMember(VendorGroupIds(info.vendorList, info.groupInformation), v);
      if info.vendorList.Some? && v.Str? {
        VendorGroupIdsMember(info.vendorList.value, info.groupInformation, v.s);
      }
    }
  }

  /** The groups loop of both facades: push the groups of every vendor. */
  method CollectVendorGroupIds(vendorList: Option<seq<Value>>, gi: Option<GroupInformation>) returns (groupIds: seq<string>)
    ensures groupIds == VendorGroupIds(vendorList, gi)
  {
    groupIds := [];
    if vendorList.Some? {
      var vendors := vendorList.value;
      for i := 0 to |vendors|
        invariant groupIds == Flatten(GroupLists(vendors[..i], gi))
      {
        assert GroupLists(vendors[..i + 1], gi)[..i] == GroupLists(vendors[..i], gi);
        groupIds := groupIds + VendorGroups(gi, vendors[i]);
      }
      assert vendors[..|vendors|] == vendors;
    }
  }

  /** The payload handed to the criteria builder: owner, vendor list and
      vendor type as given, and the collected groups as a list that is
      always present. */
  function PayloadFor(info: AdditionalInfo): (p: VendorPayload)
    ensures p.owner == info.owner && p.vendorList == info.vendorList && p.vendorType == info.vendorType
    ensures p.groupIds.Some?
    ensures forall v :: v in p.groupIds.value <==>
      v.Str? && info.vendorList.Some? &&
      exists i :: 0 <= i < |info.vendorList.value| && v.s in VendorGroups(info.groupInformation, info.vendorList.value[i])
  {
    PayloadGroupsMember(info);
    VendorPayload(info.owner, Some(Strs(VendorGroupIds(info.vendorList, info.groupInformation))), info.vendorList, info.vendorType)
  }

  /** The final filter for the given index keys. */
  function AssembleQuery(info: AdditionalInfo, index: seq<Value>): (q: FinalQuery)
    ensures q.moveTypeNe == BY_LEG && q.multiQueryIndexIn == index
    ensures q.criteria.owner == info.owner && q.criteria.isDeletedNe
    ensures q.criteria.chargeTemplateGroupIn == [SCOPED_TEMPLATE_GROUP]
  {
    FinalQuery(QueryForVendorValidityCheck(PayloadFor(info)), BY_LEG, index)
  }

  /** The routing is absent or empty: an absent routing reads as no legs. */
  predicate NoRouting(routing: Option<seq<Order>>): (none: bool)
    ensures none <==> routing.GetOr([]) == []
  {
    routing.None? || |routing.value| == 0
  }

  function RouteLists(orders: seq<Order>, gi: Option<GroupInformation>): seq<seq<string>> {
    seq(|orders|, k requires 0 <= k < |orders| => RouteCombinations(orders[k], gi))
  }

  function LocationLists(orders: seq<Order>, gi: Option<GroupInformation>): seq<seq<Value>> {
    seq(|orders|, k requires 0 <= k < |orders| => LocationCombinations(orders[k], gi))
  }

  /** The filter the route facade would pass to the store; `None` when it
      returns before building one. Every index key is text. */
  function RouteQuery(routing: Option<seq<Order>>, additionalInfo: Option<AdditionalInfo>): (q: Option<FinalQuery>)
    ensures q.None? <==> NoRouting(routing)
    ensures q.Some? ==> q.value.moveTypeNe == BY_LEG && q.value.criteria.owner == Provided(additionalInfo).owner
    ensures q.Some? ==> forall i :: 0 <= i < |q.value.multiQueryIndexIn| ==> q.value.multiQueryIndexIn[i].Str?
  {
    if NoRouting(routing) then None
    else
      var info := Provided(additionalInfo);
      Some(AssembleQuery(info, Strs(Flatten(RouteLists(routing.value, info.groupInformation)))))
  }

  /** The filter the location facade would pass to the store; `None` when it
      returns before building one. */
  function LocationQuery(routing: Option<seq<Order>>, additionalInfo: Option<AdditionalInfo>): (q: Option<FinalQuery>)
    ensures q.None? <==> NoRouting(routing)
    ensures q.Some? ==> q.value.moveTypeNe == BY_LEG && q.value.criteria.owner == Provided(additionalInfo).owner
  {
    if NoRouting(routing) then None
    else
      var info := Provided(additionalInfo);
      Some(AssembleQuery(info, Flatten(LocationLists(routing.value, info.groupInformation))))
  }

  /** What a facade resolves to: no filter or a failed read give `[]`,
      otherwise the records read. */
  function StoreResult<R>(query: Option<FinalQuery>, find: FinalQuery -> Option<seq<R>>): seq<R> {
    match query
    case None => []
    case Some(q) => find(q).GetOr([])
  }

  /** Whether the store would return `t` for the final filter `q`. */
  predicate FinalMatches(q: FinalQuery, t: Template) {
    && Matches(q.criteria, t)
    && t.moveType != Str(q.moveTypeNe)
    && Intersects(t.multiQueryIndex, q.multiQueryIndexIn)
  }

  lemma StrsMember(xs: seq<string>, v: Value)
    ensures v in Strs(xs) <==> v.Str? && v.s in xs
  {
    if v in Strs(xs) {
      var i :| 0 <= i < |xs| && Strs(xs)[i] == v;
    }
    if v.Str? && v.s in xs {
      var i :| 0 <= i < |xs| && xs[i] == v.s;
      assert Strs(xs)[i] == v;
    }
  }

  /** The route filter selects the applicable templates that are not by-leg
      and whose index holds a route key of some order of the routing. */
  lemma RouteQuerySelects(routing: Option<seq<Order>>, additionalInfo: Option<AdditionalInfo>, t: Template)
    requires !NoRouting(routing)
    ensures var info := Provided(additionalInfo);
      FinalMatches(RouteQuery(routing, additionalInfo).value, t) <==>
        && Applicable(PayloadFor(info), t)
        && t.moveType != Str(BY_LEG)
        && exists k, key :: 0 <= k < |routing.value| && key in RouteCombinations(routing.value[k], info.groupInformation)
                            && Str(key) in t.multiQueryIndex
  {
    var info := Provided(additionalInfo);
    var gi := info.groupInformation;
    var orders := routing.value;
    var lists := RouteLists(orders, gi);
    var q := RouteQuery(routing, additionalInfo).value;
    CriteriaSelectsApplicable(PayloadFor(info), t);
    if Intersects(t.multiQueryIndex, q.multiQueryIndexIn) {
      var v :| v in t.multiQueryIndex && v in q.multiQueryIndexIn;
      StrsMember(Flatten(lists), v);
      FlattenMember(lists, v.s);
      var k :| 0 <= k < |orders| && v.s in lists[k];
      assert v.s in RouteCombinations(orders[k], gi) && Str(v.s) in t.multiQueryIndex;
    }
    if exists k, key :: 0 <= k < |orders| && key in RouteCombinations(orders[k], gi) && Str(key) in t.multiQueryIndex {
      var k, key :| 0 <= k < |orders| && key in RouteCombinations(orders[k], gi) && Str(key) in t.multiQueryIndex;
      assert key in lists[k];
      FlattenMember(lists, key);
      StrsMember(Flatten(lists), Str(key));
      assert Str(key) in q.multiQueryIndexIn;
    }
  }

  /** The location filter selects the applicable templates that are not
      by-leg and whose index holds a location key of some order. */
  lemma LocationQuerySelects(routing: Option<seq<Order>>, additionalInfo: Option<AdditionalInfo>, t: Template)
    requires !NoRouting(routing)
    ensures var info := Provided(additionalInfo);
      FinalMatches(LocationQuery(routing, additionalInfo).value, t) <==>
        && Applicable(PayloadFor(info), t)
        && t.moveType != Str(BY_LEG)
        && exists k, key :: 0 <= k < |routing.value| && key in LocationCombinations(routing.value[k], info.groupInformation)
                            && key in t.multiQueryIndex
  {
    var info := Provided(additionalInfo);
    var gi := info.groupInformation;
    var orders := routing.value;
    var lists := LocationLists(orders, gi);
    var q := LocationQuery(routing, additionalInfo).value;
    CriteriaSelectsApplicable(PayloadFor(info), t);
    if Intersects(t.multiQueryIndex, q.multiQueryIndexIn) {
      var v :| v in t.multiQueryIndex && v in q.multiQueryIndexIn;
      FlattenMember(lists, v);
      var k :| 0 <= k < |orders| && v in lists[k];
      assert v in LocationCombinations(orders[k], gi);
    }
    if exists k, key :: 0 <= k < |orders| && key in LocationCombinations(orders[k], gi) && key in t.multiQueryIndex {
      var k, key :| 0 <= k < |orders| && key in LocationCombinations(orders[k], gi) && key in t.multiQueryIndex;
      assert key in lists[k];
      FlattenMember(lists, key);
      assert key in q.multiQueryIndexIn;
    }
  }

  lemma StrsAppend(a: seq<string>, b: seq<string>)
    ensures Strs(a + b) == Strs(a) + Strs(b)
  {
  }

  /** The route index is the per-order key lists concatenated in routing
      order, duplicates kept. */
  lemma RouteIndexConcat(a: seq<Order>, b: seq<Order>, additionalInfo: Option<AdditionalInfo>)
    requires a != [] && b != []
    ensures RouteQuery(Some(a + b), additionalInfo).value.multiQueryIndexIn ==
      RouteQuery(Some(a), additionalInfo).value.multiQueryIndexIn + RouteQuery(Some(b), additionalInfo).value.multiQueryIndexIn
  {
    var gi := Provided(additionalInfo).groupInformation;
    assert RouteLists(a + b, gi) == RouteLists(a, gi) + RouteLists(b, gi);
    FlattenAppend(RouteLists(a, gi), RouteLists(b, gi));
    StrsAppend(Flatten(RouteLists(a, gi)), Flatten(RouteLists(b, gi)));
  }

  /** A single order contributes exactly its own route keys. */
  lemma RouteIndexSingle(order: Order, additionalInfo: Option<AdditionalInfo>)
    ensures RouteQuery(Some([order]), additionalInfo).value.multiQueryIndexIn ==
      Strs(RouteCombinations(order, Provided(additionalInfo).groupInformation))
  {
    var lists := RouteLists([order], Provided(additionalInfo).groupInformation);
    assert lists == [RouteCombinations(order, Provided(additionalInfo).groupInformation)];
    assert lists[..|lists| - 1] == [];
    assert Flatten(lists) == Flatten(lists[..|lists| - 1]) + lists[|lists| - 1];
  }

  /** The location index is the per-order key lists concatenated in routing
      order, duplicates kept. */
  lemma LocationIndexConcat(a: seq<Order>, b: seq<Order>, additionalInfo: Option<AdditionalInfo>)
    requires a != [] && b != []
    ensures LocationQuery(Some(a + b), additionalInfo).value.multiQueryIndexIn ==
      LocationQuery(Some(a), additionalInfo).value.multiQueryIndexIn + LocationQuery(Some(b), additionalInfo).value.multiQueryIndexIn
  {
    var gi := Provided(additionalInfo).groupInformation;
    assert LocationLists(a + b, gi) == LocationLists(a, gi) + LocationLists(b, gi);
    FlattenAppend(LocationLists(a, gi), LocationLists(b, gi));
  }

  /** A single order contributes exactly its own location keys. */
  lemma LocationIndexSingle(order: Order, additionalInfo: Option<AdditionalInfo>)
    ensures LocationQuery(Some([order]), additionalInfo).value.multiQueryIndexIn ==
      LocationCombinations(order, Provided(additionalInfo).groupInformation)
  {
    var lists := LocationLists([order], Provided(additionalInfo).groupInformation);
    assert lists == [LocationCombinations(order, Provided(additionalInfo).groupInformation)];
    assert lists[..|lists| - 1] == [];
    assert Flatten(lists) == Flatten(lists[..|lists| - 1]) + lists[|lists| - 1];
  }

  /** The two facades build the same filter apart from the index keys, and
      they hand the store index lists of the same length. */
  lemma RouteAndLocationQueriesAgree(routing: Option<seq<Order>>, additionalInfo: Option<AdditionalInfo>)
    ensures RouteQuery(routing, additionalInfo).None? <==> LocationQuery(routing, additionalInfo).None?
    ensures RouteQuery(routing, additionalInfo).Some? ==>
      var r, l := RouteQuery(routing, additionalInfo).value, LocationQuery(routing, additionalInfo).value;
      r.criteria == l.criteria && r.moveTypeNe == l.moveTypeNe && |r.multiQueryIndexIn| == |l.multiQueryIndexIn|
  {
    if !NoRouting(routing) {
      var gi := Provided(additionalInfo).groupInformation;
      var rs, ls := RouteLists(routing.value, gi), LocationLists(routing.value, gi);
      forall k | 0 <= k < |rs|
        ensures |rs[k]| == |ls[k]|
      {
        RouteIsPrefixedLocation(routing.value[k], gi);
      }
      FlattenSameLength(rs, ls);
    }
  }

  /** The route facade. */
  method GetRuleBasedCharges<R>(routing: Option<seq<Order>>, additionalInfo: Option<AdditionalInfo>,
                                find: FinalQuery -> Option<seq<R>>) returns (charges: seq<R>)
    ensures NoRouting(routing) ==> charges == []
    ensures charges == StoreResult(RouteQuery(routing, additionalInfo), find)
  {
    if routing.None? || |routing.value| == 0 {
      return [];
    }
    var info := Provided(additionalInfo);
    var groupIds := CollectVendorGroupIds(info.vendorList, info.groupInformation);
    var payload := VendorPayload(info.owner, Some(Strs(groupIds)), info.vendorList, info.vendorType);
    var criteria := QueryForVendorValidityCheck(payload);
    var orders := routing.value;
    var routeCombinations: seq<string> := [];
    for k := 0 to |orders|
      invariant routeCombinations == Flatten(RouteLists(orders[..k], info.groupInformation))
    {
      assert RouteLists(orders[..k + 1], info.groupInformation)[..k] == RouteLists(orders[..k], info.groupInformation);
      var combinations := GenerateRouteCombinations(orders[k], info.groupInformation);
      routeCombinations := routeCombinations + combinations;
    }
    assert orders[..|orders|] == orders;
    var finalQuery := FinalQuery(criteria, BY_LEG, Strs(routeCombinations));
    charges := match find(finalQuery) case Some(records) => records case None => [];
  }

  /** The location facade. */
  method GetRuleBasedChargesForLocation<R>(routing: Option<seq<Order>>, additionalInfo: Option<AdditionalInfo>,
                                           find: FinalQuery -> Option<seq<R>>) returns (charges: seq<R>)
    ensures NoRouting(routing) ==> charges == []
    ensures charges == StoreResult(LocationQuery(routing, additionalInfo), find)
  {
    if routing.None? || |routing.value| == 0 {
      return [];
    }
    var info := Provided(additionalInfo);
    var groupIds := CollectVendorGroupIds(info.vendorList, info.groupInformation);
    var payload := VendorPayload(info.owner, Some(Strs(groupIds)), info.vendorList, info.vendorType);
    var criteria := QueryForVendorValidityCheck(payload);
    var orders := routing.value;
    var locationCombinations: seq<Value> := [];
    for k := 0 to |orders|
      invariant locationCombinations == Flatten(LocationLists(orders[..k], info.groupInformation))
    {
      assert LocationLists(orders[..k + 1], info.groupInformation)[..k] == LocationLists(orders[..k], info.groupInformation);
      var combinations := GenerateLocationCombinations(orders[k], info.groupInformation);
      locationCombinations := locationCombinations + combinations;
    }
    assert orders[..|orders|] == orders;
    var finalQuery := FinalQuery(criteria, BY_LEG, locationCombinations);
    charges := match find(finalQuery) case Some(records) => records case None => [];
  }
}
