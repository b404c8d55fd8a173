/**
  The two combination generators: the lookup keys an order can be matched by
  in a charge template's `multiQueryIndex`. The location keys are the raw
  values (customer id, "city,state", zip code, profile groups, zip groups);
  the route keys are the same keys as text, each prefixed by the order's
  type and a dash.
 */
module Combinations {
  import opened JsValues
  import opened Records

  /** The customer an order names: the `_id` of a customer reference, or the
      customer value itself when it carries no `_id`. */
  function CustomerKey(order: Order): (key: Value)
    ensures order.customerId.Object? && order.customerId.id.Some? ==> key == Str(order.customerId.id.value)
    ensures !(order.customerId.Object? && order.customerId.id.Some?) ==> key == order.customerId
  {
    Unwrap(order.customerId)
  }

  /** The order's type as text followed by a dash, the head of every route key. */
  function Prefix(order: Order): string {
    ToText(order.legType) + "-"
  }

  /** Both city and state are truthy. */
  predicate HasCityState(order: Order) {
    Truthy(order.city) && Truthy(order.state)
  }

  /** City and state as text, joined by a comma. */
  function CityState(order: Order): string {
    ToText(order.city) + "," + ToText(order.state)
  }

  function Prefixed(prefix: string, xs: seq<string>): seq<string> {
    seq(|xs|, i requires 0 <= i < |xs| => prefix + xs[i])
  }

  /** The number of basic keys: the customer, then "city,state" and the zip
      code when present. */
  function BasicCount(order: Order): nat {
    1 + (if HasCityState(order) then 1 else 0) + (if Truthy(order.zipCode) then 1 else 0)
  }

  /** The location keys of an order, in the order they are pushed: one per
      basic attribute present, the customer first, then the groups. */
  function LocationCombinations(order: Order, gi: Option<GroupInformation>): (r: seq<Value>)
    ensures |r| == BasicCount(order) + |ProfileGroups(gi, CustomerKey(order))| + |ZipGroups(gi, CustomerKey(order))|
    ensures r[0] == CustomerKey(order)
  {
    [CustomerKey(order)]
    + (if HasCityState(order) then [Str(CityState(order))] else [])
    + (if Truthy(order.zipCode) then [order.zipCode] else [])
    + Strs(ProfileGroups(gi, CustomerKey(order)))
    + Strs(ZipGroups(gi, CustomerKey(order)))
  }

  /** The route keys of an order, in the order they are pushed: the same
      count as the location keys, the customer key first. */
  function RouteCombinations(order: Order, gi: Option<GroupInformation>): (r: seq<string>)
    ensures |r| == BasicCount(order) + |ProfileGroups(gi, CustomerKey(order))| + |ZipGroups(gi, CustomerKey(order))|
    ensures r[0] == Prefix(order) + ToText(CustomerKey(order))
  {
    [Prefix(order) + ToText(CustomerKey(order))]
    + (if HasCityState(order) then [Prefix(order) + CityState(order)] else [])
    + (if Truthy(order.zipCode) then [Prefix(order) + ToText(order.zipCode)] else [])
    + Prefixed(Prefix(order), ProfileGroups(gi, CustomerKey(order)))
    + Prefixed(Prefix(order), ZipGroups(gi, CustomerKey(order)))
  }

  /** The location keys: the customer first, one key per basic attribute
      present, then the profile groups followed by the zip groups. */
  lemma LocationCombinationsShape(order: Order, gi: Option<GroupInformation>)
    ensures var r := LocationCombinations(order, gi);
      && |r| == BasicCount(order) + |ProfileGroups(gi, CustomerKey(order))| + |ZipGroups(gi, CustomerKey(order))|
      && r[0] == CustomerKey(order)
      && r[BasicCount(order)..] == Strs(ProfileGroups(gi, CustomerKey(order))) + Strs(ZipGroups(gi, CustomerKey(order)))
  {
  }

  /** The route keys: never empty, the customer key first, every key behind
      the order's type prefix, and the profile groups followed by the zip
      groups at the end. */
  lemma RouteCombinationsShape(order: Order, gi: Option<GroupInformation>)
    ensures var r := RouteCombinations(order, gi);
      && |r| == BasicCount(order) + |ProfileGroups(gi, CustomerKey(order))| + |ZipGroups(gi, CustomerKey(order))|
      && r[0] == Prefix(order) + ToText(CustomerKey(order))
      && (forall i :: 0 <= i < |r| ==> Prefix(order) <= r[i])
      && r[BasicCount(order)..] ==
           Prefixed(Prefix(order), ProfileGroups(gi, CustomerKey(order))) + Prefixed(Prefix(order), ZipGroups(gi, CustomerKey(order)))
  {
  }

  /** Route keys are the location keys, in the same order, as text behind the
      order's type prefix. */
  lemma RouteIsPrefixedLocation(order: Order, gi: Option<GroupInformation>)
    ensures |RouteCombinations(order, gi)| == |LocationCombinations(order, gi)|
    ensures forall i :: 0 <= i < |RouteCombinations(order, gi)| ==>
      RouteCombinations(order, gi)[i] == Prefix(order) + ToText(LocationCombinations(order, gi)[i])
  {
  }

  /** The route generator: the basic keys are pushed one by one, then each
      profile group and each zip group in its own loop. */
  method GenerateRouteCombinations(order: Order, gi: Option<GroupInformation>) returns (combinations: seq<string>)
    ensures combinations == RouteCombinations(order, gi)
  {
    combinations := [];
    var customerId := Unwrap(order.customerId);
    combinations := combinations + [Prefix(order) + ToText(customerId)];
    if Truthy(order.city) && Truthy(order.state) {
      combinations := combinations + [Prefix(order) + CityState(order)];
    }
    if Truthy(order.zipCode) {
      combinations := combinations + [Prefix(order) + ToText(order.zipCode)];
    }
    var profileGroups := ProfileGroups(gi, customerId);
    var zipGroups := ZipGroups(gi, customerId);
    ghost var basic := combinations;
    for i := 0 to |profileGroups|
      invariant combinations == basic + Prefixed(Prefix(order), profileGroups[..i])
    {
      assert profileGroups[..i + 1] == profileGroups[..i] + [profileGroups[i]];
      combinations := combinations + [Prefix(order) + profileGroups[i]];
    }
    assert profileGroups[..|profileGroups|] == profileGroups;
    ghost var withProfiles := combinations;
    for i := 0 to |zipGroups|
      invariant combinations == withProfiles + Prefixed(Prefix(order), zipGroups[..i])
    {
      assert zipGroups[..i + 1] == zipGroups[..i] + [zipGroups[i]];
      combinations := combinations + [Prefix(order) + zipGroups[i]];
    }
    assert zipGroups[..|zipGroups|] == zipGroups;
  }

  /** The location generator: the basic keys are pushed one by one, then the
      profile groups and the zip groups each in a single spread push. */
  method GenerateLocationCombinations(order: Order, gi: Option<GroupInformation>) returns (combinations: seq<Value>)
    ensures combinations == LocationCombinations(order, gi)
  {
    combinations := [];
    var customerId := Unwrap(order.customerId);
    combinations := combinations + [customerId];
    if Truthy(order.city) && Truthy(order.state) {
      combinations := combinations + [Str(CityState(order))];
    }
    if Truthy(order.zipCode) {
      combinations := combinations + [order.zipCode];
    }
    var profileGroups := ProfileGroups(gi, customerId);
    var zipGroups := ZipGroups(gi, customerId);
    combinations := combinations + Strs(profileGroups);
    combinations := combinations + Strs(zipGroups);
  }

  /** The pickup leg of customer C1 in Los Angeles with one profile group. */
  lemma PickupExample()
    ensures RouteCombinations(
      Order(Str("PICKUP"), Str("C1"), Str("LA"), Str("CA"), Str("90001")),
      Some(GroupInformation(None, Some(map["C1" := ["G1"]]), None)))
      == ["PICKUP-C1", "PICKUP-LA,CA", "PICKUP-90001", "PICKUP-G1"]
  {
    var order := Order(Str("PICKUP"), Str("C1"), Str("LA"), Str("CA"), Str("90001"));
    var gi := Some(GroupInformation(None, Some(map["C1" := ["G1"]]), None));
    assert ProfileGroups(gi, CustomerKey(order)) == ["G1"];
    assert ZipGroups(gi, CustomerKey(order)) == [];
    assert Prefix(order) == "PICKUP-";
    assert CityState(order) == "LA,CA";
    assert CustomerKey(order) == Str("C1") && HasCityState(order) && Truthy(order.zipCode);
    assert "PICKUP-" + "C1" == "PICKUP-C1";
    assert "PICKUP-" + "LA,CA" == "PICKUP-LA,CA";
    assert "PICKUP-" + "90001" == "PICKUP-90001";
    assert "PICKUP-" + "G1" == "PICKUP-G1";
    assert Prefixed("PICKUP-", []) == [];
    assert Prefixed("PICKUP-", ["G1"]) == ["PICKUP-G1"];
  }
}
