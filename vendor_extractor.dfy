/**
  The vendor extractor (`getVendorsFromRouting`): the distinct vendors a
  route references, read from the property that the vendor type names, each
  reference unwrapped to its id, falsy values dropped, in order of first
  occurrence.
 */
module VendorExtractor {
  import opened JsValues
  import opened Records

  /** An element of the routing data: a missing (null or undefined) element,
      or a leg with its `driver` and `drayosCarrier` references. */
  datatype RoutingItem = Missing | Item(driver: Value, drayosCarrier: Value)

  /** The property name the vendor type selects: `"driver"`, `"drayosCarrier"`,
      or none (the `switch` leaves `vendorProperty` undefined). */
  datatype VendorProperty = DriverProperty | CarrierProperty | NoProperty

  /** The `switch` on the vendor type: a driver reads `driver`, a carrier
      `drayosCarrier`, any other type no property. */
  function VendorPropertyFor(vendorType: VendorType): (property: VendorProperty)
    ensures property == DriverProperty <==> vendorType == Driver
    ensures property == CarrierProperty <==> vendorType == Carrier
    ensures property == NoProperty <==> vendorType == OtherType
  {
    match vendorType
    case Driver => DriverProperty
    case Carrier => CarrierProperty
    case OtherType => NoProperty
  }

  /** Optional property access on a routing element: a missing element reads
      as undefined, and without a property name the lookup reads the key
      "undefined", which a routing leg does not have. */
  function PropertyOf(item: RoutingItem, property: VendorProperty): (v: Value)
    ensures item.Missing? || property == NoProperty ==> v == Undefined
    ensures item.Item? && property == DriverProperty ==> v == item.driver
    ensures item.Item? && property == CarrierProperty ==> v == item.drayosCarrier
  {
    match item
    case Missing => Undefined
    case Item(driver, carrier) =>
      match property
      case DriverProperty => driver
      case CarrierProperty => carrier
      case NoProperty => Undefined
  }

  /** Each routing element mapped to its vendor property, a reference with an
      `_id` unwrapped to that id. */
  function UnwrappedVendors(data: seq<RoutingItem>, vendorType: VendorType): (u: seq<Value>)
    ensures |u| == |data|
    ensures forall i :: 0 <= i < |u| ==> !(u[i].Object? && u[i].id.Some?)
    ensures forall i :: 0 <= i < |u| && data[i].Missing? ==> u[i] == Undefined
    ensures vendorType == OtherType ==> forall i :: 0 <= i < |u| ==> u[i] == Undefined
  {
    seq(|data|, i requires 0 <= i < |data| => Unwrap(PropertyOf(data[i], VendorPropertyFor(vendorType))))
  }

  predicate NoDuplicates(xs: seq<Value>) {
    forall i, j :: 0 <= i < j < |xs| ==> xs[i] != xs[j]
  }

  /** A list passed through a `Set` and back: each value once, where it first
      occurs. */
  function Distinct(xs: seq<Value>): (r: seq<Value>)
    ensures forall x :: x in r <==> x in xs
    ensures NoDuplicates(r)
  {
    if xs == [] then []
    else
      var seen := Distinct(xs[..|xs| - 1]);
      var last := xs[|xs| - 1];
      if last in seen then seen else seen + [last]
  }

  /** The distinct values come in the order of their first occurrences. */
  lemma {:induction false} DistinctKeepsFirstOccurrenceOrder(xs: seq<Value>)
    ensures forall i, j :: 0 <= i < j < |Distinct(xs)| ==> IndexOf(xs, Distinct(xs)[i]) < IndexOf(xs, Distinct(xs)[j])
  {
    if xs != [] {
      var init, last := xs[..|xs| - 1], xs[|xs| - 1];
      assert xs == init + [last];
      DistinctKeepsFirstOccurrenceOrder(init);
      forall z | z in init
        ensures IndexOf(xs, z) == IndexOf(init, z)
      {
        IndexOfAppend(init, last, z);
      }
    }
  }

  /** A list without duplicates is its own distinct list. */
  lemma {:induction false} DistinctOfDistinct(xs: seq<Value>)
    requires NoDuplicates(xs)
    ensures Distinct(xs) == xs
  {
    if xs != [] {
      var init, last := xs[..|xs| - 1], xs[|xs| - 1];
      DistinctOfDistinct(init);
      assert xs == init + [last];
    }
  }

  /** The extractor: absent routing data gives nothing; otherwise the truthy
      unwrapped vendors, each once. */
  function GetVendorsFromRouting(loadRoutingData: Option<seq<RoutingItem>>, vendorType: VendorType): (r: seq<Value>)
    ensures loadRoutingData.None? ==> r == []
    ensures NoDuplicates(r)
    ensures forall i :: 0 <= i < |r| ==> Truthy(r[i])
    ensures loadRoutingData.Some? ==>
      forall v :: v in r <==> v in UnwrappedVendors(loadRoutingData.value, vendorType) && Truthy(v)
  {
    match loadRoutingData
    case None => []
    case Some(data) => Distinct(KeepTruthy(UnwrappedVendors(data, vendorType)))
  }

  /** The extracted vendors are exactly the truthy unwrapped references, each
      once, in the order in which they first occur in the routing. */
  lemma GetVendorsFromRoutingSpec(data: seq<RoutingItem>, vendorType: VendorType)
    ensures var r, u := GetVendorsFromRouting(Some(data), vendorType), UnwrappedVendors(data, vendorType);
      && NoDuplicates(r)
      && (forall i :: 0 <= i < |r| ==> Truthy(r[i]))
      && (forall v :: v in r <==> v in u && Truthy(v))
      && (forall i, j :: 0 <= i < j < |r| ==> IndexOf(u, r[i]) < IndexOf(u, r[j]))
  {
    var u := UnwrappedVendors(data, vendorType);
    var kept := KeepTruthy(u);
    var r := Distinct(kept);
    DistinctKeepsFirstOccurrenceOrder(kept);
    forall i, j | 0 <= i < j < |r|
      ensures IndexOf(u, r[i]) < IndexOf(u, r[j])
    {
      KeepTruthyKeepsOrder(u, r[i], r[j]);
    }
  }

  /** A vendor type other than driver or carrier reads no property, so
      nothing is extracted. */
  lemma UnrecognisedTypeExtractsNothing(loadRoutingData: Option<seq<RoutingItem>>)
    ensures GetVendorsFromRouting(loadRoutingData, OtherType) == []
  {
    if loadRoutingData.Some? {
      var u := UnwrappedVendors(loadRoutingData.value, OtherType);
      assert forall i :: 0 <= i < |u| ==> u[i] == Undefined;
    }
  }

  /** A driver given once by reference and once by raw id, and a leg with no
      driver, yield that driver once. */
  lemma DriverExample()
    ensures GetVendorsFromRouting(
      Some([Item(Object(0, Some("D1")), Undefined), Item(Str("D1"), Undefined), Item(Null, Undefined)]), Driver)
      == [Str("D1")]
  {
    var data := [Item(Object(0, Some("D1")), Undefined), Item(Str("D1"), Undefined), Item(Null, Undefined)];
    var u := UnwrappedVendors(data, Driver);
    assert u == [Str("D1"), Str("D1"), Null];
    assert KeepTruthy(u) == [Str("D1"), Str("D1")] by {
      assert u[1..] == [Str("D1"), Null];
      assert u[1..][1..] == [Null];
      assert [Null][1..] == [];
      assert KeepTruthy([Null]) == [];
    }
    var d := [Str("D1"), Str("D1")];
    assert d[..1] == [Str("D1")];
    assert [Str("D1")][..0] == [];
  }
}
