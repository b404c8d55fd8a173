/**
  The inputs the query builders receive: orders (legs of a shipment route),
  the caller's group-membership tables and the additional information that
  comes with a lookup request, plus the vendor and profile type constants.
 */
module Records {
  import opened JsValues

  /** The two vendor types the code tells apart; every other
      value, an absent one included, is `OtherType`. */
  datatype VendorType = Driver | Carrier | OtherType

  /** A `vendorProfileType` value a charge template can carry: a vendor type
      itself or one of the `ProfileType` group constants. */
  datatype ProfileTag = VendorProfile(vendorType: VendorType) | DriverGroup | AllDriverGroup | CarrierGroup

  /** One leg of a route: its type, customer, city, state and zip code. */
  datatype Order = Order(legType: Value, customerId: Value, city: Value, state: Value, zipCode: Value)

  /** A lookup table from a key to group ids; `None` when the table is absent. */
  type GroupTable = Option<map<string, seq<string>>>

  /** The caller's group tables: vendor id, customer id and customer id again,
      each mapped to group ids. */
  datatype GroupInformation = GroupInformation(vendor: GroupTable, profile: GroupTable, zipCode: GroupTable)

  /** The additional information of a lookup request. An absent owner is `Undefined`, an
      absent or unknown vendor type `OtherType`. */
  datatype AdditionalInfo = AdditionalInfo(
    owner: Value,
    vendorType: VendorType,
    vendorList: Option<seq<Value>>,
    groupInformation: Option<GroupInformation>)

  /** The additional information as its fields are read: when it is absent
      itself, every field reads as absent. */
  function Provided(info: Option<AdditionalInfo>): (r: AdditionalInfo)
    ensures info.Some? ==> r == info.value
    ensures info.None? ==> r.owner == Undefined && r.vendorType == OtherType
    ensures info.None? ==> r.vendorList.None? && r.groupInformation.None?
  {
    info.GetOr(AdditionalInfo(Undefined, OtherType, None, None))
  }

  /** Optional property lookup in a table with an empty-list fallback: the key
      is converted to a string as any property key is, and a missing table or
      entry reads as no groups. */
  function Lookup(table: GroupTable, key: Value): (groups: seq<string>)
    ensures table.None? ==> groups == []
    ensures table.Some? && ToText(key) in table.value ==> groups == table.value[ToText(key)]
    ensures table.Some? && ToText(key) !in table.value ==> groups == []
  {
    match table
    case None => []
    case Some(m) => if ToText(key) in m then m[ToText(key)] else []
  }

  /** The groups a vendor belongs to; a missing table at any level reads as
      no groups. */
  function VendorGroups(gi: Option<GroupInformation>, vendor: Value): (groups: seq<string>)
    ensures gi.Some? && gi.value.vendor.Some? && ToText(vendor) in gi.value.vendor.value ==>
              groups == gi.value.vendor.value[ToText(vendor)]
    ensures !(gi.Some? && gi.value.vendor.Some? && ToText(vendor) in gi.value.vendor.value) ==> groups == []
  {
    if gi.None? then [] else Lookup(gi.value.vendor, vendor)
  }

  /** The profile groups of a customer, read as `VendorGroups` reads a vendor's. */
  function ProfileGroups(gi: Option<GroupInformation>, customerId: Value): (groups: seq<string>)
    ensures gi.Some? && gi.value.profile.Some? && ToText(customerId) in gi.value.profile.value ==>
              groups == gi.value.profile.value[ToText(customerId)]
    ensures !(gi.Some? && gi.value.profile.Some? && ToText(customerId) in gi.value.profile.value) ==> groups == []
  {
    if gi.None? then [] else Lookup(gi.value.profile, customerId)
  }

  /** The zip-code groups of a customer, read the same way. */
  function ZipGroups(gi: Option<GroupInformation>, customerId: Value): (groups: seq<string>)
    ensures gi.Some? && gi.value.zipCode.Some? && ToText(customerId) in gi.value.zipCode.value ==>
              groups == gi.value.zipCode.value[ToText(customerId)]
    ensures !(gi.Some? && gi.value.zipCode.Some? && ToText(customerId) in gi.value.zipCode.value) ==> groups == []
  {
    if gi.None? then [] else Lookup(gi.value.zipCode, customerId)
  }
}
