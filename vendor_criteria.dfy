/**
  The vendor criteria builder (`queryForVendorValidityCheck`): the filter
  fragment that restricts charge templates to an owner, to live templates, to
  the one scoped template group and, for drivers and carriers, to the vendor
  or its groups. `Matches` gives the fragment its meaning as a MongoDB filter
  over a charge template, and `Applicable` states the same selection rule
  directly, so that the builder can be proved to select exactly the
  applicable templates.
 */
module VendorCriteria {
  import opened JsValues
  import opened Records

  /** The charge-template group every query is scoped to; an ObjectId literal
      in the source, kept here as an opaque token. */
  const SCOPED_TEMPLATE_GROUP: string := "66729ed844d8b882ea14817c"

  /** The payload the builder receives: owner, group ids, vendor list and
      vendor type. */
  datatype VendorPayload = VendorPayload(
    owner: Value,
    groupIds: Option<seq<Value>>,
    vendorList: Option<seq<Value>>,
    vendorType: VendorType)

  /** One element of the `$or` list. */
  datatype Disjunct =
    | ProfileAndVendor(profileIn: seq<ProfileTag>, vendorIdIn: seq<Value>)  // {vendorProfileType: {$in}, vendorId: {$in}}
    | ProfileIs(profile: ProfileTag)                                        // {vendorProfileType: tag}

  /** The vendor-specific part of the criteria. */
  datatype VendorBranch =
    | Unnarrowed                                                     // no vendor fields
    | AnyOf(disjuncts: seq<Disjunct>)                                // $or
    | Narrowed(profileIn: seq<ProfileTag>, vendorIdIn: seq<Value>)   // flat vendorProfileType / vendorId

  /** The criteria record: `owner`, `isDeleted: {$ne: isDeletedNe}`,
      `chargeTemplateGroupID: {$in: ...}` and the vendor branch. */
  datatype Criteria = Criteria(owner: Value, isDeletedNe: bool, chargeTemplateGroupIn: seq<string>, vendor: VendorBranch)

  /** An absent list reads as the empty list. */
  function OrEmpty(xs: Option<seq<Value>>): seq<Value> {
    xs.GetOr([])
  }

  /** The vendor ids a template may name: the vendors and then the group ids,
      absent lists read as empty, falsy entries dropped. */
  function CandidateVendorIds(p: VendorPayload): (ids: seq<Value>)
    ensures forall x :: x in ids <==> Truthy(x) && (x in OrEmpty(p.vendorList) || x in OrEmpty(p.groupIds))
    ensures forall i :: 0 <= i < |ids| ==> Truthy(ids[i])
  {
    KeepTruthy(OrEmpty(p.vendorList) + OrEmpty(p.groupIds))
  }

  /** The criteria builder: the base fragment, then the driver
      branch, then the carrier branch, each replacing `criteria` by a spread
      copy with the vendor fields added. */
  function QueryForVendorValidityCheck(p: VendorPayload): (c: Criteria)
    ensures c.owner == p.owner && c.isDeletedNe && c.chargeTemplateGroupIn == [SCOPED_TEMPLATE_GROUP]
    ensures c.vendor.Unnarrowed? <==> p.vendorType.OtherType?
    ensures c.vendor.AnyOf? <==> p.vendorType == Driver
    ensures c.vendor.Narrowed? <==> p.vendorType == Carrier
  {
    var base := Criteria(p.owner, true, [SCOPED_TEMPLATE_GROUP], Unnarrowed);
    var afterDriver :=
      if p.vendorType == Driver then
        base.(vendor := AnyOf([
          ProfileAndVendor([VendorProfile(p.vendorType), DriverGroup], CandidateVendorIds(p)),
          ProfileIs(AllDriverGroup)]))
      else base;
    if p.vendorType == Carrier then
      afterDriver.(vendor := Narrowed([VendorProfile(p.vendorType), CarrierGroup], CandidateVendorIds(p)))
    else afterDriver
  }

  /** The parts of a stored charge template the filter looks at. An absent
      `isDeleted` reads as false, an absent `vendorProfileType` as `None`. */
  datatype Template = Template(
    owner: Value,
    isDeleted: bool,
    chargeTemplateGroupID: seq<string>,
    vendorProfileType: Option<ProfileTag>,
    vendorId: seq<Value>,
    moveType: Value,
    multiQueryIndex: seq<Value>)

  /** `{$in: list}` on an array field: some element of the field is listed. */
  predicate Intersects<T(==)>(field: seq<T>, list: seq<T>) {
    exists x :: x in field && x in list
  }

  /** `{$in: list}` on the scalar `vendorProfileType`. */
  predicate ProfileIn(t: Template, list: seq<ProfileTag>) {
    t.vendorProfileType.Some? && t.vendorProfileType.value in list
  }

  predicate DisjunctMatches(d: Disjunct, t: Template) {
    match d
    case ProfileAndVendor(profiles, ids) => ProfileIn(t, profiles) && Intersects(t.vendorId, ids)
    case ProfileIs(tag) => t.vendorProfileType == Some(tag)
  }

  predicate BranchMatches(b: VendorBranch, t: Template) {
    match b
    case Unnarrowed => true
    case AnyOf(ds) => exists i :: 0 <= i < |ds| && DisjunctMatches(ds[i], t)
    case Narrowed(profiles, ids) => ProfileIn(t, profiles) && Intersects(t.vendorId, ids)
  }

  /** Whether the store would return `t` for the filter `c`. */
  predicate Matches(c: Criteria, t: Template) {
    && t.owner == c.owner
    && t.isDeleted != c.isDeletedNe
    && Intersects(t.chargeTemplateGroupID, c.chargeTemplateGroupIn)
    && BranchMatches(c.vendor, t)
  }

  /** The template names one of the request's vendors or vendor groups. */
  predicate ListsVendor(p: VendorPayload, t: Template) {
    exists v :: v in t.vendorId && Truthy(v) && (v in OrEmpty(p.vendorList) || v in OrEmpty(p.groupIds))
  }

  /** The selection rule stated directly: the owner's live templates of the
      scoped group; for a driver, those of a driver or driver group that name
      one of the vendors, and every all-drivers-group template; for a
      carrier, those of a carrier or carrier group that name one of the
      vendors; for any other vendor type, all of them. */
  predicate Applicable(p: VendorPayload, t: Template) {
    && t.owner == p.owner
    && !t.isDeleted
    && SCOPED_TEMPLATE_GROUP in t.chargeTemplateGroupID
    && match p.vendorType
       case Driver =>
         || (t.vendorProfileType in [Some(VendorProfile(Driver)), Some(DriverGroup)] && ListsVendor(p, t))
         || t.vendorProfileType == Some(AllDriverGroup)
       case Carrier =>
         t.vendorProfileType in [Some(VendorProfile(Carrier)), Some(CarrierGroup)] && ListsVendor(p, t)
       case OtherType => true
  }

  /** The vendor-id list holds exactly the request's truthy vendor and group
      ids, vendors first, each list in its own order. */
  lemma CandidateVendorIdsOrder(p: VendorPayload)
    ensures CandidateVendorIds(p) == KeepTruthy(OrEmpty(p.vendorList)) + KeepTruthy(OrEmpty(p.groupIds))
    ensures forall v :: v in CandidateVendorIds(p) <==> Truthy(v) && (v in OrEmpty(p.vendorList) || v in OrEmpty(p.groupIds))
  {
    KeepTruthyAppend(OrEmpty(p.vendorList), OrEmpty(p.groupIds));
  }

  /** The builder's filter selects exactly the applicable templates. */
  lemma CriteriaSelectsApplicable(p: VendorPayload, t: Template)
    ensures Matches(QueryForVendorValidityCheck(p), t) <==> Applicable(p, t)
  {
    var c := QueryForVendorValidityCheck(p);
    CandidateVendorIdsOrder(p);
    assert Intersects(t.vendorId, CandidateVendorIds(p)) <==> ListsVendor(p, t);
    match p.vendorType
    case Driver =>
      assert BranchMatches(c.vendor, t) <==>
        DisjunctMatches(c.vendor.disjuncts[0], t) || DisjunctMatches(c.vendor.disjuncts[1], t);
    case Carrier =>
    case OtherType =>
  }

  /** For a driver, every all-drivers-group template of the owner passes,
      whatever the vendor and group lists hold, even when both are empty. */
  lemma DriverAdmitsAllDriverGroup(p: VendorPayload, t: Template)
    requires p.vendorType == Driver
    requires t.owner == p.owner && !t.isDeleted && SCOPED_TEMPLATE_GROUP in t.chargeTemplateGroupID
    requires t.vendorProfileType == Some(AllDriverGroup)
    ensures Matches(QueryForVendorValidityCheck(p), t)
  {
    CriteriaSelectsApplicable(p, t);
  }

  /** For a carrier, no all-drivers-group template passes: there is no
      unconditional clause. */
  lemma CarrierExcludesAllDriverGroup(p: VendorPayload, t: Template)
    requires p.vendorType == Carrier
    requires t.vendorProfileType == Some(AllDriverGroup)
    ensures !Matches(QueryForVendorValidityCheck(p), t)
  {
    CriteriaSelectsApplicable(p, t);
  }

  /** For a driver the `$or` is built whatever the lists hold: a driver or
      driver-group template with one of the truthy vendors or groups (vendors
      first, each in its own order), or an all-drivers-group template. */
  lemma DriverBranchShape(p: VendorPayload)
    requires p.vendorType == Driver
    ensures QueryForVendorValidityCheck(p).vendor == AnyOf([
      ProfileAndVendor([VendorProfile(Driver), DriverGroup], KeepTruthy(OrEmpty(p.vendorList)) + KeepTruthy(OrEmpty(p.groupIds))),
      ProfileIs(AllDriverGroup)])
  {
    CandidateVendorIdsOrder(p);
  }

  /** For a carrier there is no `$or`: the profile is a carrier or carrier
      group and the vendor id one of the truthy vendors or groups. */
  lemma CarrierBranchShape(p: VendorPayload)
    requires p.vendorType == Carrier
    ensures QueryForVendorValidityCheck(p).vendor ==
      Narrowed([VendorProfile(Carrier), CarrierGroup], KeepTruthy(OrEmpty(p.vendorList)) + KeepTruthy(OrEmpty(p.groupIds)))
  {
    CandidateVendorIdsOrder(p);
  }

  /** For any other vendor type the criteria are the base fragment exactly,
      so the vendor lists play no part. */
  lemma OtherTypeIgnoresVendors(p: VendorPayload, t: Template)
    requires p.vendorType == OtherType
    ensures QueryForVendorValidityCheck(p) == Criteria(p.owner, true, [SCOPED_TEMPLATE_GROUP], Unnarrowed)
    ensures Matches(QueryForVendorValidityCheck(p), t) <==>
      t.owner == p.owner && !t.isDeleted && SCOPED_TEMPLATE_GROUP in t.chargeTemplateGroupID
  {
  }
}
