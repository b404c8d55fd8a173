# Charge-template rule query builder

This project models the query-construction core of an Express/Mongoose service,
`src/utils/utils.ts`. That core builds the MongoDB filter used to find the "charge
templates" (pricing rules) that apply to a shipment route. It has four parts:

- **Vendor criteria builder** (`queryForVendorValidityCheck`). Every filter restricts
  templates to the owner, to templates not marked deleted, and to one hard-coded
  template group. A driver also matches through an `$or`: either a driver or
  driver-group template naming one of the vendors, or any all-drivers-group template.
  A carrier is narrowed to carrier or carrier-group templates naming one of the
  vendors. Any other vendor type gets no vendor-specific narrowing.
- **Combination generators** (`generateRouteCombinations`, `generateLocationCombinations`).
  They produce the keys an order can be matched by in a template's `multiQueryIndex`:
  the customer, then "city,state", then the zip code, then the customer's profile
  groups, then the customer's zip-code groups. The route variant turns each key into
  text behind `"<type>-"`.
- **Rule lookup facades** (`getRuleBasedCharges`, `getRuleBasedChargesForLocation`).
  They return `[]` straight away when there is no routing. Otherwise they collect the
  groups of every listed vendor, build the criteria, flatten the keys of every order,
  merge everything with `moveType != "BY_LEG"` into the final filter, and read the
  store.
- **Vendor extractor** (`getVendorsFromRouting`). It returns the distinct vendors a
  route references, read from `driver` or `drayosCarrier`.

The files are:

- `js_values.dfy` (module `JsValues`): JavaScript values as the code inspects them.
  `Value = Undefined | Null | Str | Object(ref, id)`, where `ref` is the object's
  identity and `id` its `_id` property. Also truthiness, string conversion, the
  unwrapping of a reference to its `_id`, and filtering by truthiness.
- `records.dfy` (module `Records`): orders, the group-information tables, the
  request's additional information, and the vendor and profile type enumerations.
- `vendor_criteria.dfy` (module `VendorCriteria`): the criteria builder. It also holds
  `Matches`, which says what the filter selects when read as a MongoDB query, and
  `Applicable`, the same selection rule stated directly.
- `combinations.dfy` (module `Combinations`): the two generators, each a method proved
  equal to a specification function. The route generator has the source's two
  `forEach` loops. The location generator has no loop, because the source pushes each
  group list with one spread `push`.
- `rule_lookup.dfy` (module `RuleLookup`): both facades as methods, with the group
  accumulation loop and the per-order flattening loop. The store is a parameter `find`.
- `vendor_extractor.dfy` (module `VendorExtractor`): the extractor as a function, with
  `Set` insertion order modelled by `Distinct`.

Three behaviours of the code that its declared types do not suggest:

- With an unrecognised vendor type, `vendorProperty` stays undefined. Each item is then
  looked up under the key "undefined". A routing leg has no such property, so the
  result is empty.
- `getVendorsFromRouting` is declared to return strings. A reference without `_id`
  is truthy, though, so it survives the filter and is returned as the object itself.
  The model keeps such objects, identified by reference.
- The location keys are raw values. A customer object without `_id` stays an object.
  The route variant turns that object into the text "[object Object]", and so does
  the group lookup by customer id.

## Model

| member | source | states |
|---|---|---|
| `JsValues.Unwrap` | src/utils/utils.ts:50 | a reference with an `_id` becomes that id; an object without `_id` and every non-object value stay unchanged; the result is never an object carrying an `_id` |
| `Records.Provided` | src/utils/utils.ts:112-115 | present additional information is read as given; absent additional information reads every field as absent: owner undefined, no vendor type, no vendor list, no group tables |
| `Records.Lookup` | src/utils/utils.ts:106-107 | a table lookup converts the key to text; a missing table or a missing entry reads as no groups, and a present entry gives its list |
| `Records.VendorGroups` | src/utils/utils.ts:106-107 | a vendor's groups are the vendor table's entry under the vendor's text; missing group information, table or entry give no groups |
| `Records.ProfileGroups` | src/utils/utils.ts:62 | a customer's profile groups are the profile table's entry under the customer's text, or none when anything along the way is missing |
| `Records.ZipGroups` | src/utils/utils.ts:63 | a customer's zip-code groups are the zip-code table's entry under the customer's text, or none when anything along the way is missing |
| `JsValues.KeepTruthy` | src/utils/utils.ts:23 | filtering by truthiness keeps exactly the truthy members of its input and never grows it |
| `JsValues.KeepTruthyAppend` | src/utils/utils.ts:40 | filtering `a ++ b` gives the survivors of `a` followed by those of `b` |
| `JsValues.KeepTruthyOfTruthy` | src/utils/utils.ts:193 | a list with no falsy entry passes the filter unchanged |
| `JsValues.KeepTruthyKeepsOrder` | src/utils/utils.ts:193 | the filter keeps the relative order of first occurrences of truthy values |
| `VendorCriteria.QueryForVendorValidityCheck` | src/utils/utils.ts:6-46 | every criteria carries the input owner, `isDeleted $ne true` and the single fixed template group; the `$or` shape appears exactly for DRIVER, the flat narrowing exactly for CARRIER, and no vendor part for any other type |
| `VendorCriteria.CandidateVendorIds` | src/utils/utils.ts:23 | the `vendorId $in` list holds only truthy values, and a value is in it exactly when it is truthy and is a listed vendor or group id, absent lists read as empty |
| `VendorCriteria.CandidateVendorIdsOrder` | src/utils/utils.ts:23 | the `vendorId $in` list is the truthy vendors in order, followed by the truthy group ids in order, with absent lists read as empty; a value is in it exactly when it is truthy and is a listed vendor or group |
| `VendorCriteria.CriteriaSelectsApplicable` | src/utils/utils.ts:14-43 | read as a MongoDB filter, the criteria select exactly the applicable templates: for a driver, driver or driver-group templates naming a vendor, plus every all-drivers-group template; for a carrier, carrier or carrier-group templates naming a vendor; otherwise, every live template of the owner in the scoped group |
| `VendorCriteria.DriverAdmitsAllDriverGroup` | src/utils/utils.ts:14-30 | for DRIVER, an all-drivers-group template of the owner passes whatever the vendor and group lists hold, even when both are empty |
| `VendorCriteria.CarrierExcludesAllDriverGroup` | src/utils/utils.ts:33-43 | for CARRIER, no all-drivers-group template passes |
| `VendorCriteria.DriverBranchShape` | src/utils/utils.ts:14-30 | for DRIVER the `$or` is always built, even with empty lists: its first disjunct restricts `vendorProfileType` to [DRIVER, DRIVER_GROUP] and `vendorId` to the truthy vendors followed by the truthy group ids, in order; its second is the unconditional ALL_DRIVER_GROUP clause |
| `VendorCriteria.CarrierBranchShape` | src/utils/utils.ts:33-43 | for CARRIER there is no `$or`: `vendorProfileType` is limited to [CARRIER, CARRIER_GROUP] and `vendorId` to the truthy vendors followed by the truthy group ids, with absent lists read as empty |
| `VendorCriteria.OtherTypeIgnoresVendors` | src/utils/utils.ts:8-12 | for any other vendor type the criteria are exactly the base fragment, so they select every live template of the owner in the scoped group |
| `Combinations.CustomerKey` | src/utils/utils.ts:50 | an order's customer key is the `_id` of a customer reference that has one, and the customer value itself otherwise |
| `Combinations.RouteCombinations` | src/utils/utils.ts:53-71 | the route key list has one key per basic attribute present plus one per profile and zip group, and starts with `type-customer` |
| `Combinations.LocationCombinations` | src/utils/utils.ts:81-94 | the location key list has the same number of keys and starts with the unwrapped customer |
| `Combinations.GenerateRouteCombinations` | src/utils/utils.ts:48-74 | the `push` and `forEach` steps produce exactly the route key list `RouteCombinations` |
| `Combinations.GenerateLocationCombinations` | src/utils/utils.ts:76-97 | the `push` steps produce exactly the location key list `LocationCombinations` |
| `Combinations.RouteCombinationsShape` | src/utils/utils.ts:53-71 | the route list has 1 + [city and state truthy] + [zip truthy] + the profile group count + the zip group count entries (missing entries count as no groups); the first entry is `type-customerId`; every entry starts with `type-`; it ends with the profile groups followed by the zip groups |
| `Combinations.LocationCombinationsShape` | src/utils/utils.ts:81-94 | the location list has the same count; the unwrapped customer id comes first; it ends with the profile groups followed by the zip groups |
| `Combinations.RouteIsPrefixedLocation` | src/utils/utils.ts:53-94 | route and location lists have the same length, and each route entry is `type-` followed by the text of the location entry at the same position |
| `Combinations.PickupExample` | src/utils/utils.ts:53-71 | a PICKUP leg of C1 in LA, CA, zip 90001, with profile group G1, gives `PICKUP-C1, PICKUP-LA,CA, PICKUP-90001, PICKUP-G1` |
| `RuleLookup.FlattenAppend` | src/utils/utils.ts:120-122 | flattening per-order lists keeps routing order: flattening `a ++ b` gives the flattening of `a` followed by that of `b` |
| `RuleLookup.FlattenMember` | src/utils/utils.ts:158-160 | a key is in the flattened list exactly when it is in the list of some order |
| `RuleLookup.CollectVendorGroupIds` | src/utils/utils.ts:104-108 | the accumulation loop (repeated at :142-146) yields `VendorGroupIds`, with absent vendor lists, tables and entries contributing nothing |
| `RuleLookup.VendorGroupIdsConcat` | src/utils/utils.ts:104-108 | `groupIds` is the in-order concatenation of each vendor's groups, duplicates kept: a single vendor contributes its own groups and a vendor list splits as concatenation |
| `RuleLookup.VendorGroupIdsMember` | src/utils/utils.ts:104-108 | a group id is collected exactly when some listed vendor belongs to it |
| `RuleLookup.NoRouting` | src/utils/utils.ts:101 | the facades stop early exactly when the routing, read as empty when absent, has no legs |
| `RuleLookup.PayloadFor` | src/utils/utils.ts:111-116 | the payload passes on the owner, vendor list and vendor type unchanged; its group list is always present and holds exactly the texts of the groups of the listed vendors |
| `RuleLookup.AssembleQuery` | src/utils/utils.ts:117-128 | the final filter excludes BY_LEG, carries the given index keys, and keeps the criteria's owner, deleted-template exclusion and single scoped template group |
| `RuleLookup.RouteQuery` | src/utils/utils.ts:101-128 | a route filter is built exactly when there is routing; it excludes BY_LEG, is for the request's owner, and all its index keys are text |
| `RuleLookup.LocationQuery` | src/utils/utils.ts:139-166 | a location filter is built exactly when there is routing; it excludes BY_LEG and is for the request's owner |
| `RuleLookup.RouteQuerySelects` | src/utils/utils.ts:110-128 | the route filter selects exactly the applicable templates that are not BY_LEG and whose index holds a route key of some order in the routing |
| `RuleLookup.LocationQuerySelects` | src/utils/utils.ts:148-166 | the location filter selects exactly the applicable templates that are not BY_LEG and whose index holds a location key of some order |
| `RuleLookup.RouteIndexConcat` | src/utils/utils.ts:120-127 | the route `multiQueryIndex $in` list for a routing `a ++ b` is the list for `a` followed by the list for `b`, duplicates kept |
| `RuleLookup.RouteIndexSingle` | src/utils/utils.ts:120-127 | for a single order the route index list is exactly that order's route keys |
| `RuleLookup.LocationIndexConcat` | src/utils/utils.ts:158-165 | the location index list for `a ++ b` is the list for `a` followed by the list for `b`, duplicates kept |
| `RuleLookup.LocationIndexSingle` | src/utils/utils.ts:158-165 | for a single order the location index list is exactly that order's location keys |
| `RuleLookup.RouteAndLocationQueriesAgree` | src/utils/utils.ts:99-166 | both facades short-circuit on the same inputs and build the same criteria and move-type exclusion; their index lists have the same length |
| `RuleLookup.GetRuleBasedCharges` | src/utils/utils.ts:99-135 | empty or absent routing yields `[]` without consulting the store; otherwise the result is what the store returns for `RouteQuery`, or `[]` when the read fails |
| `RuleLookup.GetRuleBasedChargesForLocation` | src/utils/utils.ts:137-173 | the same as `GetRuleBasedCharges`, for `LocationQuery` |
| `VendorExtractor.VendorPropertyFor` | src/utils/utils.ts:178-189 | a driver reads `driver`, a carrier `drayosCarrier`, and every other type no property |
| `VendorExtractor.PropertyOf` | src/utils/utils.ts:193 | a missing routing element, or a lookup without a property name, reads undefined; otherwise the chosen property of the leg is read |
| `VendorExtractor.UnwrappedVendors` | src/utils/utils.ts:193 | the map keeps one value per routing element; no value is a reference with an `_id`; missing elements, and every element for an unrecognised vendor type, give undefined |
| `VendorExtractor.GetVendorsFromRouting` | src/utils/utils.ts:176-196 | absent routing data gives nothing; the result has no duplicates and no falsy entries, and holds exactly the truthy unwrapped vendors |
| `VendorExtractor.Distinct` | src/utils/utils.ts:191-195 | a list passed through a `Set` and back holds exactly the values of `xs`, and each only once |
| `VendorExtractor.DistinctKeepsFirstOccurrenceOrder` | src/utils/utils.ts:191-195 | the distinct values come in the order of their first occurrences |
| `VendorExtractor.DistinctOfDistinct` | src/utils/utils.ts:191-195 | a list without duplicates is left as it is |
| `VendorExtractor.GetVendorsFromRoutingSpec` | src/utils/utils.ts:176-196 | the result has no duplicates and no falsy entries; it holds every truthy unwrapped value and nothing else; its order is the order of first occurrence among the unwrapped values |
| `VendorExtractor.UnrecognisedTypeExtractsNothing` | src/utils/utils.ts:178-189 | a vendor type other than DRIVER or CARRIER gives an empty result |
| `VendorExtractor.DriverExample` | src/utils/utils.ts:191-195 | a driver given once by a reference with `_id` "D1", once as the raw id "D1", and a leg whose driver is null, yield `["D1"]` |

## Left out

- `ChargeTemplateModel.find(finalQuery).lean()` (the database read) is the parameter `find`. A value of `None` stands for a read that threw.
- The `try`/`catch` becomes the `None` to `[]` step. The `console.error` logging is not modelled. Exceptions that typed inputs cannot raise are not modelled either: a null order, or a vendor list that is not an array.
- Records.Lookup: a table is modelled as its own entries only, so a key naming an inherited `Object` property ("constructor", "toString", "__proto__") reads as no groups. In the source that lookup yields a function or the prototype object, and spreading or iterating it throws (utils.ts:62-65, 90-94, 106-107). The facade then catches the error and returns `[]` (utils.ts:131-133, 169-172). The model instead goes on to read the store with that vendor or customer contributing no groups.
- async/await is not modelled. Each facade awaits one read; the model treats it as an ordinary call.
- `new Types.ObjectId(...)` is the opaque string constant `SCOPED_TEMPLATE_GROUP`. All ids, including `_id` values, are strings. ObjectId identity inside a `Set` is not modelled.
- The values of `VendorTypes` and `ProfileType` are not part of this model. They are enumerations, and every unrecognised or absent vendor type is `OtherType`.
- The unused lodash import is not modelled.
- Numbers and booleans as order fields or ids are not modelled. `Value` has no numeric variant, so falsy `0` or `NaN` cannot occur.
- `Matches` and `FinalMatches` read the filters with MongoDB's meaning of equality, `$ne` and `$in`: on an array field, `$in` matches when some element is listed. How the driver serialises an `undefined` owner is not modelled.
- VendorCriteria.Matches: a null or undefined filter value is read as a value to compare, not as MongoDB's "null or field missing". The `Template` record has no absent fields. So for a null or undefined owner, MongoDB would also select templates without an owner. `VendorCriteria.CriteriaSelectsApplicable` does not cover those.
- RuleLookup.FinalMatches: likewise, a null or undefined index key is compared as a value. So a leg whose customer key is null or undefined would, in MongoDB, also select templates without a `multiQueryIndex`. `RuleLookup.LocationQuerySelects` and `RuleLookup.RouteQuerySelects` do not cover those. Route keys are always text, so only the location filter can carry such a key.
