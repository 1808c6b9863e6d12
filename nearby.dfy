/**
 * What the two nearby-search aggregators (service layer and handler layer)
 * share: the entity-type tags, the default request, the rows storage hands
 * back, and the shape of one entry of the result map.
 */
module Nearby {
  import opened Models

  const ResourceCentersTag: string := "resource_centers"
  const RegionalCentersTag: string := "regional_centers"
  const ResourcesTag: string := "resources"

  /** The request used when no type is given. */
  const DefaultTypes: seq<string> := [ResourceCentersTag, RegionalCentersTag, ResourcesTag]

  /** The tags the dispatch `switch` has a case for. */
  predicate IsKnownTag(t: string) {
    t == ResourceCentersTag || t == RegionalCentersTag || t == ResourcesTag
  }

  /** The tag list after the empty-list default. */
  function EffectiveTypes(types: seq<string>): (r: seq<string>)
    ensures |types| > 0 ==> r == types
    ensures |types| == 0 ==> forall t :: IsKnownTag(t) <==> t in r
  {
    if |types| == 0 then DefaultTypes else types
  }

  /** One value of the result map: the list for one entity type. */
  datatype Listing =
    | ResourceCenters(centers: seq<ResourceCenter>)
    | RegionalCenters(regionalCenters: seq<RegionalCenter>)
    | Resources(resources: seq<Resource>)

  /** The full tables, as storage returns them for one request. */
  datatype Store = Store(resourceCenters: seq<ResourceCenter>, regionalCenters: seq<RegionalCenter>, resources: seq<Resource>)

  /**
   * The result map for a request: exactly the known tags of the (defaulted)
   * request as keys, each mapped to `listing(t)`. Unknown tags add nothing,
   * and repeating a tag rewrites the same value.
   */
  function Bundle(types: seq<string>, listing: string -> Listing): map<string, Listing> {
    map t | t in EffectiveTypes(types) && IsKnownTag(t) :: listing(t)
  }

  /** Repeating a tag that is already requested leaves the result map unchanged. */
  lemma RepeatedTagIsIdempotent(types: seq<string>, t: string, listing: string -> Listing)
    requires t in types
    ensures Bundle(types + [t], listing) == Bundle(types, listing)
  {
    assert EffectiveTypes(types + [t]) == types + [t];
  }

  /** A tag the switch does not know adds no key to a non-empty request. */
  lemma UnknownTagIsIgnored(types: seq<string>, u: string, listing: string -> Listing)
    requires |types| > 0 && !IsKnownTag(u)
    ensures Bundle(types + [u], listing) == Bundle(types, listing)
  {
    assert EffectiveTypes(types + [u]) == types + [u];
  }

  /** The empty request yields exactly the three known keys. */
  lemma EmptyRequestHasAllKnownKeys(listing: string -> Listing)
    ensures Bundle([], listing).Keys == {ResourceCentersTag, RegionalCentersTag, ResourcesTag}
  {
  }
}
