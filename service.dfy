/**
 * The service layer (backend/services/service.go): the distance filters of
 * the three list operations, the nearby-search aggregator and the default
 * preferences record. Storage reads are inputs: a `Result` where the source
 * checks the error, plain rows where it does not.
 */
module Service {
  import opened Wrappers
  import opened Geo
  import opened Models
  import opened Proximity
  import opened Nearby

  /** Regional centres: a nil latitude or longitude pointer means "unlocated". */
  function PointerLocation(c: RegionalCenter): Option<Point> {
    if c.latitude.Some? && c.longitude.Some? then Some(Point(c.latitude.value, c.longitude.value)) else None
  }

  /** The list operations filter only for a non-zero point and a positive distance. */
  predicate FilterActive(f: SearchFilter) {
    f.latitude != 0.0 && f.longitude != 0.0 && f.maxDistance > 0.0
  }

  function FilterCircle(f: SearchFilter): Circle {
    Circle(Point(f.latitude, f.longitude), f.maxDistance)
  }

  method GetResourceCenters(filter: SearchFilter, loaded: Result<seq<ResourceCenter>, string>, dist: Distance)
    returns (r: Result<seq<ResourceCenter>, string>)
    ensures loaded.Failure? ==> r == Failure("failed to fetch resource centers: " + loaded.error)
    ensures loaded.Success? && !FilterActive(filter) ==> r == Success(loaded.value)
    ensures loaded.Success? && FilterActive(filter) ==>
              r == Success(Filtered(loaded.value, ResourceCenterLocation, FilterCircle(filter), dist))
  {
    if loaded.Failure? {
      return Failure("failed to fetch resource centers: " + loaded.error);
    }
    var centers := loaded.value;
    if filter.latitude != 0.0 && filter.longitude != 0.0 && filter.maxDistance > 0.0 {
      centers := FilterByRadius(centers, ResourceCenterLocation, FilterCircle(filter), dist);
    }
    return Success(centers);
  }

  method GetResources(filter: SearchFilter, loaded: Result<seq<Resource>, string>, dist: Distance)
    returns (r: Result<seq<Resource>, string>)
    ensures loaded.Failure? ==> r == Failure("failed to fetch resources: " + loaded.error)
    ensures loaded.Success? && !FilterActive(filter) ==> r == Success(loaded.value)
    ensures loaded.Success? && FilterActive(filter) ==>
              r == Success(Filtered(loaded.value, ResourceLocation, FilterCircle(filter), dist))
  {
    if loaded.Failure? {
      return Failure("failed to fetch resources: " + loaded.error);
    }
    var resources := loaded.value;
    if filter.latitude != 0.0 && filter.longitude != 0.0 && filter.maxDistance > 0.0 {
      resources := FilterByRadius(resources, ResourceLocation, FilterCircle(filter), dist);
    }
    return Success(resources);
  }

  method GetRegionalCenters(filter: SearchFilter, loaded: Result<seq<RegionalCenter>, string>, dist: Distance)
    returns (r: Result<seq<RegionalCenter>, string>)
    ensures loaded.Failure? ==> r == Failure("failed to fetch regional centers: " + loaded.error)
    ensures loaded.Success? && !FilterActive(filter) ==> r == Success(loaded.value)
    ensures loaded.Success? && FilterActive(filter) ==>
              r == Success(Filtered(loaded.value, PointerLocation, FilterCircle(filter), dist))
  {
    if loaded.Failure? {
      return Failure("failed to fetch regional centers: " + loaded.error);
    }
    var centers := loaded.value;
    if filter.latitude != 0.0 && filter.longitude != 0.0 && filter.maxDistance > 0.0 {
      centers := FilterByRadius(centers, PointerLocation, FilterCircle(filter), dist);
    }
    return Success(centers);
  }

  /** A regional centre with a nil coordinate is never in a filtered list, whatever the circle. */
  lemma {:induction false} NilCoordinateNeverListed(xs: seq<RegionalCenter>, c: Circle, dist: Distance, x: RegionalCenter)
    requires x.latitude.None? || x.longitude.None?
    ensures x !in Filtered(xs, PointerLocation, c, dist)
  {
    FilteredMembership(xs, PointerLocation, c, dist, x);
  }

  /** The value the service's `switch` stores under a known tag: every type is distance-filtered. */
  function ServiceListing(t: string, c: Circle, store: Store, dist: Distance): Listing {
    if t == ResourceCentersTag then ResourceCenters(Filtered(store.resourceCenters, ResourceCenterLocation, c, dist))
    else if t == RegionalCentersTag then RegionalCenters(Filtered(store.regionalCenters, PointerLocation, c, dist))
    else Resources(Filtered(store.resources, ResourceLocation, c, dist))
  }

  /** The service's nearby result for a request. */
  function NearbyResult(types: seq<string>, c: Circle, store: Store, dist: Distance): map<string, Listing> {
    Bundle(types, t => ServiceListing(t, c, store, dist))
  }

  /**
   * The aggregator: default the tag list, then for each tag in order load and
   * filter that type and write its key. Storage failures are not checked and
   * the returned error is always nil.
   */
  method SearchNearby(lat: real, lng: real, radiusMiles: real, entityTypes: seq<string>, store: Store, dist: Distance)
    returns (result: map<string, Listing>, err: Option<string>)
    ensures err == None
    ensures result == NearbyResult(entityTypes, Circle(Point(lat, lng), radiusMiles), store, dist)
  {
    var c := Circle(Point(lat, lng), radiusMiles);
    result := map[];
    var types := entityTypes;
    if |types| == 0 {
      types := DefaultTypes;
    }
    var i := 0;
    while i < |types|
      invariant 0 <= i <= |types|
      invariant result == map t | t in types[..i] && IsKnownTag(t) :: ServiceListing(t, c, store, dist)
    {
      var entityType := types[i];
      assert types[..i + 1] == types[..i] + [entityType];
      if entityType == ResourceCentersTag {
        var nearby := FilterByRadius(store.resourceCenters, ResourceCenterLocation, c, dist);
        result := result[ResourceCentersTag := ResourceCenters(nearby)];
      } else if entityType == RegionalCentersTag {
        var nearby := FilterByRadius(store.regionalCenters, PointerLocation, c, dist);
        result := result[RegionalCentersTag := RegionalCenters(nearby)];
      } else if entityType == ResourcesTag {
        var nearby := FilterByRadius(store.resources, ResourceLocation, c, dist);
        result := result[ResourcesTag := Resources(nearby)];
      }
      i := i + 1;
    }
    assert types[..i] == types;
    err := None;
  }

  /**
   * Every entry of the service's result is the loaded list of its type,
   * filtered: the key set is the known requested tags and each list holds, in
   * order, exactly the rows within the radius (nil-coordinate centres never).
   */
  lemma NearbyEntriesAreFiltered(types: seq<string>, c: Circle, store: Store, dist: Distance)
    ensures forall t :: t in NearbyResult(types, c, store, dist) <==> t in EffectiveTypes(types) && IsKnownTag(t)
    ensures ResourceCentersTag in NearbyResult(types, c, store, dist) ==>
              NearbyResult(types, c, store, dist)[ResourceCentersTag]
                == ResourceCenters(Filtered(store.resourceCenters, ResourceCenterLocation, c, dist))
    ensures RegionalCentersTag in NearbyResult(types, c, store, dist) ==>
              NearbyResult(types, c, store, dist)[RegionalCentersTag]
                == RegionalCenters(Filtered(store.regionalCenters, PointerLocation, c, dist))
    ensures ResourcesTag in NearbyResult(types, c, store, dist) ==>
              NearbyResult(types, c, store, dist)[ResourcesTag]
                == Resources(Filtered(store.resources, ResourceLocation, c, dist))
  {
  }

  /** Listing a tag twice gives the same map as listing it once. */
  lemma NearbyRepeatedTag(types: seq<string>, t: string, c: Circle, store: Store, dist: Distance)
    requires t in types
    ensures NearbyResult(types + [t], c, store, dist) == NearbyResult(types, c, store, dist)
  {
    RepeatedTagIsIdempotent(types, t, u => ServiceListing(u, c, store, dist));
  }

  /** A regional centre with a nil coordinate is never in the nearby result. */
  lemma NearbyExcludesNilRegional(types: seq<string>, c: Circle, store: Store, dist: Distance, x: RegionalCenter)
    requires x.latitude.None? || x.longitude.None?
    requires RegionalCentersTag in NearbyResult(types, c, store, dist)
    ensures x !in NearbyResult(types, c, store, dist)[RegionalCentersTag].regionalCenters
  {
    NilCoordinateNeverListed(store.regionalCenters, c, dist, x);
  }

  /** How storage answers a lookup of one preferences row. */
  datatype Lookup<T> = Found(row: T) | NotFound | LookupError(message: string)

  /** A user without a stored row gets the table's column defaults under their own id. */
  function GetUserPreferences(userID: string, row: Lookup<UserPreferences>): (r: Result<UserPreferences, string>)
    ensures row.Found? ==> r == Success(row.row)
    ensures row.NotFound? ==> r == Success(ColumnDefaults(userID)) && r.value.userID == userID
    ensures row.LookupError? ==> r == Failure("failed to fetch preferences: " + row.message)
  {
    match row
    case Found(p) => Success(p)
    case NotFound =>
      Success(UserPreferences(
        userID := userID,
        mapType := "roadmap",
        defaultZoom := 10,
        showFacilities := true,
        showABACenters := true,
        showResourceCenters := true,
        showRegionalCenters := true,
        showProviders := true,
        preferredRadius := 25.0,
        requireWaitlist := false,
        requireInsurance := false,
        preferredDiagnoses := ""))
    case LookupError(e) => Failure("failed to fetch preferences: " + e)
  }
}
