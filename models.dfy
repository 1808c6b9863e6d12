/**
 * The records the core reads and builds. Only the fields the core looks at or
 * writes are kept; every other column is payload that passes through unchanged.
 */
module Models {
  import opened Wrappers
  import opened Geo

  /** A resource centre: its coordinates are non-null float64 columns. */
  datatype ResourceCenter = ResourceCenter(id: string, name: string, latitude: real, longitude: real)

  /** A resource: its coordinates are non-null float64 columns. */
  datatype Resource = Resource(id: string, name: string, latitude: real, longitude: real)

  /** A regional centre: its coordinates are nullable (pointer) columns. */
  datatype RegionalCenter = RegionalCenter(id: int, name: Option<string>, latitude: Option<real>, longitude: Option<real>)

  /** Resource centres are always located. */
  function ResourceCenterLocation(c: ResourceCenter): Option<Point> {
    Some(Point(c.latitude, c.longitude))
  }

  /** Resources are always located. */
  function ResourceLocation(r: Resource): Option<Point> {
    Some(Point(r.latitude, r.longitude))
  }

  /** The part of the service's search filter that the distance filter reads. */
  datatype SearchFilter = SearchFilter(maxDistance: real, latitude: real, longitude: real)

  datatype UserPreferences = UserPreferences(
    userID: string,
    mapType: string,
    defaultZoom: int,
    showFacilities: bool,
    showABACenters: bool,
    showResourceCenters: bool,
    showRegionalCenters: bool,
    showProviders: bool,
    preferredRadius: real,
    requireWaitlist: bool,
    requireInsurance: bool,
    preferredDiagnoses: string)

  /** The column defaults declared on the preferences table (the Go zero value where none is declared). */
  function ColumnDefaults(userID: string): UserPreferences {
    UserPreferences(
      userID := userID,
      mapType := "roadmap",
      defaultZoom := 10,
      showFacilities := true,
      showABACenters := true,
      showResourceCenters := true,
      showRegionalCenters := true,
      showProviders := true,
      preferredRadius := 25.0,
      requireWaitlist := false,
      requireInsurance := false,
      preferredDiagnoses := "")
  }

  /** An ABA centre row as the submission handler creates it. */
  datatype ABACenter = ABACenter(
    name: string,
    street: string,
    city: string,
    zip: string,
    phone: string,
    serviceType: string,
    insuranceAccepted: string,
    waitlistAvailability: string)

  /** A form-submission row as the submission handlers create it. */
  datatype FormSubmission = FormSubmission(
    name: string,
    email: string,
    phone: string,
    message: string,
    facilityID: string,
    facilityType: string,
    status: string)
}
