/**
 * The HTTP handler layer (backend/handlers/handlers.go): its own distance
 * filters driven by query strings, its nearby-search variant with parameter
 * validation, and the records built by the two submission handlers.
 * A query string is "" when absent; `parse` stands for strconv.ParseFloat.
 * Storage calls are inputs: loaded rows, or the outcome of a create.
 */
module Handlers {
  import opened Wrappers
  import opened Geo
  import opened Models
  import opened Proximity
  import opened Nearby
  import Service

  const StatusOK := 200
  const StatusCreated := 201
  const StatusBadRequest := 400
  const StatusInternalServerError := 500

  /** A JSON reply: a payload, or an `{"error": ...}` body. */
  datatype Body<T> = Payload(value: T) | ErrorBody(error: string)
  datatype Reply<T> = Reply(status: int, body: Body<T>)

  type Parser = string -> Option<real>

  // ---------------------------------------------------------------------------
  // Query-string distance filters

  /**
   * The filter circle of the list handlers: present only when all three
   * strings are non-empty and parse. Anything else disables the filter, with
   * no error.
   */
  function FilterParams(latStr: string, lngStr: string, radiusStr: string, parse: Parser): Option<Circle> {
    if latStr != "" && lngStr != "" && radiusStr != "" then
      var lat, lng, radius := parse(latStr), parse(lngStr), parse(radiusStr);
      if lat.Some? && lng.Some? && radius.Some? then Some(Circle(Point(lat.value, lng.value), radius.value))
      else None
    else None
  }

  /**
   * The handler layer's regional-centre policy: a zero coordinate means
   * "unlocated" (so does a nil one, whose zero value would be compared).
   */
  function NonZeroLocation(c: RegionalCenter): Option<Point> {
    if c.latitude.Some? && c.longitude.Some? && c.latitude.value != 0.0 && c.longitude.value != 0.0 then
      Some(Point(c.latitude.value, c.longitude.value))
    else None
  }

  method GetResourceCenters(latStr: string, lngStr: string, radiusStr: string,
                            loaded: Result<seq<ResourceCenter>, string>, parse: Parser, dist: Distance)
    returns (reply: Reply<seq<ResourceCenter>>)
    ensures loaded.Failure? ==> reply == Reply(StatusInternalServerError, ErrorBody("Failed to fetch resource centers"))
    ensures loaded.Success? && FilterParams(latStr, lngStr, radiusStr, parse).None? ==>
              reply == Reply(StatusOK, Payload(loaded.value))
    ensures loaded.Success? && FilterParams(latStr, lngStr, radiusStr, parse).Some? ==>
              reply == Reply(StatusOK, Payload(Filtered(loaded.value, ResourceCenterLocation,
                                                        FilterParams(latStr, lngStr, radiusStr, parse).value, dist)))
  {
    if loaded.Failure? {
      return Reply(StatusInternalServerError, ErrorBody("Failed to fetch resource centers"));
    }
    var centers := loaded.value;
    if latStr != "" && lngStr != "" && radiusStr != "" {
      var lat, lng, radius := parse(latStr), parse(lngStr), parse(radiusStr);
      if lat.Some? && lng.Some? && radius.Some? {
        centers := FilterByRadius(centers, ResourceCenterLocation, Circle(Point(lat.value, lng.value), radius.value), dist);
      }
    }
    return Reply(StatusOK, Payload(centers));
  }

  method GetRegionalCenters(latStr: string, lngStr: string, radiusStr: string,
                            loaded: Result<seq<RegionalCenter>, string>, parse: Parser, dist: Distance)
    returns (reply: Reply<seq<RegionalCenter>>)
    ensures loaded.Failure? ==> reply == Reply(StatusInternalServerError, ErrorBody("Failed to fetch regional centers"))
    ensures loaded.Success? && FilterParams(latStr, lngStr, radiusStr, parse).None? ==>
              reply == Reply(StatusOK, Payload(loaded.value))
    ensures loaded.Success? && FilterParams(latStr, lngStr, radiusStr, parse).Some? ==>
              reply == Reply(StatusOK, Payload(Filtered(loaded.value, NonZeroLocation,
                                                        FilterParams(latStr, lngStr, radiusStr, parse).value, dist)))
  {
    if loaded.Failure? {
      return Reply(StatusInternalServerError, ErrorBody("Failed to fetch regional centers"));
    }
    var centers := loaded.value;
    if latStr != "" && lngStr != "" && radiusStr != "" {
      var lat, lng, radius := parse(latStr), parse(lngStr), parse(radiusStr);
      if lat.Some? && lng.Some? && radius.Some? {
        centers := FilterByRadius(centers, NonZeroLocation, Circle(Point(lat.value, lng.value), radius.value), dist);
      }
    }
    return Reply(StatusOK, Payload(centers));
  }

  /** A regional centre with a zero latitude or longitude is never listed, even if the other is non-zero. */
  lemma {:induction false} ZeroCoordinateNeverListed(xs: seq<RegionalCenter>, c: Circle, dist: Distance, x: RegionalCenter)
    requires x.latitude == Some(0.0) || x.longitude == Some(0.0)
    ensures x !in Filtered(xs, NonZeroLocation, c, dist)
  {
    FilteredMembership(xs, NonZeroLocation, c, dist, x);
  }

  /**
   * The two regional-centre policies: the handler's list is the service's
   * list, for the same circle, with the zero-coordinate centres removed.
   */
  lemma {:induction false} NonZeroNarrowsPointerPolicy(xs: seq<RegionalCenter>, c: Circle, dist: Distance)
    ensures Filtered(xs, NonZeroLocation, c, dist)
         == Filtered(Filtered(xs, Service.PointerLocation, c, dist), NonZeroLocation, c, dist)
  {
    FilteredNarrowing(xs, NonZeroLocation, Service.PointerLocation, c, c, dist);
  }

  // ---------------------------------------------------------------------------
  // Nearby search

  const RequiredError: string := "lat, lng, and radius parameters are required"

  /**
   * Parameter checks of the nearby search, in the order the handler makes
   * them: all three present, then latitude, longitude and radius parse.
   */
  function ValidateNearby(latStr: string, lngStr: string, radiusStr: string, parse: Parser): Result<Circle, string> {
    if latStr == "" || lngStr == "" || radiusStr == "" then Failure(RequiredError)
    else if parse(latStr).None? then Failure("Invalid latitude")
    else if parse(lngStr).None? then Failure("Invalid longitude")
    else if parse(radiusStr).None? then Failure("Invalid radius")
    else Success(Circle(Point(parse(latStr).value, parse(lngStr).value), parse(radiusStr).value))
  }

  /**
   * The nearby search accepts exactly the query strings with which the list
   * handlers turn their distance filter on, and reads the same circle; the
   * difference is that the list handlers ignore a bad parameter instead of
   * rejecting it.
   */
  lemma ValidateNearbyAgreesWithFilterParams(latStr: string, lngStr: string, radiusStr: string, parse: Parser)
    ensures ValidateNearby(latStr, lngStr, radiusStr, parse).Success?
        <==> FilterParams(latStr, lngStr, radiusStr, parse).Some?
    ensures ValidateNearby(latStr, lngStr, radiusStr, parse).Success? ==>
              ValidateNearby(latStr, lngStr, radiusStr, parse).value == FilterParams(latStr, lngStr, radiusStr, parse).value
  {
  }

  /** The first failing check decides the error; a later parameter is looked at only when the earlier ones are good. */
  lemma ValidateNearbyErrorOrder(latStr: string, lngStr: string, radiusStr: string, parse: Parser)
    ensures (latStr == "" || lngStr == "" || radiusStr == "") ==>
              ValidateNearby(latStr, lngStr, radiusStr, parse) == Failure(RequiredError)
    ensures ValidateNearby(latStr, lngStr, radiusStr, parse) == Failure("Invalid latitude") <==>
              latStr != "" && lngStr != "" && radiusStr != "" && parse(latStr).None?
    ensures ValidateNearby(latStr, lngStr, radiusStr, parse) == Failure("Invalid longitude") <==>
              latStr != "" && lngStr != "" && radiusStr != "" && parse(latStr).Some? && parse(lngStr).None?
    ensures ValidateNearby(latStr, lngStr, radiusStr, parse) == Failure("Invalid radius") <==>
              latStr != "" && lngStr != "" && radiusStr != "" && parse(latStr).Some? && parse(lngStr).Some?
              && parse(radiusStr).None?
  {
  }

  /** The value the handler's `switch` stores: resources come back unfiltered. */
  function HandlerListing(t: string, c: Circle, store: Store, dist: Distance): Listing {
    if t == ResourceCentersTag then ResourceCenters(Filtered(store.resourceCenters, ResourceCenterLocation, c, dist))
    else if t == RegionalCentersTag then RegionalCenters(Filtered(store.regionalCenters, NonZeroLocation, c, dist))
    else Resources(store.resources)
  }

  /** The handler's nearby result for a validated request. */
  function NearbyResult(types: seq<string>, c: Circle, store: Store, dist: Distance): map<string, Listing> {
    Bundle(types, t => HandlerListing(t, c, store, dist))
  }

  /**
   * Validate the three parameters (400 with the first error), then default
   * the tag list and write one key per known tag, in order.
   */
  method SearchNearby(latStr: string, lngStr: string, radiusStr: string, entityTypes: seq<string>,
                      store: Store, parse: Parser, dist: Distance)
    returns (reply: Reply<map<string, Listing>>)
    ensures ValidateNearby(latStr, lngStr, radiusStr, parse).Failure? ==>
              reply == Reply(StatusBadRequest, ErrorBody(ValidateNearby(latStr, lngStr, radiusStr, parse).error))
    ensures ValidateNearby(latStr, lngStr, radiusStr, parse).Success? ==>
              reply == Reply(StatusOK, Payload(NearbyResult(entityTypes, ValidateNearby(latStr, lngStr, radiusStr, parse).value,
                                                            store, dist)))
  {
    if latStr == "" || lngStr == "" || radiusStr == "" {
      return Reply(StatusBadRequest, ErrorBody(RequiredError));
    }
    var lat := parse(latStr);
    if lat.None? {
      return Reply(StatusBadRequest, ErrorBody("Invalid latitude"));
    }
    var lng := parse(lngStr);
    if lng.None? {
      return Reply(StatusBadRequest, ErrorBody("Invalid longitude"));
    }
    var radius := parse(radiusStr);
    if radius.None? {
      return Reply(StatusBadRequest, ErrorBody("Invalid radius"));
    }
    var c := Circle(Point(lat.value, lng.value), radius.value);
    var result := CollectNearby(entityTypes, c, store, dist);
    return Reply(StatusOK, Payload(result));
  }

  /** The tag loop of the handler's nearby search, once the circle is known. */
  method CollectNearby(entityTypes: seq<string>, c: Circle, store: Store, dist: Distance)
    returns (result: map<string, Listing>)
    ensures result == NearbyResult(entityTypes, c, store, dist)
  {
    result := map[];
    var types := entityTypes;
    if |types| == 0 {
      types := DefaultTypes;
    }
    var i := 0;
    while i < |types|
      invariant 0 <= i <= |types|
      invariant result == map t | t in types[..i] && IsKnownTag(t) :: HandlerListing(t, c, store, dist)
    {
      var entityType := types[i];
      assert types[..i + 1] == types[..i] + [entityType];
      if entityType == ResourceCentersTag {
        var nearby := FilterByRadius(store.resourceCenters, ResourceCenterLocation, c, dist);
        result := result[ResourceCentersTag := ResourceCenters(nearby)];
      } else if entityType == RegionalCentersTag {
        var nearby := FilterByRadius(store.regionalCenters, NonZeroLocation, c, dist);
        result := result[RegionalCentersTag := RegionalCenters(nearby)];
      } else if entityType == ResourcesTag {
        result := result[ResourcesTag := Resources(store.resources)];
      }
      i := i + 1;
    }
    assert types[..i] == types;
  }

  /**
   * The handler and service aggregators over the same rows and circle: the
   * same keys; the same resource centres; the handler's regional centres are
   * the service's minus those with a zero coordinate; and the handler returns
   * every resource where the service keeps only those within the radius.
   */
  lemma HandlerAndServiceNearby(types: seq<string>, c: Circle, store: Store, dist: Distance)
    ensures NearbyResult(types, c, store, dist).Keys == Service.NearbyResult(types, c, store, dist).Keys
    ensures ResourceCentersTag in NearbyResult(types, c, store, dist) ==>
              NearbyResult(types, c, store, dist)[ResourceCentersTag]
                == Service.NearbyResult(types, c, store, dist)[ResourceCentersTag]
    ensures RegionalCentersTag in NearbyResult(types, c, store, dist) ==>
              NearbyResult(types, c, store, dist)[RegionalCentersTag].regionalCenters
                == Filtered(Service.NearbyResult(types, c, store, dist)[RegionalCentersTag].regionalCenters,
                            NonZeroLocation, c, dist)
    ensures ResourcesTag in NearbyResult(types, c, store, dist) ==>
              NearbyResult(types, c, store, dist)[ResourcesTag] == Resources(store.resources)
              && Service.NearbyResult(types, c, store, dist)[ResourcesTag]
                   == Resources(Filtered(store.resources, ResourceLocation, c, dist))
  {
    NonZeroNarrowsPointerPolicy(store.regionalCenters, c, dist);
  }

  // ---------------------------------------------------------------------------
  // Submissions

  /** The JSON acknowledgement of a successful submission. */
  datatype SubmissionAck<I> = SubmissionAck(message: string, id: I, status: string)

  const PendingReview: string := "pending_review"

  /** A bound regional-centre update request. */
  datatype RegionalCenterUpdate = RegionalCenterUpdate(
    regionalCenterID: string,
    regionalCenterName: string,
    updateType: string,
    updateDescription: string,
    newPhone: string,
    newEmail: string,
    newWebsite: string,
    newAddress: string,
    servicesOffered: string,
    eligibilityCriteria: string,
    operatingHours: string,
    specialPrograms: string,
    submitterName: string,
    submitterEmail: string)

  /** The fixed opening of every update message. */
  function UpdateHeader(u: RegionalCenterUpdate): string {
    "Regional Center Update: " + u.regionalCenterName
      + "\n\nUpdate Type: " + u.updateType
      + "\n\nDescription: " + u.updateDescription
  }

  /** The optional fields that may add a line, each with the text that opens its line, in message order. */
  function OptionalFields(u: RegionalCenterUpdate): seq<(string, string)> {
    [("\nNew Phone: ", u.newPhone), ("\nNew Email: ", u.newEmail), ("\nNew Website: ", u.newWebsite),
     ("\nServices Offered: ", u.servicesOffered), ("\nOperating Hours: ", u.operatingHours)]
  }

  /** The line a field adds: its opening text and its value, or nothing when the value is empty. */
  function Line(field: (string, string)): string {
    if field.1 != "" then field.0 + field.1 else ""
  }

  /** The lines of the fields, in order; defined from the back like the `+=` steps. */
  function Lines(fields: seq<(string, string)>): string {
    if fields == [] then "" else Lines(fields[..|fields| - 1]) + Line(fields[|fields| - 1])
  }

  /** The message accumulated with `+=`, one optional line at a time. */
  method BuildUpdateMessage(u: RegionalCenterUpdate) returns (message: string)
    ensures message == UpdateHeader(u) + Lines(OptionalFields(u))
  {
    message := "Regional Center Update: " + u.regionalCenterName
      + "\n\nUpdate Type: " + u.updateType
      + "\n\nDescription: " + u.updateDescription;
    ghost var header := message;
    if u.newPhone != "" {
      message := message + ("\nNew Phone: " + u.newPhone);
    }
    ghost var l0 := Line(("\nNew Phone: ", u.newPhone));
    assert message == header + l0;
    if u.newEmail != "" {
      message := message + ("\nNew Email: " + u.newEmail);
    }
    ghost var l1 := Line(("\nNew Email: ", u.newEmail));
    assert message == header + l0 + l1;
    if u.newWebsite != "" {
      message := message + ("\nNew Website: " + u.newWebsite);
    }
    ghost var l2 := Line(("\nNew Website: ", u.newWebsite));
    assert message == header + l0 + l1 + l2;
    if u.servicesOffered != "" {
      message := message + ("\nServices Offered: " + u.servicesOffered);
    }
    ghost var l3 := Line(("\nServices Offered: ", u.servicesOffered));
    assert message == header + l0 + l1 + l2 + l3;
    if u.operatingHours != "" {
      message := message + ("\nOperating Hours: " + u.operatingHours);
    }
    ghost var l4 := Line(("\nOperating Hours: ", u.operatingHours));
    assert message == header + l0 + l1 + l2 + l3 + l4;
    UpdateMessageShape(u, u.newAddress, u.eligibilityCriteria, u.specialPrograms);
    Regroup(header, l0, l1, l2, l3, l4);
  }

  /** Regrouping the header and the five optional lines, stated apart so that the message proof stays small. */
  lemma Regroup(h: string, a: string, b: string, c: string, d: string, e: string)
    ensures h + a + b + c + d + e == h + (a + b + c + d + e)
  {
  }

  /** Lines of a concatenation: the first part's lines, then the second's, so the field order is kept. */
  lemma {:induction false} LinesAppend(a: seq<(string, string)>, b: seq<(string, string)>)
    ensures Lines(a + b) == Lines(a) + Lines(b)
  {
    if b == [] {
      assert a + b == a;
    } else {
      var n := |b| - 1;
      LinesAppend(a, b[..n]);
      assert (a + b)[..|a + b| - 1] == a + b[..n];
    }
  }

  /** No line is added exactly when every field is empty. */
  lemma {:induction false} LinesEmpty(fields: seq<(string, string)>)
    ensures Lines(fields) == "" <==> forall k :: 0 <= k < |fields| ==> fields[k].1 == ""
  {
    if fields != [] {
      var n := |fields| - 1;
      LinesEmpty(fields[..n]);
      assert forall k :: 0 <= k < n ==> fields[..n][k] == fields[k];
    }
  }

  /**
   * The message is the header, then the Phone, Email, Website, Services
   * Offered and Operating Hours lines in that order, each only when its field
   * is non-empty; it is the header alone exactly when all five are empty; and
   * the new address, eligibility criteria and special programs never change it.
   */
  lemma UpdateMessageShape(u: RegionalCenterUpdate, address: string, eligibility: string, programs: string)
    ensures Lines(OptionalFields(u))
         == Line(("\nNew Phone: ", u.newPhone)) + Line(("\nNew Email: ", u.newEmail))
            + Line(("\nNew Website: ", u.newWebsite)) + Line(("\nServices Offered: ", u.servicesOffered))
            + Line(("\nOperating Hours: ", u.operatingHours))
    ensures Lines(OptionalFields(u)) == "" <==>
              u.newPhone == "" && u.newEmail == "" && u.newWebsite == "" && u.servicesOffered == "" && u.operatingHours == ""
    ensures var v := u.(newAddress := address, eligibilityCriteria := eligibility, specialPrograms := programs);
            UpdateHeader(v) + Lines(OptionalFields(v)) == UpdateHeader(u) + Lines(OptionalFields(u))
  {
    var fs := OptionalFields(u);
    LinesEmpty(fs);
    assert fs[0].1 == u.newPhone && fs[1].1 == u.newEmail && fs[2].1 == u.newWebsite;
    assert fs[3].1 == u.servicesOffered && fs[4].1 == u.operatingHours;
    assert fs == [fs[0]] + [fs[1]] + [fs[2]] + [fs[3]] + [fs[4]];
    LinesAppend([fs[0]] + [fs[1]] + [fs[2]] + [fs[3]], [fs[4]]);
    LinesAppend([fs[0]] + [fs[1]] + [fs[2]], [fs[3]]);
    LinesAppend([fs[0]] + [fs[1]], [fs[2]]);
    LinesAppend([fs[0]], [fs[1]]);
    assert Lines([fs[0]]) == Line(fs[0]) by { assert [fs[0]][..0] == []; }
    assert forall k :: 1 <= k < 5 ==> Lines([fs[k]]) == Line(fs[k]) by {
      forall k | 1 <= k < 5 ensures Lines([fs[k]]) == Line(fs[k]) { assert [fs[k]][..0] == []; }
    }
  }

  /**
   * The update handler: build the message, then create one form submission
   * tagged as a pending regional-centre update. `createdID` is the row id
   * storage assigns, or None when the insert fails.
   */
  method SubmitRegionalCenterUpdate(u: RegionalCenterUpdate, createdID: Option<int>)
    returns (record: FormSubmission, reply: Reply<SubmissionAck<int>>)
    ensures record == FormSubmission(u.submitterName, u.submitterEmail, u.newPhone,
                                     UpdateHeader(u) + Lines(OptionalFields(u)), u.regionalCenterID,
                                     "regional_center_update", PendingReview)
    ensures createdID.None? ==>
              reply == Reply(StatusInternalServerError, ErrorBody("Failed to create regional center update submission"))
    ensures createdID.Some? ==>
              reply == Reply(StatusCreated, Payload(SubmissionAck("Regional center update submission received successfully",
                                                                  createdID.value, PendingReview)))
  {
    var message := BuildUpdateMessage(u);
    record := FormSubmission(
      name := u.submitterName,
      email := u.submitterEmail,
      phone := u.newPhone,
      message := message,
      facilityID := u.regionalCenterID,
      facilityType := "regional_center_update",
      status := PendingReview);
    if createdID.None? {
      reply := Reply(StatusInternalServerError, ErrorBody("Failed to create regional center update submission"));
      return;
    }
    reply := Reply(StatusCreated, Payload(SubmissionAck("Regional center update submission received successfully",
                                                        createdID.value, PendingReview)));
  }

  /** A bound ABA-centre submission. */
  datatype ABACenterSubmission = ABACenterSubmission(
    name: string,
    serviceType: string,
    waitlistAvailability: string,
    phone: string,
    email: string,
    website: string,
    address: string,
    city: string,
    state: string,
    zipCode: string,
    insuranceAccepted: string,
    description: string,
    submitterName: string,
    submitterEmail: string)

  /** The storage writes the ABA submission handler issues, in order. */
  datatype Write = CreateForm(form: FormSubmission) | CreateCenter(center: ABACenter) | SaveForm(saved: FormSubmission)

  /** The pending centre row: address goes to `street`, zip code to `zip`. */
  function CenterRecord(s: ABACenterSubmission): ABACenter {
    ABACenter(
      name := s.name,
      street := s.address,
      city := s.city,
      zip := s.zipCode,
      phone := s.phone,
      serviceType := s.serviceType,
      insuranceAccepted := s.insuranceAccepted,
      waitlistAvailability := s.waitlistAvailability)
  }

  /** The tracking row as first created: no facility id yet. */
  function TrackingRecord(s: ABACenterSubmission): FormSubmission {
    FormSubmission(
      name := s.submitterName,
      email := s.submitterEmail,
      phone := s.phone,
      message := "ABA Center Submission: " + s.name + "\n\nDetails:\n" + s.description,
      facilityID := "",
      facilityType := "aba_center_submission",
      status := PendingReview)
  }

  /**
   * The ABA submission handler. `formCreated` is whether the tracking row's
   * insert succeeds and `centerID` the id storage assigns to the centre (None
   * when that insert fails); the final save is not checked.
   */
  method SubmitABACenter(s: ABACenterSubmission, formCreated: bool, centerID: Option<string>)
    returns (writes: seq<Write>, reply: Reply<SubmissionAck<string>>)
    ensures !formCreated ==>
              writes == [CreateForm(TrackingRecord(s))]
              && reply == Reply(StatusInternalServerError, ErrorBody("Failed to create ABA center submission"))
    ensures formCreated && centerID.None? ==>
              writes == [CreateForm(TrackingRecord(s)), CreateCenter(CenterRecord(s))]
              && reply == Reply(StatusInternalServerError, ErrorBody("Failed to create ABA center record"))
    ensures formCreated && centerID.Some? ==>
              writes == [CreateForm(TrackingRecord(s)), CreateCenter(CenterRecord(s)),
                         SaveForm(TrackingRecord(s).(facilityID := centerID.value))]
              && reply == Reply(StatusCreated, Payload(SubmissionAck("ABA center submission received successfully",
                                                                     centerID.value, PendingReview)))
  {
    var formSubmission := FormSubmission(
      name := s.submitterName,
      email := s.submitterEmail,
      phone := s.phone,
      message := "ABA Center Submission: " + s.name + "\n\nDetails:\n" + s.description,
      facilityID := "",
      facilityType := "aba_center_submission",
      status := PendingReview);
    writes := [CreateForm(formSubmission)];
    if !formCreated {
      reply := Reply(StatusInternalServerError, ErrorBody("Failed to create ABA center submission"));
      return;
    }
    var abaCenter := ABACenter(
      name := s.name,
      street := s.address,
      city := s.city,
      zip := s.zipCode,
      phone := s.phone,
      serviceType := s.serviceType,
      insuranceAccepted := s.insuranceAccepted,
      waitlistAvailability := s.waitlistAvailability);
    writes := writes + [CreateCenter(abaCenter)];
    if centerID.None? {
      reply := Reply(StatusInternalServerError, ErrorBody("Failed to create ABA center record"));
      return;
    }
    formSubmission := formSubmission.(facilityID := centerID.value);
    writes := writes + [SaveForm(formSubmission)];
    reply := Reply(StatusCreated, Payload(SubmissionAck("ABA center submission received successfully",
                                                        centerID.value, PendingReview)));
  }
}
