# Facility finder: proximity search and admin access rules

This project models two parts of a facility-finder application in Dafny:

- the Go backend's **proximity search**;
- the Vue admin front end's **role and permission rules**.

The backend parts are these:

- The service layer (`backend/services/service.go`) and the HTTP handler layer (`backend/handlers/handlers.go`) each filter loaded rows by their distance to a centre point. The result is an order-preserving subsequence with an inclusive boundary.
- Each layer has a nearby-search aggregator. It defaults an empty type list to the three known entity types and writes one map key per known tag.
- The list operations decide whether to filter at all. The service looks at a `SearchFilter`. A handler looks at its three query strings.
- The service layer gives default preferences to a user without a stored row.
- There are two submission handlers. One builds a regional-centre update message line by line. The other writes an ABA-centre submission to storage in three steps.

The front-end parts are these:

- `frontend/src/auth/auth0.js` reads roles and permissions from namespaced ID-token claims. It answers "has any of" questions and names a user's highest admin role.
- `frontend/src/auth/authGuard.js` holds the router guards. `adminGuard` and the guards made by `createRoleGuard` and `createPermissionGuard` each end in a single `next()` or `next(path)`. `adminAuthGuard` ends the same way, except in two cases where `next` is never called: when `authGuard` starts the Auth0 login redirect, and while `auth0.isLoading` stays true, because `authGuard` then keeps polling.

Modules:

- `Wrappers` holds Option and Result.
- `Geo` holds points, circles and the distance function type.
- `Proximity` holds the generic filter: the `Filtered` specification, the `FilterByRadius` loop and the lemmas about them.
- `Models` holds the record shapes and the preferences column defaults.
- `Nearby` holds the tags, tag defaulting and the result-map shape.
- `Service` models service.go.
- `Handlers` models handlers.go.
- `Auth0` models auth0.js.
- `AuthGuard` models authGuard.js.

Modelling choices:

- Distance is a parameter `dist: (Point, Point) -> real` and never gets a body. Every property holds for every distance function. Coordinates and radii are `real`.
- Parsing a float is a parameter `parse: string -> Option<real>`. An absent query string is `""`, just as gin returns it.
- Storage reads are inputs. They are loaded rows, a `Result` where the source checks the error, or the outcome of a create.
- Regional centres have nullable coordinates, and the two layers treat them differently:
  - The service treats a nil pointer as unlocated (`Service.PointerLocation`).
  - The handler treats a zero coordinate as unlocated (`Handlers.NonZeroLocation`). As written, that code compares the `*float64` fields with `0` and does not type-check. The model follows the evident intent: a zero value means unlocated, and so does a nil pointer.
- handlers.go sets `Phone`, `FacilityID`, `FacilityType` and `Status` on `FormSubmission`, but `backend/models/models.go` does not declare those fields. The model's `FormSubmission` has the fields the handlers use.
- The two aggregators differ in three places:
  - On the `"resources"` tag, the service filters resources by distance.
  - The handler returns every loaded resource.
  - The handler keeps only regional centres with non-zero coordinates.
  - `Handlers.HandlerAndServiceNearby` proves how the two results differ when both read the same loaded rows. In the source they do not: the service preloads each resource centre's `Diagnoses` (service.go:232) and the handler does not (handlers.go:600), so the two `resource_centers` payloads differ in that association.

## Model

| member | source | states |
|---|---|---|
| Proximity.Filtered | backend/services/service.go:87-94 | The filtered list is never longer than the input. |
| Proximity.FilterByRadius | backend/services/service.go:233-240 | The append loop over the loaded rows returns exactly `Filtered` of them. |
| Proximity.FilteredPositions | backend/services/service.go:259-265 | The result is the subsequence of the input at strictly increasing positions. A position is selected iff its record is located and its distance is `<=` the radius. |
| Proximity.FilteredMembership | backend/services/service.go:170-179 | A record is in the result iff it is in the input, is located, and lies within the radius. |
| Proximity.FilteredAppend | backend/handlers/handlers.go:601-607 | Filtering a concatenation equals concatenating the filtered parts, so relative order is kept. |
| Proximity.FilteredKeepsAll | backend/handlers/handlers.go:157-164 | When every record is within the circle, the whole input comes back unchanged. |
| Proximity.FilteredNarrowing | backend/handlers/handlers.go:613-622 | Filtering with a looser location policy and a larger radius, then with a stricter one around the same centre, equals the stricter filter alone. |
| Proximity.FilteredIdempotent | backend/services/service.go:131-140 | Filtering an already filtered list again with the same circle changes nothing. |
| Nearby.EffectiveTypes | backend/services/service.go:224-226 | A non-empty request is kept as is. An empty one becomes a list holding exactly the three known tags. |
| Nearby.RepeatedTagIsIdempotent | backend/services/service.go:228-268 | Requesting an already requested tag again leaves the result map unchanged. This assumes every load in one request returns the same rows: the source runs a fresh `Find` for each occurrence of a tag, while the model reads one set of rows per request. |
| Nearby.UnknownTagIsIgnored | backend/handlers/handlers.go:596-630 | Appending a tag the switch has no case for to a non-empty request adds no key and changes no entry. (A request made only of unknown tags is not defaulted and gives the empty map.) |
| Nearby.EmptyRequestHasAllKnownKeys | backend/handlers/handlers.go:592-594 | The empty request's result has exactly the keys resource_centers, regional_centers and resources. |
| Service.GetResourceCenters | backend/services/service.go:77-98 | A load failure gives the wrapped "failed to fetch resource centers" error. Without a non-zero point and a positive distance, the loaded list is returned unchanged. Otherwise it is filtered by the filter's circle. |
| Service.GetResources | backend/services/service.go:115-143 | The same three cases for resources, with the "failed to fetch resources" error. |
| Service.GetRegionalCenters | backend/services/service.go:160-183 | The same three cases for regional centres, with the "failed to fetch regional centers" error. Nil coordinates count as unlocated. |
| Service.NilCoordinateNeverListed | backend/services/service.go:172-177 | A regional centre with a nil latitude or longitude is never in a filtered list, whatever the circle. |
| Service.SearchNearby | backend/services/service.go:220-271 | The error is always nil. The map is the defaulted request's known tags, each mapped to its type's rows filtered by the circle. |
| Service.NearbyEntriesAreFiltered | backend/services/service.go:228-268 | The keys are exactly the known tags of the defaulted request. Each entry, resources included, is its loaded list filtered by the circle. |
| Service.NearbyRepeatedTag | backend/services/service.go:240-266 | Listing a tag twice gives the same map as listing it once, given that every load in the request returns the same rows (the model reads one set of rows per request; the source runs a fresh `Find` for each occurrence). |
| Service.NearbyExcludesNilRegional | backend/services/service.go:245-254 | A regional centre with a nil coordinate is never in the nearby result. |
| Service.GetUserPreferences | backend/services/service.go:276-298 | A stored row is returned as is. A lookup error gives the wrapped "failed to fetch preferences" error. A missing row gives the defaults under the requested user id: roadmap, zoom 10, every Show flag true, radius 25, both Require flags false, no preferred diagnoses. |
| Handlers.GetResourceCenters | backend/handlers/handlers.go:124-171 | A load failure gives 500 "Failed to fetch resource centers". Otherwise the reply is 200 with the loaded list, filtered only when all three query strings are present and parse. A bad string silently disables the filter. |
| Handlers.GetRegionalCenters | backend/handlers/handlers.go:253-308 | The same decisions for regional centres, where a zero coordinate counts as unlocated. |
| Handlers.ZeroCoordinateNeverListed | backend/handlers/handlers.go:293-300 | A regional centre with a zero latitude or a zero longitude is never listed, even when the other coordinate is non-zero. |
| Handlers.NonZeroNarrowsPointerPolicy | backend/handlers/handlers.go:293-302 | For the same circle, the handler's regional list is the service's list with the zero-coordinate centres removed. |
| Handlers.ValidateNearbyAgreesWithFilterParams | backend/handlers/handlers.go:564-585 | The nearby search accepts exactly the query strings that turn on the list handlers' filter, and it reads the same circle from them. |
| Handlers.ValidateNearbyErrorOrder | backend/handlers/handlers.go:564-585 | A missing parameter always gives the "required" error. Otherwise the error is "Invalid latitude", then "Invalid longitude", then "Invalid radius": each is reported exactly when its parameter is the first that fails to parse. |
| Handlers.SearchNearby | backend/handlers/handlers.go:558-633 | A failed check gives 400 with that check's error. Otherwise the reply is 200 with the handler's nearby map for the parsed circle. |
| Handlers.CollectNearby | backend/handlers/handlers.go:589-630 | The tag loop builds exactly the handler's nearby map: one key per known tag of the defaulted request. |
| Handlers.HandlerAndServiceNearby | backend/handlers/handlers.go:596-630 | Over the same loaded rows, the handler and service maps have the same keys and the same resource centres (the service's `Diagnoses` preload is not modelled, so in the source those rows differ in that association). The handler's regional centres are the service's minus those with a zero coordinate. The handler lists every resource, where the service lists only those within the radius. |
| Handlers.BuildUpdateMessage | backend/handlers/handlers.go:510-530 | The accumulated message is the fixed header followed by the lines of the optional fields, in order. |
| Handlers.UpdateMessageShape | backend/handlers/handlers.go:516-530 | The lines are Phone, Email, Website, Services Offered and Operating Hours, each present only when its field is non-empty. They are empty exactly when all five fields are empty. New address, eligibility criteria and special programs never change the message. |
| Handlers.SubmitRegionalCenterUpdate | backend/handlers/handlers.go:532-555 | The submission carries the submitter, the new phone, the built message and the centre's id, typed "regional_center_update" and "pending_review". A failed insert gives 500. Otherwise the reply is 201 with the new row's id. |
| Handlers.SubmitABACenter | backend/handlers/handlers.go:418-464 | The writes follow the three outcomes. If the tracking row fails: that insert only, then 500. If the centre fails: the tracking row and the centre row, then 500. Otherwise both inserts, then a save of the tracking row with the new centre's id as facility id, and 201. The centre row maps address to street and zip code to zip. The tracking row is typed "aba_center_submission" and "pending_review", and its facility id is empty until the centre exists. |
| Auth0.AnyIncludedIff | frontend/src/auth/auth0.js:58-66 | The left-to-right `some`/`includes` scan is true exactly when some candidate is held. |
| Auth0.MissingUserHasNothing | frontend/src/auth/auth0.js:38-46 | Each claim is read on its own. A missing user, or a user without the roles claim, has no roles, and no any-role or admin check holds. A missing user, or a user without the permissions claim, has no permissions, and no any-permission check holds. |
| Auth0.HasAnyRoleIff | frontend/src/auth/auth0.js:58-61 | `hasAnyRole` holds iff one of the listed roles is among the user's roles. It never holds for an empty list. |
| Auth0.HasAnyPermissionIff | frontend/src/auth/auth0.js:63-66 | `hasAnyPermission` holds iff one of the listed permissions is among the user's permissions. It never holds for an empty list. |
| Auth0.PermissionsIgnoreRoles | frontend/src/auth/auth0.js:43-46 | Replacing the roles claim never changes a permission check. |
| Auth0.SingleChecksAreListChecks | frontend/src/auth/auth0.js:48-66 | `hasRole` equals `hasAnyRole` on a one-element list. `hasPermission` likewise equals `hasAnyPermission`. |
| Auth0.CanAccessAdminIff | frontend/src/auth/auth0.js:69-71 | The admin panel is open exactly to users holding super-admin, nurse-admin or reviewer. |
| Auth0.RoleLevelIsHighestAdminRole | frontend/src/auth/auth0.js:74-79 | The level names the highest role held, in the order Super Admin > Nurse Admin > Reviewer. It is "No Admin Access" exactly when the admin panel is closed to the user. |
| AuthGuard.DevelopmentWithoutTenantOpensAdminGuards | frontend/src/auth/authGuard.js:4-5 | In a development build whose Auth0 domain is unset, empty or the placeholder tenant, `adminGuard` and `adminAuthGuard` both proceed for every visitor, signed in or not. |
| AuthGuard.RealTenantEnforcesAdminGuards | frontend/src/auth/authGuard.js:119-133 | In any other build (not development, or a real tenant domain), `adminGuard` proceeds exactly for a signed-in user with an admin role. `adminAuthGuard` proceeds exactly when in addition `authGuard` proceeded, and never calls `next` exactly when `authGuard` started the login redirect. |
| AuthGuard.AdminGuardDecision | frontend/src/auth/authGuard.js:52-74 | The guard proceeds iff bypass is on or the user is authenticated with an admin role. It sends to the login page iff bypass is off and nobody is authenticated. It redirects nowhere else but the unauthorized page. |
| AuthGuard.RoleGuardDecision | frontend/src/auth/authGuard.js:77-95 | The guard proceeds iff the user is authenticated and holds one of the required roles. Unauthenticated users go to the login page, and the only other redirect is the forbidden page. The bypass flag changes nothing. |
| AuthGuard.PermissionGuardDecision | frontend/src/auth/authGuard.js:98-116 | The same decision over permissions, also independent of the bypass flag. |
| AuthGuard.AdminGuardIsAdminRoleGuard | frontend/src/auth/authGuard.js:52-95 | Outside bypass, the admin guard decides as the role guard for the three admin roles. The one difference is that it sends to the unauthorized page where the role guard sends to the forbidden page. |
| AuthGuard.AdminAuthGuardDecision | frontend/src/auth/authGuard.js:119-133 | `next` is never called only when bypass is off and `authGuard` started the login redirect. The guard proceeds iff bypass is on, or `authGuard` proceeded and the user holds an admin role. A path from `authGuard` reaches the router unchanged. After a bare `next()` from `authGuard`, the outcome is `adminGuard`'s, so `AuthGuard.AdminGuardDecision` fixes the login and unauthorized redirects. |
| Proximity.Within | backend/services/service.go:235-236 | No contract of its own: the located-and-within-radius test, inclusive at the boundary. `Proximity.FilteredMembership` and `Proximity.FilteredPositions` state what it selects. |
| Models.ColumnDefaults | backend/models/models.go:229-244 | No contract of its own: the table's declared column defaults, with the zero value for the preferred diagnoses. `Service.GetUserPreferences` states that the service's not-found record is this record under the requested id. |
| Nearby.Bundle | backend/services/service.go:228-268 | No contract of its own: the result map as a comprehension over the defaulted request's known tags. `Nearby.RepeatedTagIsIdempotent`, `Nearby.UnknownTagIsIgnored`, `Nearby.EmptyRequestHasAllKnownKeys` and `Service.NearbyEntriesAreFiltered` state its keys and values. |
| Service.PointerLocation | backend/services/service.go:172 | No contract of its own: a regional centre is located iff both coordinate pointers are non-nil. `Service.NilCoordinateNeverListed` states its effect on the filter. |
| Service.FilterActive | backend/services/service.go:86 | No contract of its own: the gate that the filter point is non-zero and the distance positive. `Service.GetResourceCenters`, `Service.GetResources` and `Service.GetRegionalCenters` state both of its outcomes. |
| Service.ServiceListing | backend/services/service.go:229-267 | No contract of its own: the service switch's value per known tag, every type filtered. `Service.NearbyEntriesAreFiltered` states it per tag. |
| Handlers.FilterParams | backend/handlers/handlers.go:151-156 | No contract of its own: the list handlers' filter circle, present only when all three strings are non-empty and parse. `Handlers.GetResourceCenters`, `Handlers.GetRegionalCenters` and `Handlers.ValidateNearbyAgreesWithFilterParams` state its use. |
| Handlers.NonZeroLocation | backend/handlers/handlers.go:295 | No contract of its own: a regional centre is located iff both coordinates are present and non-zero. `Handlers.ZeroCoordinateNeverListed` and `Handlers.NonZeroNarrowsPointerPolicy` state its effect. |
| Handlers.ValidateNearby | backend/handlers/handlers.go:564-585 | No contract of its own: the ordered parameter checks. `Handlers.ValidateNearbyErrorOrder` and `Handlers.ValidateNearbyAgreesWithFilterParams` state its outcomes. |
| Handlers.HandlerListing | backend/handlers/handlers.go:597-629 | No contract of its own: the handler switch's value per known tag, resources unfiltered. `Handlers.HandlerAndServiceNearby` states it against the service's. |
| Handlers.TrackingRecord | backend/handlers/handlers.go:419-427 | No contract of its own: the tracking row as first created. `Handlers.SubmitABACenter` states where it is written. |
| Handlers.CenterRecord | backend/handlers/handlers.go:438-447 | No contract of its own: the pending centre row. `Handlers.SubmitABACenter` states where it is written. |
| Auth0.GetUserRoles | frontend/src/auth/auth0.js:38-41 | No contract of its own: the roles claim, or the empty list. `Auth0.MissingUserHasNothing` states the missing cases. |
| Auth0.GetUserPermissions | frontend/src/auth/auth0.js:43-46 | No contract of its own: the permissions claim, or the empty list. `Auth0.MissingUserHasNothing` states the missing cases. |
| Auth0.AnyIncluded | frontend/src/auth/auth0.js:60 | No contract of its own: the `some`/`includes` scan. `Auth0.AnyIncludedIff` states its meaning. |
| Auth0.HasRole | frontend/src/auth/auth0.js:48-51 | No contract of its own. `Auth0.SingleChecksAreListChecks` states it. |
| Auth0.HasPermission | frontend/src/auth/auth0.js:53-56 | No contract of its own. `Auth0.SingleChecksAreListChecks` states it. |
| Auth0.HasAnyRole | frontend/src/auth/auth0.js:58-61 | No contract of its own. `Auth0.HasAnyRoleIff` states it. |
| Auth0.HasAnyPermission | frontend/src/auth/auth0.js:63-66 | No contract of its own. `Auth0.HasAnyPermissionIff` and `Auth0.PermissionsIgnoreRoles` state it. |
| Auth0.CanAccessAdmin | frontend/src/auth/auth0.js:69-71 | No contract of its own. `Auth0.CanAccessAdminIff` states it. |
| Auth0.GetUserRoleLevel | frontend/src/auth/auth0.js:74-79 | No contract of its own. `Auth0.RoleLevelIsHighestAdminRole` states it. |
| AuthGuard.BypassAuth | frontend/src/auth/authGuard.js:4-5 | No contract of its own: the development bypass flag. `AuthGuard.DevelopmentWithoutTenantOpensAdminGuards` and `AuthGuard.RealTenantEnforcesAdminGuards` state its effect on the admin guards. |
| AuthGuard.EnvContext | frontend/src/auth/authGuard.js:4-5 | No contract of its own: the guard context whose bypass flag is computed from the environment. The same two lemmas state its effect. |
| AuthGuard.AdminGuard | frontend/src/auth/authGuard.js:52-74 | No contract of its own. `AuthGuard.AdminGuardDecision` and `AuthGuard.AdminGuardIsAdminRoleGuard` state it. |
| AuthGuard.RoleGuard | frontend/src/auth/authGuard.js:77-95 | No contract of its own. `AuthGuard.RoleGuardDecision` states it. |
| AuthGuard.PermissionGuard | frontend/src/auth/authGuard.js:98-116 | No contract of its own. `AuthGuard.PermissionGuardDecision` states it. |
| AuthGuard.AdminAuthGuard | frontend/src/auth/authGuard.js:119-133 | No contract of its own. `AuthGuard.AdminAuthGuardDecision` and `AuthGuard.RealTenantEnforcesAdminGuards` state it. |
| Models.ResourceCenterLocation | backend/models/models.go:142-143 | No contract of its own: a resource centre is always located, since its coordinates are non-null columns. `Proximity.FilteredMembership` states what the filters keep under it. |
| Models.ResourceLocation | backend/models/models.go:157-158 | No contract of its own: a resource is always located, since its coordinates are non-null columns. `Proximity.FilteredMembership` states what the filters keep under it. |
| Service.NearbyResult | backend/services/service.go:228-268 | No contract of its own: the service aggregator's result for a request. `Service.SearchNearby` and `Service.NearbyEntriesAreFiltered` state it. |
| Handlers.NearbyResult | backend/handlers/handlers.go:596-630 | No contract of its own: the handler aggregator's result for a validated request. `Handlers.CollectNearby` and `Handlers.HandlerAndServiceNearby` state it. |
| Handlers.UpdateHeader | backend/handlers/handlers.go:511-514 | No contract of its own: the fixed opening of the update message. `Handlers.BuildUpdateMessage` states where it goes. |
| Handlers.OptionalFields | backend/handlers/handlers.go:516-530 | No contract of its own: the five optional fields with the text opening each line, in message order. `Handlers.UpdateMessageShape` states the order. |
| Handlers.Line | backend/handlers/handlers.go:516-518 | No contract of its own: one optional field's line, present only when the field is non-empty. `Handlers.UpdateMessageShape` states each line. |
| Handlers.Lines | backend/handlers/handlers.go:516-530 | No contract of its own: the lines of the fields, in order. `Handlers.LinesAppend`, `Handlers.LinesEmpty` and `Handlers.UpdateMessageShape` state it. |
| Auth0.Claim | frontend/src/auth/auth0.js:38-46 | No contract of its own: a list claim, or `[]` when the user or the claim is missing. `Auth0.MissingUserHasNothing` states the missing cases. |
| AuthGuard.Authenticated | frontend/src/auth/authGuard.js:61 | No contract of its own: an instance is registered and reports a signed-in user, the test the three guards share. `AuthGuard.AdminGuardDecision`, `AuthGuard.RoleGuardDecision` and `AuthGuard.PermissionGuardDecision` state how each guard uses it. |

## Left out

- The Haversine `calculateDistance` in both Go files is not modelled. Distance is an uninterpreted parameter, so the model claims no symmetry and no zero self-distance. Float64 rounding, NaN and infinities are not modelled, because coordinates are `real`.
- The GORM/Postgres queries are not modelled: `Find`, `First`, `Create`, `Save`, `Preload` of diagnoses, and the SQL `WHERE` clauses of the list operations (search, county, diagnosis, service type, insurance). Their rows or outcomes are inputs.
- `Service.SearchNearby` and `Handlers.CollectNearby` do not model storage failures. Both sources ignore the error of each `Find` (service.go:232, 244, 258; handlers.go:600, 612, 626), so the model takes the rows as given.
- Both aggregators read one set of rows per request, although the source runs a fresh `Find` for each occurrence of a tag. `Nearby.RepeatedTagIsIdempotent` and `Service.NearbyRepeatedTag` therefore assume that every load in one request returns the same rows.
- The service's `Preload("Diagnoses")` of resource centres (service.go:232) is not modelled: rows are values without associations, and `Handlers.HandlerAndServiceNearby` compares the two aggregators over one shared set of rows.
- Gin request binding is not modelled: JSON decoding and `binding:"required"` validation, with their 400 replies ("Invalid JSON data" in `SubmitABACenter`, "Validation failed: " and the binder's error in `SubmitRegionalCenterUpdate`). The submission handlers start from an already bound request.
- The handlers' logging and the JSON encoding of replies are not modelled. A reply is a status and a body value.
- `Handlers.SubmitABACenter` does not model whether the final save of the tracking row succeeds. The source does not check it.
- The other CRUD handlers and service functions are not modelled because they are storage plumbing: ABA centres, single resource lookups, providers, diagnoses, form submissions, the `GetUserPreferences` and `UpdateUserPreferences` handlers (handlers.go:638-683), the service's `UpdateUserPreferences`, and seeding.
- `authGuard` itself is not modelled, because its `setTimeout` polling and the `loginWithRedirect` side effect are asynchronous browser behaviour. `AuthGuard.AdminAuthGuard` takes its outcome as an input.
- `createAuth0` and `auth0Config` are library set-up and are left out.
- `GetUserRoles` and `GetUserPermissions` model a list claim as a list of strings. The JavaScript `|| []` default applies to falsy values; a truthy claim that is not an array is not modelled.
- The ABA centre record keeps only the fields the submission handler sets. Its nullable `*string` columns are modelled as plain strings.
