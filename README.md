# Delivery management: session lifecycle and delivery table, modelled in Dafny

This project models the two sequential cores of a parcel-delivery application.

**The browser front end.**
- **Session store.** The store holds the in-memory record `{user, token, isAuthenticated, isLoading}` next to three `localStorage` keys (`accessToken`, `refreshToken`, `user`). Its actions are `login`, `logout`, `refreshToken`, `setUser`, `setToken`, `clearAuth` and `checkAuth`.
- **API client.** Every request goes through the client's two interceptors: the bearer header, and the wipe on a 401. The client also builds the query strings and paths.
- **Route guard.** The guard verdict and the home redirect of the route table.
- **Sign-in form.** Its two field rules, and its submit handler, which classifies failures.
- **Navigation.** The role-based sidebar, and the sign-out handler.

**The Spring back end.**
- **Delivery service.** It creates, looks up, updates and assigns deliveries in the `deliveries` table, and publishes one Kafka event per mutation.
- **Repository queries.** Spring Data queries over the `deliveries`, `drivers` and `vehicles` tables.
- **Mapper.** The entity/DTO mapper.
- **Validation.** The Bean Validation constraints of a creation request.
- **Event types.** The event-type enum.

**How the model is built.**
- **Imperative code stays imperative.** The store, the API client, the form, the navigation shell, the delivery entity, the table and the service are classes whose methods update fields in place.
- **Specifications.**
  - Each store action is proved equal to a pure step function of module `Session`.
  - Each service operation states its new table, its published events and its result in terms of the repository's query functions and the mapper.
  - Properties across several calls are lemmas: runs of actions, round trips, prefix-freedom, uniqueness and filter identities.
- **What stands outside the model.** Everything the source cannot decide itself is a parameter:
  - the server's reply to each request;
  - the clock readings and the UUIDs;
  - whether the Kafka broker accepts a message.
- **Java `null`.** It is `None`.

**Two behaviours of the code worth knowing.** The model states both as the code has them:
- **Startup check.** The application calls `checkAuth` when it starts, to check the authentication (frontend/src/App.tsx:124-127). `checkAuth` needs both an `accessToken` and a `user` key (frontend/src/contexts/authStore.ts:120-131). No action ever writes `user`: login and refresh write only the two token keys (authStore.ts:39-40 and 82-83). So from empty storage, after any run of actions, `checkAuth` answers false without a request and resets the in-memory session (`Session.CheckAuthFailsAfterAnyRun`).
- **401 on a data call.** The response interceptor (frontend/src/services/api.ts:55-62) removes only `accessToken` and `user`, then sends the browser to `/login`. The refresh token survives, and so does the in-memory store state, possibly still authenticated (`Session.UnauthorizedLeavesStaleSession`).

## Model

| member | source | states |
|---|---|---|
| BrowserStorage.Lookup | frontend/src/contexts/authStore.ts:120-121 | `getItem` is null exactly when the key is absent, and otherwise the stored value |
| ApiClient.HeadersFor | frontend/src/services/api.ts:39-46 | a truthy stored access token adds `Authorization: Bearer <token>` to the default headers; otherwise the headers are the defaults |
| ApiClient.AfterRejection | frontend/src/services/api.ts:55-62 | a 401 removes exactly `accessToken` and `user`; the refresh token always survives; other errors leave storage alone |
| ApiClient.AfterReply | frontend/src/services/api.ts:53-63 | a success leaves storage untouched; any reply changes at most the session keys and adds none |
| ApiClient.Client.OnRequest | frontend/src/services/api.ts:39-46 | the config gains the bearer header iff the stored token is truthy; otherwise it is returned unchanged |
| ApiClient.Client.OnResponse | frontend/src/services/api.ts:53-64 | every reply is passed on unchanged; a 401 first wipes the two keys and records a `/login` redirect; nothing else changes |
| ApiClient.Client.Send | frontend/src/services/api.ts:70-81 | one request leaves with the headers computed from storage before the call; the reply goes through the 401 handler |
| ApiClient.Client.RefreshToken | frontend/src/services/api.ts:118-121 | posts `{refreshToken}` holding exactly the stored value, or null when the key is absent |
| ApiClient.AppendStep | frontend/src/services/api.ts:144-148 | appending one truthy filter field after the lower-ranked ones keeps the list ordered and complete up to that field |
| ApiClient.AppendIfTruthy | frontend/src/services/api.ts:144-148 | one conditional append adds the field exactly when it is truthy, and extends the ordered, complete list by that field |
| ApiClient.BuiltIsComplete | frontend/src/services/api.ts:142-150 | a list built from all five fields holds every truthy field, in the fixed order status, driverId, dateFrom, dateTo, city, with its value |
| ApiClient.DeliveryParams | frontend/src/services/api.ts:142-150 | the parameters are exactly the truthy filter fields (empty strings omitted), each with its value, ordered status, driverId, dateFrom, dateTo, city |
| ApiClient.DriverParams | frontend/src/services/api.ts:209-215 | status and city appear iff truthy, status first when present; `available` appears whenever defined, `false` included, as "true"/"false", and last; no name repeats |
| ApiClient.AssignPath | frontend/src/services/api.ts:187-195 | the path is `/deliveries/{t}/assign?driverId={d}&vehicleId={v}`, with driverId before vehicleId |
| Session.SignedIn | frontend/src/contexts/authStore.ts:39-47 | user, token, authenticated, not loading; exactly the two token keys written; every other key kept |
| Session.ClearAuthStep | frontend/src/contexts/authStore.ts:106-117 | the three session keys removed, every other key kept, state reset to the initial state, no request |
| Session.LoginStep | frontend/src/contexts/authStore.ts:32-52 | success is SignedIn; failure re-throws the error, changes only `isLoading` (back to false) and leaves storage as the 401 handler left it |
| Session.LogoutStep | frontend/src/contexts/authStore.ts:54-73 | whatever the server answers: three keys removed, initial state, resolves |
| Session.RefreshStep | frontend/src/contexts/authStore.ts:75-96 | posts the stored refresh token; success is SignedIn; failure is clearAuth plus the error re-thrown |
| Session.SetUserStep | frontend/src/contexts/authStore.ts:98-100 | only `user` changes |
| Session.SetTokenStep | frontend/src/contexts/authStore.ts:102-104 | only `token` and `isAuthenticated := true` change, user or no user |
| Session.CheckAuthStep | frontend/src/contexts/authStore.ts:119-152 | a missing or empty access token or cached user: reset, no request, false, storage untouched; otherwise the profile call: true with the server's user and the stored token, or clearAuth and false; true iff authenticated afterwards |
| Session.DataCallStep | frontend/src/services/api.ts:53-64 | a data call leaves the store state as it was; storage is changed only by the 401 handler; a rejection is passed on |
| Session.Partialize | frontend/src/contexts/authStore.ts:156-160 | the persisted slice is user, token and isAuthenticated |
| Session.PartializeIgnoresLoading | frontend/src/contexts/authStore.ts:156-160 | the persisted slice never depends on `isLoading` |
| Session.UseAuth | frontend/src/contexts/authStore.ts:166-178 | each role flag holds iff a user is known and has exactly that role |
| Session.RoleFlagsExclusive | frontend/src/contexts/authStore.ts:173-176 | exactly one role flag is raised when a user is known, none otherwise |
| Session.ClearAuthIdempotent | frontend/src/contexts/authStore.ts:106-117 | clearing twice equals clearing once |
| Session.RefreshSuccessIsLogin | frontend/src/contexts/authStore.ts:75-96 | a successful refresh has the same effect and outcome as a successful login with the same answer |
| Session.ApplyKeepsConsistent | frontend/src/contexts/authStore.ts:32-152 | every action except setToken preserves "authenticated implies user and token known" |
| Session.SetTokenBreaksConsistency | frontend/src/contexts/authStore.ts:102-104 | setToken on the empty session yields an authenticated session without a user |
| Session.RunKeepsConsistent | frontend/src/contexts/authStore.ts:32-152 | any run without setToken preserves the consistency invariant |
| Session.ApplyNeverWritesUser | frontend/src/contexts/authStore.ts:39-40 | no action, data calls included, creates the `user` key |
| Session.RunNeverWritesUser | frontend/src/contexts/authStore.ts:32-152 | no run of actions creates the `user` key |
| Session.CheckAuthFailsAfterAnyRun | frontend/src/contexts/authStore.ts:119-131 | from empty storage, after any run, checkAuth answers false without a request |
| Session.UnauthorizedLeavesStaleSession | frontend/src/services/api.ts:55-62 | after a 401 the in-memory session is unchanged, the next request has no bearer header, the refresh token survives, and the browser is sent to `/login` |
| AuthStore.Store.constructor | frontend/src/contexts/authStore.ts:25-29 | the store starts in the initial state |
| AuthStore.Store.Login | frontend/src/contexts/authStore.ts:32-52 | the imperative action has exactly LoginStep's effect on state, storage, requests and redirects |
| AuthStore.Store.Logout | frontend/src/contexts/authStore.ts:54-73 | exactly LogoutStep's effect; the promise always resolves |
| AuthStore.Store.RefreshToken | frontend/src/contexts/authStore.ts:75-96 | exactly RefreshStep's effect |
| AuthStore.Store.SetUser | frontend/src/contexts/authStore.ts:98-100 | exactly SetUserStep's effect |
| AuthStore.Store.SetToken | frontend/src/contexts/authStore.ts:102-104 | exactly SetTokenStep's effect |
| AuthStore.Store.ClearAuth | frontend/src/contexts/authStore.ts:106-117 | exactly ClearAuthStep's effect |
| AuthStore.Store.CheckAuth | frontend/src/contexts/authStore.ts:119-152 | exactly CheckAuthStep's effect |
| Routing.ProtectedRoute | frontend/src/App.tsx:33-53 | spinner iff loading; `/login` iff settled and unauthenticated; `/unauthorized` iff authenticated with a non-empty required role and a missing user or a different role; otherwise the children |
| Routing.HomePage | frontend/src/App.tsx:56-64 | `/dashboard` iff authenticated, else `/login`, whatever `isLoading` is |
| Routing.Navigate | frontend/src/App.tsx:133-200 | unguarded pages are shown as they are; `/` goes where HomePage says |
| Routing.RoleAreaAdmitsExactly | frontend/src/App.tsx:152-197 | a settled, authenticated user sees a role area iff their role is exactly that area's; otherwise they get `/unauthorized` |
| Routing.DashboardNeedsOnlyAuthentication | frontend/src/App.tsx:140-149 | the dashboard shows a spinner while loading, redirects to `/login` when unauthenticated, and is otherwise shown to every role |
| Routing.AreasCoverTheirPrefixes | frontend/src/App.tsx:152-197 | every path under `/client/`, `/driver/`, `/admin/`, `/manager/` selects that area |
| Routing.ManagerDeniedAdmin | frontend/src/App.tsx:176-185 | a MANAGER is sent to `/unauthorized` from every `/admin/` path |
| Routing.LoadingNeverRedirectsGuarded | frontend/src/App.tsx:36-42 | while loading, every guarded page shows the spinner and never redirects |
| LoginForm.ValidEmailSound | frontend/src/components/auth/LoginForm.tsx:88 | every address the recogniser accepts matches the e-mail pattern |
| LoginForm.ValidEmailComplete | frontend/src/components/auth/LoginForm.tsx:88 | every address matching the pattern is accepted by the recogniser |
| LoginForm.ValidEmailMatchesPattern | frontend/src/components/auth/LoginForm.tsx:87-90 | recogniser and pattern accept the same strings |
| LoginForm.PatternHasOneAt | frontend/src/components/auth/LoginForm.tsx:88 | a matching address holds exactly one `@` |
| LoginForm.BrowserStopsAddressWithoutAt | frontend/src/components/auth/LoginForm.tsx:81-91 | `abc` breaks the pattern rule, but the browser's own check of the `type="email"` input refuses it first, so react-hook-form shows no error |
| LoginForm.BrowserStopsEmptyLabel | frontend/src/components/auth/LoginForm.tsx:81-91 | `a@b..com` matches the pattern but not HTML's e-mail syntax, so it is never sent |
| LoginForm.NativeEmailValid | frontend/src/components/auth/LoginForm.tsx:81-83 | the browser's check of the `type="email"` input: the empty value (the input is not `required`) or HTML's valid e-mail grammar (IsHtmlEmail). A non-empty value it accepts holds exactly one `@`, neither first nor last, and no space |
| LoginForm.AddressShape | frontend/src/components/auth/LoginForm.tsx:81-83 | an address of HTML's grammar holds exactly one `@`, neither first nor last, and no space |
| LoginForm.PatternStopsDotlessDomain | frontend/src/components/auth/LoginForm.tsx:81-91 | `a@b` passes the browser's check, and the pattern rule refuses it |
| LoginForm.Utf16Length | frontend/src/components/auth/LoginForm.tsx:118-121 | JavaScript's length lies between the number of characters and twice that |
| LoginForm.ValidateEmail | frontend/src/components/auth/LoginForm.tsx:85-91 | "required" iff empty, "invalid" iff non-empty and not matching, no error iff matching |
| LoginForm.ValidatePassword | frontend/src/components/auth/LoginForm.tsx:116-122 | "required" iff empty, "too short" iff non-empty and under 6 UTF-16 units, no error iff at least 6 |
| LoginForm.FeedbackFor | frontend/src/components/auth/LoginForm.tsx:29-51 | success toast and onSuccess iff login resolved; a 401 puts the same "incorrect" error on both fields; a 403 shows the suspended message with no field error; anything else the generic message |
| LoginForm.Form.constructor | frontend/src/components/auth/LoginForm.tsx:17-20 | the form starts not loading, with no errors, toasts or onSuccess calls |
| LoginForm.Form.OnSubmit | frontend/src/components/auth/LoginForm.tsx:29-51 | the store takes exactly LoginStep's effect; the feedback is FeedbackFor the outcome; `isLoading` goes true then false on every path |
| LoginForm.Form.HandleSubmit | frontend/src/components/auth/LoginForm.tsx:70-91 | the browser's e-mail check comes first: when it fails, only its refusal is recorded and nothing else changes; otherwise a rule error is shown, and no request and no redirect happen; otherwise the store takes LoginStep's effect, the field errors and the toast are FeedbackFor the outcome, `onSuccess?.()` is reached iff login resolved, and loading goes true then false |
| Layout.NavigationItems | frontend/src/components/layout/Layout.tsx:35-112 | dashboard first and current on its exact path; 3, 3, 5, 5 or 1 items by role; every other item is current iff the path starts with its href and lies under its role's area |
| Layout.AdminAndManagerShareItems | frontend/src/components/layout/Layout.tsx:81 | ADMIN and MANAGER get identical lists |
| Layout.ItemsArePrefixFree | frontend/src/components/layout/Layout.tsx:36-108 | within one list no item href, the dashboard's included, is a prefix of another href |
| Layout.AtMostOneCurrent | frontend/src/components/layout/Layout.tsx:41-106 | for every path at most one item is current |
| Layout.ItemsLeadToAdmittedPages | frontend/src/components/layout/Layout.tsx:45-107 | each role item of a CLIENT, DRIVER or ADMIN leads to a page the route table shows them |
| Layout.ManagerItemsAreDenied | frontend/src/components/layout/Layout.tsx:81-108 | each role item of a MANAGER leads to `/unauthorized` |
| Layout.ShellUserAsWritten | frontend/src/components/layout/Layout.tsx:30 | the user read from `useAuthActions()` is always undefined |
| Layout.NavigationAsWritten | frontend/src/components/layout/Layout.tsx:30 | the sidebar as written always holds the dashboard item alone |
| Layout.ClientSeesOnlyDashboard | frontend/src/components/layout/Layout.tsx:30 | a signed-in CLIENT gets 1 item as written instead of the 3 their role has |
| Layout.ShellUser | frontend/src/components/layout/Layout.tsx:30 | the intended user is the session's user |
| Layout.Navigation | frontend/src/components/layout/Layout.tsx:114 | the intended sidebar is the navigation of the session's user: dashboard, then that role's items |
| Layout.Shell.HandleLogout | frontend/src/components/layout/Layout.tsx:116-123 | logout takes exactly LogoutStep's effect, and only then does the shell navigate to `/login`, always |
| Query.FindUnique | backend/src/main/java/com/mobility/delivery/repository/DeliveryRepository.java:17 | an Optional finder is empty iff no row matches, yields the single match, and fails iff two or more match |
| DeliveryEntity.Delivery.constructor | backend/src/main/java/com/mobility/delivery/entity/Delivery.java:16-17 | the built entity holds exactly the given fields |
| DeliveryEntity.Delivery.OnCreate | backend/src/main/java/com/mobility/delivery/entity/Delivery.java:76-80 | both stamps are set from the clock, each from its own reading; nothing else changes |
| DeliveryEntity.Delivery.OnUpdate | backend/src/main/java/com/mobility/delivery/entity/Delivery.java:82-85 | only `updatedAt` changes; `createdAt` is kept |
| DeliveryMapper.ToDto | backend/target/generated-sources/annotations/com/mobility/delivery/mapper/DeliveryMapperImpl.java:20-47 | null iff null; otherwise all 18 fields agree |
| DeliveryMapper.ToEntity | backend/target/generated-sources/annotations/com/mobility/delivery/mapper/DeliveryMapperImpl.java:50-70 | null iff null; the nine order fields copied; status PENDING whatever the DTO says; id, tracking number, driver, vehicle and the four stamps unset |
| DeliveryMapper.ToDtoIsInjective | backend/target/generated-sources/annotations/com/mobility/delivery/mapper/DeliveryMapperImpl.java:27-44 | entities with equal DTOs are equal |
| DeliveryMapper.DtoRoundTrip | backend/target/generated-sources/annotations/com/mobility/delivery/mapper/DeliveryMapperImpl.java:57-65 | DTO to entity to DTO keeps the nine order fields and yields PENDING with no id or tracking number |
| DeliveryMapper.EntityRoundTrip | backend/target/generated-sources/annotations/com/mobility/delivery/mapper/DeliveryMapperImpl.java:27-67 | entity to DTO to entity is the entity's order data under status PENDING and nothing else |
| DeliveryMapper.ToDtoList | backend/target/generated-sources/annotations/com/mobility/delivery/mapper/DeliveryMapperImpl.java:73-84 | null iff null; same length; element i is toDto of element i |
| DeliveryMapper.ToEntityList | backend/target/generated-sources/annotations/com/mobility/delivery/mapper/DeliveryMapperImpl.java:87-98 | null iff null; same length; element i is toEntity of element i |
| CreateRequest.BlankCheck | backend/src/main/java/com/mobility/delivery/dto/CreateDeliveryRequest.java:19-35 | no violation iff the string is non-null and not blank after trimming; otherwise its one message, naming that property |
| CreateRequest.AmountCheck | backend/src/main/java/com/mobility/delivery/dto/CreateDeliveryRequest.java:37-43 | no violation iff non-null and > 0; null gives only "required", a value <= 0 only "positive"; every violation names that property |
| CreateRequest.Violations | backend/src/main/java/com/mobility/delivery/dto/CreateDeliveryRequest.java:19-45 | no violation iff the six strings are non-blank and both amounts are positive; the "required" message for weight or price appears iff that amount is null |
| CreateRequest.NotesAreUnconstrained | backend/src/main/java/com/mobility/delivery/dto/CreateDeliveryRequest.java:45 | notes, null included, never change the violations |
| EventType.ValueIsKebabName | backend/src/main/java/com/mobility/delivery/event/EventType.java:4-14 | every value is its constant's name lower-cased with `_` turned into `-` |
| EventType.Value | backend/src/main/java/com/mobility/delivery/event/EventType.java:4-24 | `getValue`: the string each constant is constructed with, as long as the constant's name. FromValueInvertsValue reads it back, and ValueIsInjective makes the eleven distinct |
| EventType.FromValue | backend/src/main/java/com/mobility/delivery/event/EventType.java:4-14 | any constant read back from a string has that string as its value |
| EventType.FromValueInvertsValue | backend/src/main/java/com/mobility/delivery/event/EventType.java:16-24 | reading back a constant's value gives the constant |
| EventType.ValueIsInjective | backend/src/main/java/com/mobility/delivery/event/EventType.java:4-14 | the eleven values are pairwise distinct |
| EventType.Dispatch | backend/src/main/java/com/mobility/delivery/kafka/KafkaConsumerService.java:24-36 | each of the three handlers is chosen exactly for its own wire string |
| EventType.OnlyThreeEventsHandled | backend/src/main/java/com/mobility/delivery/kafka/KafkaConsumerService.java:24-36 | of the constants, exactly CREATED, STATUS_UPDATED and DELIVERED have a handler; `delivery-assigned` falls to the default |
| DeliveryRepository.FindByTrackingNumber | backend/src/main/java/com/mobility/delivery/repository/DeliveryRepository.java:17 | empty iff no row has that tracking number; a found row is in the table and has it |
| DeliveryRepository.FindByStatus | backend/src/main/java/com/mobility/delivery/repository/DeliveryRepository.java:19 | exactly the rows with that status, each as often as stored, in table order |
| DeliveryRepository.FindByDriverId | backend/src/main/java/com/mobility/delivery/repository/DeliveryRepository.java:21 | exactly the rows of that driver, in table order |
| DeliveryRepository.FindByCustomerPhone | backend/src/main/java/com/mobility/delivery/repository/DeliveryRepository.java:23 | exactly the rows with that phone, in table order |
| DeliveryRepository.FindByCreatedAtBetween | backend/src/main/java/com/mobility/delivery/repository/DeliveryRepository.java:25-27 | exactly the rows with start <= createdAt <= end; rows on either bound are included |
| DeliveryRepository.FindByCity | backend/src/main/java/com/mobility/delivery/repository/DeliveryRepository.java:29-30 | exactly the rows picked up in or delivered to the city, each once |
| DeliveryRepository.CountByStatus | backend/src/main/java/com/mobility/delivery/repository/DeliveryRepository.java:32-33 | the count equals the size of findByStatus |
| DeliveryRepository.InsertNewestFirst | backend/src/main/java/com/mobility/delivery/repository/DeliveryRepository.java:35-36 | inserting into a newest-first list keeps it newest-first and adds exactly that row |
| DeliveryRepository.SortNewestFirst | backend/src/main/java/com/mobility/delivery/repository/DeliveryRepository.java:35-36 | the result is ordered by createdAt descending and is a permutation of the input |
| DeliveryRepository.FindByStatusIn | backend/src/main/java/com/mobility/delivery/repository/DeliveryRepository.java:35-36 | exactly the rows whose status is listed, each as often as stored, by createdAt descending |
| DeliveryRepository.TrackingNumberFindsAtMostOne | backend/src/main/java/com/mobility/delivery/entity/Delivery.java:24-25 | with unique tracking numbers, findByTrackingNumber never reports several rows |
| DeliveryRepository.Inserted | backend/src/main/java/com/mobility/delivery/entity/Delivery.java:20-74 | an insert succeeds iff every NOT NULL column is set and the tracking number is new; the stored row gets the next identity value; a missing column is reported as such |
| DeliveryRepository.Replace | backend/src/main/java/com/mobility/delivery/service/DeliveryService.java:118 | the update rewrites the row with that id and no other, and keeps the table's length |
| DeliveryRepository.Committed | backend/src/main/java/com/mobility/delivery/entity/Delivery.java:82-85 | a clean entity is left as loaded; a dirty one gets a new updatedAt at commit |
| DeliveryRepository.DeliveryTable.constructor | backend/src/main/java/com/mobility/delivery/entity/Delivery.java:20-22 | the table starts empty, valid, with the identity at 1 |
| DeliveryRepository.DeliveryTable.Persist | backend/src/main/java/com/mobility/delivery/service/DeliveryService.java:57 | onCreate runs first; a refused insert leaves table and identity as they were; an accepted one appends the row under a fresh id written back to the entity; the table stays valid |
| DeliveryRepository.DeliveryTable.Flush | backend/src/main/java/com/mobility/delivery/service/DeliveryService.java:118 | at commit a changed entity gets onUpdate and rewrites its row; an unchanged one writes nothing; the table stays valid |
| DeliveryRepository.ReplaceKeepsValid | backend/src/main/java/com/mobility/delivery/entity/Delivery.java:24-25 | rewriting a stored row, keeping its id and tracking number, preserves completeness and uniqueness |
| DeliveryService.GenerateTrackingNumber | backend/src/main/java/com/mobility/delivery/service/DeliveryService.java:147-149 | "DEL", the milliseconds in decimal, then the UUID's first 8 characters upper-cased; the last 8 characters contain no lower-case letter |
| DeliveryService.TrackingNumberAlphabet | backend/src/main/java/com/mobility/delivery/service/DeliveryService.java:147-149 | for a UUID's text, every character after "DEL" is a digit or A-F |
| DeliveryService.BuildEvent | backend/src/main/java/com/mobility/delivery/service/DeliveryService.java:153-171 | the event carries the type's wire value, the given id and time, and mirrors the record's 14 payload fields |
| DeliveryService.EventAgreesWithDto | backend/src/main/java/com/mobility/delivery/service/DeliveryService.java:153-171 | the event and the DTO built from the same record agree on every shared property |
| DeliveryService.EventLog.Send | backend/src/main/java/com/mobility/delivery/service/DeliveryService.java:173 | the message is appended to the topic iff the broker accepts it |
| DeliveryService.NewDelivery | backend/src/main/java/com/mobility/delivery/service/DeliveryService.java:40-54 | the new record is PENDING with driver and vehicle "", copies the nine request fields, and leaves id and stamps unset |
| DeliveryService.StatusUpdated | backend/src/main/java/com/mobility/delivery/service/DeliveryService.java:104-116 | the requested status whatever the old one; pickupTime only for PICKED_UP, deliveryTime only for DELIVERED; notes only when non-null; no other field changes |
| DeliveryService.SetStatus | backend/src/main/java/com/mobility/delivery/service/DeliveryService.java:105-116 | the setter calls turn the entity into StatusUpdated of itself |
| DeliveryService.AssignedTo | backend/src/main/java/com/mobility/delivery/service/DeliveryService.java:134-136 | driver, vehicle and status ASSIGNED set from any status; no other field changes |
| DeliveryService.Assign | backend/src/main/java/com/mobility/delivery/service/DeliveryService.java:134-136 | the three setter calls turn the entity into AssignedTo of itself |
| DeliveryService.ValidRequestIsStored | backend/src/main/java/com/mobility/delivery/service/DeliveryService.java:40-57 | a request that passes validation, under an unused tracking number, is always stored |
| DeliveryService.NullFreeRequestIsStored | backend/src/main/java/com/mobility/delivery/service/DeliveryService.java:40-57 | every request whose eight constrained fields are set is stored under an unused tracking number, whatever their values |
| DeliveryService.InvalidRequestIsStoredUnchecked | backend/src/main/java/com/mobility/delivery/service/DeliveryService.java:40-57 | a request with a blank name or an amount <= 0, which validation refuses, is stored when the service is called directly |
| DeliveryService.Service.constructor | backend/src/main/java/com/mobility/delivery/service/DeliveryService.java:28-30 | the service is built over a valid table and an event log |
| DeliveryService.Service.PublishDeliveryEvent | backend/src/main/java/com/mobility/delivery/service/DeliveryService.java:151-177 | at most one message, BuildEvent of the record to "delivery-events"; a refusal changes nothing else |
| DeliveryService.Service.CreateDelivery | backend/src/main/java/com/mobility/delivery/service/DeliveryService.java:32-64 | stored: one row appended, one CREATED event built from it, and its DTO returned; refused: table and topic unchanged and the error returned |
| DeliveryService.Service.PostDelivery | backend/src/main/java/com/mobility/delivery/controller/DeliveryController.java:26-31 | a request with violations is answered with them, and table and topic are untouched; a valid one has exactly createDelivery's effect: stored gives the appended row, one CREATED event and its DTO, refused leaves table and topic unchanged; a valid one fails only on a tracking number already in the table |
| DeliveryService.Service.GetDeliveryByTrackingNumber | backend/src/main/java/com/mobility/delivery/service/DeliveryService.java:66-74 | succeeds iff a row has that tracking number, and returns its DTO; otherwise the not-found error; nothing changes |
| DeliveryService.Service.GetAllDeliveries | backend/src/main/java/com/mobility/delivery/service/DeliveryService.java:76-81 | the DTOs of all rows in table order; nothing changes |
| DeliveryService.Service.GetDeliveriesByStatus | backend/src/main/java/com/mobility/delivery/service/DeliveryService.java:83-88 | the DTOs of findByStatus in order, all with that status; nothing changes |
| DeliveryService.Service.GetDeliveriesByDriver | backend/src/main/java/com/mobility/delivery/service/DeliveryService.java:90-95 | the DTOs of findByDriverId in order, all of that driver; nothing changes |
| DeliveryService.Service.PublishAndCommit | backend/src/main/java/com/mobility/delivery/service/DeliveryService.java:118-124 | the event and the DTO come from the entity before the commit; the commit rewrites the row iff a field changed |
| DeliveryService.Service.UpdateDeliveryStatus | backend/src/main/java/com/mobility/delivery/service/DeliveryService.java:97-125 | found: the DTO and the one STATUS_UPDATED event show StatusUpdated of the loaded row before the commit, and the row is rewritten iff it changed; not found: the not-found error; several rows: the result-size error; in both failures table and topic are unchanged |
| DeliveryService.Service.AssignDeliveryToDriver | backend/src/main/java/com/mobility/delivery/service/DeliveryService.java:127-145 | found: the DTO and the one DELIVERY_ASSIGNED event show AssignedTo of the loaded row before the commit, and the row is rewritten, with a new updatedAt, iff it changed; not found: the not-found error; several rows: the result-size error; in both failures table and topic are unchanged |
| DriverRepository.FindByDriverId | backend/src/main/java/com/mobility/delivery/repository/DriverRepository.java:16 | empty iff no driver has that id; a found driver is in the table and has it |
| DriverRepository.FindByPhoneNumber | backend/src/main/java/com/mobility/delivery/repository/DriverRepository.java:18 | empty iff no driver has that phone; a found driver has it |
| DriverRepository.FindByEmail | backend/src/main/java/com/mobility/delivery/repository/DriverRepository.java:20 | empty iff no driver has that e-mail; a found driver has it |
| DriverRepository.KeyedFindersYieldAtMostOne | backend/src/main/java/com/mobility/delivery/entity/Driver.java:23-36 | with the unique columns, none of the three finders reports several drivers |
| DriverRepository.FindByStatus | backend/src/main/java/com/mobility/delivery/repository/DriverRepository.java:22 | exactly the drivers with that status, in table order |
| DriverRepository.FindAvailableDrivers | backend/src/main/java/com/mobility/delivery/repository/DriverRepository.java:24-25 | exactly the drivers whose stored status text is 'AVAILABLE' |
| DriverRepository.AvailableDriversAreFindByStatus | backend/src/main/java/com/mobility/delivery/repository/DriverRepository.java:24-25 | findAvailableDrivers equals findByStatus(AVAILABLE) |
| DriverRepository.FindByLocationContaining | backend/src/main/java/com/mobility/delivery/repository/DriverRepository.java:27-28 | exactly the drivers whose location contains the given string |
| DriverRepository.EmptyLocationMatchesAll | backend/src/main/java/com/mobility/delivery/repository/DriverRepository.java:27-28 | an empty location matches every driver |
| VehicleRepository.FindByVehicleId | backend/src/main/java/com/mobility/delivery/repository/VehicleRepository.java:17 | empty iff no vehicle has that id; a found vehicle has it |
| VehicleRepository.VehicleIdFindsAtMostOne | backend/src/main/java/com/mobility/delivery/entity/Vehicle.java:23-24 | with unique vehicle ids, findByVehicleId never reports several vehicles |
| VehicleRepository.FindByLicensePlate | backend/src/main/java/com/mobility/delivery/repository/VehicleRepository.java:19 | empty iff no vehicle has that plate; a found vehicle has it |
| VehicleRepository.SharedPlateIsNonUnique | backend/src/main/java/com/mobility/delivery/entity/Vehicle.java:32-33 | two vehicles may share a plate within the table's constraints, and then the finder fails |
| VehicleRepository.DistinctPlatesFindAtMostOne | backend/src/main/java/com/mobility/delivery/repository/VehicleRepository.java:19 | "at most one" holds only under the assumption that plates are distinct |
| VehicleRepository.FindByStatus | backend/src/main/java/com/mobility/delivery/repository/VehicleRepository.java:21 | exactly the vehicles with that status, in table order |
| VehicleRepository.FindByType | backend/src/main/java/com/mobility/delivery/repository/VehicleRepository.java:23 | exactly the vehicles of that type, in table order |
| VehicleRepository.FindByDriverId | backend/src/main/java/com/mobility/delivery/repository/VehicleRepository.java:25 | exactly the vehicles of that driver, in table order |
| VehicleRepository.FindAvailableVehicles | backend/src/main/java/com/mobility/delivery/repository/VehicleRepository.java:27-28 | exactly the vehicles whose stored status text is 'AVAILABLE' |
| VehicleRepository.AvailableVehiclesAreFindByStatus | backend/src/main/java/com/mobility/delivery/repository/VehicleRepository.java:27-28 | findAvailableVehicles equals findByStatus(AVAILABLE) |
| VehicleRepository.FindAvailableVehiclesByType | backend/src/main/java/com/mobility/delivery/repository/VehicleRepository.java:30-31 | exactly the vehicles that are AVAILABLE and of that type, in table order |
| VehicleRepository.AvailableByTypeNarrowsAvailable | backend/src/main/java/com/mobility/delivery/repository/VehicleRepository.java:30-31 | the by-type query is findAvailableVehicles narrowed to that type, hence an ordered subset of it |

## Left out

- **HTTP transport.**
  - axios, the base URL, time-outs and the server are not modelled.
  - Each call takes the server's reply as a parameter.
  - `window.location.href = '/login'` is recorded as a redirect, not performed.
- **Query strings.** The strings are built, but their percent-encoding and serialisation into the URL are not modelled.
- **Concurrency.** Interleavings of overlapping asynchronous actions are left out. Each action is one atomic step from call to completion.
- **zustand `persist` middleware.** The module `Session` models only `partialize`. It leaves out the `auth-storage` item the middleware writes and its rehydration at start-up, because their timing belongs to the library.
- **Rendering.** JSX, spinners, icons and class names are left out. Toasts are recorded as values.
- **react-router matching.**
  - Paths are taken as already normalised.
  - Trailing slashes and case-insensitive matching are not modelled.
- **Clock and randomness.** `LocalDateTime.now()`, `System.currentTimeMillis()` and `UUID.randomUUID()` are parameters. So nothing shows that two generated tracking numbers differ; a collision surfaces as the unique-constraint error.
- **Kafka.**
  - The producer and the consumer are not modelled.
  - The topic is an append-only log.
  - An asynchronous send failure completes a future that nobody waits on, so only the broker's immediate acceptance is modelled.
  - The consumer handlers only log; their dispatch on the wire string is modelled.
- **`BigDecimal`.** Weight and price are `real`: no arithmetic is done on them, and `@Positive` compares with zero.
- **Null list elements.** The mapper's list methods take lists of non-null elements. A null element inside a list maps to a null entry in Java, and that case is not modelled.
- **DriverRepository.FindByLocationContaining:**
  - `%` and `_` inside the argument are taken literally, whereas the database reads them as wildcards.
  - Case sensitivity depends on the database collation and is not modelled.
- **DeliveryRepository.DeliveryTable.Persist:**
  - A refused insert leaves the identity sequence as it was, whereas a database may already have used up a value.
  - `save` of a detached entity (one with an id that was not loaded in the transaction) does not occur in the service and is not modelled.
- **Driver and vehicle writes.** Their timestamp hooks and inserts are not modelled, because the core only queries those tables.
- **Logging.** All logging calls are left out.
- **Controller mappings.**
  - Only the `@Valid` gate of `createDelivery` is modelled (`DeliveryService.Service.PostDelivery`).
  - `UpdateDeliveryStatusRequest.status` is not optional in the model, because its one caller validates the body with `@Valid` (backend/src/main/java/com/mobility/delivery/controller/DeliveryController.java:64). So a direct call with a null status is not modelled: it would publish an event with a null status, and the commit's NOT NULL failure would roll back the row but not the message.
- **Unordered queries.** DeliveryRepository.FindByStatus, FindByDriverId, FindByCustomerPhone, FindByCreatedAtBetween, FindByCity, the driver and vehicle list finders, and `findAll` behind DeliveryService.Service.GetAllDeliveries have no ORDER BY, so the database promises no order. The model fixes that order as the table's sequence: their "in table order" and element-by-element clauses hold only for that choice. A database may return rows in another order, for instance after an update moves a row. Only FindByStatusIn sorts, and it is stated up to the order of equal stamps.
- **LoginForm.Form.successCalls.** It counts the times `onSuccess?.()` is reached (frontend/src/components/auth/LoginForm.tsx:34). The prop is optional (lines 13-14), and the application mounts the form on /login without it (frontend/src/App.tsx:135). So in the application each such call does nothing.
- **The browser's e-mail check.**
  - The model takes the e-mail as the input's value after the browser has stripped newlines and surrounding whitespace.
  - Domains are checked as ASCII labels: a browser's conversion of non-ASCII domain names is not modelled.
  - The wording of the browser's message is not modelled; only the refusal is counted.

## Findings

| source | as written | input that shows it | evidently intended | confidence | as-written member | corrected member |
|---|---|---|---|---|---|---|
| frontend/src/components/layout/Layout.tsx:30 | `user` is destructured from `useAuthActions()`, whose result has no `user` member, so every role test in the navigation builder sees an undefined user | a signed-in CLIENT on any path: the sidebar shows only "Tableau de bord" | take `user` from `useAuth()`, so the sidebar lists the items of the session user's role | not executed | Layout.NavigationAsWritten, Layout.ClientSeesOnlyDashboard | Layout.Navigation |
