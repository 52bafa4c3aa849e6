# ControlHub: verified model

A Dafny model of the parts of ControlHub that carry real state or real encodings, with proofs over all inputs, all runs
and all interleavings.

- **Realtime hub.** `HubCore.dfy` holds channels, registries and the presence log; `HubProtocol.dfy` interleaves any
  number of goroutines over a readers-writer lock, with every channel send a step of its own; `HubProofs.dfy` shows what
  every step keeps, `HubRuns.dfy` what follows for runs and `HubDelivery.dfy` who is told what; `Hub.dfy` is the hub as
  an object with maps updated in place.
- **Tokens.** `TokenRotation.dfy` interleaves login, MFA, refresh and logout over the refresh-token table;
  `RefreshRotation.dfy` proves what rotation guarantees with and without overlap; `AuthHandler.dfy` has the handlers as
  methods, each a run of the protocol; `Credentials.dfy` puts the password and TOTP checks in place.
- **Stores.** `Records.dfy`, `Postgres.dfy` and `Stores.dfy` specify the records, the SQL statements with the schema's keys
  and cascades, and every call of the shared interface; `MemoryStore.dfy` and `PostgresStore.dfy` are the two stores as
  objects; `Simulation.dfy` says exactly when they agree. `GroupHierarchy.dfy`, `TableProofs.dfy`, `GroupProtocol.dfy`
  and `Enrollment.dfy` prove the group forest, the health count and the enrollment bound with interleaved statements.
  `AuditLog.dfy` and `Sessions.dfy` cover the ledger and the session timeline.
- **Credentials.** `Bits.dfy`, `Integers.dfy`, `Text.dfy` and `Base.dfy` define bit regrouping, bitwise arithmetic,
  decimal printing and scanning, and base64 and base32 (RFC 4648); `Passwords.dfy` is the Argon2 string codec and
  `Totp.dfy` RFC 6238 over the truncation of section 5.3 of RFC 4226.
- **Updates.** `Utf8.dfy` and `Json.dfy` define UTF-8 and JSON strings (section 7 of RFC 8259) as Go and serde write them;
  `Manifests.dfy` compares what the server signs with what the agent verifies; `Updater.dfy` is the update check.

`dafny verify dfyconfig.toml` checks everything.

Where the code and its comments disagree the model follows the code. The updater's header promises that a downgrade is
rejected; the code reports an older version as the latest one, and `Updates.Updater.CheckAndApply` says so. A
comment there says that the agent serialises a package the same as the server; `Manifests.SameBytes` gives the exact condition.
The comment in the consent handler announces a search across all organizations; the search is within the nil one, and
`Sessions.ConsentEffect` gives its exact effect.

## Model

| member | source | states |
|---|---|---|
| `HubRuns.ChannelSafety` | services/realtime/internal/hub/hub.go:59-205 | In every interleaving nothing is sent on a closed channel and none is closed twice; every registered session has an open channel of its own |
| `HubRuns.DeliveryConservation` | services/realtime/internal/hub/hub.go:156-171 | For every client channel in every run: attempted = consumed + buffered + dropped, the buffer within its capacity, a drop exactly when it was full, consumption an order-preserving choice of the attempts |
| `HubRuns.ClientSeesOwnOrgOnly` | services/realtime/internal/hub/hub.go:111-120 | A registered client sits under the keys of its own session and has consumed only messages broadcast to its organization |
| `HubRuns.RegistryMatchesEvents` | services/realtime/internal/hub/hub.go:59-136 | A device is registered exactly when its last presence event is online; no organization keeps an empty client map; keys match sessions |
| `HubRuns.OfflineEventsAlternate` | services/realtime/internal/hub/hub.go:80-100 | Two offline events of a device always have an online event between them |
| `HubRuns.SweepRemovesExactlyTheStale` | services/realtime/internal/hub/hub.go:181-202 | From taking the lock to releasing it a sweep leaves exactly the agents heard from within the TTL of its tick, and announces each of the others offline once |
| `HubRuns.SilenceBound` | services/realtime/internal/hub/hub.go:173-205 | While the last completed tick is at most five seconds old no registered agent has been silent for more than TTL plus five seconds |
| `HubRuns.NoEarlyRemoval` | services/realtime/internal/hub/hub.go:183-200 | An agent leaves the registry only by being unregistered or by a sweep that finds it silent for longer than the TTL |
| `HubRuns.RemovedIsClosed` | services/realtime/internal/hub/hub.go:84-87 | The step that removes an agent closes its channel, which was open, for the first and only time |
| `HubRuns.HolderProgress` | services/realtime/internal/hub/hub.go:149-171 | Whoever holds the lock is never blocked, because sends never block: it can always release it or take a step that leaves it fewer to take |
| `HubRuns.HolderReleases` | services/realtime/internal/hub/hub.go:149-171 | From every such state the holder alone, within a bound set by the agents it has to examine and the clients of an organization, reaches the release of the lock |
| `HubDelivery.RegistrationAnnounced` | services/realtime/internal/hub/hub.go:59-78 | In every run, from taking the lock to releasing it: the agent is registered with a heartbeat of now, every client of its organization is offered one message, device online with its id and host name, and no other client is offered anything |
| `HubDelivery.UnregistrationAnnounced` | services/realtime/internal/hub/hub.go:80-100 | Likewise: a registered agent goes, and every client of its organization is offered one message, device offline with its id and host name and no timeout; for an unknown one nobody is offered anything |
| `HubDelivery.SweepAnnounced` | services/realtime/internal/hub/hub.go:181-202 | Likewise for a whole sweep: every client is offered, in order, one message for each agent of its own organization that was silent for longer than the TTL, with its host name and the timeout, and nothing else |
| `HubDelivery.BroadcastReachesAll` | services/realtime/internal/hub/hub.go:149-171 | Whatever else goes on between a broadcast taking and releasing the read lock: a message that can be encoded is offered by one step each to all clients of the organization and by no other step to anybody; one that cannot to nobody |
| `HubDelivery.DrainDelivers` | services/realtime/internal/hub/hub.go:163-168 | A client that goes on receiving gets, in order, everything that was not dropped |
| `HubDelivery.HeartbeatKeeps` | services/realtime/internal/hub/hub.go:102-109 | After a heartbeat of a registered agent it stays registered, whatever sweeps run, while no more than the TTL passes and nobody unregisters it |
| `HubDelivery.TtlOfRun` | services/realtime/internal/hub/hub.go:42-46 | The TTL of a run is the one given, 45 seconds if that is not positive |
| `HubProofs.StepKeepsInv` | services/realtime/internal/hub/hub.go:59-205 | Every step of every goroutine keeps the whole protocol invariant (lock, ownership of channels, broadcasts under way, sweep, presence log, heartbeats) |
| `HubProofs.NewHubInv` | services/realtime/internal/hub/hub.go:42-57 | A new hub satisfies the protocol invariant |
| `HubCore.Conservation` | services/realtime/internal/hub/hub.go:163-168 | The conservation law for one channel follows from the channel invariant |
| `HubCore.OfferKeepsChannelOk` | services/realtime/internal/hub/hub.go:164-168 | A non-blocking send, taken or dropped, keeps the channel invariant |
| `HubCore.LastOnlineMeansOnlineSince` | services/realtime/internal/hub/hub.go:183-200 | The log shows a device online at its end exactly when it has an online event and no offline event after it |
| `HubCore.OnlineBetweenOfflines` | services/realtime/internal/hub/hub.go:183-200 | In an alternating log two offline events of a device have an online event between them |
| `HubClass.OfferEach` | services/realtime/internal/hub/hub.go:156-171 | The broadcast loop: a message that can be encoded is offered once to the channel of every client of the organization, in any order, joining the buffer where there is room; no other channel changes, and none at all when it cannot be encoded |
| `HubClass.Hub.constructor` | services/realtime/internal/hub/hub.go:42-57 | An empty hub; a TTL that is not positive becomes 45 seconds |
| `HubClass.Hub.BroadcastToOrgLocked` | services/realtime/internal/hub/hub.go:156-171 | Every client of the organization is offered the message once and no other channel changes; nothing changes when the message cannot be encoded |
| `HubClass.Hub.RegisterAgent` | services/realtime/internal/hub/hub.go:59-78 | The session is stored with a heartbeat of now, the log says online, and every client of its organization is offered the online message with its id and host name |
| `HubClass.Hub.RemoveAgent` | services/realtime/internal/hub/hub.go:186-199 | The agent goes, its channel is closed, the log says offline, and every client of its organization is offered the offline message with its id, host name and whether its time had run out |
| `HubClass.Hub.UnregisterAgent` | services/realtime/internal/hub/hub.go:80-100 | Removes a registered agent and leaves the hub alone otherwise |
| `HubClass.Hub.RecordHeartbeat` | services/realtime/internal/hub/hub.go:102-109 | Moves the heartbeat of a registered agent to now and nothing else |
| `HubClass.Hub.RegisterClient` | services/realtime/internal/hub/hub.go:111-120 | The session is there under its organization and user; every other client is as it was |
| `HubClass.Hub.UnregisterClient` | services/realtime/internal/hub/hub.go:122-136 | The client goes and its channel is closed; every other client is as it was, and an organization left without clients goes too |
| `HubClass.Hub.BroadcastTelemetry` | services/realtime/internal/hub/hub.go:138-147 | The heartbeat of a registered agent becomes now, and every client of the organization is offered the telemetry |
| `HubClass.Hub.Watch` | services/realtime/internal/hub/hub.go:181-202 | The sweep loop, deleting while it iterates, leaves exactly the agents within the TTL; the others are logged offline, each once, and every client is offered exactly the offline messages of those of its organization, in order |
| `HubClass.Hub.MakeChan` | services/realtime/cmd/server/main.go:56-60 | A session is registered with a channel of its own |
| `TokenRotation.Provenance` | services/api/internal/handlers/auth_handler.go:72-134 | In every interleaving every refresh token descends by refreshes from a verified password of the same user and, if MFA was enabled with a secret at that login, from an accepted TOTP code of that user |
| `TokenRotation.StepKeepsInv` | services/api/internal/handlers/auth_handler.go:54-230 | Every store call of every request, the failing ones with their errors ignored included, keeps the token invariant (history, JWTs, requests in flight, revoked parents) |
| `TokenRotation.ParentsKept` | services/api/internal/handlers/auth_handler.go:145-160 | A token that has been refreshed is revoked, unless a revocation of it failed in the database |
| `TokenRotation.LookUpInTime` | services/api/internal/handlers/auth_handler.go:144-149 | In every run a token that is looked up with success was issued at most seven days before and is not revoked |
| `TokenRotation.ChallengeInTime` | services/api/internal/handlers/auth_handler.go:72-119 | In every run an accepted code answers, within fifteen minutes, a challenge issued when the password of the same user had verified; the one other JWT that passes for a challenge is an access token of a role with that name |
| `RefreshRotation.RevokedForever` | services/api/internal/handlers/auth_handler.go:144-151 | After the first revocation of a token no lookup of it ever succeeds, whatever else fails |
| `RefreshRotation.SuccessorsBound` | services/api/internal/handlers/auth_handler.go:137-161 | The tokens ever issued for refreshing a token are at most the refreshes of it in flight when its first revocation completed plus the revocations of it that had failed until then |
| `RefreshRotation.FlightBound` | services/api/internal/handlers/auth_handler.go:137-161 | After revocation, successors plus refreshes in flight never grow |
| `RefreshRotation.RefreshedOnce` | services/api/internal/handlers/auth_handler.go:137-161 | A token that no two requests were refreshing at once, and whose revocation did not fail, is refreshed at most once and then revoked, whatever goes on with all other tokens |
| `RefreshRotation.LoginChain` | services/api/internal/handlers/auth_handler.go:137-230 | If that holds of the tokens of one login they form a chain, each descending from the one before, with at most one live token, whatever other logins do |
| `RefreshRotation.SerialRotation` | services/api/internal/handlers/auth_handler.go:137-230 | If it holds of every token, while requests for different tokens and logins overlap at will: one refresh a token, one chain a login with one live token, and no more live tokens than logins |
| `RefreshRotation.OverlapForks` | services/api/internal/handlers/auth_handler.go:144-160 | For every k there is a run in which k refreshes of one token overlap and its login ends with k live tokens, so the bound of SuccessorsBound is attained |
| `RefreshRotation.DoubleFlightForks` | services/api/internal/handlers/auth_handler.go:144-160 | From every reachable state in which two requests are refreshing one token, whose user exists, the run can go on so that both succeed and the login has two live tokens |
| `RefreshRotation.UnrevokedForks` | services/api/internal/handlers/auth_handler.go:151-160 | From every reachable state in which a token can be looked up, as after a revocation that failed, the run can go on to give it one more child |
| `AuthHandlers.AuthHandler.Login` | services/api/internal/handlers/auth_handler.go:54-103 | Refuses exactly an unknown user or a wrong password; asks for a code exactly when MFA is enabled with a secret, by a challenge good for fifteen minutes; otherwise grants an access token for fifteen minutes and a refresh token saved for seven days |
| `AuthHandlers.AuthHandler.VerifyMFA` | services/api/internal/handlers/auth_handler.go:105-135 | Grants tokens exactly for an issued, unexpired JWT with the challenge role, of a user with a secret, and an accepted code; refuses everything else and changes nothing |
| `AuthHandlers.AuthHandler.Refresh` | services/api/internal/handlers/auth_handler.go:137-161 | Refuses a token that is unknown, revoked or expired and changes nothing; otherwise spends it, even when the user is gone, and grants the user an access token for fifteen minutes and a new refresh token saved for seven days |
| `AuthHandlers.AuthHandler.Logout` | services/api/internal/handlers/auth_handler.go:163-176 | Revokes the token given, if it is stored, and changes nothing else |
| `AuthHandlers.AuthHandler.IssueTokens` | services/api/internal/handlers/auth_handler.go:205-244 | Saves one refresh token for seven days and issues one access JWT, both with the entry that caused them |
| `AuthHandlers.LeadsKeepsInv` | services/api/internal/handlers/auth_handler.go:54-176 | Handlers that run alone are runs of the protocol, so its invariant holds after each |
| `Credentials.TokensAreEarned` | services/api/internal/handlers/auth_handler.go:72-134 | With the checks in place: behind every refresh token there is a password of its user that derives the key on record and, if MFA was enabled with a secret, a one-time code of that user within a step of its time |
| `Enrollment.EnrollmentBound` | services/api/internal/handlers/enrollment_handler.go:224-272 | Over either store, with at most k handshakes between lookup and consume, one invitation enrolls at most max_uses + k - 1 devices, plus one for every consume that failed in the database; in Postgres times_used never passes max_uses, in memory no consume fails |
| `Enrollment.BoundAttained` | services/api/internal/handlers/enrollment_handler.go:224-272 | For every store, limit, k and number f of failing consumes (none in memory) there is a run that enrolls max_uses + k - 1 + f devices |
| `Enrollment.DeviceOrigin` | services/api/internal/handlers/enrollment_handler.go:224-262 | In every run every enrolled device goes back to a lookup of its invitation, in time and before it was used up, and has its organization, the names given and the status that its requirement of approval asks for |
| `Enrollment.AloneInMemory` | services/api/internal/handlers/enrollment_handler.go:224-262 | The three steps, right after one another, are the handshake of the memory store |
| `Enrollment.AloneInPostgres` | services/api/internal/handlers/enrollment_handler.go:224-262 | And that of the Postgres store |
| `Enrollment.StepKeepsBoundInv` | services/api/internal/handlers/enrollment_handler.go:224-272 | Every store call keeps the counting invariant behind the bound |
| `Records.ClampRequest` | services/api/internal/handlers/enrollment_handler.go:71-79 | Hours are put between 1 and 168 (24 when not positive), uses are at least 1 |
| `GroupHierarchy.CascadeIsSubtree` | database/migrations/000001_initial_schema.up.sql:64-73 | The cascade from a row reaches exactly the row and its descendants |
| `GroupHierarchy.DeleteRemovesSubtree` | services/api/internal/store/postgres_store.go:298-307 | Exactly the subtree goes, with its memberships; invitations aimed at it lose their target; devices and all else stay; no reference dangles |
| `GroupHierarchy.RankedIsForest` | database/migrations/000001_initial_schema.up.sql:64-73 | Groups each younger than their parents form a forest, so the parent walk ends |
| `GroupProtocol.HierarchyIsForest` | services/api/internal/handlers/group_handler.go:75-121 | In every run of interleaved statements the groups form a forest, foreign keys hold, names and token hashes are unique |
| `GroupProtocol.HealthCountsListedDevices` | services/api/internal/store/postgres_store.go:309-376 | In every interleaving of the three-statement assignment with deletions and other assignments, memberships link rows of one organization; so the unfiltered health count equals the filtered listing, and total = online + offline |
| `GroupProtocol.HomeForGood` | services/api/internal/store/postgres_store.go:284-296 | A group never moves to another organization |
| `GroupProtocol.InsertKeepsInv` | services/api/internal/store/postgres_store.go:309-321 | The insertion of an assignment keeps the invariant although its checks were made earlier |
| `GroupProtocol.StepKeepsInv` | services/api/internal/store/postgres_store.go:239-330 | Every group, device and invitation statement keeps the invariant |
| `GroupProtocol.StepsAreCalls` | services/api/internal/store/postgres_store.go:239-330 | Every statement of the protocol has the effect of the call of the store |
| `GroupProtocol.AssignmentAlone` | services/api/internal/store/postgres_store.go:309-321 | The three statements of an assignment, right after one another, are the call of the store: the device joins exactly when group and device belong to the caller |
| `TableProofs.DeleteGroupKeeps` | services/api/internal/store/postgres_store.go:298-307 | A deletion with its cascades keeps foreign keys, unique keys and one-organization memberships |
| `TableProofs.InsertGroupKeeps` | services/api/internal/store/postgres_store.go:239-246 | An insertion, possibly refused, keeps them too |
| `TableProofs.InsertMembershipKeeps` | services/api/internal/store/postgres_store.go:317-321 | So does an assignment of a device of the same organization |
| `TableProofs.AllOwnMembers` | services/api/internal/store/postgres_store.go:368-376 | The members of a group are the members in its organization |
| `Simulation.AgreeIffTame` | services/api/internal/store/store.go:343-581 | The stores answer a call alike and stay related exactly when the call is tame: the guard a caller would check first, given call by call |
| `Simulation.InStepIffTame` | services/api/internal/store/store.go:343-581 | Over any sequence of calls the stores stay in step exactly as long as every call is tame |
| `Simulation.TameCallsSameAnswers` | services/api/internal/store/postgres_store.go:124-465 | From equal organizations, every sequence of tame calls gets the same answers from both stores |
| `Simulation.CarefulCallsAreTame` | services/api/internal/store/postgres_store.go:124-465 | Calls with fresh ids, free names, no parent groups and arguments of the caller are tame, so such callers can exchange the stores |
| `Simulation.DeleteGroupAgrees` | services/api/internal/store/store.go:462-468 | DeleteGroup: the stores agree exactly when the caller owns the group and it has no subgroup |
| `Simulation.UpdateGroupAgrees` | services/api/internal/store/store.go:443-460 | UpdateGroup: exactly when the group is not the caller's, or the name is free and no empty name, description or policy overrides would replace something |
| `Simulation.AssignAgrees` | services/api/internal/store/store.go:470-484 | AssignDeviceToGroup: exactly when group or device is missing or both belong to the caller |
| `Simulation.RemoveAgrees` | services/api/internal/store/store.go:486-493 | RemoveDeviceFromGroup: exactly when the caller owns the group |
| `Simulation.HealthAgrees` | services/api/internal/store/store.go:508-528 | GetGroupHealthSummary: exactly when the caller owns the group |
| `Simulation.HandshakeAgrees` | services/api/internal/store/store.go:538-562 | A handshake that runs alone: exactly when the invitation is refused or the device id is fresh |
| `Simulation.TokensAgree` | services/api/internal/store/store.go:343-368 | Refresh tokens: exactly when a saved token is new with known user and organization, or differs from the stored row at most in being revoked |
| `Simulation.CallKeepsTables` | services/api/internal/store/postgres_store.go:124-465 | Every call, tame or not, keeps the tables in order |
| `MemoryStoreClass.MemoryStore.SaveRefreshToken` | services/api/internal/store/store.go:343-348 | Stores the token under its string, as the specification of the call says |
| `MemoryStoreClass.MemoryStore.GetRefreshToken` | services/api/internal/store/store.go:350-358 | Finds exactly a stored token that is not revoked and has not expired, as it is stored |
| `MemoryStoreClass.MemoryStore.RevokeRefreshToken` | services/api/internal/store/store.go:360-368 | Marks a stored token revoked |
| `MemoryStoreClass.MemoryStore.ListDevices` | services/api/internal/store/store.go:371-381 | The loop lists the devices of the organization, each once |
| `MemoryStoreClass.MemoryStore.GetDevice` | services/api/internal/store/store.go:383-391 | Finds exactly a device of the organization |
| `MemoryStoreClass.MemoryStore.UpdateDeviceStatus` | services/api/internal/store/store.go:393-402 | Changes the status of a device of the organization or fails |
| `MemoryStoreClass.MemoryStore.RegisterDevice` | services/api/internal/store/store.go:404-410 | Stores device and key |
| `MemoryStoreClass.MemoryStore.CreateGroup` | services/api/internal/store/store.go:413-419 | Stores the group, policy overrides included, with no members |
| `MemoryStoreClass.MemoryStore.GetGroup` | services/api/internal/store/store.go:421-429 | Finds exactly a group of the organization |
| `MemoryStoreClass.MemoryStore.ListGroups` | services/api/internal/store/store.go:431-441 | Lists the groups of the organization, each once |
| `MemoryStoreClass.MemoryStore.UpdateGroup` | services/api/internal/store/store.go:443-460 | Empty name, description and policy overrides leave the old ones |
| `MemoryStoreClass.MemoryStore.DeleteGroup` | services/api/internal/store/store.go:462-468 | Removes the group and its members, whoever asks, and always succeeds |
| `MemoryStoreClass.MemoryStore.AssignDeviceToGroup` | services/api/internal/store/store.go:470-484 | Adds an existing device to an existing group of any organization |
| `MemoryStoreClass.MemoryStore.AssignDevices` | services/api/internal/handlers/group_handler.go:257-259 | The handler's loop adds exactly the existing devices to an existing group and changes no other group |
| `MemoryStoreClass.MemoryStore.RemoveDeviceFromGroup` | services/api/internal/store/store.go:486-493 | Removes the member, whoever asks |
| `MemoryStoreClass.MemoryStore.GetGroupDevices` | services/api/internal/store/store.go:495-506 | The loop lists the members that are devices of the organization, each once |
| `MemoryStoreClass.MemoryStore.GetGroupHealthSummary` | services/api/internal/store/store.go:508-528 | The name, and the numbers of all members that are devices of the organization, of the active ones and of the others |
| `MemoryStoreClass.MemoryStore.CreateEnrollmentInvitation` | services/api/internal/store/store.go:531-536 | Stores the invitation |
| `MemoryStoreClass.MemoryStore.GetEnrollmentInvitationByHash` | services/api/internal/store/store.go:538-553 | Finds an invitation with the hash that is in time and not used up, or reports one that has expired, one in time that is used up, or that there is none |
| `MemoryStoreClass.MemoryStore.ConsumeEnrollmentInvitation` | services/api/internal/store/store.go:555-562 | Counts a use without a limit |
| `MemoryStoreClass.MemoryStore.DeleteEnrollmentInvitation` | services/api/internal/store/store.go:576-581 | Removes the invitation, whoever asks |
| `MemoryStoreClass.MemoryStore.Handshake` | services/api/internal/handlers/enrollment_handler.go:224-272 | Enrolls the device, under the organization, with the names and key given, pending if approval is required and active if not, by an invitation with the hash in time and not used up, whose use it counts; fails and changes nothing without one; when several invitations have the hash any of them may be found |
| `MemoryStoreClass.Collect` | services/api/internal/store/store.go:374-380 | The listing loop, in whatever order the map yields |
| `MemoryStoreClass.CountStatuses` | services/api/internal/store/store.go:517-526 | The counting loop |
| `PostgresStoreClass.PostgresStore.SaveRefreshToken` | services/api/internal/store/postgres_store.go:124-131 | An existing row changes only in being revoked; a new one needs its user and organization; no other row changes |
| `PostgresStoreClass.PostgresStore.GetRefreshToken` | services/api/internal/store/postgres_store.go:133-148 | Finds exactly a stored token that is not revoked and has not expired, as it is stored |
| `PostgresStoreClass.PostgresStore.ListDevices` | services/api/internal/store/postgres_store.go:157-179 | Lists the devices of the organization, each once |
| `PostgresStoreClass.PostgresStore.GetDevice` | services/api/internal/store/postgres_store.go:181-195 | Finds exactly a device of the organization |
| `PostgresStoreClass.PostgresStore.RegisterDevice` | services/api/internal/store/postgres_store.go:210-235 | Device and credential rows in one transaction, both or neither |
| `PostgresStoreClass.PostgresStore.GetGroup` | services/api/internal/store/postgres_store.go:248-260 | Finds exactly a group of the organization |
| `PostgresStoreClass.PostgresStore.ListGroups` | services/api/internal/store/postgres_store.go:262-282 | Lists the groups of the organization, each once |
| `PostgresStoreClass.PostgresStore.UpdateGroup` | services/api/internal/store/postgres_store.go:284-296 | Overwrites name, description and policy overrides, empty or not, unless the name is taken; parent and all other rows stay |
| `PostgresStoreClass.PostgresStore.DeleteGroup` | services/api/internal/store/postgres_store.go:298-307 | Fails outside the organization; otherwise exactly the group and its descendants go, with their memberships, invitations aimed at them lose their target, and all else stays |
| `PostgresStoreClass.PostgresStore.AssignDeviceToGroup` | services/api/internal/store/postgres_store.go:309-321 | Checks group, then device, then inserts |
| `PostgresStoreClass.PostgresStore.AssignDevices` | services/api/internal/handlers/group_handler.go:257-259 | The handler's loop adds exactly the caller's devices to the caller's group and changes nothing else |
| `PostgresStoreClass.PostgresStore.RemoveDeviceFromGroup` | services/api/internal/store/postgres_store.go:323-330 | Removes a membership of a group of the organization, or fails |
| `PostgresStoreClass.PostgresStore.GetGroupDevices` | services/api/internal/store/postgres_store.go:332-356 | Lists the members in the organization, each once |
| `PostgresStoreClass.PostgresStore.GetGroupHealthSummary` | services/api/internal/store/postgres_store.go:358-376 | The name, the number of listed members although the count has no filter, of the active ones and of the others; refused outside the organization |
| `PostgresStoreClass.PostgresStore.GetEnrollmentInvitationByHash` | services/api/internal/store/postgres_store.go:403-420 | Finds the invitation with the hash if it is in time and not used up, or reports that it has expired, that it is used up, or that there is none |
| `PostgresStoreClass.PostgresStore.Handshake` | services/api/internal/handlers/enrollment_handler.go:224-272 | Enrolls the device, under the organization, with the names and key given, pending if approval is required and active if not, exactly when an invitation with the hash is in time and not used up and the id is new; the use is counted even if the id is not; fails and changes nothing without such an invitation |
| `AuditLog.Log.InsertAuditLog` | services/api/internal/store/store.go:817-824 | Appends a row whose id is its position counted from 1 |
| `AuditLog.Log.ListAuditLogs` | services/api/internal/store/store.go:826-836 | The reverse scan lists the newest rows of the organization, newest first and no more than the limit; whoever is missing is older, and nobody is missing from a shorter listing |
| `AuditLog.ListingDecreases` | services/api/internal/store/store.go:826-836 | Every listing after any inserts has strictly decreasing ids |
| `AuditLog.AppendOnly` | services/api/internal/store/store.go:817-824 | Rows once inserted stay as they are |
| `AuditLog.OthersUnseen` | services/api/internal/store/store.go:826-836 | Inserts of other organizations change no listing |
| `AuditLog.ListingIsOwnHistory` | services/api/internal/store/store.go:817-836 | Apart from ids a listing is the last limit events of the organization, newest first |
| `Sessions.TimelineHolds` | services/api/internal/store/store.go:629-646 | Over all runs and both stores: CONNECTED implies a start, TERMINATED and REJECTED an end; in MemoryStore the end is not before the start |
| `Sessions.OrderedIffStamps` | services/api/internal/store/postgres_store.go:547-562 | In every run no session is seen to end before it starts exactly when no terminal update is stamped before the start it finds, which Postgres, stamping the start of the transaction, does not ensure |
| `Sessions.EndBeforeStart` | services/api/internal/store/postgres_store.go:551-552 | For any instants t1 and t2 with t1 first there is a Postgres run: a termination begun at t1 waits for a connection stamped t2, and the session ends before it starts |
| `Sessions.StartedOnce` | services/api/internal/store/store.go:637-639 | A start is written at most once; identity, organization, device and operator never change |
| `Sessions.ConsentEffect` | services/api/internal/handlers/session_handler.go:205-214 | A consent decision changes the session exactly when it exists and, in Postgres, belongs to the organization with the nil id |
| `Sessions.ConsentNeverTakesEffect` | services/api/internal/store/postgres_store.go:547-562 | So over a database without that organization no consent decision ever changes a session |
| `Sessions.TerminatedNotFinal` | services/api/internal/store/store.go:629-646 | Over both stores, from every reachable state, any session can be terminated and connected again; it keeps that end, and its first start if it had one |
| `Sessions.SessionStore.UpdateRemoteSessionStatus` | services/api/internal/store/postgres_store.go:547-562 | Exactly one row changes: CONNECTED starts a session not started yet, TERMINATED and REJECTED end it, and the reason is stored with these two and in Postgres always; fails exactly when the store does not find it |
| `Sessions.SessionStore.CreateRemoteSession` | services/api/internal/store/postgres_store.go:525-532 | Stores the session; in Postgres refused when its id is taken or its organization, device or operator is missing |
| `Sessions.SessionStore.ListRemoteSessions` | services/api/internal/store/postgres_store.go:564-584 | Each session of the organization once; from Postgres the newest first |
| `Sessions.SessionStore.CreateSession` | services/api/internal/handlers/session_handler.go:51-113 | The device must be of the organization and active; the request overrides the setting, which overrides asking for consent; without consent the session starts at once; a refused insertion is reported and nothing stored |
| `Sessions.SessionStore.HandleConsent` | services/api/internal/handlers/session_handler.go:177-214 | DENIED becomes REJECTED, anything else CONNECTED; the session changes exactly when it exists and, in Postgres, belongs to the nil organization; the status is reported whatever happened |
| `Sessions.SessionStore.TerminateSession` | services/api/internal/handlers/session_handler.go:237-262 | A terminated status with a default reason |
| `Passwords.SixParts` | services/api/internal/auth/auth.go:53-54 | The printed string splits on the dollar sign into exactly six parts |
| `Passwords.ParsePrinted` | services/api/internal/auth/auth.go:61-88 | For all parameters of their widths, salts and hashes the printed string parses back to the same record |
| `Passwords.PrintInjective` | services/api/internal/auth/auth.go:53-54 | Different records never print as the same string |
| `Passwords.VerifyAgainstHash` | services/api/internal/auth/auth.go:39-101 | A password verifies against its own hash, and another exactly when it derives the same key |
| `Passwords.AcceptedForm` | services/api/internal/auth/auth.go:61-88 | Whatever is accepted is six parts around five dollar signs with the algorithm second, the version third, the three parameters within their widths fourth, and base64 of salt and key last |
| `Passwords.ParamsMeans` | services/api/internal/auth/auth.go:76-80 | Exactly the parameters written in their order, below their bounds, are read, up to whatever follows |
| `Passwords.Refusals` | services/api/internal/auth/auth.go:61-88 | Each refusal and its cause, in the order of the checks |
| `Base.RoundTrip64` | services/api/internal/auth/auth.go:50-51 | Unpadded base64 gives every byte string back |
| `Base.TextOf64` | services/api/internal/auth/auth.go:50-51 | The characters, read as digits of base 64 in the alphabet of RFC 4648, are the bytes as a number, most significant first, shifted left to fill the last character with zeros |
| `Base.Quantum64` | services/api/internal/auth/auth.go:50-51 | The characters of one, two and three bytes by arithmetic |
| `Base.Accepts64` | services/api/internal/auth/auth.go:82-88 | The decoder accepts exactly texts over the alphabet, line breaks aside, whose length leaves no lone last character |
| `Base.NewlinesIgnored` | services/api/internal/auth/auth.go:82-88 | Carriage returns and line feeds make no difference to the decoders |
| `Text.ScanPrinted` | services/api/internal/auth/auth.go:71-78 | A printed number is scanned back by the signed and the unsigned verb, up to whatever follows |
| `Text.ScanUintMeans` | services/api/internal/auth/auth.go:76-80 | Exactly a decimal number below the bound, after white space without a newline and up to the first other character, is scanned |
| `Text.SplitInverse` | services/api/internal/auth/auth.go:61-64 | Splitting loses nothing and splits at every separator |
| `Totp.SecretRoundTrip` | services/api/internal/auth/totp.go:20-38 | Every byte string survives base32, any letter case and any white space around it |
| `Totp.PaddedSecretRoundTrip` | services/api/internal/auth/totp.go:31-38 | So it does in padded form, by the second decoder |
| `Totp.AnyCase` | services/api/internal/auth/totp.go:28-38 | The text of a secret is decoded with any of its letters in lower case |
| `Base.TextOf32` | services/api/internal/auth/totp.go:20-26 | The characters of a secret, read as digits of base 32, are the bytes as a number, shifted left to fill the last character with zeros |
| `Base.DecodedLength32` | services/api/internal/auth/totp.go:31-31 | How many bytes a text yields; a last group of 1, 3 or 6 characters yields none |
| `Totp.SecretRefused` | services/api/internal/auth/totp.go:31-38 | A secret whose first character outside the alphabet, after trimming and upper-casing, is not a padding sign is refused: no code is generated or accepted for it |
| `Totp.TruncateIsBigEndian` | services/api/internal/auth/totp.go:48-53 | For every 20-byte code the shift-and-or form is the low 31 bits of the big-endian integer at the offset, and four bytes are there to read |
| `Totp.SixDigits` | services/api/internal/auth/totp.go:55-56 | Always six digits, which parse back to that integer modulo a million |
| `Totp.HotpSixDigits` | services/api/internal/auth/totp.go:44-56 | Codes made with any HMAC are six digits, as the validation assumes of the code generator it is given |
| `Totp.GeneratedCode` | services/api/internal/auth/totp.go:28-58 | The code of an instant: six digits, the low 31 bits of the four bytes at the offset in the HMAC, keyed with the decoded secret, of the eight big-endian bytes of the number of 30-second periods, modulo a million |
| `Totp.CountersDistinct` | services/api/internal/auth/totp.go:40-42 | Different counters are written as different messages |
| `Totp.Validate` | services/api/internal/auth/totp.go:60-77 | The loop with its early return accepts exactly a code of one of the three attempts |
| `Totp.MatchAny` | services/api/internal/auth/totp.go:67-76 | The loop over the three steps |
| `Totp.WindowExact` | services/api/internal/auth/totp.go:40-40 | The attempts fall on the step before, the step and the step after exactly outside one period around the epoch, where truncation merges two |
| `Totp.DriftWindow` | services/api/internal/auth/totp.go:60-77 | From 30 seconds on a trimmed code is accepted exactly when it is the code of step T - 1, T or T + 1 |
| `Totp.NeighbourAccepted` | services/api/internal/auth/totp.go:60-77 | A code generated at most one step away is accepted, whatever white space surrounds it |
| `Manifests.SerialiseRead` | apps/windows-agent/src/updater.rs:68-78 | Every package is read back from what serde writes; from what Go writes, whatever bytes are in its fields, with U+FFFD for each byte that is not UTF-8 |
| `Manifests.BytesDetermine` | services/api/internal/handlers/update_handler.go:54-63 | If agent and server hashed the same bytes the agent has the package of the server, as text, in all eight fields |
| `Manifests.DeterminedIffValid` | services/api/internal/handlers/update_handler.go:54-63 | The signed bytes determine the package of the server exactly when all its strings are valid UTF-8 |
| `Manifests.SameBytes` | apps/windows-agent/src/updater.rs:265-270 | Go and serde write the same bytes exactly when no field has a byte that is not UTF-8 or one of the five characters only Go escapes |
| `Manifests.BuiltVerifies` | services/api/internal/handlers/update_handler.go:118-262 | Short of a hash collision a built manifest verifies on the agent exactly when version, platform and track are valid UTF-8 and contain none of those characters |
| `Manifests.BuiltSays` | services/api/internal/handlers/update_handler.go:231-272 | Version, platform and track in their fields, the first two also in the URL and the digest, the signature of the package by the key, and an expiry seven days after issue |
| `Manifests.BadByteTrack` | services/api/internal/handlers/update_handler.go:149-262 | The track %FF, without any of those characters, is served a manifest that does not verify and that is signed over the same bytes as for %FE |
| `Manifests.VerifiedIsSigned` | apps/windows-agent/src/updater.rs:251-285 | A manifest verified with a signature made for a package of the server carries that package as text, field by field, and the package is valid UTF-8 |
| `Manifests.VerifiedMeans` | apps/windows-agent/src/updater.rs:251-285 | A manifest verifies exactly under a valid pinned key of 32 bytes with canonical base64 of 64 bytes that verify for the hash of its package; the key it carries makes no difference |
| `Base.RoundTripStrict64` | apps/windows-agent/src/updater.rs:272-276 | The strict padded decoder accepts exactly what the encoder writes |
| `Utf8.EncodeInjective` | services/api/internal/handlers/update_handler.go:246-251 | UTF-8 bytes determine the text |
| `Utf8.Forms` | services/api/internal/handlers/update_handler.go:246-246 | The four forms of UTF-8, by their marker bits and payloads |
| `Utf8.ValidIsText` | services/api/internal/handlers/update_handler.go:54-63 | A Go string is valid exactly when it is the UTF-8 of the text others are shown |
| `Json.SameMarks` | services/api/internal/handlers/update_handler.go:246-251 | What Go writes of a string determines its characters and the places of its bad bytes, and nothing more |
| `Json.EscapeForms` | services/api/internal/handlers/update_handler.go:246-246 | Which characters each writer escapes and how |
| `Manifests.LayoutSpelt` | services/api/internal/handlers/update_handler.go:54-63 | The names and the order of the fields in the signed text |
| `Updates.Updater.CheckAndApply` | apps/windows-agent/src/updater.rs:137-207 | Of an archive for a newer, signed manifest in time the digest decides: with that of the manifest, or the sentinel, it is staged and, if written in full, scheduled; with another it is refused; nothing is staged otherwise, and each other result has its exact cause |
| `Updates.Updater.VerifySha256` | apps/windows-agent/src/updater.rs:316-331 | Accepts exactly data with the digest, or anything for the sentinel |
| `Updates.Updater.StageArchive` | apps/windows-agent/src/updater.rs:297-308 | As much of the archive as the disk takes is at the path named after the version |
| `Updates.ServedScheduled` | apps/windows-agent/src/updater.rs:137-207 | A manifest as the server built it, met within seven days by an older agent that pins the key, with harmless texts: the update is scheduled and the archive staged if it has the published digest, and refused otherwise |
| `Updates.ServedArrives` | services/api/internal/handlers/update_handler.go:231-262 | Such a manifest gets as far as the digest exactly within seven days and with harmless texts |
| `Updates.StagedIsTrusted` | apps/windows-agent/src/updater.rs:137-207 | Over any run of checks every staged file comes from an unexpired, signed manifest of a strictly newer version with the signed digest or the sentinel |
| `Updates.TrustedIsPublished` | apps/windows-agent/src/updater.rs:251-330 | If signatures cannot be forged, and short of a hash collision, a trusted package was published field by field, byte for byte, and, sentinel aside, its archive is the only one with its digest |

## Left out

- HTTP routing, request decoding, CORS, server-sent events, configuration and the admin console: plumbing without a property of its own.
- Licences, alerts, software packages, deployments, telemetry storage, commands and their results, permissions and roles: records that are put and fetched, each by one call.
- Argon2, HMAC-SHA-1, SHA-256, Ed25519, the JWT signature and SemVer precedence: parameters. Where a result needs something of them it says so: a derived key has the length asked for, a signature verifies for its own digest alone, the inputs at hand are no collision of the hash, JWTs are not forged.
- Clocks and randomness: parameters of the operations. In HubProtocol and Sessions time does not go back; new ids, refresh tokens and channels are ones not used before.
- HubProtocol: deleting, closing, storing and logging inside one critical section are one step under the write lock, since nobody else can enter; every send, every examined agent and every receive is a step of its own. The lock may also be given to readers while a writer waits, which allows more runs than Go does.
- HubProtocol: a send to a channel without a buffer while its receiver waits counts as dropped; clients have buffers of 32.
- HubProtocol: sessions are values in the registry, not shared pointers; a session overwritten by a later registration leaves its channel open, so no claim is made that every channel is closed in the end. Stop is left out.
- MemoryStoreClass.MemoryStore: records are values, so that callers of GetDevice or GetGroup could change a stored record through the pointer they receive is not captured.
- TokenRotation: the deletion of users, and with it of their tokens, is left out. Failed logins, and logouts whose revocation fails, change nothing and are not steps.
- AuthHandlers: the handlers as methods run over a store that does not fail; TokenRotation has the failing calls.
- Stores: descriptions of errors, timestamps, and device fields beyond host name, version and status are left out; all failures count as one answer.
- MemoryStoreClass.MemoryStore.GetGroupHealthSummary: the average CPU and memory, always zero in this store, are left out.
- PostgresStoreClass.PostgresStore.GetGroupHealthSummary: the average CPU and memory, read from the telemetry tables, are left out with telemetry.
- PostgresStoreClass.PostgresStore.UpdateGroup: texts wider than their columns, which the database refuses, are left out, here and in every other insertion or update.
- PostgresStoreClass.PostgresStore.ListDevices: the order of the rows, by creation time, is left out with the creation times.
- PostgresStoreClass.PostgresStore.ListGroups: the order of the rows, by name in the collation of the database, is left out.
- GroupProtocol: the policy overrides are one optional text, since neither store looks inside.
- Simulation: invitations are compared but for their target group, which only Postgres clears when a group is deleted.
- Simulation: the status of a command after its result is saved and the telemetry limit, where the stores also differ, are left out with commands and telemetry.
- Sessions: the audit entries are left out. The checks of CreateSession and its insertion run one after the other; devices are not removed in between.
- AuditLog: metadata, actor and addresses of a row are one text; the Postgres audit table is left out.
- Totp: characters whose upper-case form is not ASCII stay as they are, since neither form is base32; texts that are not valid UTF-8 are left out.
- Json: a pair of escapes for one character beyond the basic plane, which neither writer produces, is not read; nor are other field orders or white space.
- Updates: fetching and downloading are arbitrary inputs of a check; installing the staged archive is left out.
