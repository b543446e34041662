# Smart school bus tracker: reconciliation job, socket gateway and list-query helper

This project is a Dafny model of three parts of a school-bus tracking backend.

- **Reconciliation job** (`reconciliation.dfy`, module `Reconciliation`). This is the scheduled trigger. It computes the start of today and collects the distinct bus ids of active, unexpired schedules. It then sets `isAssigned` on buses in and out of that set, cancels stale trips that never started and completes stale trips left running. It reports four modified counts. The store is a class whose `buses` and `trips` collections the bulk updates rewrite in place. Each bulk update is a method with a loop, proved equal to a function of the old collection. The properties are lemmas about `ReconcileDb`, the whole job on values: which buses end up assigned, where every trip ends up, idempotence, and what the counts mean.
- **Socket gateway** (`socket_gateway.dfy`, module `SocketGateway`). The handshake middleware is the pure function `Authenticate`. It yields a viewer session from a bearer token, a bus session from an API key, a 401 refusal, or no verdict when neither credential is sent. `jwt.verify`, `User.findById` and `Bus.findOne` are parameters (`Directory`). The connect handler and the `gps-ping` listener are methods of a `Socket` class. They change its rooms and, through a `Hub`, the position updates requested of the bus store and the broadcasts.
- **List-query helper** (`api_features.dfy`, module `ApiFeatures`). This is the class `APIFeatures`. Its `filter`, `sort`, `pagination` and `limitField` methods each append operations to an abstract query, the list of calls made on it. They never touch the query string.

`text.dfy` (module `Text`) models the JavaScript built-ins these rely on: `split` with one separator character, `join`, `startsWith` and `parseInt(s, 10)`. Lemmas relate them to simple reference definitions. `maybe.dfy` holds the `Option` type.

Four behaviours of the code that the model keeps:
- Admin and Manager viewers are put in the `live-map` room on connect.
- A handshake with neither a header nor an API key never calls `next`, so it gets no error (`Hang`).
- A handshake with both a header and an API key is decided by the header alone.
- A bus lookup that throws yields "Invalid credentials".

Dates are millisecond timestamps. "Today" is the last local midnight for a fixed offset from UTC. A bulk update's modified count counts the documents it selects whose value actually changes, as MongoDB reports `modifiedCount`. The job's result record `{assigned, unassigned, cancelledTrip, completedTrip}` is `Counts(assignedBuses, unassignedBuses, cancelledTrips, completedTrips)`, because `assigned` is a reserved word in Dafny.

## Model

| member | source | states |
|---|---|---|
| Reconciliation.LocalMidnight | Triggers/functions/setAssignedBusSchema.js:12-13 | today is a local midnight (time of day zeroed) and lies within the day-long window ending at now |
| Reconciliation.LocalMidnightUnique | Triggers/functions/setAssignedBusSchema.js:12-13 | that midnight is the only one in the window, so today is the start of the current calendar day |
| Reconciliation.SameDaySameToday | Triggers/functions/setAssignedBusSchema.js:12-13 | every instant of the same local day gives the same today |
| Reconciliation.DistinctActiveBusIds | Triggers/functions/setAssignedBusSchema.js:22-25 | the returned ids are exactly the bus ids of schedules with isActive true and endDate >= today, each once |
| Reconciliation.ReconcileAssignsExactlyActive | Triggers/functions/setAssignedBusSchema.js:32-42 | after the job a bus is assigned iff some active, unexpired schedule names it, including when there is none; bus ids and order are kept |
| Reconciliation.AssignModifiedDisjoint | Triggers/functions/setAssignedBusSchema.js:39-42 | the unassign update counts the same on the collection the assign update left as on the original |
| Reconciliation.ReconcileTrips | Triggers/functions/setAssignedBusSchema.js:45-60 | a NOT_STARTED trip dated before today becomes CANCELLED, an IN_PROGRESS one COMPLETED, all others and all other fields are untouched, and no status moves backwards |
| Reconciliation.MoveModifiedAfterCancel | Triggers/functions/setAssignedBusSchema.js:54-60 | the complete update counts only trips that were IN_PROGRESS before the job: a trip just cancelled is not matched again |
| Reconciliation.ReconcileKeepsSchedules | Triggers/functions/setAssignedBusSchema.js:22-25 | schedules are only read |
| Reconciliation.ReconcileIdempotent | Triggers/functions/setAssignedBusSchema.js:22-60 | a second run with the same today leaves the store as the first run left it and reports zero in all four counts |
| Reconciliation.ReconcileCounts | Triggers/functions/setAssignedBusSchema.js:62-67 | the four counts are, in order, buses newly assigned, buses newly released, stale trips cancelled and stale trips completed, all measured on the store before the job |
| Reconciliation.Store.UpdateBuses | Triggers/functions/setAssignedBusSchema.js:32-42 | the in-place bulk flag update leaves the collection as AssignAll of the old one and returns its modified count |
| Reconciliation.Store.UpdateTrips | Triggers/functions/setAssignedBusSchema.js:45-60 | the in-place bulk status update leaves the collection as MoveAll of the old one and returns its modified count |
| Reconciliation.Store.Reconcile | Triggers/functions/setAssignedBusSchema.js:1-68 | the job leaves the store as ReconcileDb says, returns its counts, and every bus is assigned iff its id is in the active set |
| SocketGateway.BearerToken | services/initializeSocket.service.js:26-27 | the token is the space-free word right after "Bearer ", and it is empty exactly when the header lacks the prefix or no word follows it |
| SocketGateway.Authenticate | services/initializeSocket.service.js:13-58 | no verdict iff neither credential is sent; an admitted viewer came from a verified token and an active user found by its id; an admitted bus came from the API key with no header present |
| SocketGateway.HeaderTakesPrecedence | services/initializeSocket.service.js:23-46 | with a header present, the API key and the bus lookup cannot change the outcome, and no bus session results |
| SocketGateway.RefusalCauses | services/initializeSocket.service.js:26-56 | each of the five 401 errors happens exactly in the situation its message names |
| SocketGateway.ViewerRoomsByRole | services/initializeSocket.service.js:67-73 | a viewer is in user:id and role:role; receive_notification and live-map hold exactly the Admin and Manager viewers |
| SocketGateway.Socket.Handshake | services/initializeSocket.service.js:23-57 | the middleware sets socket.user for an admitted viewer, socket.bus for an admitted bus, and nothing otherwise (never both); a refusal passes a 401 AppError with its message to next |
| SocketGateway.ErrorFor | services/initializeSocket.service.js:30-56 | every handshake error has status 401, and no two refusals share a message |
| SocketGateway.Socket.Connect | services/initializeSocket.service.js:61-107 | a viewer joins exactly its rooms; a bus joins none and gets a gps-ping listener |
| SocketGateway.Socket.OnGpsPing | services/initializeSocket.service.js:90-98 | a ping asks the bus store to update the authenticated bus id, not the payload's; if that call throws nothing is broadcast, otherwise exactly one bus-moved goes to live-map carrying the returned document or null |
| SocketGateway.Open | services/initializeSocket.service.js:11-109 | from handshake to connect: a bus ends in no room, a viewer in exactly its rooms, a refused connection has no session |
| ApiFeatures.RemoveKeys | utils/apiFeatures.js:9-12 | the copy keeps exactly the keys not deleted, with their values |
| ApiFeatures.SpaceList | utils/apiFeatures.js:20-26 | a truthy parameter has every comma replaced by a space and nothing else changed; otherwise the default is used (also for fields, lines 45-51) |
| ApiFeatures.NumberOr | utils/apiFeatures.js:32-33 | the parsed number, or the default when the value is missing, not a number, or zero |
| ApiFeatures.PaginationDefaults | utils/apiFeatures.js:32-37 | without page and limit, pagination skips 0 and takes 10 |
| ApiFeatures.PageAndLimitNonZero | utils/apiFeatures.js:32-33 | page and limit are never zero |
| ApiFeatures.PaginationReadsNumerals | utils/apiFeatures.js:32-35 | page and limit written as decimal numerals are read back exactly, so skip is (page - 1) * limit |
| ApiFeatures.APIFeatures.constructor | utils/apiFeatures.js:3-6 | the helper holds the query and the query string it was given |
| ApiFeatures.APIFeatures.Filter | utils/apiFeatures.js:8-17 | appends find with the query string minus page, limit, sort and fields, returns the same object, and changes only query |
| ApiFeatures.APIFeatures.Sort | utils/apiFeatures.js:19-29 | appends sort with the sort parameter as a space list, or -createdAt, returns the same object, and changes only query |
| ApiFeatures.APIFeatures.Pagination | utils/apiFeatures.js:31-40 | appends skip((page - 1) * limit) then limit(limit), returns the same object, and changes only query |
| ApiFeatures.APIFeatures.LimitField | utils/apiFeatures.js:44-53 | appends select with the fields parameter as a space list, or -__v, returns the same object, and changes only query |
| Text.JoinSplitSubstitutes | utils/apiFeatures.js:21 | split(',').join(' ') replaces every comma with a space and keeps every other character in place |
| Text.JoinSplit | utils/apiFeatures.js:46 | joining the pieces of a split with the same separator restores the string |
| Text.SplitJoin | utils/apiFeatures.js:46 | splitting a join of separator-free pieces restores the pieces |
| Text.FirstPiece | services/initializeSocket.service.js:27 | the first piece of a split is the longest separator-free prefix |
| Text.ParseIntDecimal | utils/apiFeatures.js:32-33 | parseInt reads back the decimal numeral of a number, with or without a minus sign |

## Left out

- Time zones are a fixed offset from UTC. Daylight-saving changes, which move local midnight, are not modelled.
- Documents carry only the fields the job and the handshake use. A bus here has id and isAssigned, or id and apiKey. A trip has id, busId, status and tripDate. A schedule has busId, isActive and endDate. Missing or mistyped fields in stored documents are not modelled.
- Failures of the database calls in the reconciliation job are not modelled. Neither are its asynchronous scheduling or concurrent runs of it.
- `context.services` and the collection handles are not modelled. The store is the `Store` object.
- `jwt.verify`, including the secret it checks against, `User.findById` and `Bus.findOne` are function parameters. A token payload without an id is covered only as a user lookup that finds nothing.
- Header and API key values are strings. An absent value and an empty string are the same, as both are falsy. Non-string handshake values are not modelled.
- `Bus.updateCurrentStatus` is not part of this model. `OnGpsPing` records each call with its arguments and takes the call's outcome as a parameter: a document, nothing (`null`), or an exception. What the bus store holds afterwards is not modelled.
- Socket.IO mechanics are not modelled: the room every socket has for its own id, delivery of broadcasts, and the disconnect handlers with their logging. Nor is any `console.log` call.
- The commented-out location-history save is not modelled.
- Trip start, trip-room joins and trip-bound location updates are not modelled: the socket service contains no code for them.
- The MongoDB query object is abstract: `APIFeatures` records the calls made on it, not what they select.
- Query-string values are single strings. A repeated key arrives as an array, which makes `split` throw; that case is not modelled.
- `parseInt` skips only ASCII white space. "Infinity" and similar inputs read as NaN, as in JavaScript.
- `ApiFeatures.NumberOr` and `ApiFeatures.APIFeatures.Pagination` use exact integers: the parsed page and limit, and the skip `(page - 1) * limit`, are not rounded as JavaScript numbers are above 2^53.
- The user, student and location schemas hold no behaviour to model. Password hashing is a foreign call. The role enum is reused as `SocketGateway.Role`.
