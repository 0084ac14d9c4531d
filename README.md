# Record locking for the Strapi admin, modelled in Dafny

This project models the record-locking plugin of a Strapi 5 admin. The plugin
stops two admins from editing the same entry at once. It keeps one table,
`open-entity`, whose rows say "user U has document D of content type E open",
optionally bound to a Socket.IO connection. The model covers:

- the table and the three store calls the server makes on it:
  `findOne(where)`, `create(data)` and `deleteMany(where)` / `deleteMany()`
  (`lock_store.dfy`, module `LockStore`, class `LockTable`);
- the REST controller, which reads settings, polls lock status, sets a lock
  and deletes a lock (`controller.dfy`);
- the socket handlers `openEntity`, `closeEntity` and `disconnect`, the
  permission test `openEntity` applies, and the purge at startup
  (`bootstrap.dfy`);
- shutdown: close the socket server, then wipe the table (`destroy.dfy`);
- the admin helpers. These are the translation-key prefixing and
  `registerTrads` (`admin_index.dfy`), `getTranslation`
  (`get_translation.dfy`, with the plugin id in `plugin_id.dfy`), and the
  route-to-request selection, the `'create'` guard and the post-poll decision
  of the `EntityLock` component (`entity_lock.dfy`);
- runs of the handlers on a fresh table (`scenarios.dfy`).

The handlers change the table in place, so they are methods on a
`LockTable`. Each one states the table's new value in terms of the old one:
what is appended, or `Without(old rows, filter)` for the rows removed. The
lemmas then say what that value means. `deleteMany` keeps every row the
filter does not match, with its multiplicity, and removes every row it does
match. A delete undoes a set. A disconnect never removes a REST lock. The
purge and a successful shutdown leave the table empty.

Results of outside services are inputs to the model:

- the decoded JWT (`Option<DecodedToken>`), and whether the `admin::token`
  service offers `decodeJwtToken`;
- the caller's admin permissions, meaning the rows of the permission join
  before it is narrowed to the entity's subject;
- the `admin::user` table, as a map from user id to first and last name;
- the configured transports (`Option<seq<string>>`);
- the dictionaries a locale import yields (a locale missing from the map is
  an import that fails);
- the router's match results and the poll's response on the admin side.

User ids are taken in the string form `String(userId)` the server writes.

### Behaviour of the code worth knowing

- Nothing keeps a pair to at most one lock. `openEntity` appends a row
  without looking for one (`server/src/bootstrap.ts:53-61`). The REST
  `setStatusByIdAndSlug` refuses only rows of *other* users, and appends a
  second row when the caller already holds one
  (`server/src/controllers/controller.ts:124-145`). Locking again is
  therefore not idempotent: `Scenarios.RestThenSocketOpenDuplicates` ends
  with two rows for one pair. `Scenarios.DisconnectSparesRestLock` shows a
  second user's socket locking an entry that is already REST-locked.
- The permission test grants on `create`, `delete` or `publish` appearing
  anywhere in an action name. An `update` permission alone does not grant.
- `closeEntity` and `disconnect` do no authentication. Only `openEntity`
  checks the handshake token (`server/src/bootstrap.ts:11-17`). `closeEntity`
  deletes by the `userId` in the payload (`server/src/bootstrap.ts:75-83`), so
  any connection, even one without a token, can delete any user's rows on a
  pair, REST locks included (`Scenarios.CloseEntityBelievesPayload`).
- The `'create'` sentinel is handled only by the admin client
  (`EntityLock.CreateRouteNeverLocks`). The server accepts any document id.
- The server validates no socket payload fields.
- `getSettings` passes the configured transports through unchecked
  (`server/src/controllers/controller.ts:13`).
- The startup purge is not awaited. It can race incoming connections (see
  Left out).
- When the lock holder's user record is missing, the status routes answer
  `false` ("not locked"), not an error.
- The status routes look up only one row held by another user. If that row's
  user record is missing, the reply is `false` even when another row on the
  pair belongs to a user who does exist. An orphaned row found first thus
  hides a real holder (`server/src/controllers/controller.ts:79-99`).

## Model

| member | source | states |
|---|---|---|
| LockStore.HeldByOthers | server/src/controllers/controller.ts:80-86 | defines the by-pair lookup `{entityDocumentId, entityId, user: {$ne: caller}}`; its meaning is stated by `LockStore.MatchesFilters` |
| LockStore.DocumentHeldByOthers | server/src/controllers/controller.ts:34-39 | defines the by-document lookup `{entityDocumentId, user: {$ne: caller}}`, with no content-type condition; its meaning is stated by `LockStore.MatchesFilters` |
| LockStore.HeldBy | server/src/controllers/controller.ts:165-169 | defines the filter `{user, entityId, entityDocumentId}` of the REST delete and of `closeEntity` (`server/src/bootstrap.ts:78-82`); its meaning is stated by `LockStore.MatchesFilters` |
| LockStore.OnConnection | server/src/bootstrap.ts:92-94 | defines the disconnect filter `{connectionId: socket.id}`; its meaning is stated by `LockStore.MatchesFilters` |
| LockStore.MatchesFilters | server/src/controllers/controller.ts:79-87 | each `where` object the server builds selects exactly the rows whose fields meet all its conditions; `user: {$ne}` excludes the named user; a null `connectionId` never matches a socket id; the empty filter matches every row |
| LockStore.First | server/src/controllers/controller.ts:79-87 | `findOne` gives nothing exactly when no row matches; otherwise it gives a row of the table that matches |
| LockStore.Without | server/src/controllers/controller.ts:164-170 | what `deleteMany` leaves is no longer than the table and holds only rows of the table that the filter does not match |
| LockStore.WithoutCount | server/src/controllers/controller.ts:164-170 | after `deleteMany(where)` a matching row occurs 0 times; every other row occurs as often as before |
| LockStore.WithoutAppend | server/src/controllers/controller.ts:164-170 | deleting from a concatenation deletes from each part, keeping the order of what remains |
| LockStore.WithoutNothingMatches | server/src/controllers/controller.ts:164-170 | when no row matches, `deleteMany` leaves the table as it was |
| LockStore.WithoutIdempotent | server/src/controllers/controller.ts:164-170 | deleting twice with one filter is the same as deleting once |
| LockStore.WithoutEverything | server/src/bootstrap.ts:103 | `deleteMany()` with no filter leaves nothing, whatever the owners and connections of the rows |
| LockStore.LockTable.constructor | server/src/content-types/open-entity.ts:22-42 | the class stands for the `open-entity` collection, with the schema's four attributes as the fields of `Lock`; a new table has no rows |
| LockStore.LockTable.FindOne | server/src/controllers/controller.ts:79-87 | `findOne` on the current table: nothing exactly when no row matches, otherwise a matching row of the table |
| LockStore.LockTable.Create | server/src/controllers/controller.ts:138-145 | `create` appends the row and changes nothing else, whatever rows already exist |
| LockStore.LockTable.DeleteMany | server/src/controllers/controller.ts:164-170 | `deleteMany` replaces the rows by the non-matching ones |
| Controller.FoundIffLockedByOther | server/src/controllers/controller.ts:124-134 | the other-user lookup finds a row exactly when some row on the pair is held by a user other than the caller |
| Controller.TemplateText | server/src/controllers/controller.ts:59 | defines how the template literal renders a column: its text, or `null` when the column is null |
| Controller.DisplayName | server/src/controllers/controller.ts:59 | defines `editedBy` as the rendered first name, a space, and the rendered last name (the same template at line 103) |
| Controller.ValidPair | server/src/controllers/controller.ts:72 | defines the guard of the by-pair routes (also lines 116 and 157): both `entityId` and `entityDocumentId` present and non-empty, else a bad request |
| Controller.ValidDocument | server/src/controllers/controller.ts:26 | defines the guard of `getStatusBySlug`: the parameter is present, a string and non-empty |
| Controller.GetSettings | server/src/controllers/controller.ts:10-21 | the configured transports when set (an empty list included), otherwise exactly `polling`, `websocket`, `webtransport` |
| Controller.StatusReply | server/src/controllers/controller.ts:89-106 | `false` exactly when nothing was found or the holder has no user record; otherwise `editedBy` is `firstname + " " + lastname` of the found row's user |
| Controller.GetStatusBySlug | server/src/controllers/controller.ts:23-67 | a missing, empty or non-string document id gets a bad request; otherwise `false` when no other user's row is on the document (any content type); a name reported belongs to another user's row on that document |
| Controller.GetStatusByIdAndSlug | server/src/controllers/controller.ts:69-111 | an empty or missing parameter gets a bad request whatever the table holds; `false` when no other user holds the pair; a name reported belongs to another user's row on the pair and never to the caller |
| Controller.SetStatusByIdAndSlug | server/src/controllers/controller.ts:113-152 | bad request and no change for missing parameters; conflict and no change when another user holds the pair; otherwise `true` and exactly one row `{caller, entityId, entityDocumentId, connectionId: null}` appended, even if the caller holds one already |
| Controller.DeleteStatusByIdAndSlug | server/src/controllers/controller.ts:154-177 | bad request and no change for missing parameters; otherwise the caller's rows on the pair are removed and the same success message is sent whether or not any row matched |
| Controller.DeleteRemovesExactlyOwnRows | server/src/controllers/controller.ts:164-172 | deleting removes every row of the caller on the pair and keeps every other row with its multiplicity |
| Controller.DeleteUndoesSet | server/src/controllers/controller.ts:138-170 | deleting after a set leaves what deleting alone would have left |
| Controller.DeleteTwiceIsDeleteOnce | server/src/controllers/controller.ts:164-172 | after a delete the caller holds no row on the pair, and a second delete changes nothing |
| Controller.OwnLockNotReported | server/src/controllers/controller.ts:124-145 | the caller's own REST lock never makes the pair look locked by another user |
| Controller.OthersSeeNewLock | server/src/controllers/controller.ts:124-145 | a REST lock makes the pair look locked to every other user |
| Bootstrap.Includes | server/src/bootstrap.ts:50 | `includes` as a recursive search; the empty operation is always included, and an included operation is no longer than the action |
| Bootstrap.AdequateAction | server/src/bootstrap.ts:50 | the inner `some`: one of `create`, `delete`, `publish` is included in the action; `Bootstrap.AdequateActionIff` states it by index |
| Bootstrap.UserHasAdequatePermissions | server/src/bootstrap.ts:41-51 | defines the permission test: some permission on the entity's subject has an adequate action; `Bootstrap.AdequatePermissionsIff` states it index by index |
| Bootstrap.IncludesIffOccurs | server/src/bootstrap.ts:50 | `includes` holds exactly when the operation occurs at some index of the action name |
| Bootstrap.IncludesSuffix | server/src/bootstrap.ts:50 | an action name that ends in an operation includes that operation |
| Bootstrap.AdequateActionIff | server/src/bootstrap.ts:49-51 | an action is adequate exactly when `create`, `delete` or `publish` occurs in it |
| Bootstrap.AdequatePermissionsIff | server/src/bootstrap.ts:41-51 | locking is allowed exactly when some permission on the entity's subject has `create`, `delete` or `publish` in its action; never for an empty list |
| Bootstrap.ContentManagerCreateIsAdequate | server/src/bootstrap.ts:50 | the action `plugin::content-manager.explorer.create` includes `create` and so is adequate |
| Bootstrap.CreatePermissionAllows | server/src/bootstrap.ts:49-51 | a content-manager `create` permission on the entity allows locking it |
| Bootstrap.TokenUserId | server/src/bootstrap.ts:32 | the user id is `decoded.id` when truthy, else `decoded.payload.id`; nothing without a decoded token |
| Bootstrap.Authenticate | server/src/bootstrap.ts:11-38 | a user id results exactly when a token is present, the token service offers `decodeJwtToken` and the decoded token carries a non-empty id |
| Bootstrap.OpenEntity | server/src/bootstrap.ts:9-73 | without a token, without the token service, or without an id in the token: disconnect with the table unchanged; without adequate permission: table unchanged; otherwise exactly one row with `connectionId = socket.id` appended, whatever rows exist for the pair |
| Bootstrap.CloseEntity | server/src/bootstrap.ts:75-87 | removes the rows of the payload's `userId` on the pair, and only those; the result is the same whatever connection sent the event, with or without a token |
| Bootstrap.Disconnect | server/src/bootstrap.ts:89-99 | removes the rows whose `connectionId` is this socket's id, and only those |
| Bootstrap.PurgeStaleLocks | server/src/bootstrap.ts:103 | the startup purge leaves the table empty |
| Bootstrap.DisconnectRemovesExactlyConnectionRows | server/src/bootstrap.ts:89-95 | a disconnect removes every row bound to the socket and keeps every other row with its multiplicity; a REST lock (null `connectionId`) always survives |
| Bootstrap.DisconnectUndoesOpen | server/src/bootstrap.ts:53-95 | disconnecting after an open removes the row that open appended and leaves what disconnecting alone would leave |
| Bootstrap.CloseKeepsOtherUsersRows | server/src/bootstrap.ts:75-83 | `closeEntity` keeps every row of a user other than the one named |
| Destroy.Destroy | server/src/destroy.ts:5-31 | with no server: only the wipe runs and the table is empty; with a server that closes: close, then wipe, and the table is empty; when closing fails: nothing more runs and the table is unchanged; the wipe never precedes the close |
| TranslationIds.GetTranslation | admin/src/utils/getTranslation.ts:4 | the key starts with `PLUGIN_ID + "."`, ends with the id, and is `|PLUGIN_ID| + 1 + |id|` long |
| TranslationIds.GetTranslationInjective | admin/src/utils/getTranslation.ts:4 | distinct ids give distinct keys |
| AdminIndex.PrefixedKey | admin/src/index.ts:13 | the prefixed key starts with `pluginId + "."`, and what follows is the original key |
| AdminIndex.PrefixedKeyInjective | admin/src/index.ts:13 | two keys prefixed alike are the same key |
| AdminIndex.Prefixed | admin/src/index.ts:12-15 | defines the dictionary the reduce builds, each key under `pluginId.` with its value; `AdminIndex.PrefixedContents` and `AdminIndex.PrefixedSize` state its contents |
| AdminIndex.PrefixPluginTranslations | admin/src/index.ts:8-16 | fails with `pluginId can't be empty` exactly when the plugin id is empty; otherwise the loop over the keys builds exactly the prefixed dictionary |
| AdminIndex.PrefixedContents | admin/src/index.ts:12-15 | every input key `k` appears as `pluginId.k` with the same value, and every output key starts with `pluginId.` and comes from an input key |
| AdminIndex.PrefixedSize | admin/src/index.ts:12-15 | the output has as many keys as the input |
| AdminIndex.GetTranslationFindsPrefixedEntry | admin/src/index.ts:13 | `getTranslation(k)` is a key of the registered dictionary exactly when `k` is an input key, and it holds that key's value |
| AdminIndex.LoadLocale | admin/src/index.ts:62-75 | one locale's entry keeps its locale; `{}` when the import fails; otherwise exactly as many keys as the locale's file |
| AdminIndex.RegisterTrads | admin/src/index.ts:58-80 | one entry per locale, in order, tagged with its locale; the prefixed dictionary when the import succeeds, `{}` when it fails |
| AdminIndex.RegisteredKeysAreTranslationIds | admin/src/index.ts:61-77 | every key a registered locale offers is `getTranslation(k)` of a key `k` of that locale's file, with that key's value |
| EntityLock.UseLockingData | admin/src/components/EntityLock/index.tsx:24-65 | nothing without a user id or without a matching route; the URL is the status route of the request data, and the request carries the user's id; the collection route wins over the single-type route, which wins over the clone route; a single-type request has no document id |
| EntityLock.OpensSocket | admin/src/components/EntityLock/index.tsx:111 | the effect opens a socket only with a token, locking data, a document other than `create` and loaded settings; whenever it opens one, the cleanup's condition holds too |
| EntityLock.SendsCloseEntity | admin/src/components/EntityLock/index.tsx:136 | defines the cleanup's condition for `closeEntity`: locking data, a document other than `create`, and loaded settings |
| EntityLock.CreateRouteNeverLocks | admin/src/components/EntityLock/index.tsx:111-136 | on the `create` document no socket is opened and no `closeEntity` is sent |
| EntityLock.AttemptEntityLocking | admin/src/components/EntityLock/index.tsx:92-106 | nothing happens without a request URL or when the poll fails; a `false` status leads to emitting `openEntity` with the request data; a name leads to showing the entry as locked by that name |
| EntityLock.PollAgainstServer | admin/src/components/EntityLock/index.tsx:96-102 | against the server's reply, the client emits `openEntity` exactly when the server found no other user's row or the holder has no user record; otherwise it shows the holder's display name |
| Scenarios.AnnOpensOverSocket | server/src/bootstrap.ts:53-61 | an authorised socket open on an empty table leaves exactly one row bound to that socket |
| Scenarios.SocketLockBlocksOthers | server/src/controllers/controller.ts:79-136 | while one user's socket holds an entry, another user's poll names the holder and their REST lock gets a conflict |
| Scenarios.DisconnectFreesEntry | server/src/bootstrap.ts:89-95 | after the holder's socket disconnects, another user's REST lock succeeds and is the only row |
| Scenarios.RestThenSocketOpenDuplicates | server/src/bootstrap.ts:53-61 | a REST lock followed by a socket open by the same user leaves two rows for the pair, with no conflict |
| Scenarios.DisconnectSparesRestLock | server/src/bootstrap.ts:89-95 | a second user's socket open adds a row beside an existing REST lock; its disconnect removes only that row |
| Scenarios.CloseEntityBelievesPayload | server/src/bootstrap.ts:75-83 | while Ann's socket holds the entry, a `closeEntity` naming Ann sent over another connection with no token removes Ann's lock and leaves the table empty |
| Scenarios.TokenWithoutUserIdLocksNothing | server/src/bootstrap.ts:32-38 | a decoded token without `id` or `payload.id` disconnects and leaves the table empty |

## Left out

- Socket.IO plumbing. This covers server and client construction,
  `connect` / `connect_error` / `reconnect` wiring and the transport of
  `emit`. It is network I/O, so the events are method calls.
  `socket.disconnect()` is the outcome `Disconnected`. Socket.IO then runs
  that socket's own `disconnect` handler, so `Bootstrap.Disconnect` follows and
  removes the rows the socket created earlier; `io.close` in shutdown
  disconnects every socket first in the same way.
- JWT decoding by `admin::token`, the raw SQL permission join, the
  `admin::user` lookup and `strapi.plugin(...).config(...)`. These are outside
  services, and their results are inputs. A `decodeJwtToken` that throws has
  the same effect as a token without a user id (caught, disconnected), so
  both are `None`/falsy inputs.
- Database failures. They lead to `ctx.throw(500)` on REST, and to a logged
  error (plus a disconnect in `openEntity`) on sockets. They happen after
  validation and before or instead of the mutation, so they are not modelled.
  Logging is not modelled either.
- Bootstrap.OpenEntity: the single-type path is not modelled. For a single
  type the client's request data has no `entityDocumentId`
  (`admin/src/components/EntityLock/index.tsx:43-51`), and it sends that
  object as the `openEntity` payload (`index.tsx:98`). What a row with an
  undefined `entityDocumentId` then looks like depends on the query builder
  and the database, which are not part of this model. `Lock.entityDocumentId`
  and the handler's document id are plain strings.
- Bootstrap.CloseEntity: the single-type path is not modelled, for the same
  reason. The client sends the same payload without a document id as
  `closeEntity` (`index.tsx:137`), and what a `where` with an undefined
  `entityDocumentId` selects is up to the query builder.
- Controller.GetStatusBySlug: the handler reads `params.entityDocumentId`
  (`server/src/controllers/controller.ts:24`, `35`), while the client's
  single-type URL carries the content type's id
  (`admin/src/components/EntityLock/index.tsx:49`). Whether the two line up
  depends on the routes file, which is not part of this model. The model
  takes the handler's own reading.
- Socket payloads whose other fields are missing or not strings. What the
  code does then also depends on the query builder. Payload fields are
  strings.
- The ordering between the unawaited startup purge and the first incoming
  connections. It is a concurrency race and cannot be expressed sequentially.
  `Bootstrap.PurgeStaleLocks` models the purge as if it completed alone.
- Concurrency in general. Each handler runs to completion, so two
  interleaved check-then-create sequences are not modelled.
- Numeric user ids. Ids are their decimal strings, so JavaScript's falsy id
  `0` in `decoded?.id || decoded?.payload?.id` is not distinguished, and the
  empty string is the only falsy id.
- LockStore.LockTable.FindOne: does not say which matching row the store
  returns, because the store promises no order. The model's pick is the
  first in table order. The status handlers' contracts use this pick; their
  other clauses hold for any pick.
- EntityLock.PollOutcome: assumes the admin fetch client (`useFetchClient`)
  resolves with the body on a 2xx reply and throws on an error status. That
  client is not part of this model. The replies `true`, a message and the
  settings never come from the status routes, so the model's mapping of them
  to a failed poll is unreachable.
- React rendering: the modal, `useState` / `useRef` / `useEffect`
  lifecycles, and reading and `JSON.parse` of the token from storage. The
  effect's and cleanup's conditions are modelled as predicates, and the poll
  as `EntityLock.AttemptEntityLocking`.
- Plugin registration and component injection (`admin/src/index.ts:42-56`),
  and the dynamic `import()` itself. These are host framework calls. A
  locale's import is the `bundles` map.
- `admin/src/pluginId.ts` is not part of this model. `PLUGIN_ID` is taken as
  `record-locking`, the name the server registers and routes under. The
  lemmas use only that it is not empty.
- `server/src/types/strapi.ts` holds types only. The `open-entity` schema and
  the transport constant give the `Lock` datatype and the default list.
