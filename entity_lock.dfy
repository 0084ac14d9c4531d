/**
 * The decisions the admin `EntityLock` component takes: which lock request
 * the current route calls for (`useLockingData`), whether a socket is opened
 * and `closeEntity` sent (the `'create'` guard), and what follows a status
 * poll (`attemptEntityLocking`). Route matching, the authenticated user and
 * the poll's response are inputs.
 */
module EntityLock {
  import opened Wrappers
  import Controller
  import LockStore

  /** The `params` of a `useMatch` result; `null` (no match) is `None` at the call site. */
  datatype RouteMatch = RouteMatch(entityId: Option<string>, entityDocumentId: Option<string>)

  /** The authenticated admin user; `id === undefined` is `None`. */
  datatype AuthUser = AuthUser(id: Option<string>)

  datatype LockingRequestData = LockingRequestData(entityId: string, entityDocumentId: Option<string>, userId: string)

  datatype LockingData = LockingData(requestData: LockingRequestData, requestUrl: string)

  /** The status route the request data names (the URL has no document part when there is no document). */
  function StatusUrl(d: LockingRequestData): string
  {
    "/record-locking/get-status/" + d.entityId + (if d.entityDocumentId.Some? then "/" + d.entityDocumentId.value else "")
  }

  /** `m?.params.entityId && m?.params.entityDocumentId` */
  predicate BothParams(m: Option<RouteMatch>)
  {
    m.Some? && Truthy(m.value.entityId) && Truthy(m.value.entityDocumentId)
  }

  /** `m?.params.entityId` */
  predicate EntityParam(m: Option<RouteMatch>)
  {
    m.Some? && Truthy(m.value.entityId)
  }

  /**
   * `useLockingData`: nothing without a user id; otherwise the first of the
   * collection-type, single-type and clone routes that matches with its
   * parameters, checked in that order.
   */
  function UseLockingData(user: Option<AuthUser>, collectionType: Option<RouteMatch>,
                          singleType: Option<RouteMatch>, cloneCollectionType: Option<RouteMatch>)
    : (r: Option<LockingData>)
    ensures user.None? || user.value.id.None? ==> r.None?
    ensures r.None? ==> user.None? || user.value.id.None?
                        || !(BothParams(collectionType) || EntityParam(singleType) || BothParams(cloneCollectionType))
    ensures r.Some? ==> r.value.requestUrl == StatusUrl(r.value.requestData)
                        && r.value.requestData.userId == user.value.id.value
    ensures r.Some? && BothParams(collectionType) ==>
      r.value.requestData.entityId == collectionType.value.entityId.value
      && r.value.requestData.entityDocumentId == collectionType.value.entityDocumentId
    ensures r.Some? && !BothParams(collectionType) && EntityParam(singleType) ==>
      r.value.requestData.entityId == singleType.value.entityId.value && r.value.requestData.entityDocumentId.None?
    ensures r.Some? && !BothParams(collectionType) && !EntityParam(singleType) ==>
      BothParams(cloneCollectionType)
      && r.value.requestData.entityId == cloneCollectionType.value.entityId.value
      && r.value.requestData.entityDocumentId == cloneCollectionType.value.entityDocumentId
  {
    if user.None? || user.value.id.None? then None
    else
      var userId := user.value.id.value;
      if BothParams(collectionType) then
        var data := LockingRequestData(collectionType.value.entityId.value, collectionType.value.entityDocumentId, userId);
        Some(LockingData(data, "/record-locking/get-status/" + data.entityId + "/" + data.entityDocumentId.value))
      else if EntityParam(singleType) then
        var data := LockingRequestData(singleType.value.entityId.value, None, userId);
        Some(LockingData(data, "/record-locking/get-status/" + data.entityId))
      else if BothParams(cloneCollectionType) then
        var data := LockingRequestData(cloneCollectionType.value.entityId.value, cloneCollectionType.value.entityDocumentId, userId);
        Some(LockingData(data, "/record-locking/get-status/" + data.entityId + "/" + data.entityDocumentId.value))
      else None
  }

  /** The document a new, unsaved entry is edited under. */
  predicate IsCreateRoute(lockingData: LockingData)
  {
    lockingData.requestData.entityDocumentId == Some("create")
  }

  /** The effect's condition for opening a socket (`token && lockingData && ... !== 'create' && settings`). */
  predicate OpensSocket(hasToken: bool, lockingData: Option<LockingData>, settingsLoaded: bool)
    // whenever the effect opens a socket and emits, the cleanup sends `closeEntity`
    ensures OpensSocket(hasToken, lockingData, settingsLoaded) ==> SendsCloseEntity(lockingData, settingsLoaded)
  {
    hasToken && lockingData.Some? && !IsCreateRoute(lockingData.value) && settingsLoaded
  }

  /** The cleanup's condition for sending `closeEntity` (`lockingData && ... !== 'create' && settings`). */
  predicate SendsCloseEntity(lockingData: Option<LockingData>, settingsLoaded: bool)
  {
    lockingData.Some? && !IsCreateRoute(lockingData.value) && settingsLoaded
  }

  /** Editing a new entry never opens a socket and never sends `closeEntity`, whatever else holds. */
  lemma CreateRouteNeverLocks(user: Option<AuthUser>, collectionType: Option<RouteMatch>,
                              singleType: Option<RouteMatch>, cloneCollectionType: Option<RouteMatch>,
                              hasToken: bool, settingsLoaded: bool)
    requires BothParams(collectionType) && collectionType.value.entityDocumentId == Some("create")
    ensures !OpensSocket(hasToken, UseLockingData(user, collectionType, singleType, cloneCollectionType), settingsLoaded)
    ensures !SendsCloseEntity(UseLockingData(user, collectionType, singleType, cloneCollectionType), settingsLoaded)
  {
  }

  /** The data of the status poll's response: `false`, or `{ editedBy }`. */
  datatype PollData = NotLocked | EditedBy(editedBy: string)

  /** What `attemptEntityLocking` does. */
  datatype ClientAction =
    | NoAction                                      // no request URL, or the poll failed
    | EmitOpenEntity(payload: LockingRequestData)   // `socket.current?.emit('openEntity', lockingData.requestData)`
    | ShowLocked(username: string)                  // `setIsLocked(true); setUsername(editedBy)`

  /** `attemptEntityLocking`, with the poll's outcome as input (`None` when the request throws). */
  function AttemptEntityLocking(lockingData: Option<LockingData>, response: Option<PollData>): (a: ClientAction)
    ensures lockingData.None? || lockingData.value.requestUrl == "" || response.None? ==> a == NoAction
    ensures a.EmitOpenEntity? <==> lockingData.Some? && lockingData.value.requestUrl != "" && response == Some(NotLocked)
    ensures a.EmitOpenEntity? ==> a.payload == lockingData.value.requestData
    ensures a.ShowLocked? <==> lockingData.Some? && lockingData.value.requestUrl != "" && response.Some? && response.value.EditedBy?
    ensures a.ShowLocked? ==> a.username == response.value.editedBy
  {
    if lockingData.None? || lockingData.value.requestUrl == "" then NoAction
    else if response.None? then NoAction
    else match response.value
      case NotLocked => EmitOpenEntity(lockingData.value.requestData)
      case EditedBy(name) => ShowLocked(name)
  }

  /**
   * How the fetch client turns a status route's reply into the poll's
   * outcome; an error status (a bad request) makes the request throw.
   */
  function PollOutcome(reply: Controller.Reply): Option<PollData>
  {
    match reply
    case SendBool(false) => Some(NotLocked)
    case SendEditedBy(name) => Some(EditedBy(name))
    case _ => None   // bad requests make `get` throw; `true` and the rest are unreachable from the status routes
  }

  /**
   * Against the server's status tail: the client asks to lock exactly when
   * the server found no row held by someone else, or found one whose user
   * record is missing; otherwise it shows the holder's name.
   */
  lemma PollAgainstServer(lockingData: LockingData, found: Option<LockStore.Lock>, users: Controller.AdminUsers)
    requires lockingData.requestUrl != ""
    ensures AttemptEntityLocking(Some(lockingData), PollOutcome(Controller.StatusReply(found, users))).EmitOpenEntity?
            <==> found.None? || found.value.user !in users
    ensures found.Some? && found.value.user in users ==>
      AttemptEntityLocking(Some(lockingData), PollOutcome(Controller.StatusReply(found, users)))
        == ShowLocked(Controller.DisplayName(users[found.value.user]))
  {
  }
}
