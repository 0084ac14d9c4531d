/**
 * The REST controller of the record-locking plugin: settings, lock status
 * (by document, and by content type and document), setting a lock and
 * deleting one. Every handler validates its route parameters, then reads the
 * lock table, then answers (`ctx.send`, `ctx.badRequest`, `ctx.conflict`),
 * creating or deleting rows on the way.
 *
 * The authenticated caller is given as the string `String(ctx.state.user.id)`;
 * the `admin::user` table is given as a map from user id to the user's names.
 */
module Controller {
  import opened Wrappers
  import opened LockStore

  /** The transports used when none are configured (`constants/transports.ts`). */
  const DEFAULT_TRANSPORTS: seq<string> := ["polling", "websocket", "webtransport"]

  /** What a handler answers through `ctx`. */
  datatype Reply =
    | SendSettings(transports: seq<string>)
    | SendBool(flag: bool)
    | SendEditedBy(editedBy: string)
    | SendMessage(message: string)
    | BadRequest(message: string)
    | Conflict(message: string)

  /** A route parameter as the handler sees it: missing, a string, or some other (truthy) value. */
  datatype Param = Absent | Text(text: string) | NonText

  /** The columns of `admin::user` the status handlers select; either may be null. */
  datatype AdminUser = AdminUser(firstname: Option<string>, lastname: Option<string>)

  type AdminUsers = map<string, AdminUser>

  /** How a template literal renders a possibly-null string. */
  function TemplateText(v: Option<string>): string
  {
    if v.Some? then v.value else "null"
  }

  /** `${user.firstname} ${user.lastname}` */
  function DisplayName(u: AdminUser): string
  {
    TemplateText(u.firstname) + " " + TemplateText(u.lastname)
  }

  /** The route parameters of the by-id handlers pass `if (!entityId || !entityDocumentId)`. */
  predicate ValidPair(entityId: Option<string>, entityDocumentId: Option<string>)
  {
    Truthy(entityId) && Truthy(entityDocumentId)
  }

  /** The parameter of `getStatusBySlug` passes `if (!entityDocumentId || typeof entityDocumentId !== 'string')`. */
  predicate ValidDocument(p: Param)
  {
    p.Text? && p.text != ""
  }

  /** Some row in `rows` is on `entityDocumentId` of `entityId` and held by a user other than `caller`. */
  ghost predicate LockedByOther(rows: seq<Lock>, entityDocumentId: string, entityId: string, caller: string)
  {
    exists l :: l in rows && l.entityDocumentId == entityDocumentId && l.entityId == entityId && l.user != caller
  }

  lemma FoundIffLockedByOther(db: LockTable, d: string, e: string, caller: string)
    ensures db.FindOne(HeldByOthers(d, e, caller)).Some? <==> LockedByOther(db.rows, d, e, caller)
  {
    forall l | l in db.rows {
      MatchesFilters(l, d, e, caller, "");
    }
  }

  /**
   * `getSettings`: the configured transports when the option is set (an empty
   * list included, since an array is truthy), otherwise the default list.
   */
  function GetSettings(configured: Option<seq<string>>): (r: Reply)
    ensures r.SendSettings?
    ensures configured.Some? ==> r.transports == configured.value
    ensures configured.None? ==> r.transports == ["polling", "websocket", "webtransport"]
  {
    SendSettings(if configured.Some? then configured.value else DEFAULT_TRANSPORTS)
  }

  /**
   * The tail shared by both status handlers: `false` when no row was found,
   * `false` again when the row's user has no `admin::user` record, otherwise
   * the holder's display name.
   */
  function StatusReply(found: Option<Lock>, users: AdminUsers): (r: Reply)
    ensures r == SendBool(false) || r.SendEditedBy?
    ensures r == SendBool(false) <==> found.None? || found.value.user !in users
    ensures r.SendEditedBy? ==>
      (found.Some? && found.value.user in users && r.editedBy == DisplayName(users[found.value.user]))
  {
    if found.None? then SendBool(false)
    else if found.value.user !in users then SendBool(false)
    else SendEditedBy(DisplayName(users[found.value.user]))
  }

  /**
   * `getStatusBySlug`: rejects a missing, empty or non-string
   * `entityDocumentId`; otherwise looks for a row on that document held by
   * someone else, whatever its `entityId`.
   */
  method GetStatusBySlug(db: LockTable, users: AdminUsers, caller: string, entityDocumentId: Param)
    returns (r: Reply)
    ensures !ValidDocument(entityDocumentId) ==> r == BadRequest("Invalid entityDocumentId")
    ensures ValidDocument(entityDocumentId) ==>
      r == StatusReply(db.FindOne(DocumentHeldByOthers(entityDocumentId.text, caller)), users)
    ensures (ValidDocument(entityDocumentId)
             && forall l :: l in db.rows ==> !(l.entityDocumentId == entityDocumentId.text && l.user != caller))
            ==> r == SendBool(false)
    ensures r.SendEditedBy? ==>
      (exists l :: l in db.rows && l.entityDocumentId == entityDocumentId.text
                   && l.user != caller && l.user in users && r.editedBy == DisplayName(users[l.user]))
  {
    if !ValidDocument(entityDocumentId) {
      return BadRequest("Invalid entityDocumentId");
    }
    var d := entityDocumentId.text;
    var data := db.FindOne(DocumentHeldByOthers(d, caller));
    if data.None? {
      forall l | l in db.rows {
        MatchesFilters(l, d, "", caller, "");
      }
      return SendBool(false);
    }
    MatchesFilters(data.value, d, "", caller, "");
    if data.value.user !in users {
      return SendBool(false);
    }
    r := SendEditedBy(DisplayName(users[data.value.user]));
  }

  /**
   * `getStatusByIdAndSlug`: rejects an empty or missing parameter before
   * reading anything; otherwise reports a row on the pair held by someone
   * else. The caller's own rows are never reported.
   */
  method GetStatusByIdAndSlug(db: LockTable, users: AdminUsers, caller: string,
                              entityId: Option<string>, entityDocumentId: Option<string>)
    returns (r: Reply)
    ensures !ValidPair(entityId, entityDocumentId) ==> r == BadRequest("Missing required parameters")
    ensures ValidPair(entityId, entityDocumentId) ==>
      r == StatusReply(db.FindOne(HeldByOthers(entityDocumentId.value, entityId.value, caller)), users)
    ensures (ValidPair(entityId, entityDocumentId)
             && !LockedByOther(db.rows, entityDocumentId.value, entityId.value, caller))
            ==> r == SendBool(false)
    ensures r.SendEditedBy? ==>
      (exists l :: l in db.rows && l.entityDocumentId == entityDocumentId.value
                   && l.entityId == entityId.value && l.user != caller && l.user in users
                   && r.editedBy == DisplayName(users[l.user]))
  {
    if !Truthy(entityId) || !Truthy(entityDocumentId) {
      return BadRequest("Missing required parameters");
    }
    var e, d := entityId.value, entityDocumentId.value;
    FoundIffLockedByOther(db, d, e, caller);
    var data := db.FindOne(HeldByOthers(d, e, caller));
    if data.None? {
      return SendBool(false);
    }
    MatchesFilters(data.value, d, e, caller, "");
    if data.value.user !in users {
      return SendBool(false);
    }
    r := SendEditedBy(DisplayName(users[data.value.user]));
  }

  /**
   * `setStatusByIdAndSlug`: conflict when another user holds a row on the
   * pair; otherwise appends a REST lock (no connection) for the caller, even
   * when the caller already holds one.
   */
  method SetStatusByIdAndSlug(db: LockTable, caller: string,
                              entityId: Option<string>, entityDocumentId: Option<string>)
    returns (r: Reply)
    modifies db
    ensures !ValidPair(entityId, entityDocumentId) ==>
      r == BadRequest("Missing required parameters") && db.rows == old(db.rows)
    ensures (ValidPair(entityId, entityDocumentId)
             && LockedByOther(old(db.rows), entityDocumentId.value, entityId.value, caller))
            ==> r == Conflict("Entity is already locked by another user") && db.rows == old(db.rows)
    ensures (ValidPair(entityId, entityDocumentId)
             && !LockedByOther(old(db.rows), entityDocumentId.value, entityId.value, caller))
            ==> r == SendBool(true)
                && db.rows == old(db.rows) + [Lock(entityDocumentId.value, entityId.value, caller, None)]
  {
    if !Truthy(entityId) || !Truthy(entityDocumentId) {
      return BadRequest("Missing required parameters");
    }
    var e, d := entityId.value, entityDocumentId.value;
    FoundIffLockedByOther(db, d, e, caller);
    var existingLock := db.FindOne(HeldByOthers(d, e, caller));
    if existingLock.Some? {
      return Conflict("Entity is already locked by another user");
    }
    db.Create(Lock(d, e, caller, None));
    r := SendBool(true);
  }

  /**
   * `deleteStatusByIdAndSlug`: removes the caller's rows on the pair and
   * answers with the same message whether or not anything was removed.
   */
  method DeleteStatusByIdAndSlug(db: LockTable, caller: string,
                                 entityId: Option<string>, entityDocumentId: Option<string>)
    returns (r: Reply)
    modifies db
    ensures !ValidPair(entityId, entityDocumentId) ==>
      r == BadRequest("Missing required parameters") && db.rows == old(db.rows)
    ensures ValidPair(entityId, entityDocumentId) ==>
      r == SendMessage("Lock deleted successfully")
      && db.rows == Without(old(db.rows), HeldBy(caller, entityId.value, entityDocumentId.value))
  {
    if !Truthy(entityId) || !Truthy(entityDocumentId) {
      return BadRequest("Missing required parameters");
    }
    db.DeleteMany(HeldBy(caller, entityId.value, entityDocumentId.value));
    r := SendMessage("Lock deleted successfully");
  }

  /** Deleting a pair removes exactly the caller's rows on it; every other row keeps its multiplicity. */
  lemma DeleteRemovesExactlyOwnRows(rows: seq<Lock>, caller: string, e: string, d: string, l: Lock)
    ensures multiset(Without(rows, HeldBy(caller, e, d)))[l] ==
      if l.user == caller && l.entityId == e && l.entityDocumentId == d then 0 else multiset(rows)[l]
  {
    WithoutCount(rows, HeldBy(caller, e, d), l);
    MatchesFilters(l, d, e, caller, "");
  }

  /** Deleting undoes setting: the appended REST row goes, and the rest is what deleting alone leaves. */
  lemma DeleteUndoesSet(rows: seq<Lock>, caller: string, e: string, d: string)
    ensures Without(rows + [Lock(d, e, caller, None)], HeldBy(caller, e, d)) == Without(rows, HeldBy(caller, e, d))
  {
    var own := Lock(d, e, caller, None);
    WithoutAppend(rows, [own], HeldBy(caller, e, d));
    MatchesFilters(own, d, e, caller, "");
    assert [own][1..] == [];
  }

  /** After a delete nobody but other users holds the pair, so a second delete changes nothing. */
  lemma DeleteTwiceIsDeleteOnce(rows: seq<Lock>, caller: string, e: string, d: string)
    ensures Without(Without(rows, HeldBy(caller, e, d)), HeldBy(caller, e, d)) == Without(rows, HeldBy(caller, e, d))
    ensures forall l :: l in Without(rows, HeldBy(caller, e, d)) ==>
      !(l.user == caller && l.entityId == e && l.entityDocumentId == d)
  {
    WithoutIdempotent(rows, HeldBy(caller, e, d));
    forall l | l in Without(rows, HeldBy(caller, e, d)) {
      MatchesFilters(l, d, e, caller, "");
    }
  }

  /** The caller's own REST lock does not make the pair look locked to the caller. */
  lemma OwnLockNotReported(rows: seq<Lock>, caller: string, e: string, d: string)
    ensures LockedByOther(rows + [Lock(d, e, caller, None)], d, e, caller) <==> LockedByOther(rows, d, e, caller)
  {
    var own := Lock(d, e, caller, None);
    if LockedByOther(rows + [own], d, e, caller) {
      var l :| l in rows + [own] && l.entityDocumentId == d && l.entityId == e && l.user != caller;
      assert l in rows;
    }
    if LockedByOther(rows, d, e, caller) {
      var l :| l in rows && l.entityDocumentId == d && l.entityId == e && l.user != caller;
      assert l in rows + [own];
    }
  }

  /** Another user's REST lock does make the pair look locked. */
  lemma OthersSeeNewLock(rows: seq<Lock>, holder: string, viewer: string, e: string, d: string)
    requires holder != viewer
    ensures LockedByOther(rows + [Lock(d, e, holder, None)], d, e, viewer)
  {
    assert Lock(d, e, holder, None) in rows + [Lock(d, e, holder, None)];
  }
}
