/**
 * The socket side of the record-locking server: the `openEntity`,
 * `closeEntity` and `disconnect` handlers each connection gets, the
 * permission test `openEntity` applies, and the purge of the lock table at
 * startup.
 *
 * The results of foreign services are inputs: whether the `admin::token`
 * service offers `decodeJwtToken`, what decoding the handshake token gave,
 * and the caller's admin permissions (the rows the permission join returns
 * before it is narrowed to the entity's subject).
 */
module Bootstrap {
  import opened Wrappers
  import opened LockStore

  /** What a connection fixes at its handshake: `socket.id` and `socket.handshake.auth.token`. */
  datatype Socket = Socket(id: string, token: Option<string>)

  /** The parts of a decoded admin JWT the handler looks at: `decoded.id` and `decoded.payload.id`. */
  datatype DecodedToken = DecodedToken(id: Option<string>, payloadId: Option<string>)

  /** One row of the permission join: `p.action` and `p.subject`. */
  datatype Permission = Permission(action: string, subject: string)

  /** How one `openEntity` event ends. */
  datatype OpenOutcome =
    | Disconnected              // `socket.disconnect()`; this handler does not touch the table
    | LockCreated               // one row appended
    | InsufficientPermissions   // a warning is logged; the table is not touched

  /** The operations whose presence in an action name allows locking. */
  const MUTATING_OPERATIONS: seq<string> := ["create", "delete", "publish"]

  // Substring search, as JavaScript's `String.prototype.includes`.

  function Includes(s: string, sub: string): (r: bool)
    ensures sub == [] ==> r
    ensures r ==> |sub| <= |s|
    decreases |s|
  {
    if sub <= s then true
    else if s == [] then false
    else Includes(s[1..], sub)
  }

  /** `sub` occurs in `s` starting at index `i`. */
  ghost predicate OccursAt(s: string, sub: string, i: int)
  {
    0 <= i && i + |sub| <= |s| && s[i..i + |sub|] == sub
  }

  lemma {:induction false} IncludesIffOccurs(s: string, sub: string)
    ensures Includes(s, sub) <==> exists i :: OccursAt(s, sub, i)
    decreases |s|
  {
    if sub <= s {
      assert s[0..|sub|] == sub;
      assert OccursAt(s, sub, 0);
    } else if s == [] {
      if exists i :: OccursAt(s, sub, i) {
        assert false;
      }
    } else {
      IncludesIffOccurs(s[1..], sub);
      if exists i :: OccursAt(s[1..], sub, i) {
        var i :| OccursAt(s[1..], sub, i);
        assert s[i + 1..i + 1 + |sub|] == s[1..][i..i + |sub|];
        assert OccursAt(s, sub, i + 1);
      }
      if exists i :: OccursAt(s, sub, i) {
        var i :| OccursAt(s, sub, i);
        if i == 0 {
          assert false;
        } else {
          assert s[1..][i - 1..i - 1 + |sub|] == s[i..i + |sub|];
          assert OccursAt(s[1..], sub, i - 1);
        }
      }
    }
  }

  /** `['create', 'delete', 'publish'].some((operation) => action.includes(operation))` */
  predicate AdequateAction(action: string)
  {
    exists op :: op in MUTATING_OPERATIONS && Includes(action, op)
  }

  lemma AdequateActionIff(a: string)
    ensures AdequateAction(a) <==>
      (exists i :: OccursAt(a, "create", i)) || (exists i :: OccursAt(a, "delete", i))
      || (exists i :: OccursAt(a, "publish", i))
  {
    IncludesIffOccurs(a, "create");
    IncludesIffOccurs(a, "delete");
    IncludesIffOccurs(a, "publish");
    assert MUTATING_OPERATIONS[0] == "create" && MUTATING_OPERATIONS[1] == "delete"
      && MUTATING_OPERATIONS[2] == "publish";
  }

  /**
   * The permission join narrowed to `p.subject = entityId`, then
   * `usersPermissionsForThisContent.some(...)`.
   */
  predicate UserHasAdequatePermissions(userPermissions: seq<Permission>, entityId: string)
  {
    exists p :: p in userPermissions && p.subject == entityId && AdequateAction(p.action)
  }

  /**
   * Locking is allowed exactly when some permission on the entity's subject
   * has `create`, `delete` or `publish` somewhere in its action name; an
   * empty permission list never allows it.
   */
  lemma AdequatePermissionsIff(userPermissions: seq<Permission>, entityId: string)
    ensures UserHasAdequatePermissions(userPermissions, entityId) <==>
      exists k :: 0 <= k < |userPermissions| && userPermissions[k].subject == entityId
        && ((exists i :: OccursAt(userPermissions[k].action, "create", i))
            || (exists i :: OccursAt(userPermissions[k].action, "delete", i))
            || (exists i :: OccursAt(userPermissions[k].action, "publish", i)))
    ensures !UserHasAdequatePermissions([], entityId)
  {
    forall p | p in userPermissions {
      AdequateActionIff(p.action);
    }
    if UserHasAdequatePermissions(userPermissions, entityId) {
      var p :| p in userPermissions && p.subject == entityId && AdequateAction(p.action);
      var k :| 0 <= k < |userPermissions| && userPermissions[k] == p;
    }
  }

  /** An action name that ends in an operation includes it. */
  lemma IncludesSuffix(prefix: string, op: string)
    ensures Includes(prefix + op, op)
  {
    assert (prefix + op)[|prefix|..|prefix| + |op|] == op;
    assert OccursAt(prefix + op, op, |prefix|);
    IncludesIffOccurs(prefix + op, op);
  }

  /** The action name of the content manager's `create` permission. */
  const CONTENT_MANAGER_CREATE: string := "plugin::content-manager.explorer.create"

  /** The content manager's `create` action is adequate. */
  lemma ContentManagerCreateIsAdequate()
    ensures AdequateAction(CONTENT_MANAGER_CREATE)
  {
    var prefix := "plugin::content-manager.explorer.";
    IncludesSuffix(prefix, "create");
    assert prefix + "create" == CONTENT_MANAGER_CREATE;
    assert MUTATING_OPERATIONS[0] == "create";
  }

  /** A content-manager `create` permission on the entity allows locking it. */
  lemma CreatePermissionAllows(entityId: string)
    ensures UserHasAdequatePermissions([Permission(CONTENT_MANAGER_CREATE, entityId)], entityId)
  {
    ContentManagerCreateIsAdequate();
    var perms := [Permission(CONTENT_MANAGER_CREATE, entityId)];
    assert perms[0] in perms && perms[0].subject == entityId;
  }

  /** The user id the handler settles on: `decoded?.id || decoded?.payload?.id`. */
  function TokenUserId(decoded: Option<DecodedToken>): (r: Option<string>)
    ensures decoded.Some? && Truthy(decoded.value.id) ==> r == decoded.value.id
    ensures decoded.Some? && !Truthy(decoded.value.id) ==> r == decoded.value.payloadId
    ensures decoded.None? ==> !Truthy(r)
  {
    if decoded.None? then None
    else if Truthy(decoded.value.id) then decoded.value.id
    else decoded.value.payloadId
  }

  /**
   * The steps of `openEntity` before the permission check: a token must be
   * present, the token service must offer `decodeJwtToken`, and the decoded
   * token must carry a user id. `None` means the socket is disconnected.
   */
  function Authenticate(token: Option<string>, tokenServiceAvailable: bool, decoded: Option<DecodedToken>)
    : (r: Option<string>)
    ensures r.Some? <==> Truthy(token) && tokenServiceAvailable && Truthy(TokenUserId(decoded))
    ensures r.Some? ==> r == TokenUserId(decoded) && r.value != ""
  {
    if !Truthy(token) then None
    else if !tokenServiceAvailable then None
    else if !Truthy(TokenUserId(decoded)) then None
    else TokenUserId(decoded)
  }

  /**
   * `openEntity`: authenticates from the handshake, checks permissions, and
   * appends a row bound to this connection. It does not look for an existing
   * lock on the pair, so a second open, by anyone, adds a second row.
   * The payload's document id is a string: the single-type payload, which
   * has none, is not modelled.
   */
  method OpenEntity(db: LockTable, socket: Socket, tokenServiceAvailable: bool,
                    decoded: Option<DecodedToken>, userPermissions: seq<Permission>,
                    entityDocumentId: string, entityId: string)
    returns (outcome: OpenOutcome)
    modifies db
    ensures Authenticate(socket.token, tokenServiceAvailable, decoded).None? ==>
      outcome == Disconnected && db.rows == old(db.rows)
    ensures (Authenticate(socket.token, tokenServiceAvailable, decoded).Some?
             && !UserHasAdequatePermissions(userPermissions, entityId))
            ==> outcome == InsufficientPermissions && db.rows == old(db.rows)
    ensures (Authenticate(socket.token, tokenServiceAvailable, decoded).Some?
             && UserHasAdequatePermissions(userPermissions, entityId))
            ==> outcome == LockCreated
                && db.rows == old(db.rows) + [Lock(entityDocumentId, entityId,
                     Authenticate(socket.token, tokenServiceAvailable, decoded).value, Some(socket.id))]
  {
    if !Truthy(socket.token) {
      return Disconnected;
    }
    if !tokenServiceAvailable {
      return Disconnected;
    }
    var userId := TokenUserId(decoded);
    if !Truthy(userId) {
      return Disconnected;
    }
    if UserHasAdequatePermissions(userPermissions, entityId) {
      db.Create(Lock(entityDocumentId, entityId, userId.value, Some(socket.id)));
      outcome := LockCreated;
    } else {
      outcome := InsufficientPermissions;
    }
  }

  /**
   * `closeEntity` on the connection `socket`: removes the rows of the user
   * named in the payload on the pair. Unlike `openEntity`, it does not look
   * at the handshake token, and the payload's `userId` is trusted: the new
   * table does not depend on `socket` at all. As for `openEntity`, the
   * document id is a string.
   */
  method CloseEntity(db: LockTable, socket: Socket, entityId: string, entityDocumentId: string, userId: string)
    modifies db
    ensures db.rows == Without(old(db.rows), HeldBy(userId, entityId, entityDocumentId))
  {
    db.DeleteMany(HeldBy(userId, entityId, entityDocumentId));
  }

  /** `disconnect`: removes the rows created over this connection; no token is checked. */
  method Disconnect(db: LockTable, socket: Socket)
    modifies db
    ensures db.rows == Without(old(db.rows), OnConnection(socket.id))
  {
    db.DeleteMany(OnConnection(socket.id));
  }

  /** The unconditional `deleteMany()` at startup. */
  method PurgeStaleLocks(db: LockTable)
    modifies db
    ensures db.rows == []
  {
    db.DeleteMany(Everything);
    WithoutEverything(old(db.rows));
  }

  /**
   * A disconnect removes exactly the rows bound to that connection; a REST
   * lock, whose `connectionId` is null, always survives it.
   */
  lemma DisconnectRemovesExactlyConnectionRows(rows: seq<Lock>, socketId: string, l: Lock)
    ensures multiset(Without(rows, OnConnection(socketId)))[l] ==
      if l.connectionId == Some(socketId) then 0 else multiset(rows)[l]
    ensures l.connectionId.None? ==> multiset(Without(rows, OnConnection(socketId)))[l] == multiset(rows)[l]
  {
    WithoutCount(rows, OnConnection(socketId), l);
    MatchesFilters(l, "", "", "", socketId);
  }

  /** Disconnecting right after an open removes the row that open created. */
  lemma DisconnectUndoesOpen(rows: seq<Lock>, socketId: string, user: string, e: string, d: string)
    ensures Without(rows + [Lock(d, e, user, Some(socketId))], OnConnection(socketId))
         == Without(rows, OnConnection(socketId))
  {
    var created := Lock(d, e, user, Some(socketId));
    WithoutAppend(rows, [created], OnConnection(socketId));
    MatchesFilters(created, d, e, user, socketId);
    assert [created][1..] == [];
  }

  /** `closeEntity` touches no row of another user, whatever connection sent it. */
  lemma CloseKeepsOtherUsersRows(rows: seq<Lock>, userId: string, e: string, d: string, l: Lock)
    requires l.user != userId
    ensures multiset(Without(rows, HeldBy(userId, e, d)))[l] == multiset(rows)[l]
  {
    WithoutCount(rows, HeldBy(userId, e, d), l);
    MatchesFilters(l, d, e, userId, "");
  }
}
