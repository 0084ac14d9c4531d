/**
 * Runs of the server's handlers on a fresh lock table, one user editing
 * article 42 and another arriving. They show how the REST and socket paths
 * share the table, including where they let rows for one entry pile up.
 */
module Scenarios {
  import opened Wrappers
  import opened LockStore
  import opened Controller
  import opened Bootstrap

  const ARTICLE: string := "api::article.article"
  const DOCUMENT: string := "42"
  const ANN: string := "1"
  const BOB: string := "2"

  function Users(): AdminUsers
  {
    map[ANN := AdminUser(Some("Ann"), Some("Lee")), BOB := AdminUser(Some("Bob"), None)]
  }

  function EditorPermissions(): seq<Permission>
  {
    [Permission(CONTENT_MANAGER_CREATE, ARTICLE)]
  }

  /** Ann's socket opens the article; the row it appends is bound to her connection. */
  method AnnOpensOverSocket(db: LockTable)
    requires db.rows == []
    modifies db
    ensures db.rows == [Lock(DOCUMENT, ARTICLE, ANN, Some("socket-ann"))]
  {
    var annSocket := Socket("socket-ann", Some("token-ann"));
    CreatePermissionAllows(ARTICLE);
    assert Authenticate(annSocket.token, true, Some(DecodedToken(Some(ANN), None))) == Some(ANN);
    var outcome := OpenEntity(db, annSocket, true, Some(DecodedToken(Some(ANN), None)), EditorPermissions(), DOCUMENT, ARTICLE);
  }

  /** While Ann's socket holds the article, Bob's poll names her and his REST lock is refused. */
  method SocketLockBlocksOthers() returns (statusForBob: Reply, bobTries: Reply)
    ensures statusForBob == SendEditedBy("Ann Lee")
    ensures bobTries == Conflict("Entity is already locked by another user")
  {
    var db := new LockTable();
    AnnOpensOverSocket(db);
    var annLock := Lock(DOCUMENT, ARTICLE, ANN, Some("socket-ann"));
    MatchesFilters(annLock, DOCUMENT, ARTICLE, BOB, "socket-ann");
    assert db.FindOne(HeldByOthers(DOCUMENT, ARTICLE, BOB)) == Some(annLock);
    assert DisplayName(Users()[ANN]) == "Ann Lee";
    statusForBob := GetStatusByIdAndSlug(db, Users(), BOB, Some(ARTICLE), Some(DOCUMENT));
    assert LockedByOther(db.rows, DOCUMENT, ARTICLE, BOB) by {
      assert annLock in db.rows;
    }
    bobTries := SetStatusByIdAndSlug(db, BOB, Some(ARTICLE), Some(DOCUMENT));
  }

  /** Once Ann's socket disconnects, her row is gone and Bob's REST lock succeeds. */
  method DisconnectFreesEntry() returns (bobTries: Reply, rows: seq<Lock>)
    ensures bobTries == SendBool(true)
    ensures rows == [Lock(DOCUMENT, ARTICLE, BOB, None)]
  {
    var db := new LockTable();
    AnnOpensOverSocket(db);
    Disconnect(db, Socket("socket-ann", Some("token-ann")));
    assert db.rows == [] by {
      var annLock := Lock(DOCUMENT, ARTICLE, ANN, Some("socket-ann"));
      MatchesFilters(annLock, DOCUMENT, ARTICLE, BOB, "socket-ann");
      assert Without([annLock], OnConnection("socket-ann")) == Without([], OnConnection("socket-ann"));
    }
    bobTries := SetStatusByIdAndSlug(db, BOB, Some(ARTICLE), Some(DOCUMENT));
    rows := db.rows;
  }

  /**
   * Ann locks over REST and then opens the same entry over her socket: the
   * table ends with two rows for the pair, both hers, and no conflict.
   */
  method RestThenSocketOpenDuplicates() returns (rows: seq<Lock>, restReply: Reply, outcome: OpenOutcome)
    ensures restReply == SendBool(true) && outcome == LockCreated
    ensures rows == [Lock(DOCUMENT, ARTICLE, ANN, None), Lock(DOCUMENT, ARTICLE, ANN, Some("socket-ann"))]
  {
    var db := new LockTable();
    restReply := SetStatusByIdAndSlug(db, ANN, Some(ARTICLE), Some(DOCUMENT));
    CreatePermissionAllows(ARTICLE);
    outcome := OpenEntity(db, Socket("socket-ann", Some("token-ann")), true,
                          Some(DecodedToken(None, Some(ANN))), EditorPermissions(), DOCUMENT, ARTICLE);
    rows := db.rows;
  }

  /**
   * Ann holds a REST lock; Bob's socket opens the same entry without looking
   * for an existing lock and then disconnects. Only Bob's row goes: the REST lock stays.
   */
  method DisconnectSparesRestLock() returns (afterOpen: seq<Lock>, afterDisconnect: seq<Lock>)
    ensures afterOpen == [Lock(DOCUMENT, ARTICLE, ANN, None), Lock(DOCUMENT, ARTICLE, BOB, Some("socket-bob"))]
    ensures afterDisconnect == [Lock(DOCUMENT, ARTICLE, ANN, None)]
  {
    var db := new LockTable();
    var restLock, bobLock := Lock(DOCUMENT, ARTICLE, ANN, None), Lock(DOCUMENT, ARTICLE, BOB, Some("socket-bob"));
    var reply := SetStatusByIdAndSlug(db, ANN, Some(ARTICLE), Some(DOCUMENT));
    assert db.rows == [restLock];
    var bobSocket := Socket("socket-bob", Some("token-bob"));
    CreatePermissionAllows(ARTICLE);
    assert Authenticate(bobSocket.token, true, Some(DecodedToken(Some(BOB), None))) == Some(BOB);
    var outcome := OpenEntity(db, bobSocket, true, Some(DecodedToken(Some(BOB), None)), EditorPermissions(), DOCUMENT, ARTICLE);
    afterOpen := db.rows;
    assert afterOpen == [restLock] + [bobLock];
    Disconnect(db, bobSocket);
    WithoutAppend([restLock], [bobLock], OnConnection("socket-bob"));
    MatchesFilters(restLock, DOCUMENT, ARTICLE, BOB, "socket-bob");
    MatchesFilters(bobLock, DOCUMENT, ARTICLE, BOB, "socket-bob");
    assert [restLock][1..] == [] && [bobLock][1..] == [];
    afterDisconnect := db.rows;
  }

  /**
   * While Ann's socket holds the article, a `closeEntity` naming Ann arrives
   * over another connection that never presented a token. Ann's lock goes:
   * the handler checks neither the token nor whose connection it is.
   */
  method CloseEntityBelievesPayload() returns (rows: seq<Lock>)
    ensures rows == []
  {
    var db := new LockTable();
    AnnOpensOverSocket(db);
    var stranger := Socket("socket-x", None);
    CloseEntity(db, stranger, ARTICLE, DOCUMENT, ANN);
    MatchesFilters(Lock(DOCUMENT, ARTICLE, ANN, Some("socket-ann")), DOCUMENT, ARTICLE, ANN, "");
    assert [Lock(DOCUMENT, ARTICLE, ANN, Some("socket-ann"))][1..] == [];
    rows := db.rows;
  }

  /** A socket whose decoded token has neither `id` nor `payload.id` is disconnected and locks nothing. */
  method TokenWithoutUserIdLocksNothing() returns (outcome: OpenOutcome, rows: seq<Lock>)
    ensures outcome == Disconnected && rows == []
  {
    var db := new LockTable();
    outcome := OpenEntity(db, Socket("socket-x", Some("token-x")), true,
                          Some(DecodedToken(Some(""), None)), EditorPermissions(), DOCUMENT, ARTICLE);
    rows := db.rows;
  }
}
