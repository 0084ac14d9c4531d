/**
 * The plugin's shutdown: close the Socket.IO server when one is attached,
 * then delete every lock row. A failure while closing is caught and logged,
 * and the rows are then left as they were.
 */
module Destroy {
  import opened LockStore

  /** The server attached as `strapi.io`, if any, and whether its `close` callback reports an error. */
  datatype SocketServer = NoServer | Server(closeFails: bool)

  /** The effects of shutdown, in the order they happen. */
  datatype ShutdownStep = ServerClosed | LocksWiped

  method Destroy(db: LockTable, io: SocketServer) returns (steps: seq<ShutdownStep>)
    modifies db
    ensures io == NoServer ==> steps == [LocksWiped] && db.rows == []
    ensures io == Server(false) ==> steps == [ServerClosed, LocksWiped] && db.rows == []
    ensures io == Server(true) ==> steps == [] && db.rows == old(db.rows)
  {
    steps := [];
    if io.Server? {
      if io.closeFails {
        // The rejected promise goes to the catch block: nothing else runs.
        return;
      }
      steps := steps + [ServerClosed];
    }
    db.DeleteMany(Everything);
    WithoutEverything(old(db.rows));
    steps := steps + [LocksWiped];
  }
}
