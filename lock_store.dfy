/**
 * The `open-entity` table of the record-locking plugin and the three generic
 * store calls the server makes on it: `findOne(where)`, `create(data)` and
 * `deleteMany(where)` / `deleteMany()`.
 *
 * The table has no uniqueness constraint (its indexes only speed up lookups),
 * so rows may repeat; it is therefore a sequence, not a set.
 */
module LockStore {
  import opened Wrappers

  /**
   * One row of the table. `connectionId` is null for locks taken over REST.
   * The document id is always a string here: the rows a single-type entry
   * would get, with no document id, are not modelled.
   */
  datatype Lock = Lock(
    entityDocumentId: string,
    entityId: string,
    user: string,
    connectionId: Option<string>)

  /** One conjunct of a store `where` object. */
  datatype Cond =
    | EntityDocumentIdIs(documentId: string)
    | EntityIdIs(id: string)
    | UserIs(user: string)
    | UserIsNot(user: string)          // `user: { $ne: ... }`
    | ConnectionIdIs(connection: string)

  /** A `where` object: the conjunction of its conditions; `[]` matches every row. */
  type Where = seq<Cond>

  predicate Holds(l: Lock, c: Cond)
  {
    match c
    case EntityDocumentIdIs(d) => l.entityDocumentId == d
    case EntityIdIs(e) => l.entityId == e
    case UserIs(u) => l.user == u
    case UserIsNot(u) => l.user != u
    case ConnectionIdIs(s) => l.connectionId == Some(s)   // a null column never equals a string
  }

  predicate Matches(l: Lock, w: Where)
  {
    forall i :: 0 <= i < |w| ==> Holds(l, w[i])
  }

  // The filters the server builds.

  /** Rows on one document of one content type held by someone other than `caller`. */
  function HeldByOthers(entityDocumentId: string, entityId: string, caller: string): Where
  {
    [EntityDocumentIdIs(entityDocumentId), EntityIdIs(entityId), UserIsNot(caller)]
  }

  /** Rows on one document held by someone other than `caller`, whatever the content type. */
  function DocumentHeldByOthers(entityDocumentId: string, caller: string): Where
  {
    [EntityDocumentIdIs(entityDocumentId), UserIsNot(caller)]
  }

  /** Rows on one document of one content type held by `user`. */
  function HeldBy(user: string, entityId: string, entityDocumentId: string): Where
  {
    [UserIs(user), EntityIdIs(entityId), EntityDocumentIdIs(entityDocumentId)]
  }

  /** Rows created over one socket connection. */
  function OnConnection(socketId: string): Where
  {
    [ConnectionIdIs(socketId)]
  }

  /** The empty filter of `deleteMany()`. */
  const Everything: Where := []

  lemma MatchesTwo(l: Lock, a: Cond, b: Cond)
    ensures Matches(l, [a, b]) <==> Holds(l, a) && Holds(l, b)
  {
    var w := [a, b];
    if Matches(l, w) {
      assert Holds(l, w[0]) && Holds(l, w[1]);
    }
  }

  lemma MatchesThree(l: Lock, a: Cond, b: Cond, c: Cond)
    ensures Matches(l, [a, b, c]) <==> Holds(l, a) && Holds(l, b) && Holds(l, c)
  {
    var w := [a, b, c];
    if Matches(l, w) {
      assert Holds(l, w[0]) && Holds(l, w[1]) && Holds(l, w[2]);
    }
  }

  /** What each filter the server builds selects. */
  lemma MatchesFilters(l: Lock, d: string, e: string, u: string, s: string)
    ensures Matches(l, HeldByOthers(d, e, u)) <==> l.entityDocumentId == d && l.entityId == e && l.user != u
    ensures Matches(l, DocumentHeldByOthers(d, u)) <==> l.entityDocumentId == d && l.user != u
    ensures Matches(l, HeldBy(u, e, d)) <==> l.user == u && l.entityId == e && l.entityDocumentId == d
    ensures Matches(l, OnConnection(s)) <==> l.connectionId == Some(s)
    ensures Matches(l, Everything)
  {
    MatchesThree(l, EntityDocumentIdIs(d), EntityIdIs(e), UserIsNot(u));
    MatchesTwo(l, EntityDocumentIdIs(d), UserIsNot(u));
    MatchesThree(l, UserIs(u), EntityIdIs(e), EntityDocumentIdIs(d));
    var w := OnConnection(s);
    if Matches(l, w) {
      assert Holds(l, w[0]);
    }
  }

  /** Some row of `s` matching `w`, if there is one (the store promises no particular one). */
  function First(s: seq<Lock>, w: Where): (r: Option<Lock>)
    ensures r.None? <==> forall l :: l in s ==> !Matches(l, w)
    ensures r.Some? ==> r.value in s && Matches(r.value, w)
  {
    if s == [] then None
    else if Matches(s[0], w) then Some(s[0])
    else First(s[1..], w)
  }

  /** The rows of `s` that `w` does not match, in their original order. */
  function Without(s: seq<Lock>, w: Where): (r: seq<Lock>)
    ensures |r| <= |s|
    ensures forall l :: l in r ==> l in s && !Matches(l, w)
  {
    if s == [] then []
    else if Matches(s[0], w) then Without(s[1..], w)
    else [s[0]] + Without(s[1..], w)
  }

  /** `deleteMany(where)` removes every matching row and keeps every other row, with its multiplicity. */
  lemma {:induction false} WithoutCount(s: seq<Lock>, w: Where, l: Lock)
    ensures multiset(Without(s, w))[l] == if Matches(l, w) then 0 else multiset(s)[l]
  {
    if s != [] {
      WithoutCount(s[1..], w, l);
      assert s == [s[0]] + s[1..];
    }
  }

  /** Filtering distributes over concatenation, so order is kept. */
  lemma {:induction false} WithoutAppend(s: seq<Lock>, t: seq<Lock>, w: Where)
    ensures Without(s + t, w) == Without(s, w) + Without(t, w)
  {
    if s == [] {
      assert s + t == t;
    } else {
      assert (s + t)[1..] == s[1..] + t;
      WithoutAppend(s[1..], t, w);
    }
  }

  /** When no row matches, `deleteMany` removes nothing. */
  lemma {:induction false} WithoutNothingMatches(s: seq<Lock>, w: Where)
    requires forall l :: l in s ==> !Matches(l, w)
    ensures Without(s, w) == s
  {
    if s != [] {
      WithoutNothingMatches(s[1..], w);
    }
  }

  /** Deleting twice with the same filter is the same as deleting once. */
  lemma WithoutIdempotent(s: seq<Lock>, w: Where)
    ensures Without(Without(s, w), w) == Without(s, w)
  {
    WithoutNothingMatches(Without(s, w), w);
  }

  /** `deleteMany()` with no filter empties the table. */
  lemma {:induction false} WithoutEverything(s: seq<Lock>)
    ensures Without(s, Everything) == []
  {
    if s != [] {
      assert Matches(s[0], Everything);
      WithoutEverything(s[1..]);
    }
  }

  /** The table the server reads and writes through `strapi.db.query('plugin::record-locking.open-entity')`. */
  class LockTable {
    var rows: seq<Lock>

    constructor ()
      ensures rows == []
    {
      rows := [];
    }

    /** `findOne({ where })` */
    function FindOne(w: Where): (r: Option<Lock>)
      reads this
      ensures r.None? <==> forall l :: l in rows ==> !Matches(l, w)
      ensures r.Some? ==> r.value in rows && Matches(r.value, w)
    {
      First(rows, w)
    }

    /** `create({ data })`: appends the row, whatever rows already exist. */
    method Create(data: Lock)
      modifies this
      ensures rows == old(rows) + [data]
    {
      rows := rows + [data];
    }

    /** `deleteMany({ where })`, and `deleteMany()` with `w == Everything`. */
    method DeleteMany(w: Where)
      modifies this
      ensures rows == Without(old(rows), w)
    {
      rows := Without(rows, w);
    }
  }
}
