/**
 * The SQLite message log as an in-memory append-only table. One
 * `MessageStore` object stands for the database file: every request builds a
 * fresh `SqliteStorage` over the same file, so the table outlives them.
 */
module Storage {
  import opened Wrappers

  /** The largest rowid SQLite hands out; past it an AUTOINCREMENT insert fails with SQLITE_FULL. */
  const MaxRowId: int := 0x7FFF_FFFF_FFFF_FFFF
  const DefaultListLimit: int := 500

  /** One row of `messages`; `createdAt` is the ISO-8601 text written at insert time. */
  datatype StoredMessage = StoredMessage(id: int, role: string, text: string, createdAt: string)

  /** Why a statement fails: no `messages` table yet, the role CHECK, or rowids exhausted. */
  datatype StorageError = NoSuchTable | CheckConstraintFailed | DatabaseFull

  /** `CHECK (role IN ('user','assistant'))`. */
  predicate AllowedRole(role: string)
  {
    role == "user" || role == "assistant"
  }

  predicate IdsAscending(ms: seq<StoredMessage>)
  {
    forall i, j :: 0 <= i < j < |ms| ==> ms[i].id < ms[j].id
  }

  /**
   * `ORDER BY id ASC LIMIT limit` over rows kept in id order: the first `limit`
   * rows; SQLite reads a negative limit as no limit at all.
   */
  function Window(rows: seq<StoredMessage>, limit: int): (r: seq<StoredMessage>)
    ensures limit >= 0 ==> |r| == if limit < |rows| then limit else |rows|
    ensures limit < 0 ==> r == rows
    ensures r == rows[..|r|]
  {
    if limit < 0 || limit >= |rows| then rows else rows[..limit]
  }

  /** The rows a listing returns are in id order and have the lowest ids of the table. */
  lemma WindowIsOldest(rows: seq<StoredMessage>, limit: int)
    requires IdsAscending(rows)
    ensures IdsAscending(Window(rows, limit))
    ensures forall i, j :: 0 <= i < |Window(rows, limit)| <= j < |rows| ==> Window(rows, limit)[i].id < rows[j].id
  {
  }

  /** While the table holds fewer rows than the limit, one more row extends the listing by exactly that row. */
  lemma WindowAppend(rows: seq<StoredMessage>, m: StoredMessage, limit: int)
    requires limit < 0 || |rows| < limit
    ensures Window(rows + [m], limit) == Window(rows, limit) + [m]
  {
  }

  /** An empty table lists as the empty sequence, whatever the limit. */
  lemma WindowEmpty(limit: int)
    ensures Window([], limit) == []
  {
  }

  class MessageStore {
    /** Whether `CREATE TABLE messages` and `CREATE INDEX idx_messages_created_at` have run. */
    var hasTable: bool
    var hasIndex: bool
    /** The rows of `messages`, in insertion (= id) order. */
    var rows: seq<StoredMessage>
    /** The `sqlite_sequence` entry: the largest id ever assigned (0 before the first insert). */
    var lastId: int

    ghost predicate Valid()
      reads this
    {
      && 0 <= lastId <= MaxRowId
      && (!hasTable ==> rows == [] && lastId == 0)
      && IdsAscending(rows)
      && (forall i :: 0 <= i < |rows| ==> 1 <= rows[i].id <= lastId && AllowedRole(rows[i].role))
    }

    /** A database file with no schema yet. */
    constructor ()
      ensures Valid()
      ensures !hasTable && !hasIndex && rows == [] && lastId == 0
    {
      hasTable, hasIndex, rows, lastId := false, false, [], 0;
    }

    /** `init`: `CREATE TABLE IF NOT EXISTS` and `CREATE INDEX IF NOT EXISTS`; stored rows are kept. */
    method Init()
      requires Valid()
      modifies this
      ensures Valid()
      ensures hasTable && hasIndex
      ensures rows == old(rows) && lastId == old(lastId)
      ensures old(hasTable) && old(hasIndex) ==> unchanged(this)
    {
      hasTable := true;
      hasIndex := true;
    }

    /**
     * `add_message`: one INSERT. It succeeds exactly when the table exists, the
     * role passes the CHECK and a rowid is left; the new row gets the id after
     * every id handed out before and goes at the end. A failed insert leaves the
     * table as it was.
     */
    method AddMessage(role: string, text: string, createdAt: string) returns (r: Result<StoredMessage, StorageError>)
      requires Valid()
      modifies this
      ensures Valid()
      ensures hasTable == old(hasTable) && hasIndex == old(hasIndex)
      ensures r.Success? <==> old(hasTable) && old(lastId) < MaxRowId && AllowedRole(role)
      ensures !old(hasTable) ==> r == Failure(NoSuchTable)
      ensures old(hasTable) && old(lastId) == MaxRowId ==> r == Failure(DatabaseFull)
      ensures old(hasTable) && old(lastId) < MaxRowId && !AllowedRole(role) ==> r == Failure(CheckConstraintFailed)
      ensures r.Failure? ==> rows == old(rows) && lastId == old(lastId)
      ensures r.Success? ==>
        && r.value == StoredMessage(old(lastId) + 1, role, text, createdAt)
        && rows == old(rows) + [r.value]
        && lastId == r.value.id
        && (forall i :: 0 <= i < |old(rows)| ==> old(rows)[i].id < r.value.id)
    {
      if !hasTable {
        return Failure(NoSuchTable);
      }
      if lastId == MaxRowId {
        return Failure(DatabaseFull);
      }
      if !AllowedRole(role) {
        return Failure(CheckConstraintFailed);
      }
      var m := StoredMessage(lastId + 1, role, text, createdAt);
      rows := rows + [m];
      lastId := m.id;
      return Success(m);
    }

    /**
     * `list_messages(limit)`: the oldest `limit` rows in ascending id order
     * (all of them for a negative limit), or `NoSuchTable` before `init`.
     */
    method ListMessages(limit: int) returns (r: Result<seq<StoredMessage>, StorageError>)
      requires Valid()
      ensures !hasTable ==> r == Failure(NoSuchTable)
      ensures hasTable ==> r.Success? && |r.value| <= |rows| && r.value == rows[..|r.value|]
      ensures r.Success? && limit >= 0 ==> |r.value| == if limit < |rows| then limit else |rows|
      ensures r.Success? && limit < 0 ==> r.value == rows
      ensures r.Success? ==> IdsAscending(r.value)
      ensures r.Success? ==> forall i, j :: 0 <= i < |r.value| <= j < |rows| ==> r.value[i].id < rows[j].id
      ensures r.Success? ==> forall i :: 0 <= i < |r.value| ==> AllowedRole(r.value[i].role)
    {
      if !hasTable {
        return Failure(NoSuchTable);
      }
      WindowIsOldest(rows, limit);
      return Success(Window(rows, limit));
    }
  }

  /** Calling `init` a second time creates nothing and keeps every stored message. */
  method InitTwice(store: MessageStore)
    requires store.Valid()
    modifies store
    ensures store.hasTable && store.hasIndex
    ensures store.rows == old(store.rows) && store.lastId == old(store.lastId)
  {
    store.Init();
    ghost var rowsAfterFirst := store.rows;
    store.Init();
    assert store.rows == rowsAfterFirst;
  }

  /** Messages appended one after another list back in that order, with ascending ids. */
  method AppendThenList(store: MessageStore, a: string, b: string, t1: string, t2: string)
    returns (listed: Result<seq<StoredMessage>, StorageError>)
    requires store.Valid() && store.hasTable && store.rows == [] && store.lastId == 0
    modifies store
    ensures listed == Success([StoredMessage(1, "user", a, t1), StoredMessage(2, "assistant", b, t2)])
  {
    var m1 := store.AddMessage("user", a, t1);
    assert m1 == Success(StoredMessage(1, "user", a, t1));
    var m2 := store.AddMessage("assistant", b, t2);
    assert m2 == Success(StoredMessage(2, "assistant", b, t2));
    assert store.rows == [StoredMessage(1, "user", a, t1), StoredMessage(2, "assistant", b, t2)];
    listed := store.ListMessages(DefaultListLimit);
    assert store.rows[..2] == store.rows;
  }
}
