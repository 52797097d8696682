/**
 * The TODO service: create, keyset-paginated read, update and bulk delete
 * over one relational table. The table is an in-memory sequence of records
 * kept newest first (strictly descending ids), so "ORDER BY id DESC" is the
 * sequence order. Each driver call the service makes may fail; which one
 * fails is the `Fault` parameter of each operation.
 */
module TodoService {
  import opened Wrappers

  newtype int64 = x: int | -0x8000_0000_0000_0000 <= x < 0x8000_0000_0000_0000

  const MaxInt64: int := 0x7fff_ffff_ffff_ffff

  /** created_at / updated_at: opaque values assigned by the store. */
  type Timestamp = int

  datatype Todo = Todo(id: int64, subject: string, description: string,
                       createdAt: Timestamp, updatedAt: Timestamp)

  /** The driver call at which an error surfaced. */
  datatype Step = Exec | LastInsertId | RowsAffected | Query | Scan | RowsErr

  datatype Error =
    | NotFound(resource: string)   // model.ErrNotFound{Resource: resource}
    | StoreError(step: Step)       // the driver's error, passed through unchanged

  datatype Result<T> = Ok(value: T) | Err(error: Error)

  /** Which driver call, if any, fails during one service operation. */
  datatype Fault =
    | NoFault
    | ExecFault          // ExecContext returns an error
    | ResultFault        // LastInsertId / RowsAffected returns an error
    | QueryFault         // QueryContext / QueryRowContext returns an error
    | ScanFault(row: nat)  // Scan of the row-th result row fails
    | RowsFault          // rows.Err() reports an iteration error

  // ---------------------------------------------------------------------------
  // The table

  ghost predicate Descending(rows: seq<Todo>)
  {
    forall i, j :: 0 <= i < j < |rows| ==> rows[i].id > rows[j].id
  }

  /** The store's invariant: ids strictly descending, all in [1, nextId). */
  ghost predicate WellFormed(rows: seq<Todo>, nextId: int)
  {
    && 1 <= nextId <= MaxInt64 + 1
    && Descending(rows)
    && forall i :: 0 <= i < |rows| ==> 1 <= rows[i].id as int < nextId
  }

  /** The row stored under `id`, if any (`SELECT ... FROM todos WHERE id = ?`). */
  function Lookup(rows: seq<Todo>, id: int64): (r: Option<Todo>)
    ensures r.Some? ==> r.value in rows && r.value.id == id
    ensures r.None? ==> forall x :: x in rows ==> x.id != id
  {
    if rows == [] then None
    else if rows[0].id == id then Some(rows[0])
    else Lookup(rows[1..], id)
  }

  // ---------------------------------------------------------------------------
  // SELECT ... [WHERE id < ?] ORDER BY id DESC LIMIT ?

  datatype Cursor = All | Before(bound: int64)

  predicate Admits(c: Cursor, id: int64)
  {
    c.All? || id < c.bound
  }

  /** service/todo.go:68-72: the WHERE clause is used only for a positive prevID. */
  function CursorOf(prevID: int64): (c: Cursor)
  {
    if prevID > 0 then Before(prevID) else All
  }

  /** The rows the WHERE clause admits, in table (descending id) order. */
  function Matching(rows: seq<Todo>, c: Cursor): (m: seq<Todo>)
    ensures |m| <= |rows|
    ensures forall x :: x in m ==> x in rows && Admits(c, x.id)
    ensures forall x :: x in rows && Admits(c, x.id) ==> x in m
  {
    if rows == [] then []
    else if Admits(c, rows[0].id) then [rows[0]] + Matching(rows[1..], c)
    else Matching(rows[1..], c)
  }

  /** LIMIT: a negative limit means no limit (SQLite). */
  function Limit(s: seq<Todo>, limit: int64): (p: seq<Todo>)
  {
    if limit < 0 || |s| <= limit as int then s else s[..limit]
  }

  /** The store's answer to the read query: what `rows.Next()` iterates over. */
  function Select(rows: seq<Todo>, c: Cursor, limit: int64): (p: seq<Todo>)
  {
    Limit(Matching(rows, c), limit)
  }

  // ---------------------------------------------------------------------------
  // UPDATE todos SET subject = ?, description = ? WHERE id = ?

  /** The table after the UPDATE statement; `now` is the store-assigned updated_at. */
  function Updated(rows: seq<Todo>, id: int64, subject: string, description: string, now: Timestamp): (u: seq<Todo>)
  {
    if rows == [] then []
    else
      var head := if rows[0].id == id
                  then rows[0].(subject := subject, description := description, updatedAt := now)
                  else rows[0];
      [head] + Updated(rows[1..], id, subject, description, now)
  }

  /** Number of rows the UPDATE statement matches, as RowsAffected reports it. */
  function CountId(rows: seq<Todo>, id: int64): (n: nat)
  {
    if rows == [] then 0 else (if rows[0].id == id then 1 else 0) + CountId(rows[1..], id)
  }

  // ---------------------------------------------------------------------------
  // DELETE FROM todos WHERE id IN (?,...)

  /** The table after the DELETE statement with the bound arguments `ids`. */
  function Remove(rows: seq<Todo>, ids: seq<int64>): (r: seq<Todo>)
    ensures |r| <= |rows|
    ensures forall x :: x in r <==> x in rows && x.id !in ids
  {
    if rows == [] then []
    else if rows[0].id in ids then Remove(rows[1..], ids)
    else [rows[0]] + Remove(rows[1..], ids)
  }

  /** deleteFmt split at its `%s` verb: DeletePrefix, then the verb, then DeleteSuffix. */
  const DeleteHead := "DELETE FROM todos WHERE id IN ("
  const DeletePrefix := DeleteHead + "?"
  const DeleteSuffix := ")"

  /** strings.Repeat */
  function Repeat(s: string, n: nat): (r: string)
    ensures |r| == n * |s|
  {
    if n == 0 then "" else s + Repeat(s, n - 1)
  }

  /** fmt.Sprintf(deleteFmt, placeholders) */
  function FormatDelete(placeholders: string): (q: string)
  {
    DeletePrefix + placeholders + DeleteSuffix
  }

  /** How many `?` parameters a statement has; the driver binds one argument to each. */
  function CountPlaceholders(q: string): (n: nat)
  {
    if q == [] then 0 else (if q[0] == '?' then 1 else 0) + CountPlaceholders(q[1..])
  }

  // ---------------------------------------------------------------------------
  // The store and the service

  /** The relational store (*sql.DB): the todos table and the next id it assigns. */
  class DB {
    var rows: seq<Todo>
    var nextId: int

    ghost predicate Valid()
      reads this
    {
      WellFormed(rows, nextId)
    }

    constructor ()
      ensures Valid() && rows == [] && nextId == 1
    {
      rows := [];
      nextId := 1;
    }
  }

  class TODOService {
    const db: DB

    constructor (db: DB)
      ensures this.db == db
    {
      this.db := db;
    }

    /**
     * INSERT, read the id back, then SELECT the row. `now` is the timestamp the
     * store gives the new row's created_at and updated_at.
     */
    method CreateTODO(subject: string, description: string, now: Timestamp, fault: Fault)
      returns (r: Result<Todo>)
      requires db.Valid()
      modifies db
      ensures db.Valid()
      ensures (fault.ExecFault? || old(db.nextId) > MaxInt64) ==>
                r == Err(StoreError(Exec)) && db.rows == old(db.rows) && db.nextId == old(db.nextId)
      ensures !(fault.ExecFault? || old(db.nextId) > MaxInt64) ==>
                && db.nextId == old(db.nextId) + 1
                && db.rows == [Todo(old(db.nextId) as int64, subject, description, now, now)] + old(db.rows)
                && r == (if fault.ResultFault? then Err(StoreError(LastInsertId))
                         else if fault.QueryFault? || fault.ScanFault? then Err(StoreError(Scan))
                         else Ok(db.rows[0]))
    {
      // INSERT INTO todos(subject, description) VALUES(?, ?)
      if fault.ExecFault? || db.nextId > MaxInt64 {
        return Err(StoreError(Exec));
      }
      var inserted := Todo(db.nextId as int64, subject, description, now, now);
      db.rows := [inserted] + db.rows;
      db.nextId := db.nextId + 1;

      // result.LastInsertId()
      if fault.ResultFault? {
        return Err(StoreError(LastInsertId));
      }
      var id := inserted.id;

      // SELECT id, subject, description, created_at, updated_at FROM todos WHERE id = ?
      var row := Lookup(db.rows, id);
      if fault.QueryFault? || fault.ScanFault? || row.None? {
        return Err(StoreError(Scan));
      }
      return Ok(row.value);
    }

    /**
     * Keyset pagination: up to `size` records with id below `prevID` (all
     * records when prevID <= 0), newest first.
     */
    method ReadTODO(prevID: int64, size: int64, fault: Fault) returns (r: Result<seq<Todo>>)
      requires db.Valid()
      ensures size == 0 ==> r == Ok([])
      ensures size != 0 && fault.QueryFault? ==> r == Err(StoreError(Query))
      ensures size != 0 && fault.ScanFault? && fault.row < |Select(db.rows, CursorOf(prevID), size)| ==>
                r == Err(StoreError(Scan))
      ensures size != 0 && fault.RowsFault? ==> r == Err(StoreError(RowsErr))
      ensures size != 0 && !fault.QueryFault? && !fault.RowsFault?
              && !(fault.ScanFault? && fault.row < |Select(db.rows, CursorOf(prevID), size)|) ==>
                r == Ok(Select(db.rows, CursorOf(prevID), size))
    {
      if size == 0 {
        return Ok([]);
      }

      var cursor := CursorOf(prevID);
      if fault.QueryFault? {
        return Err(StoreError(Query));
      }
      var result := Select(db.rows, cursor, size);

      var todos: seq<Todo> := [];
      var i := 0;
      while i < |result|
        invariant 0 <= i <= |result|
        invariant todos == result[..i]
        invariant fault.ScanFault? ==> i <= fault.row
      {
        if fault.ScanFault? && fault.row == i {
          return Err(StoreError(Scan));
        }
        todos := todos + [result[i]];
        i := i + 1;
      }

      assert todos == result;
      if fault.RowsFault? {
        return Err(StoreError(RowsErr));
      }
      if |todos| == 0 {
        return Ok([]);
      }
      if size > 0 && |todos| > size as int {
        return Ok(todos[..size]);
      }
      return Ok(todos);
    }

    /**
     * UPDATE by id, then SELECT the row back. `now` is the store-assigned
     * updated_at.
     */
    method UpdateTODO(id: int64, subject: string, description: string, now: Timestamp, fault: Fault)
      returns (r: Result<Todo>)
      requires db.Valid()
      modifies db
      ensures db.Valid() && db.nextId == old(db.nextId)
      ensures id == 0 ==> r == Err(NotFound("")) && db.rows == old(db.rows)
      ensures id != 0 && fault.ExecFault? ==> r == Err(StoreError(Exec)) && db.rows == old(db.rows)
      ensures id != 0 && !fault.ExecFault? ==>
                db.rows == Updated(old(db.rows), id, subject, description, now)
      ensures id != 0 && fault.ResultFault? ==> r == Err(StoreError(RowsAffected))
      ensures id != 0 && !fault.ExecFault? && !fault.ResultFault? && Lookup(old(db.rows), id).None? ==>
                r == Err(NotFound(""))
      ensures id != 0 && !fault.ExecFault? && !fault.ResultFault? && Lookup(old(db.rows), id).Some? ==>
                r == if fault.QueryFault? || fault.ScanFault? then Err(StoreError(Scan))
                     else Ok(Todo(id, subject, description, Lookup(old(db.rows), id).value.createdAt, now))
    {
      if id == 0 {
        return Err(NotFound(""));
      }

      // UPDATE todos SET subject = ?, description = ? WHERE id = ?
      if fault.ExecFault? {
        return Err(StoreError(Exec));
      }
      ghost var before := db.rows;
      var rowsAffected := CountId(db.rows, id);
      db.rows := Updated(db.rows, id, subject, description, now);
      UpdatedKeepsIds(before, id, subject, description, now);

      // result.RowsAffected()
      if fault.ResultFault? {
        return Err(StoreError(RowsAffected));
      }
      CountIdIsLookup(before, id);
      if rowsAffected == 0 {
        return Err(NotFound(""));
      }

      // SELECT subject, description, created_at, updated_at FROM todos WHERE id = ?
      UpdatedLookup(before, id, subject, description, now);
      var row := Lookup(db.rows, id);
      if fault.QueryFault? || fault.ScanFault? || row.None? {
        return Err(StoreError(Scan));
      }
      return Ok(Todo(id, row.value.subject, row.value.description, row.value.createdAt, row.value.updatedAt));
    }

    /**
     * Bulk delete by id. Success means at least one row was deleted; the
     * returned `err` is Go's `error` (None for nil).
     */
    method DeleteTODO(ids: seq<int64>, fault: Fault) returns (err: Option<Error>)
      requires db.Valid()
      modifies db
      ensures db.Valid() && db.nextId == old(db.nextId)
      ensures ids == [] ==> err == None && db.rows == old(db.rows)
      ensures ids != [] && fault.ExecFault? ==> err == Some(StoreError(Exec)) && db.rows == old(db.rows)
      ensures ids != [] && !fault.ExecFault? ==> db.rows == Remove(old(db.rows), ids)
      ensures ids != [] && fault.ResultFault? ==> err == Some(StoreError(RowsAffected))
      ensures ids != [] && !fault.ExecFault? && !fault.ResultFault? ==>
                err == if |db.rows| == |old(db.rows)| then Some(NotFound("TODO")) else None
    {
      if |ids| == 0 {
        return None;
      }

      var placeholders := Repeat(",?", |ids| - 1);
      var query := FormatDelete(placeholders);

      var args := new int64[|ids|];
      for i := 0 to |ids|
        modifies args
        invariant forall k :: 0 <= k < i ==> args[k] == ids[k]
      {
        args[i] := ids[i];
      }
      assert args[..] == ids;

      // ExecContext(query, args...): the driver refuses a statement whose
      // placeholder count differs from the number of arguments.
      DeleteQueryPlaceholders(|ids|);
      if fault.ExecFault? || CountPlaceholders(query) != args.Length {
        return Some(StoreError(Exec));
      }
      ghost var before := db.rows;
      var affected := |db.rows| - |Remove(db.rows, args[..])|;
      db.rows := Remove(db.rows, args[..]);
      RemoveKeepsWellFormed(before, ids, db.nextId);

      // result.RowsAffected()
      if fault.ResultFault? {
        return Some(StoreError(RowsAffected));
      }
      if affected == 0 {
        return Some(NotFound("TODO"));
      }
      return None;
    }
  }

  // ---------------------------------------------------------------------------
  // Lemmas: the read query

  /** The WHERE clause keeps a descending table descending. */
  lemma {:induction false} MatchingDescending(rows: seq<Todo>, c: Cursor)
    requires Descending(rows)
    ensures Descending(Matching(rows, c))
  {
    if rows != [] {
      MatchingDescending(rows[1..], c);
      HeadAboveTail(rows);
      if Admits(c, rows[0].id) {
        ConsDescending(rows[0], Matching(rows[1..], c));
      }
    }
  }

  lemma HeadAboveTail(rows: seq<Todo>)
    requires Descending(rows) && rows != []
    ensures Descending(rows[1..])
    ensures forall x :: x in rows[1..] ==> x.id < rows[0].id
  {
    forall x | x in rows[1..] ensures x.id < rows[0].id {
      var j :| 0 <= j < |rows[1..]| && rows[1..][j] == x;
      assert rows[j + 1] == x;
    }
  }

  lemma ConsDescending(x: Todo, tail: seq<Todo>)
    requires Descending(tail) && forall y :: y in tail ==> y.id < x.id
    ensures Descending([x] + tail)
  {
    var m := [x] + tail;
    forall i, j | 0 <= i < j < |m| ensures m[i].id > m[j].id {
      assert m[j] == tail[j - 1];
      if i == 0 {
        assert tail[j - 1] in tail;
      } else {
        assert m[i] == tail[i - 1];
      }
    }
  }

  /** When every row is admitted, the WHERE clause keeps the whole table. */
  lemma {:induction false} MatchingAllAdmitted(rows: seq<Todo>, c: Cursor)
    requires forall i :: 0 <= i < |rows| ==> Admits(c, rows[i].id)
    ensures Matching(rows, c) == rows
  {
    if rows != [] {
      MatchingAllAdmitted(rows[1..], c);
    }
  }

  /** On a descending table, "id below the k-th row's id" is exactly the rows after k. */
  lemma {:induction false} MatchingBelowRow(d: seq<Todo>, k: nat)
    requires Descending(d) && k < |d|
    ensures Matching(d, Before(d[k].id)) == d[k + 1..]
  {
    if k == 0 {
      MatchingAllAdmitted(d[1..], Before(d[0].id));
    } else {
      MatchingBelowRow(d[1..], k - 1);
      assert d[1..][k - 1] == d[k];
      assert d[1..][k..] == d[k + 1..];
    }
  }

  /** Filtering by a narrower cursor after a wider one is filtering by the narrower one. */
  lemma {:induction false} MatchingNarrower(rows: seq<Todo>, c: Cursor, b: int64)
    requires c.All? || b <= c.bound
    ensures Matching(Matching(rows, c), Before(b)) == Matching(rows, Before(b))
  {
    if rows != [] {
      MatchingNarrower(rows[1..], c, b);
    }
  }

  /**
   * What ReadTODO returns (service/todo.go:56-57, 68-72, 86-106): records the
   * cursor admits, newest first.
   */
  lemma SelectIsPage(rows: seq<Todo>, c: Cursor, size: int64)
    requires Descending(rows)
    ensures var p := Select(rows, c, size);
      && Descending(p)
      && (forall x :: x in p ==> x in rows && Admits(c, x.id))
  {
    var m := Matching(rows, c);
    MatchingDescending(rows, c);
    var p := Select(rows, c, size);
    assert p == m[..|p|];
    PrefixHasNoGap(m, |p|);
  }

  /** A page holds min(size, k) records for the k the cursor admits, all k for a negative size. */
  lemma SelectLength(rows: seq<Todo>, c: Cursor, size: int64)
    ensures |Select(rows, c, size)| ==
      if size < 0 || |Matching(rows, c)| <= size as int then |Matching(rows, c)| else size as int
  {
  }

  /** No admitted record is skipped before the last one on the page. */
  lemma SelectHasNoGap(rows: seq<Todo>, c: Cursor, size: int64)
    requires Descending(rows)
    ensures var p := Select(rows, c, size);
      forall x, i :: x in rows && Admits(c, x.id) && 0 <= i < |p| && x.id >= p[i].id ==> x in p
  {
    var m := Matching(rows, c);
    MatchingDescending(rows, c);
    var p := Select(rows, c, size);
    assert p == m[..|p|];
    PrefixHasNoGap(m, |p|);
  }

  /** A prefix of a descending sequence is descending and holds every element at or above its own ids. */
  lemma PrefixHasNoGap(m: seq<Todo>, n: nat)
    requires Descending(m) && n <= |m|
    ensures Descending(m[..n])
    ensures forall x, i :: x in m && 0 <= i < n && x.id >= m[i].id ==> x in m[..n]
  {
    forall x, i | x in m && 0 <= i < n && x.id >= m[i].id ensures x in m[..n] {
      var j :| 0 <= j < |m| && m[j] == x;
      assert j <= i;
      assert m[..n][j] == x;
    }
  }

  /**
   * Keyset continuation (service/todo.go:57, 68-69): after a full page, asking
   * again with prevID set to the last id returned gives the records that follow,
   * with no overlap and no gap: the two pages together are one page of the
   * combined size.
   */
  lemma Continuation(rows: seq<Todo>, nextId: int, prevID: int64, size: int64, more: int64)
    requires WellFormed(rows, nextId)
    requires size > 0 && (more < 0 || size as int + more as int <= MaxInt64)
    requires |Select(rows, CursorOf(prevID), size)| == size as int
    ensures var p := Select(rows, CursorOf(prevID), size);
      p + Select(rows, CursorOf(p[size - 1].id), more)
        == Select(rows, CursorOf(prevID), if more < 0 then -1 else size + more)
  {
    var c := CursorOf(prevID);
    var m := Matching(rows, c);
    NextCursorIsRest(rows, nextId, c, size as int);
    LimitSplit(m, size as int, more);
  }

  /** With prevID set to the n-th admitted record's id, the admitted records are those after it. */
  lemma NextCursorIsRest(rows: seq<Todo>, nextId: int, c: Cursor, n: nat)
    requires WellFormed(rows, nextId)
    requires 0 < n <= |Matching(rows, c)|
    ensures CursorOf(Matching(rows, c)[n - 1].id) == Before(Matching(rows, c)[n - 1].id)
    ensures Matching(rows, CursorOf(Matching(rows, c)[n - 1].id)) == Matching(rows, c)[n..]
  {
    var m := Matching(rows, c);
    var last := m[n - 1].id;
    assert m[n - 1] in rows;
    MatchingDescending(rows, c);
    MatchingNarrower(rows, c, last);
    MatchingBelowRow(m, n - 1);
  }

  /** A full page of n followed by a page of `more` from the rest is one page of n + more. */
  lemma LimitSplit(m: seq<Todo>, n: int, more: int64)
    requires 0 < n <= |m| && n <= MaxInt64
    requires more < 0 || n + more as int <= MaxInt64
    ensures Limit(m, n as int64) == m[..n]
    ensures m[..n] + Limit(m[n..], more) == Limit(m, if more < 0 then -1 else n as int64 + more)
  {
    if more >= 0 && n + more as int < |m| {
      assert m[..n] + m[n..][..more] == m[..n + more as int];
    } else {
      assert m[..n] + m[n..] == m;
    }
  }

  /** After a short page, the next page is empty. */
  lemma ShortPageEnds(rows: seq<Todo>, nextId: int, prevID: int64, size: int64, more: int64)
    requires WellFormed(rows, nextId)
    requires size > 0
    requires var p := Select(rows, CursorOf(prevID), size); 0 < |p| < size as int
    ensures var p := Select(rows, CursorOf(prevID), size);
      Select(rows, CursorOf(p[|p| - 1].id), more) == []
  {
    var c := CursorOf(prevID);
    var m := Matching(rows, c);
    assert Select(rows, c, size) == m;
    NextCursorIsRest(rows, nextId, c, |m|);
  }

  /** The worked example: ids 1..10, size 3 gives 10,9,8, then prevID 8 gives 7,6,5. */
  lemma TenRowsExample(rows: seq<Todo>)
    requires |rows| == 10 && forall i :: 0 <= i < 10 ==> rows[i].id as int == 10 - i
    ensures Select(rows, CursorOf(0), 3) == rows[..3]
    ensures rows[2].id == 8 && Select(rows, CursorOf(8), 3) == rows[3..6]
  {
    MatchingAllAdmitted(rows, All);
    assert Descending(rows);
    MatchingBelowRow(rows, 2);
    assert rows[3..][..3] == rows[3..6];
  }

  // ---------------------------------------------------------------------------
  // Lemmas: update

  lemma {:induction false} UpdatedKeepsIds(rows: seq<Todo>, id: int64, subject: string, description: string, now: Timestamp)
    ensures var u := Updated(rows, id, subject, description, now);
      |u| == |rows| && forall i :: 0 <= i < |rows| ==> u[i].id == rows[i].id
  {
    if rows != [] {
      UpdatedKeepsIds(rows[1..], id, subject, description, now);
    }
  }

  /**
   * The UPDATE changes only the record with that id, and only its subject,
   * description and updated_at (service/todo.go:117-122).
   */
  lemma {:induction false} UpdatedOnlyTarget(rows: seq<Todo>, id: int64, subject: string, description: string, now: Timestamp)
    ensures var u := Updated(rows, id, subject, description, now);
      && |u| == |rows|
      && forall i :: 0 <= i < |rows| ==>
           u[i] == if rows[i].id == id
                   then Todo(id, subject, description, rows[i].createdAt, now)
                   else rows[i]
  {
    if rows != [] {
      UpdatedOnlyTarget(rows[1..], id, subject, description, now);
      var u := Updated(rows, id, subject, description, now);
      forall i | 0 <= i < |rows|
        ensures u[i] == if rows[i].id == id then Todo(id, subject, description, rows[i].createdAt, now) else rows[i]
      {
        if i > 0 { assert rows[1..][i - 1] == rows[i]; }
      }
    }
  }

  /** An UPDATE that matches no row leaves the table as it was. */
  lemma {:induction false} UpdatedMissingIsIdentity(rows: seq<Todo>, id: int64, subject: string, description: string, now: Timestamp)
    requires Lookup(rows, id).None?
    ensures Updated(rows, id, subject, description, now) == rows
  {
    if rows != [] {
      UpdatedMissingIsIdentity(rows[1..], id, subject, description, now);
    }
  }

  /** Reading the row back after the UPDATE sees the new fields. */
  lemma {:induction false} UpdatedLookup(rows: seq<Todo>, id: int64, subject: string, description: string, now: Timestamp)
    requires Lookup(rows, id).Some?
    ensures Lookup(Updated(rows, id, subject, description, now), id)
      == Some(Todo(id, subject, description, Lookup(rows, id).value.createdAt, now))
  {
    if rows[0].id != id {
      UpdatedLookup(rows[1..], id, subject, description, now);
    }
  }

  /** On a table with distinct ids, RowsAffected is 1 for a stored id and 0 otherwise. */
  lemma {:induction false} CountIdIsLookup(rows: seq<Todo>, id: int64)
    requires Descending(rows)
    ensures CountId(rows, id) == if Lookup(rows, id).Some? then 1 else 0
  {
    if rows != [] {
      CountIdIsLookup(rows[1..], id);
      if rows[0].id == id {
        HeadAboveTail(rows);
      }
    }
  }

  // ---------------------------------------------------------------------------
  // Lemmas: delete

  lemma {:induction false} RemoveKeepsWellFormed(rows: seq<Todo>, ids: seq<int64>, nextId: int)
    requires WellFormed(rows, nextId)
    ensures WellFormed(Remove(rows, ids), nextId)
  {
    if rows != [] {
      HeadAboveTail(rows);
      assert WellFormed(rows[1..], nextId) by {
        forall i | 0 <= i < |rows[1..]| ensures 1 <= rows[1..][i].id as int < nextId {
          assert rows[1..][i] == rows[i + 1];
        }
      }
      RemoveKeepsWellFormed(rows[1..], ids, nextId);
      var tail := Remove(rows[1..], ids);
      if rows[0].id !in ids {
        ConsDescending(rows[0], tail);
      }
      var r := Remove(rows, ids);
      forall i | 0 <= i < |r| ensures 1 <= r[i].id as int < nextId {
        assert r[i] in rows;
      }
    }
  }

  /**
   * DeleteTODO reports NotFound iff zero rows matched (service/todo.go:167-179):
   * the DELETE removes nothing exactly when no stored id is in the list, so
   * a partial match is a success.
   */
  lemma {:induction false} RemoveNothingIff(rows: seq<Todo>, ids: seq<int64>)
    ensures |Remove(rows, ids)| == |rows| <==> forall x :: x in rows ==> x.id !in ids
  {
    if rows != [] {
      RemoveNothingIff(rows[1..], ids);
      assert rows == [rows[0]] + rows[1..];
    }
  }

  // ---------------------------------------------------------------------------
  // Lemmas: the placeholder list

  lemma {:induction false} CountPlaceholdersAppend(a: string, b: string)
    ensures CountPlaceholders(a + b) == CountPlaceholders(a) + CountPlaceholders(b)
  {
    if a == [] {
      assert a + b == b;
    } else {
      assert (a + b)[0] == a[0] && (a + b)[1..] == a[1..] + b;
      CountPlaceholdersAppend(a[1..], b);
    }
  }

  lemma {:induction false} NoPlaceholders(s: string)
    requires '?' !in s
    ensures CountPlaceholders(s) == 0
  {
    if s != [] {
      NoPlaceholders(s[1..]);
    }
  }

  lemma {:induction false} RepeatPlaceholders(n: nat)
    ensures CountPlaceholders(Repeat(",?", n)) == n
  {
    if n > 0 {
      CountPlaceholdersAppend(",?", Repeat(",?", n - 1));
      RepeatPlaceholders(n - 1);
    }
  }

  /**
   * service/todo.go:151-159: for n ids the statement has exactly n `?`
   * parameters, so each id is bound to one of them.
   */
  lemma DeleteQueryPlaceholders(n: nat)
    requires n >= 1
    ensures CountPlaceholders(FormatDelete(Repeat(",?", n - 1))) == n
  {
    FilledPlaceholders(DeleteHead, Repeat(",?", n - 1), DeleteSuffix);
    RepeatPlaceholders(n - 1);
  }

  lemma FilledPlaceholders(head: string, middle: string, suffix: string)
    requires '?' !in head && '?' !in suffix
    ensures CountPlaceholders(head + "?" + middle + suffix) == 1 + CountPlaceholders(middle)
  {
    NoPlaceholders(head);
    NoPlaceholders(suffix);
    CountPlaceholdersAppend(head, "?");
    CountPlaceholdersAppend(head + "?", middle);
    CountPlaceholdersAppend(head + "?" + middle, suffix);
  }

  /**
   * The statement's shape: the prefix up to the parenthesis, then a list of
   * n `?` separated by commas, then `)`.
   */
  lemma DeleteQueryShape(n: nat)
    requires n >= 1
    ensures var q := FormatDelete(Repeat(",?", n - 1));
      && q[..31] == "DELETE FROM todos WHERE id IN ("
      && |q| == 31 + 2 * n
      && q[|q| - 1] == ')'
      && (forall i :: 0 <= i < n ==> q[31 + 2 * i] == '?')
      && (forall i :: 0 <= i < n - 1 ==> q[32 + 2 * i] == ',')
  {
    var rep := Repeat(",?", n - 1);
    var q := FormatDelete(rep);
    forall i | 0 <= i < n - 1 ensures rep[2 * i] == ',' && rep[2 * i + 1] == '?' {
      RepeatAt(n - 1, i);
    }
    assert q == DeletePrefix + rep + DeleteSuffix;
    forall i | 0 <= i < n ensures q[31 + 2 * i] == '?' {
      if i > 0 { assert q[31 + 2 * i] == rep[2 * (i - 1) + 1]; }
    }
    forall i | 0 <= i < n - 1 ensures q[32 + 2 * i] == ',' {
      assert q[32 + 2 * i] == rep[2 * i];
    }
  }

  lemma {:induction false} RepeatAt(n: nat, i: nat)
    requires i < n
    ensures |Repeat(",?", n)| == 2 * n && Repeat(",?", n)[2 * i] == ',' && Repeat(",?", n)[2 * i + 1] == '?'
  {
    if i > 0 {
      RepeatAt(n - 1, i - 1);
      assert Repeat(",?", n) == ",?" + Repeat(",?", n - 1);
    }
  }
}
