/**
 * The thread-metadata endpoints of backend/app.py over the table declared in
 * backend/db.py. The SQL table is an in-memory map from `thread_id` to the
 * rest of the row; the endpoints read it or change it as the source does.
 */
module Threads {
  import opened Wrappers
  import opened Guest

  /** A row of the thread-metadata table, without its primary key. Timestamps are integers. */
  datatype ThreadRecord = ThreadRecord(guestId: string, title: string, createdAt: int, updatedAt: int)

  /** The table: primary key `thread_id` to the rest of the row. */
  type Table = map<string, ThreadRecord>

  /** One entry of the GET /api/threads response. */
  datatype ThreadInfo = ThreadInfo(threadId: string, title: string, createdAt: int)

  const ThreadNotFound: HttpError := HttpError(404, "Thread not found")

  /** A failed commit, as when an inserted primary key is already taken. */
  const CommitFailed: HttpError := HttpError(500, "Internal Server Error")

  /** The ids of the threads of one guest. */
  function Owned(t: Table, guest: string): set<string> {
    set id | id in t && t[id].guestId == guest
  }

  function InfoOf(id: string, rec: ThreadRecord): ThreadInfo {
    ThreadInfo(id, rec.title, rec.createdAt)
  }

  /**
   * `r` answers "the threads of `guest`, newest first": each entry projects
   * one of the guest's rows, every one of the guest's rows appears, none
   * twice, and `created_at` never increases along the list.
   */
  ghost predicate IsListing(t: Table, guest: string, r: seq<ThreadInfo>) {
    && (forall i :: 0 <= i < |r| ==> r[i].threadId in Owned(t, guest) && r[i] == InfoOf(r[i].threadId, t[r[i].threadId]))
    && (forall id :: id in Owned(t, guest) ==> exists i :: 0 <= i < |r| && r[i].threadId == id)
    && (forall i, j :: 0 <= i < j < |r| ==> r[i].threadId != r[j].threadId)
    && (forall i, j :: 0 <= i < j < |r| ==> r[i].createdAt >= r[j].createdAt)
  }

  ghost predicate IsNewest(t: Table, s: set<string>, k: string)
    requires s <= t.Keys
  {
    k in s && forall k' :: k' in s ==> t[k'].createdAt <= t[k].createdAt
  }

  /** Every non-empty set of rows has a newest one. */
  lemma {:induction false} NewestExists(t: Table, s: set<string>)
    requires s != {} && s <= t.Keys
    ensures exists k :: IsNewest(t, s, k)
    decreases |s|
  {
    var x :| x in s;
    if s != {x} {
      NewestExists(t, s - {x});
      var k :| IsNewest(t, s - {x}, k);
      if t[x].createdAt <= t[k].createdAt {
        assert IsNewest(t, s, k);
      } else {
        assert IsNewest(t, s, x);
      }
    } else {
      assert IsNewest(t, s, x);
    }
  }

  lemma OwnedWithout(t: Table, guest: string, k: string)
    ensures Owned(t - {k}, guest) == Owned(t, guest) - {k}
  {
  }

  /**
   * `select ... where guest_id == guest order by created_at desc`, projected
   * to ThreadInfo. Rows with equal timestamps may come in any order, as in SQL.
   */
  ghost function ListThreads(t: Table, guest: string): (r: seq<ThreadInfo>)
    ensures IsListing(t, guest, r)
    ensures |r| == |Owned(t, guest)|
    decreases |t|
  {
    var own := Owned(t, guest);
    if own == {} then []
    else
      NewestExists(t, own);
      var k :| IsNewest(t, own, k);
      OwnedWithout(t, guest, k);
      var rest := ListThreads(t - {k}, guest);
      ListingCons(t, guest, k, rest);
      [InfoOf(k, t[k])] + rest
  }

  /** The newest row, followed by a listing of the others, lists them all. */
  lemma ListingCons(t: Table, guest: string, k: string, rest: seq<ThreadInfo>)
    requires Owned(t, guest) <= t.Keys && IsNewest(t, Owned(t, guest), k)
    requires IsListing(t - {k}, guest, rest)
    ensures IsListing(t, guest, [InfoOf(k, t[k])] + rest)
  {
    OwnedWithout(t, guest, k);
    var own := Owned(t, guest);
    var r := [InfoOf(k, t[k])] + rest;
    assert r[0] == InfoOf(k, t[k]);
    forall j | 0 <= j < |rest|
      ensures r[j + 1] == rest[j]
      ensures rest[j].threadId in own && rest[j].threadId != k
      ensures rest[j] == InfoOf(rest[j].threadId, t[rest[j].threadId])
      ensures rest[j].createdAt <= t[k].createdAt
    {
      var id := rest[j].threadId;
      assert id in Owned(t - {k}, guest);
      assert (t - {k})[id] == t[id];
    }
    forall i | 0 <= i < |r|
      ensures r[i].threadId in own && r[i] == InfoOf(r[i].threadId, t[r[i].threadId])
    {
      if i > 0 {
        assert r[i] == rest[i - 1];
      }
    }
    forall id | id in own
      ensures exists i :: 0 <= i < |r| && r[i].threadId == id
    {
      if id == k {
        assert r[0].threadId == id;
      } else {
        assert id in Owned(t - {k}, guest);
        var j :| 0 <= j < |rest| && rest[j].threadId == id;
        assert r[j + 1].threadId == id;
      }
    }
    forall i, j | 0 <= i < j < |r|
      ensures r[i].threadId != r[j].threadId && r[i].createdAt >= r[j].createdAt
    {
      assert r[j] == rest[j - 1];
      if i > 0 {
        assert r[i] == rest[i - 1];
      }
    }
  }

  /** GET /api/threads: the caller's threads, newest first, after the guest-header check. */
  ghost function GetThreads(t: Table, header: Option<string>): (r: Result<seq<ThreadInfo>, HttpError>)
    ensures RequireGuestId(header).Err? ==> r == Err(RequireGuestId(header).error)
    ensures RequireGuestId(header).Ok? ==> r.Ok? && IsListing(t, header.value, r.value)
  {
    match RequireGuestId(header)
    case Err(e) => Err(e)
    case Ok(guest) => Ok(ListThreads(t, guest))
  }

  /** The table with its rows; the endpoints that write to it are its methods. */
  class ThreadStore {
    var rows: Table

    constructor ()
      ensures rows == map[]
    {
      rows := map[];
    }

    /**
     * POST /api/threads: insert a row with the fresh id (uuid4 in the
     * source, a parameter here), the caller as guest, the query as title and
     * the two clock readings (one per timestamp column) as its timestamps, and
     * return that id.
     */
    method CreateThread(header: Option<string>, query: string, freshId: string, created: int, updated: int)
      returns (r: Result<string, HttpError>)
      modifies this
      ensures RequireGuestId(header).Err? ==> r == Err(RequireGuestId(header).error) && rows == old(rows)
      ensures RequireGuestId(header).Ok? && freshId !in old(rows) ==>
                r == Ok(freshId) && rows == old(rows)[freshId := ThreadRecord(header.value, query, created, updated)]
      ensures RequireGuestId(header).Ok? && freshId in old(rows) ==> r == Err(CommitFailed) && rows == old(rows)
    {
      var guest := RequireGuestId(header);
      if guest.Err? {
        return Err(guest.error);
      }
      if freshId in rows {
        return Err(CommitFailed);
      }
      rows := rows[freshId := ThreadRecord(guest.value, query, created, updated)];
      r := Ok(freshId);
    }

    /**
     * PATCH /api/threads/{thread_id}: 404 when the id is not in the table;
     * otherwise only that row's title changes. The caller need not own it.
     */
    method RenameThread(header: Option<string>, threadId: string, title: string) returns (r: Result<(), HttpError>)
      modifies this
      ensures RequireGuestId(header).Err? ==> r == Err(RequireGuestId(header).error) && rows == old(rows)
      ensures RequireGuestId(header).Ok? && threadId !in old(rows) ==> r == Err(ThreadNotFound) && rows == old(rows)
      ensures RequireGuestId(header).Ok? && threadId in old(rows) ==>
                r == Ok(()) && rows == old(rows)[threadId := old(rows)[threadId].(title := title)]
    {
      var guest := RequireGuestId(header);
      if guest.Err? {
        return Err(guest.error);
      }
      if threadId !in rows {
        return Err(ThreadNotFound);
      }
      var thread := rows[threadId];
      rows := rows[threadId := thread.(title := title)];
      r := Ok(());
    }

    /**
     * DELETE /api/threads/{thread_id}: remove the row if there is one and
     * answer ok either way. The caller need not own it.
     */
    method DeleteThread(header: Option<string>, threadId: string) returns (r: Result<(), HttpError>)
      modifies this
      ensures RequireGuestId(header).Err? ==> r == Err(RequireGuestId(header).error) && rows == old(rows)
      ensures RequireGuestId(header).Ok? ==> r == Ok(()) && rows == old(rows) - {threadId}
    {
      var guest := RequireGuestId(header);
      if guest.Err? {
        return Err(guest.error);
      }
      rows := rows - {threadId};
      r := Ok(());
    }
  }

  /** Deleting twice leaves the table as deleting once does, and both calls answer ok. */
  method DeleteTwice(store: ThreadStore, header: Option<string>, threadId: string)
    returns (r1: Result<(), HttpError>, r2: Result<(), HttpError>)
    requires RequireGuestId(header).Ok?
    modifies store
    ensures r1 == Ok(()) && r2 == Ok(())
    ensures store.rows == old(store.rows) - {threadId}
  {
    r1 := store.DeleteThread(header, threadId);
    ghost var once := store.rows;
    r2 := store.DeleteThread(header, threadId);
    assert store.rows == once - {threadId} == once;
  }

  // ---------------------------------------------------------------------------
  // What the writes do to the listings

  function CreatedRow(t: Table, id: string, guest: string, query: string, created: int, updated: int): Table {
    t[id := ThreadRecord(guest, query, created, updated)]
  }

  /**
   * A new thread shows up once in its creator's listing, with the query as
   * title, making that listing one longer; no other guest's listing changes
   * membership or gains it.
   */
  lemma CreateShowsThread(t: Table, id: string, guest: string, query: string, created: int, updated: int, other: string)
    requires id !in t
    requires other != guest
    ensures var r := ListThreads(CreatedRow(t, id, guest, query, created, updated), guest);
      |r| == |ListThreads(t, guest)| + 1 && exists i :: 0 <= i < |r| && r[i] == ThreadInfo(id, query, created)
    ensures Owned(CreatedRow(t, id, guest, query, created, updated), other) == Owned(t, other)
    ensures var r := ListThreads(CreatedRow(t, id, guest, query, created, updated), other);
      forall i :: 0 <= i < |r| ==> r[i].threadId != id
  {
    var t' := CreatedRow(t, id, guest, query, created, updated);
    assert Owned(t', guest) == Owned(t, guest) + {id};
    assert Owned(t', other) == Owned(t, other);
    var r := ListThreads(t', guest);
    assert id in Owned(t', guest);
    var i :| 0 <= i < |r| && r[i].threadId == id;
    assert r[i] == ThreadInfo(id, query, created);
  }

  /** After a delete, the thread is in nobody's listing, and every other thread stays where it was. */
  lemma DeleteHidesThread(t: Table, id: string, guest: string)
    ensures Owned(t - {id}, guest) == Owned(t, guest) - {id}
    ensures var r := ListThreads(t - {id}, guest);
      forall i :: 0 <= i < |r| ==> r[i].threadId != id
  {
  }

  function RenamedRow(t: Table, id: string, title: string): Table
    requires id in t
  {
    t[id := t[id].(title := title)]
  }

  /**
   * A rename changes no guest's set of threads, not even when the caller is
   * not the owner, and the owner's listing shows the new title.
   */
  lemma RenameShowsTitle(t: Table, id: string, title: string, guest: string)
    requires id in t
    ensures Owned(RenamedRow(t, id, title), guest) == Owned(t, guest)
    ensures var r := ListThreads(RenamedRow(t, id, title), t[id].guestId);
      exists i :: 0 <= i < |r| && r[i] == ThreadInfo(id, title, t[id].createdAt)
  {
    var t' := RenamedRow(t, id, title);
    forall g
      ensures Owned(t', g) == Owned(t, g)
    {
      assert forall x :: x in t' <==> x in t;
      assert forall x :: x in t ==> t'[x].guestId == t[x].guestId;
    }
    var r := ListThreads(t', t[id].guestId);
    assert id in Owned(t', t[id].guestId);
    var i :| 0 <= i < |r| && r[i].threadId == id;
    assert r[i] == ThreadInfo(id, title, t[id].createdAt);
    assert r == ListThreads(RenamedRow(t, id, title), t[id].guestId);
  }
}
