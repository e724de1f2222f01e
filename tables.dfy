/**
 * The generic table interface shared by the record kinds: a table is the
 * map from primary key to record that the relational store holds for one
 * record kind. Every write commits at once, so the map is the committed
 * state.
 */
module Tables {
  import opened Wrappers

  /** First primary key of page `page` when pages hold `n` keys each. */
  function PageStart(page: int, n: int): int
  {
    (page - 1) * n
  }

  /** Pagination is by key range: page `page` covers `[(page-1)*n, (page-1)*n + n)`. */
  predicate OnPage(id: int, page: int, n: int)
  {
    PageStart(page, n) <= id < PageStart(page, n) + n
  }

  /** The stored records whose key lies in `[lo, hi)`, with their keys, in ascending key order. */
  function RowsInRange<R>(rows: map<int, R>, lo: int, hi: int): seq<(int, R)>
    decreases hi - lo
  {
    if lo >= hi then []
    else (if lo in rows then [(lo, rows[lo])] else []) + RowsInRange(rows, lo + 1, hi)
  }

  /** Only stored rows in the range are listed, each at most once per key, in ascending key order. */
  lemma {:induction false} RowsInRangeSound<R>(rows: map<int, R>, lo: int, hi: int)
    ensures var r := RowsInRange(rows, lo, hi);
      forall i :: 0 <= i < |r| ==> r[i].0 in rows && rows[r[i].0] == r[i].1 && lo <= r[i].0 < hi
    ensures var r := RowsInRange(rows, lo, hi);
      forall i, j :: 0 <= i < j < |r| ==> r[i].0 < r[j].0
    ensures |RowsInRange(rows, lo, hi)| <= if lo <= hi then hi - lo else 0
    decreases hi - lo
  {
    if lo < hi {
      RowsInRangeSound(rows, lo + 1, hi);
    }
  }

  /** Every stored row in the range is listed. */
  lemma {:induction false} RowsInRangeComplete<R>(rows: map<int, R>, lo: int, hi: int)
    ensures forall k :: k in rows && lo <= k < hi ==> (k, rows[k]) in RowsInRange(rows, lo, hi)
    decreases hi - lo
  {
    if lo < hi {
      RowsInRangeComplete(rows, lo + 1, hi);
    }
  }

  /**
   * `get_all(page, n)`: every stored record whose key is on the page,
   * paired with its key, in ascending key order. The store is asked for a
   * key range, not for positions, so a page can hold fewer than `n` rows.
   */
  function PageOf<R>(rows: map<int, R>, page: int, n: int): (r: seq<(int, R)>)
    ensures forall i :: 0 <= i < |r| ==> r[i].0 in rows && rows[r[i].0] == r[i].1 && OnPage(r[i].0, page, n)
    ensures forall k :: k in rows && OnPage(k, page, n) ==> (k, rows[k]) in r
    ensures forall i, j :: 0 <= i < j < |r| ==> r[i].0 < r[j].0
    ensures |r| <= if n >= 0 then n else 0
  {
    RowsInRangeSound(rows, PageStart(page, n), PageStart(page, n) + n);
    RowsInRangeComplete(rows, PageStart(page, n), PageStart(page, n) + n);
    RowsInRange(rows, PageStart(page, n), PageStart(page, n) + n)
  }

  /** Two different pages of the same positive size share no key. */
  lemma PagesDisjoint(p1: int, p2: int, n: int, id: int)
    requires n > 0 && p1 != p2
    ensures !(OnPage(id, p1, n) && OnPage(id, p2, n))
  {
    var lo, hi := if p1 < p2 then p1 else p2, if p1 < p2 then p2 else p1;
    GapBetweenPages(lo, hi, n);
  }

  /** A later page starts at least one page size after an earlier one ends. */
  lemma GapBetweenPages(lo: int, hi: int, n: int)
    requires n > 0 && lo < hi
    ensures PageStart(lo, n) + n <= PageStart(hi, n)
  {
    var d := hi - lo - 1;
    assert d >= 0;
    assert d * n >= 0;
    assert (hi - 1) * n == (lo - 1) * n + n + d * n;
  }

  /** Every stored record is reachable: key `k` lies on page `k / n + 1`. */
  lemma EveryKeyOnSomePage(k: int, n: int)
    requires n > 0
    ensures OnPage(k, k / n + 1, n)
  {
  }

  /**
   * With keys handed out from 1 upwards, as the store does, the first page
   * covers key 0, which is never used, so it holds at most `n - 1` rows.
   */
  lemma {:induction false} FirstPageShort<R>(rows: map<int, R>, n: int)
    requires n >= 1
    requires forall k :: k in rows ==> k >= 1
    ensures |PageOf(rows, 1, n)| <= n - 1
  {
    assert PageStart(1, n) == 0;
    assert RowsInRange(rows, 0, n) == [] + RowsInRange(rows, 1, n);
    RowsInRangeSound(rows, 1, n);
  }

  /** One committed write to a table. */
  datatype Change<R> = Inserted(id: int, row: R) | Deleted(id: int)

  /** The table after a sequence of committed writes. */
  function Replay<R>(rows: map<int, R>, log: seq<Change<R>>): map<int, R>
    decreases |log|
  {
    if log == [] then rows
    else
      match log[0]
      case Inserted(id, row) => Replay(rows[id := row], log[1..])
      case Deleted(id) => Replay(rows - {id}, log[1..])
  }

  /** Every insert uses a key not in the table and every delete a key in it. */
  predicate Legal<R>(rows: map<int, R>, log: seq<Change<R>>)
    decreases |log|
  {
    log == [] ||
    match log[0]
    case Inserted(id, row) => id !in rows && Legal(rows[id := row], log[1..])
    case Deleted(id) => id in rows && Legal(rows - {id}, log[1..])
  }

  function Inserts<R>(log: seq<Change<R>>): nat
    decreases |log|
  {
    if log == [] then 0 else (if log[0].Inserted? then 1 else 0) + Inserts(log[1..])
  }

  function Deletes<R>(log: seq<Change<R>>): nat
    decreases |log|
  {
    if log == [] then 0 else (if log[0].Deleted? then 1 else 0) + Deletes(log[1..])
  }

  /**
   * `count_total()` equals the rows there were, plus the records inserted,
   * minus the records deleted, for any legal sequence of writes.
   */
  lemma {:induction false} CountFollowsLog<R>(rows: map<int, R>, log: seq<Change<R>>)
    requires Legal(rows, log)
    ensures |Replay(rows, log)| == |rows| + Inserts(log) - Deletes(log)
    decreases |log|
  {
    if log != [] {
      match log[0]
      case Inserted(id, row) =>
        CountFollowsLog(rows[id := row], log[1..]);
      case Deleted(id) =>
        assert (rows - {id}).Keys == rows.Keys - {id};
        CountFollowsLog(rows - {id}, log[1..]);
    }
  }

  /**
   * One table of the store. `rows` is the committed content; the methods are
   * the write operations of the interface and commit immediately.
   */
  class Table<R> {
    var rows: map<int, R>

    /** An empty table. */
    constructor ()
      ensures rows == map[]
    {
      rows := map[];
    }

    /** `count_total()`: the number of records stored. */
    function CountTotal(): (c: nat)
      reads this
      ensures c == |rows.Keys|
      ensures c == 0 <==> rows == map[]
    {
      |rows|
    }

    /** `get_one_or_none(id)`: the record under `id`, or `None` when there is none. */
    function GetOneOrNone(id: int): (r: Option<R>)
      reads this
      ensures r.Some? <==> id in rows
      ensures r.Some? ==> r.value == rows[id]
    {
      if id in rows then Some(rows[id]) else None
    }

    /** `get_all(page, n)`: the records whose key is on the page. */
    function GetAll(page: int, n: int): (r: seq<(int, R)>)
      reads this
      ensures r == PageOf(rows, page, n)
    {
      PageOf(rows, page, n)
    }

    /** `insert(r)`: stores `r` under `id`, which the store hands out unused. */
    method Insert(id: int, r: R)
      requires id !in rows
      modifies this
      ensures rows == old(rows)[id := r]
      ensures GetOneOrNone(id) == Some(r)
      ensures CountTotal() == old(CountTotal()) + 1
      ensures forall k :: k != id ==> GetOneOrNone(k) == old(GetOneOrNone(k))
    {
      rows := rows[id := r];
    }

    /**
     * `update(r)`: commits the changes made to the tracked record under
     * `id`; the keys and the count stay as they were.
     */
    method Update(id: int, r: R)
      requires id in rows
      modifies this
      ensures rows == old(rows)[id := r]
      ensures rows.Keys == old(rows.Keys)
      ensures CountTotal() == old(CountTotal())
    {
      rows := rows[id := r];
    }

    /** `delete(r)`: removes the record under `id`. */
    method Delete(id: int)
      requires id in rows
      modifies this
      ensures rows == old(rows) - {id}
      ensures GetOneOrNone(id) == None
      ensures CountTotal() == old(CountTotal()) - 1
      ensures forall k :: k != id ==> GetOneOrNone(k) == old(GetOneOrNone(k))
    {
      rows := rows - {id};
      assert rows.Keys == old(rows.Keys) - {id};
    }
  }
}
