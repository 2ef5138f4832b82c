/** The water routes of the `server/` API over the `water_intake` table.
    Nothing in the schema makes (user, date) unique: `POST /` rewrites every
    row of the pair, `POST /increment` the first one by its id. The table is
    held in row-id order, which is the order `db.get` and an unordered
    `SELECT` see. */
module WaterRoutes {
  import opened Common
  import opened ServerSchema

  /** `db.get(… WHERE user_id = ? AND entry_date = ?)`: the index of the first
      row of the pair, or none. */
  function FirstOn(rows: seq<WaterRow>, userId: int, date: int): (r: Option<nat>)
    ensures r.Some? ==> r.value < |rows| && WaterOn(userId, date)(rows[r.value])
    ensures r.Some? ==> forall j :: 0 <= j < r.value ==> !WaterOn(userId, date)(rows[j])
    ensures r.None? <==> forall j :: 0 <= j < |rows| ==> !WaterOn(userId, date)(rows[j])
  {
    if rows == [] then None
    else if WaterOn(userId, date)(rows[0]) then Some(0)
    else match FirstOn(rows[1..], userId, date)
      case None => None
      case Some(i) => Some(i + 1)
  }

  /** `UPDATE water_intake SET glasses = ? WHERE user_id = ? AND entry_date = ?`. */
  function SetGlasses(rows: seq<WaterRow>, userId: int, date: int, glasses: int): seq<WaterRow>
  {
    seq(|rows|, i requires 0 <= i < |rows| =>
      if WaterOn(userId, date)(rows[i]) then rows[i].(glasses := glasses) else rows[i])
  }

  /** `UPDATE water_intake SET glasses = glasses + 1 WHERE id = ?`. */
  function IncrementById(rows: seq<WaterRow>, id: int): seq<WaterRow>
  {
    seq(|rows|, i requires 0 <= i < |rows| =>
      if rows[i].id == id then rows[i].(glasses := rows[i].glasses + 1) else rows[i])
  }

  /** `entry_date || today`: a given date is a non-empty string, so it is kept. */
  function DateOr(entryDate: Option<int>, today: int): int
  {
    if entryDate.Some? then entryDate.value else today
  }

  /** The table after `POST /` with a number of glasses: the pair's rows are
      set to it, or one row is inserted with the next id. */
  function PostAfter(rows: seq<WaterRow>, userId: int, glasses: int, date: int, nextId: int): seq<WaterRow>
  {
    if FirstOn(rows, userId, date).Some? then SetGlasses(rows, userId, date, glasses)
    else rows + [WaterRow(nextId, userId, glasses, date)]
  }

  /** The table after `POST /increment`: the first row of the pair gains one
      glass, or a row with one glass is inserted. */
  function IncrementAfter(rows: seq<WaterRow>, userId: int, today: int, nextId: int): seq<WaterRow>
  {
    match FirstOn(rows, userId, today)
      case Some(i) => IncrementById(rows, rows[i].id)
      case None => rows + [WaterRow(nextId, userId, 1, today)]
  }

  /** `AUTOINCREMENT` ids: no two rows share one. */
  predicate DistinctIds(rows: seq<WaterRow>)
  {
    forall i, j :: 0 <= i < j < |rows| ==> rows[i].id != rows[j].id
  }

  /** What `GET /today` answers: the stored row, or `{ glasses: 0, entry_date: today }`. */
  datatype TodayEntry = Stored(row: WaterRow) | Empty(glasses: int, entryDate: int)

  function TodayGlasses(e: TodayEntry): int
  {
    if e.Stored? then e.row.glasses else e.glasses
  }

  /** `GET /today`. */
  function TodayOf(rows: seq<WaterRow>, userId: int, today: int): (e: TodayEntry)
    ensures e.Empty? <==> forall j :: 0 <= j < |rows| ==> !WaterOn(userId, today)(rows[j])
    ensures e.Empty? ==> e == Empty(0, today)
    ensures e.Stored? ==> e.row in rows && e.row.userId == userId && e.row.entryDate == today
  {
    match FirstOn(rows, userId, today)
      case Some(i) => Stored(rows[i])
      case None => Empty(0, today)
  }

  /** `WHERE user_id = ?`, with `entry_date >= ?` and `entry_date <= ?` only
      for the bounds that are given. */
  function InBounds(userId: int, startDate: Option<int>, endDate: Option<int>): WaterRow -> bool
  {
    (w: WaterRow) => w.userId == userId
      && (startDate.None? || startDate.value <= w.entryDate)
      && (endDate.None? || w.entryDate <= endDate.value)
  }

  function LaterFirst(w: WaterRow): int { -w.entryDate }

  /** `GET /`: the user's rows within the given inclusive bounds, latest date first. */
  function List(rows: seq<WaterRow>, userId: int, startDate: Option<int>, endDate: Option<int>): (r: seq<WaterRow>)
    ensures forall i, j :: 0 <= i < j < |r| ==> r[i].entryDate >= r[j].entryDate
    ensures multiset(r) == multiset(Filter(rows, InBounds(userId, startDate, endDate)))
    ensures forall w :: w in r <==> w in rows && InBounds(userId, startDate, endDate)(w)
  {
    var kept := Filter(rows, InBounds(userId, startDate, endDate));
    var r := SortBy(kept, LaterFirst);
    assert SortedBy(r, LaterFirst);
    forall i, j | 0 <= i < j < |r|
      ensures r[i].entryDate >= r[j].entryDate
    {
      assert LaterFirst(r[i]) <= LaterFirst(r[j]);
    }
    forall w
      ensures w in r <==> w in kept
    {
      assert w in r <==> w in multiset(r);
      assert w in kept <==> w in multiset(kept);
    }
    r
  }

  /** Without bounds `GET /` lists every row of the user. */
  lemma ListUnbounded(rows: seq<WaterRow>, userId: int)
    ensures multiset(List(rows, userId, None, None)) == multiset(Filter(rows, WaterOfUser(userId)))
  {
    FilterExt(rows, InBounds(userId, None, None), WaterOfUser(userId));
  }

  function WaterOfUser(userId: int): WaterRow -> bool
  {
    (w: WaterRow) => w.userId == userId
  }

  /** After `POST /` every row of the pair holds the posted number, there is at
      least one, and `GET /today` reads it back whatever was stored before:
      the number replaces the old one, it is not added to it. */
  lemma PostReadsBack(rows: seq<WaterRow>, userId: int, glasses: int, date: int, nextId: int)
    ensures var r := PostAfter(rows, userId, glasses, date, nextId);
      && (forall j :: 0 <= j < |r| && WaterOn(userId, date)(r[j]) ==> r[j].glasses == glasses)
      && TodayOf(r, userId, date).Stored?
      && TodayGlasses(TodayOf(r, userId, date)) == glasses
  {
    var r := PostAfter(rows, userId, glasses, date, nextId);
    if FirstOn(rows, userId, date).None? {
      assert WaterOn(userId, date)(r[|rows|]);
    } else {
      assert WaterOn(userId, date)(r[FirstOn(rows, userId, date).value]);
    }
  }

  /** `POST /` touches only the rows of its (user, date) pair: the others keep
      their place and content, and the table grows by one row exactly when the
      pair had none. */
  lemma PostKeepsOthers(rows: seq<WaterRow>, userId: int, glasses: int, date: int, nextId: int)
    ensures var r := PostAfter(rows, userId, glasses, date, nextId);
      && |rows| <= |r|
      && (forall j :: 0 <= j < |rows| && !WaterOn(userId, date)(rows[j]) ==> r[j] == rows[j])
      && (forall j :: 0 <= j < |rows| ==> r[j].id == rows[j].id && r[j].userId == rows[j].userId && r[j].entryDate == rows[j].entryDate)
      && (FirstOn(rows, userId, date).Some? ==> |r| == |rows|)
      && (FirstOn(rows, userId, date).None? ==> r == rows + [WaterRow(nextId, userId, glasses, date)])
  {
  }

  /** Under unique ids, updating by the found row's id changes that one row. */
  lemma IncrementOneRow(rows: seq<WaterRow>, i: nat)
    requires DistinctIds(rows) && i < |rows|
    ensures IncrementById(rows, rows[i].id) == rows[i := rows[i].(glasses := rows[i].glasses + 1)]
  {
    var r := IncrementById(rows, rows[i].id);
    var s := rows[i := rows[i].(glasses := rows[i].glasses + 1)];
    forall j | 0 <= j < |rows|
      ensures r[j] == s[j]
    {
      if j != i {
        if j < i {
          assert rows[j].id != rows[i].id;
        } else {
          assert rows[i].id != rows[j].id;
        }
      }
    }
  }

  /** Rows with the same users and dates in the same places have the same first match. */
  lemma {:induction false} FirstOnSameKeys(a: seq<WaterRow>, b: seq<WaterRow>, userId: int, date: int)
    requires |a| == |b|
    requires forall j :: 0 <= j < |a| ==> a[j].userId == b[j].userId && a[j].entryDate == b[j].entryDate
    ensures FirstOn(a, userId, date) == FirstOn(b, userId, date)
  {
    if a != [] {
      FirstOnSameKeys(a[1..], b[1..], userId, date);
    }
  }

  /** `POST /increment` adds exactly one glass to what `GET /today` reports,
      starting from 0 when the day has no row, and touches no row of another
      (user, date) pair. */
  lemma IncrementAccumulates(rows: seq<WaterRow>, userId: int, today: int, nextId: int)
    requires DistinctIds(rows)
    ensures var r := IncrementAfter(rows, userId, today, nextId);
      && TodayGlasses(TodayOf(r, userId, today)) == TodayGlasses(TodayOf(rows, userId, today)) + 1
      && (forall j :: 0 <= j < |rows| && !WaterOn(userId, today)(rows[j]) ==> r[j] == rows[j])
      && (FirstOn(rows, userId, today).Some? ==> |r| == |rows|)
      && (FirstOn(rows, userId, today).None? ==> r == rows + [WaterRow(nextId, userId, 1, today)])
  {
    var r := IncrementAfter(rows, userId, today, nextId);
    match FirstOn(rows, userId, today)
    case Some(i) =>
      IncrementOneRow(rows, i);
      FirstOnSameKeys(r, rows, userId, today);
    case None =>
      assert WaterOn(userId, today)(r[|rows|]);
      assert FirstOn(r, userId, today).Some?;
  }

  /** The reply of `POST /`. */
  datatype PostReply = BadRequest | Updated(id: int) | Created(id: int)

  class WaterTable {
    var rows: seq<WaterRow>
    var nextId: int

    /** Ids are below the counter and unique. */
    predicate Valid()
      reads this
    {
      && (forall i :: 0 <= i < |rows| ==> rows[i].id < nextId)
      && DistinctIds(rows)
    }

    constructor ()
      ensures Valid() && rows == []
    {
      rows := [];
      nextId := 1;
    }

    /** `POST /`: without `glasses` the request is refused and nothing
        changes; otherwise the pair's rows are set or one row is inserted. */
    method Post(userId: int, glasses: Option<int>, entryDate: Option<int>, today: int) returns (reply: PostReply)
      requires Valid()
      modifies this
      ensures Valid()
      ensures glasses.None? <==> reply == BadRequest
      ensures glasses.None? ==> rows == old(rows) && nextId == old(nextId)
      ensures glasses.Some? ==> rows == PostAfter(old(rows), userId, glasses.value, DateOr(entryDate, today), old(nextId))
      ensures glasses.Some? ==> (reply.Updated? <==> FirstOn(old(rows), userId, DateOr(entryDate, today)).Some?)
      ensures reply.Updated? ==>
        && FirstOn(old(rows), userId, DateOr(entryDate, today)).Some?
        && reply.id == old(rows)[FirstOn(old(rows), userId, DateOr(entryDate, today)).value].id
      ensures reply.Created? ==> reply.id == old(nextId) && nextId == old(nextId) + 1
      ensures reply.Updated? ==> nextId == old(nextId)
    {
      if glasses.None? {
        return BadRequest;
      }
      var date := DateOr(entryDate, today);
      var existing := FirstOn(rows, userId, date);
      if existing.Some? {
        reply := Updated(rows[existing.value].id);
        rows := SetGlasses(rows, userId, date, glasses.value);
      } else {
        reply := Created(nextId);
        rows := rows + [WaterRow(nextId, userId, glasses.value, date)];
        nextId := nextId + 1;
      }
    }

    /** `POST /increment`: reports the day's new number of glasses. */
    method Increment(userId: int, today: int) returns (glasses: int)
      requires Valid()
      modifies this
      ensures Valid()
      ensures rows == IncrementAfter(old(rows), userId, today, old(nextId))
      ensures glasses == TodayGlasses(TodayOf(old(rows), userId, today)) + 1
      ensures glasses == TodayGlasses(TodayOf(rows, userId, today))
    {
      IncrementAccumulates(rows, userId, today, nextId);
      var existing := FirstOn(rows, userId, today);
      if existing.Some? {
        glasses := rows[existing.value].glasses + 1;
        rows := IncrementById(rows, rows[existing.value].id);
      } else {
        glasses := 1;
        rows := rows + [WaterRow(nextId, userId, 1, today)];
        nextId := nextId + 1;
      }
    }

    /** `GET /`. */
    function Entries(userId: int, startDate: Option<int>, endDate: Option<int>): (r: seq<WaterRow>)
      reads this
      ensures r == List(rows, userId, startDate, endDate)
      ensures forall w :: w in r <==> w in rows && InBounds(userId, startDate, endDate)(w)
      ensures forall i, j :: 0 <= i < j < |r| ==> r[i].entryDate >= r[j].entryDate
    {
      List(rows, userId, startDate, endDate)
    }

    /** `GET /today`. */
    function Today(userId: int, today: int): (e: TodayEntry)
      reads this
      ensures e == TodayOf(rows, userId, today)
      ensures e.Empty? ==> e == Empty(0, today)
      ensures e.Stored? ==> e.row in rows && WaterOn(userId, today)(e.row)
    {
      TodayOf(rows, userId, today)
    }
  }
}
