/**
 * The import routine: copy the rows of the external `latlongdata` table into the post
 * table, skipping bad ids, invalid coordinates and points outside the Philippines box,
 * creating absent posts and moving present ones, and counting each outcome.
 */
module ImportLatLong {
  import opened Wrappers
  import opened Text
  import opened Values
  import opened Coordinates
  import opened Columns
  import opened Models

  /** The statistics record the routine returns. */
  datatype Stats = Stats(totalRows: nat, skippedInvalid: nat, skippedOutsidePh: nat, updated: nat, created: nat)

  /** The error results, each returned before any post is read or written. */
  datatype ImportError =
    | TableUnavailable   // DESCRIBE failed
    | NotEnoughColumns   // names missing and fewer than three columns
    | SelectFailed       // the SELECT raised

  /** What the validation steps decide about one row. */
  datatype Verdict = BadPostId | BadCoordinates | OutsideBox | Accept(pid: int, lat: real, lng: real)

  /** What an accepted row does to the post table. */
  datatype Effect = Created | Updated | Unchanged

  /** The validation steps, in import_from_latlong's order: post id, coordinate range, bounding box. */
  function Classify(row: Row, ps: Parsers): (v: Verdict)
    ensures v.BadPostId? <==> ToInt(row.postId, ps).None?
    ensures v.BadCoordinates? <==> ToInt(row.postId, ps).Some? && !IsValidCoordinate(row.latitude, row.longitude, ps)
    ensures v.OutsideBox? ==> IsValidCoordinate(row.latitude, row.longitude, ps)
                              && !IsInPhilippines(row.latitude, row.longitude, ps)
    ensures v.Accept? ==> && ToInt(row.postId, ps) == Some(v.pid)
                          && ToFloat(row.latitude, ps) == Some(v.lat)
                          && ToFloat(row.longitude, ps) == Some(v.lng)
                          && InPhilippinesBox(v.lat, v.lng)
  {
    match ToInt(row.postId, ps)
    case None => BadPostId
    case Some(pid) =>
      if !IsValidCoordinate(row.latitude, row.longitude, ps) then BadCoordinates
      else
        var lat := ToFloat(row.latitude, ps).value;
        var lng := ToFloat(row.longitude, ps).value;
        if !IsInPhilippines(Float(lat), Float(lng), ps) then OutsideBox
        else Accept(pid, lat, lng)
  }

  /** The default name of a created post: f"Post {pid}". Distinct ids get distinct names. */
  function PostName(pid: int): (r: string)
    ensures |r| > 5 && r[..5] == "Post "
    ensures pid >= 0 ==> IsDigits(r[5..]) && DigitsValue(r[5..]) == pid
    ensures pid < 0 ==> r[5] == '-' && IsDigits(r[6..]) && DigitsValue(r[6..]) == -pid
    ensures pid >= 0 && |r| > 6 ==> r[5] != '0'
    ensures pid < 0 ==> r[6] != '0'
  {
    var digits := IntToString(pid);
    assert ("Post " + digits)[5..] == digits;
    "Post " + digits
  }

  /** Posts created for different ids get different names. */
  lemma PostNamesDistinct(a: int, b: int)
    requires a != b
    ensures PostName(a) != PostName(b)
  {
    if PostName(a) == PostName(b) {
      assert PostName(a)[5..] == IntToString(a);
      assert PostName(b)[5..] == IntToString(b);
      IntToStringInjective(a, b);
    }
  }

  /** Which branch of the upsert an accepted row takes; coordinates are compared by exact inequality. */
  function UpsertEffect(posts: map<int, Post>, pid: int, lat: real, lng: real): (e: Effect)
    ensures e == Created <==> pid !in posts
    ensures e == Updated <==> pid in posts && (posts[pid].lat, posts[pid].lng) != (lat, lng)
    ensures e == Unchanged <==> pid in posts && posts[pid].lat == lat && posts[pid].lng == lng
  {
    if pid !in posts then Created
    else if posts[pid].lat != lat || posts[pid].lng != lng then Updated
    else Unchanged
  }

  /** The upsert of one accepted row: only the post with key `pid` can change, and only its lat/lng. */
  function Upsert(posts: map<int, Post>, pid: int, lat: real, lng: real): (r: map<int, Post>)
    ensures r.Keys == posts.Keys + {pid}
    ensures forall id :: id in posts && id != pid ==> r[id] == posts[id]
    ensures pid !in posts ==> r[pid] == Post(pid, PostName(pid), lat, lng, None, None)
    ensures pid in posts ==> r[pid] == posts[pid].(lat := lat, lng := lng)
    ensures UpsertEffect(posts, pid, lat, lng) == Unchanged <==> r == posts
  {
    match UpsertEffect(posts, pid, lat, lng)
    case Created => posts[pid := Post(pid, PostName(pid), lat, lng, None, None)]
    case Updated => posts[pid := posts[pid].(lat := lat, lng := lng)]
    case Unchanged => posts
  }

  /** The post table after one row. */
  function Step(posts: map<int, Post>, row: Row, ps: Parsers): map<int, Post> {
    match Classify(row, ps)
    case Accept(pid, lat, lng) => Upsert(posts, pid, lat, lng)
    case _ => posts
  }

  /** The counters after one row, which met the post table `posts`. */
  function Count(s: Stats, posts: map<int, Post>, row: Row, ps: Parsers): Stats {
    var s' := s.(totalRows := s.totalRows + 1);
    match Classify(row, ps)
    case BadPostId => s'.(skippedInvalid := s.skippedInvalid + 1)
    case BadCoordinates => s'.(skippedInvalid := s.skippedInvalid + 1)
    case OutsideBox => s'.(skippedOutsidePh := s.skippedOutsidePh + 1)
    case Accept(pid, lat, lng) =>
      match UpsertEffect(posts, pid, lat, lng)
      case Created => s'.(created := s.created + 1)
      case Updated => s'.(updated := s.updated + 1)
      case Unchanged => s'
  }

  /** The post table after all of `rows`, processed in order. */
  function ApplyAll(posts: map<int, Post>, rows: seq<Row>, ps: Parsers): map<int, Post>
    decreases |rows|
  {
    if rows == [] then posts
    else Step(ApplyAll(posts, rows[..|rows| - 1], ps), rows[|rows| - 1], ps)
  }

  /** The statistics after all of `rows`, processed in order. */
  function Tally(posts: map<int, Post>, rows: seq<Row>, ps: Parsers): Stats
    decreases |rows|
  {
    if rows == [] then Stats(0, 0, 0, 0, 0)
    else
      var init := rows[..|rows| - 1];
      Count(Tally(posts, init, ps), ApplyAll(posts, init, ps), rows[|rows| - 1], ps)
  }

  /** The post table, changed in place by the import. */
  class PostTable {
    var posts: map<int, Post>

    ghost predicate Valid()
      reads this
    {
      KeyedById(posts)
    }

    constructor (initial: map<int, Post>)
      requires KeyedById(initial)
      ensures Valid() && posts == initial
    {
      posts := initial;
    }

    /**
     * import_from_latlong. `source` is None when DESCRIBE fails; `selectFails` says the
     * SELECT raises. An error leaves the table as it was; otherwise the table and the
     * statistics are those of processing the selected rows in order.
     */
    method ImportFromLatLong(source: Option<Table>, selectFails: bool, ps: Parsers)
      returns (r: Result<Stats, ImportError>)
      requires Valid()
      modifies this
      ensures Valid()
      ensures source.None? ==> r == Failure(TableUnavailable) && posts == old(posts)
      ensures source.Some? && Resolve(source.value.columns).Failure? ==>
                r == Failure(NotEnoughColumns) && posts == old(posts)
      ensures source.Some? && Resolve(source.value.columns).Success? && selectFails ==>
                r == Failure(SelectFailed) && posts == old(posts)
      ensures source.Some? && Resolve(source.value.columns).Success? && !selectFails ==>
                var rows := Select(source.value, Resolve(source.value.columns).value);
                && r == Success(Tally(old(posts), rows, ps))
                && posts == ApplyAll(old(posts), rows, ps)
    {
      if source.None? {
        return Failure(TableUnavailable);
      }
      var mapping := ResolveColumns(source.value.columns);
      if mapping.Failure? {
        return Failure(NotEnoughColumns);
      }
      if selectFails {
        return Failure(SelectFailed);
      }
      var rows := Select(source.value, mapping.value);
      var stats := UpsertRows(rows, ps);
      r := Success(stats);
    }

    /** The row loop of import_from_latlong: validate, upsert and count each row in order. */
    method UpsertRows(rows: seq<Row>, ps: Parsers) returns (stats: Stats)
      requires Valid()
      modifies this
      ensures Valid()
      ensures stats == Tally(old(posts), rows, ps)
      ensures posts == ApplyAll(old(posts), rows, ps)
    {
      stats := Stats(|rows|, 0, 0, 0, 0);
      var i := 0;
      while i < |rows|
        invariant 0 <= i <= |rows|
        invariant KeyedById(posts)
        invariant posts == ApplyAll(old(posts), rows[..i], ps)
        invariant stats == Tally(old(posts), rows[..i], ps).(totalRows := |rows|)
      {
        var row := rows[i];
        ghost var before, counted := posts, stats;
        PrefixStep(old(posts), rows, i, ps);
        var pid := ToInt(row.postId, ps);
        if pid.None? {
          assert Classify(row, ps) == BadPostId;
          stats := stats.(skippedInvalid := stats.skippedInvalid + 1);
        } else if !IsValidCoordinate(row.latitude, row.longitude, ps) {
          assert Classify(row, ps) == BadCoordinates;
          stats := stats.(skippedInvalid := stats.skippedInvalid + 1);
        } else {
          var lat := ToFloat(row.latitude, ps).value;
          var lng := ToFloat(row.longitude, ps).value;
          if !IsInPhilippines(Float(lat), Float(lng), ps) {
            assert Classify(row, ps) == OutsideBox;
            stats := stats.(skippedOutsidePh := stats.skippedOutsidePh + 1);
          } else if pid.value in posts {
            assert Classify(row, ps) == Accept(pid.value, lat, lng);
            var post := posts[pid.value];
            if post.lat != lat || post.lng != lng {
              posts := posts[pid.value := post.(lat := lat, lng := lng)];
              stats := stats.(updated := stats.updated + 1);
            }
          } else {
            assert Classify(row, ps) == Accept(pid.value, lat, lng);
            posts := posts[pid.value := Post(pid.value, PostName(pid.value), lat, lng, None, None)];
            stats := stats.(created := stats.created + 1);
          }
        }
        assert posts == Step(before, row, ps);
        assert stats == Count(counted, before, row, ps).(totalRows := |rows|);
        i := i + 1;
      }
      assert rows[..|rows|] == rows;
      TallyCounts(old(posts), rows, ps);
    }
  }

  /** Processing one more row extends the table and the counters by one step. */
  lemma PrefixStep(posts: map<int, Post>, rows: seq<Row>, i: nat, ps: Parsers)
    requires i < |rows|
    ensures ApplyAll(posts, rows[..i + 1], ps) == Step(ApplyAll(posts, rows[..i], ps), rows[i], ps)
    ensures Tally(posts, rows[..i + 1], ps)
            == Count(Tally(posts, rows[..i], ps), ApplyAll(posts, rows[..i], ps), rows[i], ps)
  {
    assert rows[..i + 1][..i] == rows[..i];
  }

  /** total_rows is the number of rows, and each row raises at most one other counter. */
  lemma {:induction false} TallyCounts(posts: map<int, Post>, rows: seq<Row>, ps: Parsers)
    ensures Tally(posts, rows, ps).totalRows == |rows|
    ensures var s := Tally(posts, rows, ps);
            s.skippedInvalid + s.skippedOutsidePh + s.updated + s.created <= s.totalRows
    decreases |rows|
  {
    if rows != [] {
      TallyCounts(posts, rows[..|rows| - 1], ps);
    }
  }

  /** A row rejected by validation changes no post and raises exactly its skip counter. */
  lemma RejectedRowOnlyCounts(s: Stats, posts: map<int, Post>, row: Row, ps: Parsers)
    requires !Classify(row, ps).Accept?
    ensures Step(posts, row, ps) == posts
    ensures Classify(row, ps).OutsideBox? ==>
              Count(s, posts, row, ps) == s.(totalRows := s.totalRows + 1, skippedOutsidePh := s.skippedOutsidePh + 1)
    ensures !Classify(row, ps).OutsideBox? ==>
              Count(s, posts, row, ps) == s.(totalRows := s.totalRows + 1, skippedInvalid := s.skippedInvalid + 1)
  {
  }

  /** An accepted row creates an absent post, moves a present one whose coordinates differ, or does nothing. */
  lemma AcceptedRowUpserts(s: Stats, posts: map<int, Post>, row: Row, ps: Parsers)
    requires Classify(row, ps).Accept?
    ensures var Accept(pid, lat, lng) := Classify(row, ps);
            var s' := s.(totalRows := s.totalRows + 1);
            && (pid !in posts ==>
                  && Step(posts, row, ps) == posts[pid := Post(pid, PostName(pid), lat, lng, None, None)]
                  && Count(s, posts, row, ps) == s'.(created := s.created + 1))
            && (pid in posts && (posts[pid].lat != lat || posts[pid].lng != lng) ==>
                  && Step(posts, row, ps) == posts[pid := posts[pid].(lat := lat, lng := lng)]
                  && Count(s, posts, row, ps) == s'.(updated := s.updated + 1))
            && (pid in posts && posts[pid].lat == lat && posts[pid].lng == lng ==>
                  && Step(posts, row, ps) == posts
                  && Count(s, posts, row, ps) == s')
  {
  }

  /** The ids of the rows that pass validation, that is, the ids the import may write. */
  function AcceptedIds(rows: seq<Row>, ps: Parsers): set<int>
    decreases |rows|
  {
    if rows == [] then {}
    else
      var last := Classify(rows[|rows| - 1], ps);
      AcceptedIds(rows[..|rows| - 1], ps) + (if last.Accept? then {last.pid} else {})
  }

  /** The import deletes nothing, and the only posts it adds are those of accepted rows. */
  lemma {:induction false} ImportKeys(posts: map<int, Post>, rows: seq<Row>, ps: Parsers)
    ensures ApplyAll(posts, rows, ps).Keys == posts.Keys + AcceptedIds(rows, ps)
    decreases |rows|
  {
    if rows != [] {
      ImportKeys(posts, rows[..|rows| - 1], ps);
    }
  }

  /** A post whose id no accepted row carries is exactly as it was (and absent if it was absent). */
  lemma {:induction false} OtherIdsUnchanged(posts: map<int, Post>, rows: seq<Row>, ps: Parsers, id: int)
    requires id !in AcceptedIds(rows, ps)
    ensures id in ApplyAll(posts, rows, ps) <==> id in posts
    ensures id in posts ==> ApplyAll(posts, rows, ps)[id] == posts[id]
    decreases |rows|
  {
    if rows != [] {
      OtherIdsUnchanged(posts, rows[..|rows| - 1], ps, id);
    }
  }

  /** Every post the import creates or changes lies in the Philippines box. */
  lemma {:induction false} WrittenPostsInBox(posts: map<int, Post>, rows: seq<Row>, ps: Parsers)
    ensures var after := ApplyAll(posts, rows, ps);
            forall id :: id in after && (id !in posts || after[id] != posts[id]) ==>
              InPhilippinesBox(after[id].lat, after[id].lng)
    decreases |rows|
  {
    if rows != [] {
      WrittenPostsInBox(posts, rows[..|rows| - 1], ps);
    }
  }

  /** The import keeps the table keyed by id. */
  lemma {:induction false} ImportKeepsKeys(posts: map<int, Post>, rows: seq<Row>, ps: Parsers)
    requires KeyedById(posts)
    ensures KeyedById(ApplyAll(posts, rows, ps))
    decreases |rows|
  {
    if rows != [] {
      ImportKeepsKeys(posts, rows[..|rows| - 1], ps);
    }
  }

  /** No two accepted rows carry the same post id. */
  predicate DistinctAcceptedIds(rows: seq<Row>, ps: Parsers) {
    forall j, k :: 0 <= j < k < |rows| && Classify(rows[j], ps).Accept? && Classify(rows[k], ps).Accept? ==>
      Classify(rows[j], ps).pid != Classify(rows[k], ps).pid
  }

  /** Every accepted row's post is stored with that row's coordinates. */
  predicate Settled(posts: map<int, Post>, rows: seq<Row>, ps: Parsers) {
    forall k :: 0 <= k < |rows| && Classify(rows[k], ps).Accept? ==>
      && Classify(rows[k], ps).pid in posts
      && posts[Classify(rows[k], ps).pid].lat == Classify(rows[k], ps).lat
      && posts[Classify(rows[k], ps).pid].lng == Classify(rows[k], ps).lng
  }

  /** After a run over rows with distinct accepted ids, each accepted row's post has that row's coordinates. */
  lemma {:induction false} RunSettles(posts: map<int, Post>, rows: seq<Row>, ps: Parsers)
    requires DistinctAcceptedIds(rows, ps)
    ensures Settled(ApplyAll(posts, rows, ps), rows, ps)
    decreases |rows|
  {
    if rows != [] {
      var n := |rows| - 1;
      var init := rows[..n];
      assert forall k :: 0 <= k < n ==> init[k] == rows[k];
      RunSettles(posts, init, ps);
      var before := ApplyAll(posts, init, ps);
      var after := ApplyAll(posts, rows, ps);
      forall k | 0 <= k < |rows| && Classify(rows[k], ps).Accept?
        ensures && Classify(rows[k], ps).pid in after
                && after[Classify(rows[k], ps).pid].lat == Classify(rows[k], ps).lat
                && after[Classify(rows[k], ps).pid].lng == Classify(rows[k], ps).lng
      {
        if k < n {
          assert Classify(init[k], ps) == Classify(rows[k], ps);
        }
      }
    }
  }

  /** A run over rows that are already settled changes no post and counts no update or creation. */
  lemma {:induction false} SettledRunIsNoOp(posts: map<int, Post>, rows: seq<Row>, ps: Parsers)
    requires Settled(posts, rows, ps)
    ensures ApplyAll(posts, rows, ps) == posts
    ensures Tally(posts, rows, ps).updated == 0 && Tally(posts, rows, ps).created == 0
    decreases |rows|
  {
    if rows != [] {
      var n := |rows| - 1;
      var init := rows[..n];
      assert forall k :: 0 <= k < n ==> init[k] == rows[k];
      SettledRunIsNoOp(posts, init, ps);
      assert Classify(rows[n], ps).Accept? ==> UpsertEffect(posts, Classify(rows[n], ps).pid,
        Classify(rows[n], ps).lat, Classify(rows[n], ps).lng) == Unchanged;
    }
  }

  /** A second import over the same rows writes nothing and reports no update and no creation. */
  lemma SecondRunIsNoOp(posts: map<int, Post>, rows: seq<Row>, ps: Parsers)
    requires DistinctAcceptedIds(rows, ps)
    ensures var first := ApplyAll(posts, rows, ps);
            && ApplyAll(first, rows, ps) == first
            && Tally(first, rows, ps).updated == 0
            && Tally(first, rows, ps).created == 0
  {
    RunSettles(posts, rows, ps);
    SettledRunIsNoOp(ApplyAll(posts, rows, ps), rows, ps);
  }

  /**
   * The SELECT has no ORDER BY, so a second import may read the rows in another order, or
   * only some of them: it still writes nothing and reports no update and no creation.
   */
  lemma SecondRunAnyOrderIsNoOp(posts: map<int, Post>, rows: seq<Row>, rows2: seq<Row>, ps: Parsers)
    requires DistinctAcceptedIds(rows, ps)
    requires forall x :: x in rows2 ==> x in rows
    ensures var first := ApplyAll(posts, rows, ps);
            && ApplyAll(first, rows2, ps) == first
            && Tally(first, rows2, ps).updated == 0
            && Tally(first, rows2, ps).created == 0
  {
    var first := ApplyAll(posts, rows, ps);
    RunSettles(posts, rows, ps);
    forall k | 0 <= k < |rows2| && Classify(rows2[k], ps).Accept?
      ensures Classify(rows2[k], ps).pid in first
      ensures first[Classify(rows2[k], ps).pid].lat == Classify(rows2[k], ps).lat
      ensures first[Classify(rows2[k], ps).pid].lng == Classify(rows2[k], ps).lng
    {
      assert rows2[k] in rows;
      var j :| 0 <= j < |rows| && rows[j] == rows2[k];
    }
    SettledRunIsNoOp(first, rows2, ps);
  }

  /** A row at latitude 91 is skipped as invalid and touches no post. */
  lemma LatitudeOutOfRangeIsSkipped(posts: map<int, Post>, ps: Parsers)
    ensures var rows := [Row(Int(5), Int(91), Int(120))];
            ApplyAll(posts, rows, ps) == posts && Tally(posts, rows, ps) == Stats(1, 1, 0, 0, 0)
  {
  }

  /** A valid row for an absent id creates "Post 7" at the row's coordinates. */
  lemma AbsentPostIsCreated(posts: map<int, Post>, ps: Parsers)
    requires 7 !in posts
    ensures var rows := [Row(Int(7), Float(10.0), Float(120.0))];
            && Tally(posts, rows, ps) == Stats(1, 0, 0, 0, 1)
            && ApplyAll(posts, rows, ps) == posts[7 := Post(7, "Post 7", 10.0, 120.0, None, None)]
  {
    var rows := [Row(Int(7), Float(10.0), Float(120.0))];
    assert rows[..0] == [];
    assert IntToString(7) == "7";
    assert PostName(7) == "Post 7";
    assert Classify(rows[0], ps) == Accept(7, 10.0, 120.0);
  }
}
