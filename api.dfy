/**
 * The request-side logic of the HTTP API: the post listing with its optional bounding-box
 * filter and in-memory fallback, and the normalised dump of the external latlongdata table.
 */
module Api {
  import opened Wrappers
  import opened Text
  import opened Values
  import opened Coordinates
  import opened Columns
  import opened Models

  /** The JSON record the post listing returns for each post. */
  datatype PostView = PostView(id: int, name: string, lat: real, lng: real, status: Option<string>)

  /** The fixed sample posts returned when the database has nothing to offer. */
  const SamplePosts: seq<PostView> := [
    PostView(1, "Pole A", 40.7128, -74.0060, Some("active")),
    PostView(2, "Pole B", 40.7138, -74.0050, Some("maintenance"))
  ]

  /** The `in_ph` query flag: a missing argument reads as the empty string, so it gives false. */
  function InPhFlag(arg: Option<string>): (b: bool)
    ensures b <==> arg.Some? && (Lower(arg.value) == "1" || Lower(arg.value) == "true" || Lower(arg.value) == "yes")
  {
    Lower(arg.GetOr("")) in ["1", "true", "yes"]
  }

  /** The flag ignores letter case. */
  lemma InPhFlagIgnoresCase(s: string)
    ensures InPhFlag(Some(s)) == InPhFlag(Some(Lower(s)))
  {
    LowerIdempotent(s);
  }

  /** The accepted spellings, in any case, and some that are refused. */
  lemma InPhFlagExamples()
    ensures InPhFlag(Some("1")) && InPhFlag(Some("TRUE")) && InPhFlag(Some("Yes"))
    ensures !InPhFlag(Some("0")) && !InPhFlag(Some("")) && !InPhFlag(Some("on"))
  {
    assert Lower("1") == "1" && Lower("0") == "0" && Lower("") == "";
    assert Lower("TRUE") == "true";
    assert Lower("Yes") == "yes";
    assert Lower("on") == "on";
  }

  function View(p: Post): PostView {
    PostView(p.id, p.name, p.lat, p.lng, p.status)
  }

  function Views(posts: seq<Post>): (r: seq<PostView>)
    ensures |r| == |posts|
    ensures forall i :: 0 <= i < |posts| ==> r[i] == View(posts[i])
  {
    seq(|posts|, i requires 0 <= i < |posts| => View(posts[i]))
  }

  /** The bounding-box filter: keeps, in order, exactly the posts inside the Philippines box. */
  function FilterInBox(s: seq<PostView>): (r: seq<PostView>)
    ensures |r| <= |s|
    ensures forall p :: p in r <==> p in s && InPhilippinesBox(p.lat, p.lng)
    ensures |s| == 1 ==> r == (if InPhilippinesBox(s[0].lat, s[0].lng) then s else [])
  {
    if s == [] then []
    else
      var head := if InPhilippinesBox(s[0].lat, s[0].lng) then [s[0]] else [];
      head + FilterInBox(s[1..])
  }

  /** The filter works row by row: filtering a concatenation concatenates the filtered parts, in order. */
  lemma {:induction false} FilterInBoxAppend(s: seq<PostView>, t: seq<PostView>)
    ensures FilterInBox(s + t) == FilterInBox(s) + FilterInBox(t)
  {
    if s != [] {
      var head := if InPhilippinesBox(s[0].lat, s[0].lng) then [s[0]] else [];
      assert (s + t)[0] == s[0] && (s + t)[1..] == s[1..] + t;
      assert FilterInBox(s + t) == head + FilterInBox(s[1..] + t);
      assert FilterInBox(s) == head + FilterInBox(s[1..]);
      FilterInBoxAppend(s[1..], t);
      assert head + (FilterInBox(s[1..]) + FilterInBox(t)) == (head + FilterInBox(s[1..])) + FilterInBox(t);
    } else {
      assert s + t == t;
    }
  }

  /** The filter keeps every in-box post as often as it occurs, duplicates included, and drops the rest. */
  lemma {:induction false} FilterInBoxCounts(s: seq<PostView>)
    ensures forall p :: multiset(FilterInBox(s))[p] == (if InPhilippinesBox(p.lat, p.lng) then multiset(s)[p] else 0)
  {
    if s != [] {
      FilterInBoxCounts(s[1..]);
      assert s == [s[0]] + s[1..];
      assert multiset(s) == multiset{s[0]} + multiset(s[1..]);
    }
  }

  /** The database query of the listing, with the box filter when the flag is set. */
  function PostsQuery(inPh: bool, stored: seq<Post>): (r: seq<PostView>)
    ensures |r| <= |stored|
    ensures !inPh ==> r == Views(stored)
    ensures inPh ==> forall p :: p in r <==> p in Views(stored) && InPhilippinesBox(p.lat, p.lng)
  {
    if inPh then FilterInBox(Views(stored)) else Views(stored)
  }

  /**
   * api_posts. `stored` is the post table in query order, None when the query raises.
   * A non-empty query result is returned on its own; otherwise the sample posts, filtered
   * the same way.
   */
  function ApiPosts(inPh: bool, stored: Option<seq<Post>>): (r: seq<PostView>)
    ensures inPh ==> forall p :: p in r ==> InPhilippinesBox(p.lat, p.lng)
    ensures stored.Some? && PostsQuery(inPh, stored.value) != [] ==> r == PostsQuery(inPh, stored.value)
    ensures (forall p :: p in r ==> p in SamplePosts) || (stored.Some? && forall p :: p in r ==> p in Views(stored.value))
  {
    if stored.Some? && PostsQuery(inPh, stored.value) != [] then PostsQuery(inPh, stored.value)
    else if inPh then FilterInBox(SamplePosts)
    else SamplePosts
  }

  /** The sample posts lie outside the box, so the filtered fallback is empty. */
  lemma FilteredFallbackIsEmpty(stored: Option<seq<Post>>)
    requires stored.None? || PostsQuery(true, stored.value) == []
    ensures ApiPosts(true, stored) == []
  {
  }

  /** Without the flag, an empty table or a failed query yields the sample posts. */
  lemma UnfilteredFallbackIsSample(stored: Option<seq<Post>>)
    requires stored.None? || stored.value == []
    ensures ApiPosts(false, stored) == SamplePosts
  {
  }

  /** With the flag, a post in New York is dropped and one in Manila is kept. */
  lemma ListingKeepsOnlyPhilippinePosts(a: Post, b: Post)
    requires a.lat == 40.7 && a.lng == -74.0
    requires b.lat == 14.6 && b.lng == 121.0
    ensures ApiPosts(true, Some([a, b])) == [View(b)]
  {
    var vs := Views([a, b]);
    assert vs[1..][1..] == [];
    assert FilterInBox(vs) == [View(b)];
  }

  /** One record of the latlongdata dump; a field that does not convert is null. */
  datatype OutRecord = OutRecord(postId: Option<int>, lat: Option<real>, lng: Option<real>)

  /** `float(v) if v is not None else None`: None inside when v is null, None outside when float() raises. */
  function FloatOrNull(v: Raw, ps: Parsers): (r: Option<Option<real>>)
    ensures v.Null? ==> r == Some(None)
    ensures !v.Null? ==> (r.None? <==> ToFloat(v, ps).None?)
    ensures r.Some? && r.value.Some? ==> !v.Null? && ToFloat(v, ps) == r.value
    ensures !v.Null? && ToFloat(v, ps).Some? ==> r == Some(ToFloat(v, ps))
  {
    if v.Null? then Some(None)
    else match ToFloat(v, ps)
      case Some(x) => Some(Some(x))
      case None => None
  }

  /**
   * The per-row coercion of the dump. The post id converts on its own; latitude and longitude
   * share one try block, so when either raises, both are null.
   */
  function CoerceRow(row: Row, ps: Parsers): (o: OutRecord)
    ensures row.postId.Null? ==> o.postId.None?
    ensures !row.postId.Null? ==> o.postId == ToInt(row.postId, ps)
    ensures FloatOrNull(row.latitude, ps).None? || FloatOrNull(row.longitude, ps).None? ==>
              o.lat.None? && o.lng.None?
    ensures ToFloat(row.latitude, ps).Some? && ToFloat(row.longitude, ps).Some? ==>
              o.lat == ToFloat(row.latitude, ps) && o.lng == ToFloat(row.longitude, ps)
    ensures row.latitude.Null? && ToFloat(row.longitude, ps).Some? ==>
              o.lat.None? && o.lng == ToFloat(row.longitude, ps)
    ensures row.longitude.Null? && ToFloat(row.latitude, ps).Some? ==>
              o.lng.None? && o.lat == ToFloat(row.latitude, ps)
    ensures row.latitude.Null? && row.longitude.Null? ==> o.lat.None? && o.lng.None?
  {
    var pid := if row.postId.Null? then None else ToInt(row.postId, ps);
    match (FloatOrNull(row.latitude, ps), FloatOrNull(row.longitude, ps))
    case (Some(lat), Some(lng)) => OutRecord(pid, lat, lng)
    case _ => OutRecord(pid, None, None)
  }

  /** The error responses of the dump endpoint. */
  datatype HttpError =
    | BadRequest(message: string)   // 400
    | ServerError                   // 500: DESCRIBE or SELECT raised

  /**
   * api_latlongdata. `source` is None when DESCRIBE fails; `selectFails` says the SELECT
   * raises. The columns are mapped by the same rule as the import, and the rows come out
   * one record per row, in row order.
   */
  method LatLongData(source: Option<Table>, selectFails: bool, ps: Parsers)
    returns (r: Result<seq<OutRecord>, HttpError>)
    ensures source.None? ==> r == Failure(ServerError)
    ensures source.Some? && Resolve(source.value.columns).Failure? ==>
              r == Failure(BadRequest("latlongdata must have at least 3 columns"))
    ensures source.Some? && Resolve(source.value.columns).Success? && selectFails ==> r == Failure(ServerError)
    ensures source.Some? && Resolve(source.value.columns).Success? && !selectFails ==>
              var rows := Select(source.value, Resolve(source.value.columns).value);
              && r.Success? && |r.value| == |rows|
              && forall i :: 0 <= i < |rows| ==> r.value[i] == CoerceRow(rows[i], ps)
  {
    if source.None? {
      return Failure(ServerError);
    }
    var mapping := ResolveColumns(source.value.columns);
    if mapping.Failure? {
      return Failure(BadRequest("latlongdata must have at least 3 columns"));
    }
    if selectFails {
      return Failure(ServerError);
    }
    var rows := Select(source.value, mapping.value);
    var out: seq<OutRecord> := [];
    for i := 0 to |rows|
      invariant |out| == i
      invariant forall k :: 0 <= k < i ==> out[k] == CoerceRow(rows[k], ps)
    {
      out := out + [CoerceRow(rows[i], ps)];
    }
    r := Success(out);
  }
}
