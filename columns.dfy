/**
 * The column mapper: which columns of the external table hold the post id, the latitude
 * and the longitude. Both the import routine and the latlongdata endpoint use this rule.
 */
module Columns {
  import opened Wrappers
  import opened Text

  const PostIdName: string := "post_id"
  const LatitudeName: string := "latitude"
  const LongitudeName: string := "longitude"
  const Expected: seq<string> := [PostIdName, LatitudeName, LongitudeName]

  /** The column (by position in the DESCRIBE output) chosen for each role. */
  datatype ColumnMap = ColumnMap(postId: nat, latitude: nat, longitude: nat)

  datatype MapError = TooFewColumns

  /** [c.lower() for c in col_names] */
  function LowerAll(columns: seq<string>): (r: seq<string>)
    ensures |r| == |columns|
    ensures forall i :: 0 <= i < |columns| ==> r[i] == Lower(columns[i])
  {
    seq(|columns|, i requires 0 <= i < |columns| => Lower(columns[i]))
  }

  /** Python's list.index: the first position holding `x`. */
  function IndexOf(s: seq<string>, x: string): (k: nat)
    requires x in s
    ensures k < |s| && s[k] == x
    ensures forall j :: 0 <= j < k ==> s[j] != x
  {
    if s[0] == x then 0 else 1 + IndexOf(s[1..], x)
  }

  /** Some column is named `name`, ignoring case. */
  predicate HasName(columns: seq<string>, name: string) {
    exists k :: 0 <= k < |columns| && Lower(columns[k]) == name
  }

  /** All three expected names occur, ignoring case. */
  predicate AllNamed(columns: seq<string>) {
    HasName(columns, PostIdName) && HasName(columns, LatitudeName) && HasName(columns, LongitudeName)
  }

  /** `k` is the first column whose lowercase form is `name`. */
  predicate FirstNamed(columns: seq<string>, k: nat, name: string) {
    && k < |columns| && Lower(columns[k]) == name
    && forall j :: 0 <= j < k ==> Lower(columns[j]) != name
  }

  /** The mapping rule: by name when all three names occur, otherwise the first three columns. */
  function Resolve(columns: seq<string>): (r: Result<ColumnMap, MapError>)
    ensures r.Failure? <==> !AllNamed(columns) && |columns| < 3
    ensures r.Success? ==> r.value.postId < |columns| && r.value.latitude < |columns|
                           && r.value.longitude < |columns|
  {
    var lower := LowerAll(columns);
    assert HasName(columns, PostIdName) <==> PostIdName in lower;
    assert HasName(columns, LatitudeName) <==> LatitudeName in lower;
    assert HasName(columns, LongitudeName) <==> LongitudeName in lower;
    if PostIdName in lower && LatitudeName in lower && LongitudeName in lower then
      Success(ColumnMap(IndexOf(lower, PostIdName), IndexOf(lower, LatitudeName), IndexOf(lower, LongitudeName)))
    else if |columns| < 3 then
      Failure(TooFewColumns)
    else
      Success(ColumnMap(0, 1, 2))
  }

  /**
   * The mapping loop of import_from_latlong: look each expected name up in the lowercased
   * column list, then fall back to positions if any name is missing.
   */
  method ResolveColumns(columns: seq<string>) returns (r: Result<ColumnMap, MapError>)
    ensures r == Resolve(columns)
  {
    var lower := LowerAll(columns);
    var mapping: map<string, nat> := map[];
    for j := 0 to |Expected|
      invariant forall k :: 0 <= k < j && Expected[k] in lower ==> Expected[k] in mapping
      invariant forall name :: name in mapping ==> name in lower && mapping[name] == IndexOf(lower, name)
    {
      var name := Expected[j];
      if name in lower {
        mapping := mapping[name := IndexOf(lower, name)];
      }
    }
    assert Expected[0] == PostIdName && Expected[1] == LatitudeName && Expected[2] == LongitudeName;
    if PostIdName in mapping && LatitudeName in mapping && LongitudeName in mapping {
      r := Success(ColumnMap(mapping[PostIdName], mapping[LatitudeName], mapping[LongitudeName]));
    } else if |columns| < 3 {
      r := Failure(TooFewColumns);
    } else {
      r := Success(ColumnMap(0, 1, 2));
    }
  }

  /** When all three names occur, each role gets the first column carrying its name, in any column order. */
  lemma ResolveByName(columns: seq<string>)
    requires AllNamed(columns)
    ensures Resolve(columns).Success?
    ensures FirstNamed(columns, Resolve(columns).value.postId, PostIdName)
    ensures FirstNamed(columns, Resolve(columns).value.latitude, LatitudeName)
    ensures FirstNamed(columns, Resolve(columns).value.longitude, LongitudeName)
  {
  }

  /** When a name is missing, partial name matches are discarded and columns 0, 1, 2 are used. */
  lemma ResolveByPosition(columns: seq<string>)
    requires !AllNamed(columns) && |columns| >= 3
    ensures Resolve(columns) == Success(ColumnMap(0, 1, 2))
  {
  }

  /** A name occurs in the lowercased list exactly when some column carries it. */
  lemma NameFound(columns: seq<string>, name: string)
    ensures name in LowerAll(columns) <==> HasName(columns, name)
  {
  }

  /** Names in shuffled order still resolve by name. */
  lemma ShuffledNamesResolveByName()
    ensures Resolve(["latitude", "post_id", "longitude"]) == Success(ColumnMap(1, 0, 2))
  {
    var columns := ["latitude", "post_id", "longitude"];
    assert Lower(columns[0]) == LatitudeName;
    assert Lower(columns[1]) == PostIdName;
    assert Lower(columns[2]) == LongitudeName;
    ResolveByName(columns);
  }

  /** Unknown names fall back to positions. */
  lemma UnknownNamesResolveByPosition()
    ensures Resolve(["a", "b", "c"]) == Success(ColumnMap(0, 1, 2))
  {
  }
}
