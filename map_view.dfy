/**
 * The pure and near-pure helpers of the map front end: status normalisation and pin
 * colour, the rotation state, the zoom-dependent pin scale and the saved-view check.
 */
module MapView {
  import opened Wrappers
  import opened Text

  // ---------------------------------------------------------------- status and colour

  /** The three statuses the front end knows. */
  predicate IsStatusName(s: string) {
    s == "active" || s == "maintenance" || s == "inactive"
  }

  /** STATUS_COLORS: one colour per known status. */
  const StatusColors: map<string, string> :=
    map["active" := "#dc2626", "maintenance" := "#ef4444", "inactive" := "#991b1b"]

  /**
   * normalizeStatus: `String(status || '').trim().toLowerCase()`, kept when it is a known
   * status and otherwise "inactive". A missing status reads as the empty string.
   */
  function NormalizeStatus(status: Option<string>): (r: string)
    ensures IsStatusName(r)
    ensures IsStatusName(Lower(Trim(status.GetOr("")))) ==> r == Lower(Trim(status.GetOr("")))
    ensures !IsStatusName(Lower(Trim(status.GetOr("")))) ==> r == "inactive"
  {
    var s := Lower(Trim(status.GetOr("")));
    if s == "active" || s == "maintenance" || s == "inactive" then s else "inactive"
  }

  /** Normalising a normalised status changes nothing. */
  lemma NormalizeStatusIdempotent(status: Option<string>)
    ensures NormalizeStatus(Some(NormalizeStatus(status))) == NormalizeStatus(status)
  {
    StatusNameIsNormal(NormalizeStatus(status));
  }

  /** A known status has no surrounding white space and no capitals. */
  lemma StatusNameIsNormal(s: string)
    requires IsStatusName(s)
    ensures Lower(Trim(s)) == s
  {
    assert s[0] in "ami" && s[|s| - 1] in "ee";
    assert !IsJsWhitespace(s[0]) && !IsJsWhitespace(s[|s| - 1]);
    TrimOfTrimmed(s);
    LowerOfLowercase(s);
  }

  /** Surrounding white space and letter case do not matter. */
  lemma PaddedCapitalisedStatusIsKnown()
    ensures NormalizeStatus(Some(" Active\n")) == "active"
  {
    var s := " Active\n";
    assert !IsJsWhitespace('A') && !IsJsWhitespace('e');
    assert s[1..] == "Active\n";
    assert TrimStart(s) == "Active\n";
    assert "Active\n"[..6] == "Active";
    assert TrimEnd("Active\n") == "Active";
    assert Lower("Active") == "active";
  }

  /** An unknown status is "inactive". */
  lemma UnknownStatusIsInactive()
    ensures NormalizeStatus(Some("retired")) == "inactive"
  {
    var s := "retired";
    assert !IsJsWhitespace(s[0]) && !IsJsWhitespace(s[|s| - 1]);
    assert TrimStart(s) == s;
    assert TrimEnd(s) == s;
    LowerOfLowercase(s);
    assert Lower(Trim(s)) == s;
  }

  /** A missing status is "inactive". */
  lemma MissingStatusIsInactive()
    ensures NormalizeStatus(None) == "inactive"
  {
  }

  /** The pin colour of createPostIcon: the lookup by normalised status. */
  function PinColor(status: Option<string>): (c: string)
    ensures c == StatusColors[NormalizeStatus(status)]
  {
    var s := NormalizeStatus(status);
    if s in StatusColors then StatusColors[s] else "#991b1b"
  }

  // ---------------------------------------------------------------- rotation

  /** JavaScript's `a % 360` on integers: the remainder takes the sign of the dividend. */
  function JsRemainder360(a: int): (r: int)
    ensures -360 < r < 360
    ensures a >= 0 ==> r >= 0
    ensures a < 0 ==> r <= 0
    ensures (a - r) % 360 == 0
  {
    if a >= 0 then a % 360 else -((-a) % 360)
  }

  /** `((deg % 360) + 360) % 360`: an angle in [0, 360) congruent to deg, for negative deg too. */
  function NormalizeAngle(deg: int): (r: int)
    ensures 0 <= r < 360
    ensures (deg - r) % 360 == 0
  {
    JsRemainder360(JsRemainder360(deg) + 360)
  }

  /** Two angles in [0, 360) that are congruent modulo 360 are equal. */
  lemma CongruentAnglesEqual(a: int, b: int)
    requires 0 <= a < 360 && 0 <= b < 360
    requires (a - b) % 360 == 0
    ensures a == b
  {
  }

  /** The JavaScript double remainder is the mathematical modulus. */
  lemma NormalizeAngleIsModulus(deg: int)
    ensures NormalizeAngle(deg) == deg % 360
  {
  }

  /** Multiples of 360 are closed under sums and differences. */
  lemma MultiplesCombine(u: int, v: int, w: int)
    requires u % 360 == 0 && v % 360 == 0 && w % 360 == 0
    ensures (u - v - w) % 360 == 0
  {
    var k := u / 360 - v / 360 - w / 360;
    assert u - v - w == 360 * k;
  }

  /** Normalising first does not change where a further rotation ends. */
  lemma NormalizeAngleAbsorbs(a: int, d: int)
    ensures NormalizeAngle(NormalizeAngle(a) + d) == NormalizeAngle(a + d)
  {
    var n := NormalizeAngle(a);
    var x, y := NormalizeAngle(n + d), NormalizeAngle(a + d);
    MultiplesCombine(a + d - y, n + d - x, a - n);
    assert (a + d - y) - (n + d - x) - (a - n) == x - y;
    CongruentAnglesEqual(x, y);
  }

  /** The rotation state of the map, changed in place by the rotate controls. */
  class MapRotation {
    var rotation: int

    ghost predicate Valid()
      reads this
    {
      0 <= rotation < 360
    }

    constructor ()
      ensures Valid() && rotation == 0
    {
      rotation := 0;
    }

    /** setMapRotation */
    method SetMapRotation(deg: int)
      modifies this
      ensures Valid() && rotation == NormalizeAngle(deg)
    {
      rotation := JsRemainder360(JsRemainder360(deg) + 360);
    }

    /** rotateBy */
    method RotateBy(delta: int)
      modifies this
      ensures Valid() && rotation == NormalizeAngle(old(rotation) + delta)
    {
      SetMapRotation(rotation + delta);
    }

    /** The left button: rotate by -15 degrees. */
    method RotateLeft()
      modifies this
      ensures Valid() && rotation == NormalizeAngle(old(rotation) - 15)
    {
      RotateBy(-15);
    }

    /** The right button: rotate by +15 degrees. */
    method RotateRight()
      modifies this
      ensures Valid() && rotation == NormalizeAngle(old(rotation) + 15)
    {
      RotateBy(15);
    }

    /** The reset button. */
    method Reset()
      modifies this
      ensures Valid() && rotation == 0
    {
      SetMapRotation(0);
    }
  }

  /** A step of `delta` followed by a step of `-delta` restores a valid rotation. */
  lemma RotateThereAndBack(r: int, delta: int)
    requires 0 <= r < 360
    ensures NormalizeAngle(NormalizeAngle(r + delta) - delta) == r
  {
  }

  /** The rotation after `n` presses of the right button, starting from `r`. */
  function RightPresses(r: int, n: nat): int {
    if n == 0 then r else NormalizeAngle(RightPresses(r, n - 1) + 15)
  }

  /** `n` presses of the right button rotate by 15n degrees. */
  lemma {:induction false} RightPressesTurn(r: int, n: nat)
    requires 0 <= r < 360
    ensures RightPresses(r, n) == NormalizeAngle(r + 15 * n)
  {
    if n == 0 {
      CongruentAnglesEqual(NormalizeAngle(r), r);
    } else {
      RightPressesTurn(r, n - 1);
      NormalizeAngleAbsorbs(r + 15 * (n - 1), 15);
    }
  }

  /** Twenty-four presses of the right button make a full turn. */
  lemma FullTurn(r: int)
    requires 0 <= r < 360
    ensures RightPresses(r, 24) == r
  {
    RightPressesTurn(r, 24);
    assert r + 15 * 24 == r + 360;
    CongruentAnglesEqual(NormalizeAngle(r + 360), r);
  }

  // ---------------------------------------------------------------- pin scale

  function Min(a: real, b: real): real { if a <= b then a else b }
  function Max(a: real, b: real): real { if a >= b then a else b }

  /** updatePinScale: `Math.max(0.55, Math.min(1.25, 0.55 + (z - 6) * 0.06))`, over reals. */
  function PinScale(zoom: real): (s: real)
    ensures 0.55 <= s <= 1.25
  {
    Max(0.55, Min(1.25, 0.55 + (zoom - 6.0) * 0.06))
  }

  /** Zooming in never shrinks the pins. */
  lemma PinScaleMonotone(z1: real, z2: real)
    requires z1 <= z2
    ensures PinScale(z1) <= PinScale(z2)
  {
  }

  // ---------------------------------------------------------------- saved view

  /** A value JSON.parse can produce. */
  datatype Json =
    | JNull
    | JBool(b: bool)
    | JNumber(n: real)
    | JString(s: string)
    | JArray(items: seq<Json>)
    | JObject(fields: map<string, Json>)

  /** JavaScript truthiness of a parsed value. */
  predicate Truthy(v: Json) {
    match v
    case JNull => false
    case JBool(b) => b
    case JNumber(n) => n != 0.0
    case JString(s) => s != ""
    case _ => true
  }

  /** `v.key`: None for undefined (a missing key, or a value that is not an object). */
  function Property(v: Json, key: string): Option<Json> {
    if v.JObject? && key in v.fields then Some(v.fields[key]) else None
  }

  /** `a[k]`: None for undefined (out of range, or not an array). */
  function Element(a: Option<Json>, k: nat): Option<Json> {
    if a.Some? && a.value.JArray? && k < |a.value.items| then Some(a.value.items[k]) else None
  }

  predicate IsArray(v: Option<Json>) { v.Some? && v.value.JArray? }
  predicate IsNumber(v: Option<Json>) { v.Some? && v.value.JNumber? }

  /** The shape of a saved view: an object whose `center` array starts with two numbers and whose `zoom` is a number. */
  predicate IsSavedView(v: Json) {
    && v.JObject?
    && "center" in v.fields && v.fields["center"].JArray?
    && |v.fields["center"].items| >= 2
    && v.fields["center"].items[0].JNumber? && v.fields["center"].items[1].JNumber?
    && "zoom" in v.fields && v.fields["zoom"].JNumber?
  }

  /**
   * loadSavedView. `stored` is what localStorage holds (None when nothing is stored or
   * storage raises) and `parse` is JSON.parse (None when it throws).
   */
  function LoadSavedView(stored: Option<string>, parse: string -> Option<Json>): (r: Option<Json>)
    ensures r.Some? <==> stored.Some? && stored.value != "" && parse(stored.value).Some?
                         && IsSavedView(parse(stored.value).value)
    ensures r.Some? ==> r == parse(stored.value)
  {
    if stored.None? || stored.value == "" then None
    else match parse(stored.value)
      case None => None
      case Some(v) =>
        if !Truthy(v) || !IsArray(Property(v, "center")) || !IsNumber(Property(v, "zoom")) then None
        else if !IsNumber(Element(Property(v, "center"), 0)) || !IsNumber(Element(Property(v, "center"), 1)) then None
        else Some(v)
  }
}
