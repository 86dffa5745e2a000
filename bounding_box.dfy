/** The latitude/longitude rectangle around a point, on a spherical Earth.

    Angles are real numbers. `math.radians` is multiplication by the constant
    RadiansPerDegree and `math.degrees` division by it; `math.cos` of the latitude
    is supplied by the caller as `cosLat`, known only to lie in (0, 1] for a
    latitude in [-90, 90]. */
module BoundingBoxes {
  import opened Frames

  /** Radius of the Earth in kilometres. */
  const EarthRadius: real := 6371.0

  /** pi / 180, as the floating-point constant `math.radians` multiplies by. */
  const RadiansPerDegree: real := 0.017453292519943295

  function Radians(degrees: real): real {
    degrees * RadiansPerDegree
  }

  function Degrees(radians: real): real {
    radians / RadiansPerDegree
  }

  /** The four bounds, in degrees, in the order the fields are set. */
  datatype BoundingBox = BoundingBox(latMin: real, lonMin: real, latMax: real, lonMax: real)

  /** The three assertions of `get_bounding_box`, in the order they are checked. */
  datatype BoxError = NonPositiveHalfSide | LatitudeOutOfRange | LongitudeOutOfRange

  predicate ValidLatitude(degrees: real) {
    -90.0 <= degrees <= 90.0
  }

  predicate ValidLongitude(degrees: real) {
    -180.0 <= degrees <= 180.0
  }

  /** What the model assumes of `math.cos`: on a latitude in [-90, 90], converted to
      radians, it is positive and at most one (floating point never yields exactly 0
      at the poles). */
  ghost predicate IsLatitudeCosine(cos: real -> real) {
    forall degrees :: ValidLatitude(degrees) ==> 0.0 < cos(Radians(degrees)) <= 1.0
  }

  /** `get_bounding_box(latitude, longitude, halfSide)`, with `cosLat` standing for
      `math.cos(math.radians(latitude))`. */
  function GetBoundingBox(latitude: real, longitude: real, halfSide: real, cosLat: real): (r: Result<BoundingBox, BoxError>)
    requires ValidLatitude(latitude) ==> 0.0 < cosLat <= 1.0
    ensures r == Failure(NonPositiveHalfSide) <==> halfSide <= 0.0
    ensures r == Failure(LatitudeOutOfRange) <==> halfSide > 0.0 && !ValidLatitude(latitude)
    ensures r == Failure(LongitudeOutOfRange) <==>
              halfSide > 0.0 && ValidLatitude(latitude) && !ValidLongitude(longitude)
    ensures r.Success? ==>
              r.value.latMin < latitude < r.value.latMax && r.value.lonMin < longitude < r.value.lonMax
  {
    if !(halfSide > 0.0) then Failure(NonPositiveHalfSide)
    else if !ValidLatitude(latitude) then Failure(LatitudeOutOfRange)
    else if !ValidLongitude(longitude) then Failure(LongitudeOutOfRange)
    else
      var lat := Radians(latitude);
      var lon := Radians(longitude);
      var parallelRadius := EarthRadius * cosLat;
      assert parallelRadius > 0.0;
      assert halfSide / parallelRadius > 0.0;
      var latMin := lat - halfSide / EarthRadius;
      var latMax := lat + halfSide / EarthRadius;
      var lonMin := lon - halfSide / parallelRadius;
      var lonMax := lon + halfSide / parallelRadius;
      Success(BoundingBox(Degrees(latMin), Degrees(lonMin), Degrees(latMax), Degrees(lonMax)))
  }

  /** The input point is the centre of the box. */
  lemma BoxIsSymmetric(latitude: real, longitude: real, halfSide: real, cosLat: real)
    requires ValidLatitude(latitude) ==> 0.0 < cosLat <= 1.0
    requires GetBoundingBox(latitude, longitude, halfSide, cosLat).Success?
    ensures var box := GetBoundingBox(latitude, longitude, halfSide, cosLat).value;
            (box.latMin + box.latMax) / 2.0 == latitude && (box.lonMin + box.lonMax) / 2.0 == longitude
  {
  }

  /** The latitude half-span is halfSide / 6371 radians, whatever the position. */
  lemma LatitudeHalfSpan(latitude: real, longitude: real, halfSide: real, cosLat: real)
    requires ValidLatitude(latitude) ==> 0.0 < cosLat <= 1.0
    requires GetBoundingBox(latitude, longitude, halfSide, cosLat).Success?
    ensures var box := GetBoundingBox(latitude, longitude, halfSide, cosLat).value;
            box.latMax - latitude == latitude - box.latMin == Degrees(halfSide / EarthRadius)
  {
  }

  /** The longitude half-span is halfSide / (6371 cos lat) radians, never less than the
      latitude half-span. */
  lemma LongitudeHalfSpan(latitude: real, longitude: real, halfSide: real, cosLat: real)
    requires ValidLatitude(latitude) ==> 0.0 < cosLat <= 1.0
    requires GetBoundingBox(latitude, longitude, halfSide, cosLat).Success?
    ensures var box := GetBoundingBox(latitude, longitude, halfSide, cosLat).value;
            && box.lonMax - longitude == longitude - box.lonMin == Degrees(halfSide / (EarthRadius * cosLat))
            && box.lonMax - box.lonMin >= box.latMax - box.latMin
  {
    var q := halfSide / (EarthRadius * cosLat);
    assert q > 0.0;
    assert q * (EarthRadius * cosLat) == halfSide;
    assert q * EarthRadius * cosLat <= q * EarthRadius;
  }

  /** A larger half side strictly widens both spans. */
  lemma WiderWithLargerHalfSide(latitude: real, longitude: real, small: real, large: real, cosLat: real)
    requires ValidLatitude(latitude) ==> 0.0 < cosLat <= 1.0
    requires GetBoundingBox(latitude, longitude, small, cosLat).Success?
    requires small < large
    ensures GetBoundingBox(latitude, longitude, large, cosLat).Success?
    ensures var inner := GetBoundingBox(latitude, longitude, small, cosLat).value;
            var outer := GetBoundingBox(latitude, longitude, large, cosLat).value;
            && outer.latMin < inner.latMin && inner.latMax < outer.latMax
            && outer.lonMin < inner.lonMin && inner.lonMax < outer.lonMax
  {
    var d := EarthRadius * cosLat;
    assert d > 0.0;
    assert small / d < large / d by {
      assert large / d - small / d == (large - small) / d;
      assert (large - small) / d > 0.0;
    }
  }

  /** Bounds are neither clamped nor wrapped: a box at the corner of the valid range
      reaches past latitude 90 and longitude 180. */
  lemma BoundsNotClamped(cosLat: real)
    requires 0.0 < cosLat <= 1.0
    ensures GetBoundingBox(90.0, 180.0, 5.0, cosLat).Success?
    ensures GetBoundingBox(90.0, 180.0, 5.0, cosLat).value.latMax > 90.0
    ensures GetBoundingBox(90.0, 180.0, 5.0, cosLat).value.lonMax > 180.0
  {
  }

  /** The box around Vancouver used by the analysis, with a 5 km half side. */
  lemma VancouverBox(cosLat: real)
    requires 0.0 < cosLat < 1.0
    ensures GetBoundingBox(49.246292, -123.116226, 5.0, cosLat).Success?
    ensures var box := GetBoundingBox(49.246292, -123.116226, 5.0, cosLat).value;
            && 49.2013 < box.latMin < 49.2014
            && 49.2912 < box.latMax < 49.2913
            && box.lonMax - box.lonMin > box.latMax - box.latMin
  {
  }
}
