/** A row of the Vancouver points-of-interest file that both scripts read. */
module Amenities {
  import opened Frames

  /** Position in degrees, the OpenStreetMap amenity tag (such as "cafe" or "bank")
      and the name, which may be missing. */
  datatype Amenity = Amenity(lat: real, lon: real, amenity: string, name: Option<string>)
}
