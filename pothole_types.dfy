/** The report record as the map components receive it from the list
    endpoint: an id, a GeoJSON Point with longitude first, an optional
    description, an image URL, a severity and the creation time as text.
    The record type declares the severity required, but the schema has no
    such path, so records read from the store come without one. */
module PotholeTypes {
  import opened Common
  import opened PotholeSchema

  datatype Pothole = Pothole(
    id: string,
    location: GeoPoint,
    description: Option<string>,
    imageUrl: string,
    severity: Option<string>,
    createdAt: string)

  /** The record type fixes `coordinates` to a pair. */
  predicate HasPair(p: Pothole)
  {
    |p.location.coordinates| == 2
  }

  function Longitude(p: Pothole): real
    requires HasPair(p)
  {
    p.location.coordinates[0]
  }

  function Latitude(p: Pothole): real
    requires HasPair(p)
  {
    p.location.coordinates[1]
  }
}
