/** The per-image measurement record that the extractor builds and the verdict engine reads. */
module Measurements {
  import opened Results

  /** Why the metadata part of the record holds defaults (never a rejection reason by itself). */
  datatype MetaError =
    | NoMetadataFound            // the metadata tool returned no record
    | SourceFailed(message: string)  // the metadata tool raised
    | NotAFloat(text: string)    // float() refused a tag's text
    | NotAnInt(text: string)     // int() refused a tag's text

  /**
   * One image's measurements. `speedSquared` is the squared magnitude of the
   * flight-velocity vector: the program stores its square root, and every use of
   * it is restated here on the square.
   */
  datatype Metrics = Metrics(
    width: int,
    height: int,
    digitalZoom: real,
    focalLength: real,
    iso: int,
    blurScore: real,
    brightness: real,
    distance: real,
    speedSquared: real,
    gimbalPitch: real,
    loadError: Option<string>,
    metaError: Option<MetaError>,
    hasDistance: bool)

  /** The load error recorded when the image loader returns no image. */
  const CorruptImage := "Could not load image (Corrupt?)"

  /** The distance recorded when no range-finder value was read. */
  const FarDistance := 9999.0

  /** The record before anything is read: every field at its default. */
  const Initial: Metrics := Metrics(
    width := 0, height := 0, digitalZoom := 1.0, focalLength := 0.0, iso := 0,
    blurScore := 0.0, brightness := 0.0, distance := FarDistance, speedSquared := 0.0,
    gimbalPitch := 0.0, loadError := None, metaError := None, hasDistance := false)

  /** The image failed to load; an empty message is falsy and does not count. */
  predicate LoadFailed(m: Metrics)
  {
    m.loadError.Some? && m.loadError.value != ""
  }
}
