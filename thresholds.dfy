/** The quality thresholds a photograph is graded against. */
module Thresholds {

  /** The nine bounds of the sorter, as one immutable value passed to every evaluation. */
  datatype Config = Config(
    minWidth: int,          // pixels
    minHeight: int,         // pixels
    maxDigitalZoom: real,   // ratio, 1.0 = no digital zoom
    maxIso: int,
    minBlurScore: real,     // Laplacian variance; higher = sharper
    minDistance: real,      // metres to the laser range finder's target
    maxSpeed: real,         // metres per second
    minBrightness: real,    // mean intensity, 0..255
    maxBrightness: real)    // mean intensity, 0..255

  /** The thresholds the program ships with. */
  const Defaults: Config := Config(3000, 2000, 1.0, 1600, 100.0, 20.0, 5.0, 20.0, 240.0)

  /** `strict` is at least as demanding as `base`: every minimum raised or kept, every maximum lowered or kept. */
  predicate Stricter(base: Config, strict: Config)
  {
    && base.minWidth <= strict.minWidth
    && base.minHeight <= strict.minHeight
    && strict.maxDigitalZoom <= base.maxDigitalZoom
    && strict.maxIso <= base.maxIso
    && base.minBlurScore <= strict.minBlurScore
    && base.minDistance <= strict.minDistance
    && strict.maxSpeed <= base.maxSpeed
    && base.minBrightness <= strict.minBrightness
    && strict.maxBrightness <= base.maxBrightness
  }
}
