/**
 * Metadata normalisation: the part of the sorter that turns the metadata tool's
 * tag map and the image loader's answer into one typed measurement record.
 */
module Extractor {
  import opened Results
  import opened Numbers
  import opened Strings
  import opened Measurements

  /** A raw tag value as the metadata tool reports it: a JSON integer, float or string. */
  datatype Value = IntVal(i: int) | RealVal(x: real) | StrVal(s: string)

  /** The first metadata record of a file: tag name to raw value. */
  type Tags = map<string, Value>

  /** What the metadata tool answered for one file. */
  datatype MetadataReply =
    | SourceRaised(message: string)  // the tool raised an exception
    | NoRecords                      // the tool returned an empty list
    | Record(tags: Tags)             // the first record it returned

  /** What the grayscale image loader answered for one file. */
  datatype VisualReply =
    | Loaded(sharpness: real, meanIntensity: real)  // Laplacian variance and mean intensity
    | Unreadable                                    // the loader returned no image
    | LoaderRaised(message: string)                 // the loader raised an exception

  /** Python's `float()` and `int()` on text; either may refuse the text. */
  datatype Parsers = Parsers(parseFloat: string -> Option<real>, parseInt: string -> Option<int>)

  const ExifWidthTag := "EXIF:ExifImageWidth"
  const ExifHeightTag := "EXIF:ExifImageHeight"
  const WidthTag := "ImageWidth"
  const HeightTag := "ImageHeight"
  const ZoomTag := "Composite:DigitalZoomRatio"
  const IsoTag := "EXIF:ISO"
  const FocalTag := "Composite:FocalLength35efl"
  const Focal35Tag := "EXIF:FocalLengthIn35mmFormat"
  const DistanceTag := "XMP:LRFTargetDistance"
  const SpeedTag := "XMP:FlightSpeed"
  const PitchTag := "XMP:GimbalPitchDegree"

  /** `dict.get(key, default)`. */
  function Get(tags: Tags, key: string, default: Value): Value
  {
    if key in tags then tags[key] else default
  }

  /** Python truthiness of a raw value. */
  predicate Truthy(v: Value)
  {
    match v
    case IntVal(i) => i != 0
    case RealVal(x) => x != 0.0
    case StrVal(s) => s != ""
  }

  /** Python's `v == 0`: true of the numbers zero, never of a string. */
  predicate IsZero(v: Value)
  {
    v == IntVal(0) || v == RealVal(0.0)
  }

  /** A resolution tag's value as a pixel count (see the README on non-integer values). */
  function Pixels(v: Value): int
  {
    match v
    case IntVal(i) => i
    case RealVal(x) => x.Floor
    case StrVal(_) => 0
  }

  /** Flooring a float resolution keeps its comparison with an integer threshold. */
  lemma PixelsKeepsResolutionCheck(x: real, bound: int)
    ensures Pixels(RealVal(x)) < bound <==> x < bound as real
  {
  }

  /** `float(v)`: numbers convert, text goes to the parser, which may refuse it. */
  function FloatOf(v: Value, p: Parsers): (r: Result<real, MetaError>)
    ensures r.Err? <==> v.StrVal? && p.parseFloat(v.s).None?
    ensures r.Err? ==> r.error == NotAFloat(v.s)
    ensures v.IntVal? ==> r == Ok(v.i as real)
    ensures v.RealVal? ==> r == Ok(v.x)
    ensures v.StrVal? && p.parseFloat(v.s).Some? ==> r == Ok(p.parseFloat(v.s).value)
  {
    match v
    case IntVal(i) => Ok(i as real)
    case RealVal(x) => Ok(x)
    case StrVal(s) => if p.parseFloat(s).Some? then Ok(p.parseFloat(s).value) else Err(NotAFloat(s))
  }

  /** `int(v)`: integers convert, floats truncate toward zero, text goes to the parser. */
  function IntOf(v: Value, p: Parsers): (r: Result<int, MetaError>)
    ensures r.Err? <==> v.StrVal? && p.parseInt(v.s).None?
    ensures r.Err? ==> r.error == NotAnInt(v.s)
    ensures v.IntVal? ==> r == Ok(v.i)
    ensures v.StrVal? && p.parseInt(v.s).Some? ==> r == Ok(p.parseInt(v.s).value)
    ensures v.RealVal? ==> r.Ok?
    ensures v.RealVal? && 0.0 <= v.x ==> 0 <= r.value && r.value as real <= v.x < r.value as real + 1.0
    ensures v.RealVal? && v.x < 0.0 ==> r.value <= 0 && r.value as real - 1.0 < v.x <= r.value as real
  {
    match v
    case IntVal(i) => Ok(i)
    case RealVal(x) => Ok(Truncate(x))
    case StrVal(s) => if p.parseInt(s).Some? then Ok(p.parseInt(s).value) else Err(NotAnInt(s))
  }

  /** `[float(x) for x in parts]`: all parts converted, or none if any is refused. */
  function ParseAll(parts: seq<string>, p: Parsers): (r: Option<seq<real>>)
    ensures r.Some? <==> forall i :: 0 <= i < |parts| ==> p.parseFloat(parts[i]).Some?
    ensures r.Some? ==> |r.value| == |parts|
    ensures r.Some? ==> forall i :: 0 <= i < |parts| ==> r.value[i] == p.parseFloat(parts[i]).value
  {
    if parts == [] then Some([])
    else
      var rest := ParseAll(parts[1..], p);
      if p.parseFloat(parts[0]).Some? && rest.Some? then Some([p.parseFloat(parts[0]).value] + rest.value)
      else None
  }

  /** The tag a resolution is read from: the EXIF tag, or the generic one when the EXIF value is zero or absent. */
  function ResolutionSource(tags: Tags, exifTag: string, genericTag: string): Value
  {
    var v := Get(tags, exifTag, IntVal(0));
    if IsZero(v) then Get(tags, genericTag, IntVal(0)) else v
  }

  /** `Composite:FocalLength35efl or EXIF:FocalLengthIn35mmFormat`, each defaulting to 0. */
  function FocalSource(tags: Tags): Value
  {
    var v := Get(tags, FocalTag, IntVal(0));
    if Truthy(v) then v else Get(tags, Focal35Tag, IntVal(0))
  }

  /**
   * The squared flight speed: the three first components of the comma-separated
   * speed text, when that text is non-empty and every component converts;
   * otherwise 0 (a non-text value has no split and also leaves 0).
   */
  function SpeedSquared(tags: Tags, p: Parsers): real
  {
    if SpeedTag in tags && tags[SpeedTag].StrVal? && tags[SpeedTag].s != "" then
      var xs := ParseAll(Split(tags[SpeedTag].s, ','), p);
      if xs.Some? && |xs.value| >= 3 then
        xs.value[0] * xs.value[0] + xs.value[1] * xs.value[1] + xs.value[2] * xs.value[2]
      else 0.0
    else 0.0
  }

  /** The conversions of the metadata part that can raise, in the order they run. */
  datatype Step = ZoomStep | IsoStep | FocalStep | DistanceStep | PitchStep

  const StepOrder: seq<Step> := [ZoomStep, IsoStep, FocalStep, DistanceStep, PitchStep]

  function ErrorOf<T>(r: Result<T, MetaError>): Option<MetaError>
  {
    if r.Err? then Some(r.error) else None
  }

  /** The error a step raises, if it runs. */
  function StepFailure(s: Step, tags: Tags, p: Parsers): Option<MetaError>
  {
    match s
    case ZoomStep => ErrorOf(FloatOf(Get(tags, ZoomTag, RealVal(1.0)), p))
    case IsoStep => ErrorOf(IntOf(Get(tags, IsoTag, IntVal(0)), p))
    case FocalStep => ErrorOf(FloatOf(FocalSource(tags), p))
    case DistanceStep => if DistanceTag in tags then ErrorOf(FloatOf(tags[DistanceTag], p)) else None
    case PitchStep => ErrorOf(FloatOf(Get(tags, PitchTag, IntVal(0)), p))
  }

  function StepRank(s: Step): nat
  {
    match s
    case ZoomStep => 0
    case IsoStep => 1
    case FocalStep => 2
    case DistanceStep => 3
    case PitchStep => 4
  }

  /** Step `t` does not raise when it runs. */
  predicate Succeeds(t: Step, tags: Tags, p: Parsers)
  {
    StepFailure(t, tags, p).None?
  }

  /** Every step before `s` ran without raising, so `s` ran. */
  predicate Reached(s: Step, tags: Tags, p: Parsers)
  {
    match s
    case ZoomStep => true
    case IsoStep => Succeeds(ZoomStep, tags, p)
    case FocalStep => Succeeds(ZoomStep, tags, p) && Succeeds(IsoStep, tags, p)
    case DistanceStep => Succeeds(ZoomStep, tags, p) && Succeeds(IsoStep, tags, p) && Succeeds(FocalStep, tags, p)
    case PitchStep =>
      Succeeds(ZoomStep, tags, p) && Succeeds(IsoStep, tags, p) && Succeeds(FocalStep, tags, p)
      && Succeeds(DistanceStep, tags, p)
  }

  /** Step `s` ran and did not raise, so it assigned its field. */
  predicate Completed(s: Step, tags: Tags, p: Parsers)
  {
    Reached(s, tags, p) && Succeeds(s, tags, p)
  }

  /** The error of the first step of `steps` that raises. */
  function FirstError(steps: seq<Step>, tags: Tags, p: Parsers): Option<MetaError>
  {
    if steps == [] then None
    else if StepFailure(steps[0], tags, p).Some? then StepFailure(steps[0], tags, p)
    else FirstError(steps[1..], tags, p)
  }

  /** The recorded error is that of the step at which the metadata part stopped. */
  lemma FirstErrorIsStoppingStep(tags: Tags, p: Parsers)
    ensures !Completed(ZoomStep, tags, p) ==> FirstError(StepOrder, tags, p) == StepFailure(ZoomStep, tags, p)
    ensures Completed(ZoomStep, tags, p) && !Completed(IsoStep, tags, p) ==>
      FirstError(StepOrder, tags, p) == StepFailure(IsoStep, tags, p)
    ensures Completed(IsoStep, tags, p) && !Completed(FocalStep, tags, p) ==>
      FirstError(StepOrder, tags, p) == StepFailure(FocalStep, tags, p)
    ensures Completed(FocalStep, tags, p) && !Completed(DistanceStep, tags, p) ==>
      FirstError(StepOrder, tags, p) == StepFailure(DistanceStep, tags, p)
    ensures Completed(DistanceStep, tags, p) && !Completed(PitchStep, tags, p) ==>
      FirstError(StepOrder, tags, p) == StepFailure(PitchStep, tags, p)
    ensures Completed(PitchStep, tags, p) ==> FirstError(StepOrder, tags, p) == None
  {
    var t1 := [IsoStep, FocalStep, DistanceStep, PitchStep];
    var t2 := [FocalStep, DistanceStep, PitchStep];
    var t3 := [DistanceStep, PitchStep];
    var t4 := [PitchStep];
    assert StepOrder[1..] == t1 && t1[1..] == t2 && t2[1..] == t3 && t3[1..] == t4 && t4[1..] == [];
    assert FirstError(t4, tags, p) == StepFailure(PitchStep, tags, p);
    assert FirstError(t3, tags, p) ==
      if Succeeds(DistanceStep, tags, p) then FirstError(t4, tags, p) else StepFailure(DistanceStep, tags, p);
    assert FirstError(t2, tags, p) ==
      if Succeeds(FocalStep, tags, p) then FirstError(t3, tags, p) else StepFailure(FocalStep, tags, p);
    assert FirstError(t1, tags, p) ==
      if Succeeds(IsoStep, tags, p) then FirstError(t2, tags, p) else StepFailure(IsoStep, tags, p);
  }

  /**
   * The metadata part of the record for a tag map: each field holds its converted
   * value when its step completed, and its default when an earlier step raised.
   */
  function MetadataFields(tags: Tags, p: Parsers): Metrics
  {
    Initial.(
      width := Pixels(ResolutionSource(tags, ExifWidthTag, WidthTag)),
      height := Pixels(ResolutionSource(tags, ExifHeightTag, HeightTag)),
      digitalZoom :=
        if Completed(ZoomStep, tags, p) then FloatOf(Get(tags, ZoomTag, RealVal(1.0)), p).value
        else Initial.digitalZoom,
      iso :=
        if Completed(IsoStep, tags, p) then IntOf(Get(tags, IsoTag, IntVal(0)), p).value
        else Initial.iso,
      focalLength :=
        if Completed(FocalStep, tags, p) then FloatOf(FocalSource(tags), p).value
        else Initial.focalLength,
      hasDistance := Completed(DistanceStep, tags, p) && DistanceTag in tags,
      distance :=
        if Completed(DistanceStep, tags, p) && DistanceTag in tags then FloatOf(tags[DistanceTag], p).value
        else Initial.distance,
      speedSquared := if Completed(DistanceStep, tags, p) then SpeedSquared(tags, p) else Initial.speedSquared,
      gimbalPitch :=
        if Completed(PitchStep, tags, p) then FloatOf(Get(tags, PitchTag, IntVal(0)), p).value
        else Initial.gimbalPitch,
      metaError := FirstError(StepOrder, tags, p))
  }

  /** The record for one file: the metadata part, then the image loader's part. */
  function Normalize(reply: MetadataReply, visual: VisualReply, p: Parsers): Metrics
  {
    var meta :=
      match reply
      case SourceRaised(msg) => Initial.(metaError := Some(SourceFailed(msg)))
      case NoRecords => Initial.(metaError := Some(NoMetadataFound))
      case Record(tags) => MetadataFields(tags, p);
    match visual
    case Loaded(sharpness, intensity) => meta.(blurScore := sharpness, brightness := intensity)
    case Unreadable => meta.(loadError := Some(CorruptImage))
    case LoaderRaised(msg) => meta.(loadError := Some(msg))
  }

  /**
   * Reads one metadata record field by field, stopping at the first conversion
   * that raises; the error is recorded and later fields keep their defaults, as
   * the program's exception handler leaves them.
   */
  method ReadTags(tags: Tags, p: Parsers) returns (metrics: Metrics)
    ensures metrics == MetadataFields(tags, p)
  {
    FirstErrorIsStoppingStep(tags, p);
    metrics := Initial;
    // Resolution: fall back to the generic tag when the EXIF value is zero
    var w := Get(tags, ExifWidthTag, IntVal(0));
    var h := Get(tags, ExifHeightTag, IntVal(0));
    if IsZero(w) { w := Get(tags, WidthTag, IntVal(0)); }
    if IsZero(h) { h := Get(tags, HeightTag, IntVal(0)); }
    metrics := metrics.(width := Pixels(w), height := Pixels(h));

    var zoom := FloatOf(Get(tags, ZoomTag, RealVal(1.0)), p);
    if zoom.Err? { metrics := metrics.(metaError := Some(zoom.error)); return; }
    metrics := metrics.(digitalZoom := zoom.value);

    var iso := IntOf(Get(tags, IsoTag, IntVal(0)), p);
    if iso.Err? { metrics := metrics.(metaError := Some(iso.error)); return; }
    metrics := metrics.(iso := iso.value);

    var focal := FloatOf(FocalSource(tags), p);
    if focal.Err? { metrics := metrics.(metaError := Some(focal.error)); return; }
    metrics := metrics.(focalLength := focal.value);

    if DistanceTag in tags {
      var dist := FloatOf(tags[DistanceTag], p);
      if dist.Err? { metrics := metrics.(metaError := Some(dist.error)); return; }
      metrics := metrics.(distance := dist.value, hasDistance := true);
    }

    var speed := ReadSpeed(tags, p);
    metrics := metrics.(speedSquared := speed);

    var pitch := FloatOf(Get(tags, PitchTag, IntVal(0)), p);
    if pitch.Err? { metrics := metrics.(metaError := Some(pitch.error)); return; }
    metrics := metrics.(gimbalPitch := pitch.value);
  }

  /** The flight speed's squared magnitude; any failure here is swallowed and leaves 0. */
  method ReadSpeed(tags: Tags, p: Parsers) returns (speedSquared: real)
    ensures speedSquared == SpeedSquared(tags, p)
  {
    speedSquared := 0.0;
    if SpeedTag in tags && Truthy(tags[SpeedTag]) && tags[SpeedTag].StrVal? {
      var parts := ParseAll(Split(tags[SpeedTag].s, ','), p);
      if parts.Some? && |parts.value| >= 3 {
        var xs := parts.value;
        speedSquared := xs[0] * xs[0] + xs[1] * xs[1] + xs[2] * xs[2];
      }
    }
  }

  /** Builds the record of one file: metadata first, whatever happens there, then the image loader's part. */
  method GetImageMetrics(reply: MetadataReply, visual: VisualReply, p: Parsers) returns (metrics: Metrics)
    ensures metrics == Normalize(reply, visual, p)
  {
    match reply {
      case SourceRaised(msg) =>
        metrics := Initial.(metaError := Some(SourceFailed(msg)));
      case NoRecords =>
        metrics := Initial.(metaError := Some(NoMetadataFound));
      case Record(tags) =>
        metrics := ReadTags(tags, p);
    }
    match visual {
      case Loaded(sharpness, intensity) =>
        metrics := metrics.(blurScore := sharpness, brightness := intensity);
      case Unreadable =>
        metrics := metrics.(loadError := Some(CorruptImage));
      case LoaderRaised(msg) =>
        metrics := metrics.(loadError := Some(msg));
    }
  }

  // ---------------------------------------------------------------------------
  // Properties of the normalised record

  /** The width comes from the EXIF tag unless that is zero or absent, then from the generic tag; the height likewise. */
  lemma ResolutionFallback(tags: Tags, visual: VisualReply, p: Parsers)
    ensures var m := Normalize(Record(tags), visual, p);
      && (ExifWidthTag in tags && !IsZero(tags[ExifWidthTag]) ==> m.width == Pixels(tags[ExifWidthTag]))
      && (ExifWidthTag !in tags || IsZero(tags[ExifWidthTag]) ==> m.width == Pixels(Get(tags, WidthTag, IntVal(0))))
      && (ExifHeightTag in tags && !IsZero(tags[ExifHeightTag]) ==> m.height == Pixels(tags[ExifHeightTag]))
      && (ExifHeightTag !in tags || IsZero(tags[ExifHeightTag]) ==> m.height == Pixels(Get(tags, HeightTag, IntVal(0))))
  {
  }

  /** The focal length is the composite value unless that is falsy or absent, then the EXIF 35mm value. */
  lemma FocalLengthFallback(tags: Tags, visual: VisualReply, p: Parsers)
    requires Completed(FocalStep, tags, p)
    ensures var m := Normalize(Record(tags), visual, p);
      && (FocalTag in tags && Truthy(tags[FocalTag]) ==> FloatOf(tags[FocalTag], p) == Ok(m.focalLength))
      && (FocalTag !in tags || !Truthy(tags[FocalTag]) ==>
            FloatOf(Get(tags, Focal35Tag, IntVal(0)), p) == Ok(m.focalLength))
  {
  }

  /**
   * A distance is recorded exactly when the range-finder tag is present, converts,
   * and no earlier conversion raised; otherwise the distance stays at its default.
   */
  lemma HasDistanceExactly(reply: MetadataReply, visual: VisualReply, p: Parsers)
    ensures var m := Normalize(reply, visual, p);
      && (m.hasDistance <==>
            reply.Record? && Reached(DistanceStep, reply.tags, p) && DistanceTag in reply.tags
            && FloatOf(reply.tags[DistanceTag], p).Ok?)
      && (m.hasDistance ==> FloatOf(reply.tags[DistanceTag], p) == Ok(m.distance))
      && (!m.hasDistance ==> m.distance == FarDistance)
  {
  }

  /** A squared speed is a sum of squares, never negative. */
  lemma SpeedNonNegative(reply: MetadataReply, visual: VisualReply, p: Parsers)
    ensures 0.0 <= Normalize(reply, visual, p).speedSquared
  {
    if reply.Record? {
      var tags := reply.tags;
      if SpeedTag in tags && tags[SpeedTag].StrVal? && tags[SpeedTag].s != "" {
        var xs := ParseAll(Split(tags[SpeedTag].s, ','), p);
        if xs.Some? && |xs.value| >= 3 {
          SquareNonNegative(xs.value[0]);
          SquareNonNegative(xs.value[1]);
          SquareNonNegative(xs.value[2]);
        }
      }
    }
  }

  lemma SquareNonNegative(x: real)
    ensures 0.0 <= x * x
  {
    if x < 0.0 {
      assert x * x == (-x) * (-x);
    }
  }

  /**
   * The speed stays 0 unless the speed tag is non-empty text, no earlier
   * conversion raised, it splits into at least three parts, and every part converts.
   */
  lemma SpeedZeroUnlessParsed(reply: MetadataReply, visual: VisualReply, p: Parsers)
    requires Normalize(reply, visual, p).speedSquared != 0.0
    ensures reply.Record? && Completed(DistanceStep, reply.tags, p)
    ensures SpeedTag in reply.tags && reply.tags[SpeedTag].StrVal? && reply.tags[SpeedTag].s != ""
    ensures var parts := Split(reply.tags[SpeedTag].s, ',');
      |parts| >= 3 && forall i :: 0 <= i < |parts| ==> p.parseFloat(parts[i]).Some?
  {
  }

  /** A speed text with fewer than two commas has fewer than three parts, so the speed stays 0. */
  lemma SpeedNeedsTwoCommas(tags: Tags, visual: VisualReply, p: Parsers, text: string)
    requires SpeedTag in tags && tags[SpeedTag] == StrVal(text)
    requires multiset(text)[','] < 2
    ensures Normalize(Record(tags), visual, p).speedSquared == 0.0
  {
    var parts := Split(text, ',');
    var xs := ParseAll(parts, p);
    assert xs.Some? ==> |xs.value| < 3;
  }

  /** When every part converts, the squared speed is the sum of the squares of the first three. */
  lemma SpeedFromComponents(tags: Tags, visual: VisualReply, p: Parsers, text: string)
    requires Completed(DistanceStep, tags, p)
    requires SpeedTag in tags && tags[SpeedTag] == StrVal(text) && text != ""
    requires |Split(text, ',')| >= 3
    requires forall i :: 0 <= i < |Split(text, ',')| ==> p.parseFloat(Split(text, ',')[i]).Some?
    ensures var parts := Split(text, ',');
      var x, y, z := p.parseFloat(parts[0]).value, p.parseFloat(parts[1]).value, p.parseFloat(parts[2]).value;
      Normalize(Record(tags), visual, p).speedSquared == x * x + y * y + z * z
  {
    assert Normalize(Record(tags), visual, p).speedSquared == SpeedSquared(tags, p);
    SpeedSquaredOfParts(tags, p, text);
  }

  /** The squared speed of a speed text whose parts all convert. */
  lemma SpeedSquaredOfParts(tags: Tags, p: Parsers, text: string)
    requires SpeedTag in tags && tags[SpeedTag] == StrVal(text) && text != ""
    requires |Split(text, ',')| >= 3
    requires forall i :: 0 <= i < |Split(text, ',')| ==> p.parseFloat(Split(text, ',')[i]).Some?
    ensures var parts := Split(text, ',');
      var x, y, z := p.parseFloat(parts[0]).value, p.parseFloat(parts[1]).value, p.parseFloat(parts[2]).value;
      SpeedSquared(tags, p) == x * x + y * y + z * z
  {
    var parts := Split(text, ',');
    var xs := ParseAll(parts, p);
    assert xs.Some?;
    assert xs.value[0] == p.parseFloat(parts[0]).value;
    assert xs.value[1] == p.parseFloat(parts[1]).value;
    assert xs.value[2] == p.parseFloat(parts[2]).value;
  }

  /**
   * When a conversion raises, its error is recorded, and its field and every
   * later field keep their defaults (the speed among them when the distance raises).
   */
  lemma RaiseKeepsLaterDefaults(tags: Tags, visual: VisualReply, p: Parsers, s: Step)
    requires Reached(s, tags, p) && !Succeeds(s, tags, p)
    ensures var m := Normalize(Record(tags), visual, p);
      && m.metaError == StepFailure(s, tags, p)
      && (StepRank(s) <= 0 ==> m.digitalZoom == Initial.digitalZoom)
      && (StepRank(s) <= 1 ==> m.iso == Initial.iso)
      && (StepRank(s) <= 2 ==> m.focalLength == Initial.focalLength)
      && (StepRank(s) <= 3 ==> !m.hasDistance && m.distance == FarDistance && m.speedSquared == 0.0)
      && m.gimbalPitch == Initial.gimbalPitch
  {
    FirstErrorIsStoppingStep(tags, p);
  }

  /** No metadata error is recorded exactly when a record came back and every conversion succeeded. */
  lemma NoErrorMeansAllRead(reply: MetadataReply, visual: VisualReply, p: Parsers)
    ensures Normalize(reply, visual, p).metaError.None? <==> reply.Record? && Completed(PitchStep, reply.tags, p)
  {
    if reply.Record? {
      FirstErrorIsStoppingStep(reply.tags, p);
    }
  }

  /** Without a metadata record every metadata field holds its default and the failure is recorded. */
  lemma NoRecordKeepsDefaults(reply: MetadataReply, visual: VisualReply, p: Parsers)
    requires !reply.Record?
    ensures var m := Normalize(reply, visual, p);
      && m.metaError == Some(if reply.NoRecords? then NoMetadataFound else SourceFailed(reply.message))
      && m.(blurScore := 0.0, brightness := 0.0, loadError := None, metaError := None) == Initial
  {
  }

  /** The loader's part: an image that loads gives its two statistics and no load error; otherwise both stay 0. */
  lemma VisualPart(reply: MetadataReply, visual: VisualReply, p: Parsers)
    ensures var m := Normalize(reply, visual, p);
      && (m.loadError.None? <==> visual.Loaded?)
      && (visual.Loaded? ==> m.blurScore == visual.sharpness && m.brightness == visual.meanIntensity)
      && (visual.Unreadable? ==> m.loadError == Some(CorruptImage))
      && (!visual.Loaded? ==> m.blurScore == 0.0 && m.brightness == 0.0)
  {
  }
}
