/**
 * The verdict engine: grades one measurement record against the thresholds and
 * returns the accept/reject decision, the failure reasons in evaluation order,
 * and the diagnostic line.
 */
module Verdict {
  import opened Results
  import opened Numbers
  import opened Thresholds
  import opened Measurements

  /** One failed criterion, with the values its message quotes. */
  datatype Reason =
    | LowRes(width: int, height: int)
    | DigitalZoom(zoom: real)
    | HighIso(iso: int)
    | TooClose(distance: real, minimum: real)
    | TooFast(speedSquared: real)
    | Blurry(score: real)
    | TooDark(level: real)
    | Overexposed(level: real)
    | LoadErr(message: string)

  /** The comparison operators `grade` accepts. */
  datatype Operator = Above | Below | AtMost | AtLeast

  /** `grade`: whether a value passes against a threshold under an operator. */
  function Grade(value: real, threshold: real, op: Operator): (passed: bool)
  {
    match op
    case Above => value > threshold
    case Below => value < threshold
    case AtMost => value <= threshold
    case AtLeast => value >= threshold
  }

  /**
   * The speed criterion on the squared speed: `sqrt(speedSquared) <= maxSpeed`
   * holds exactly when the bound is non-negative and the square is within its square.
   */
  predicate SpeedWithin(speedSquared: real, maxSpeed: real)
  {
    0.0 <= maxSpeed && speedSquared <= maxSpeed * maxSpeed
  }

  /** For a speed `s >= 0`, `SpeedWithin(s * s, max)` is the program's `s <= max`. */
  lemma SpeedWithinIsMagnitudeBound(speed: real, maxSpeed: real)
    requires 0.0 <= speed
    ensures SpeedWithin(speed * speed, maxSpeed) <==> Grade(speed, maxSpeed, AtMost)
  {
    if speed <= maxSpeed {
      assert speed * speed <= speed * maxSpeed <= maxSpeed * maxSpeed;
    } else if 0.0 <= maxSpeed {
      assert maxSpeed * maxSpeed <= maxSpeed * speed < speed * speed;
    }
  }

  /** The label the diagnostic line gives the lens; it never gates the verdict. */
  datatype Lens = Wide | Zoom

  datatype Mark = Pass | Fail

  datatype BrightnessMark = BrightnessPass | FailDark | FailBright

  /** The distance column: the measured value with its mark, or the placeholder when no range finder reported. */
  datatype DistanceColumn = Measured(metres: real, mark: Mark) | NoLrf

  /**
   * The diagnostic line. A `Summary` holds every column of the program's
   * `Lens | DigZoom | Dist | Speed | Blur | Bright` line, each value with its mark
   * (the speed as its square); `ErrorLine` is the load-error line, as text.
   */
  datatype LogLine =
    | Summary(
        lens: Lens, focalMm: int,
        digitalZoom: real, zoomMark: Mark,
        distance: DistanceColumn,
        speedSquared: real, speedMark: Mark,
        blurScore: real, blurMark: Mark,
        brightness: real, brightnessMark: BrightnessMark)
    | ErrorLine(text: string)

  const LoadErrorPrefix := "[ERROR] Could not load image: "

  /** Focal lengths above this many 35mm-equivalent millimetres are labelled `Zoom`. */
  const ZoomCutoff := 80.0

  function LensOf(focalLength: real): Lens
  {
    if focalLength > ZoomCutoff then Zoom else Wide
  }

  function MarkOf(passed: bool): Mark
  {
    if passed then Pass else Fail
  }

  // ---------------------------------------------------------------------------
  // The criteria, as a reference definition

  /** The seven criteria, in the order they are evaluated. */
  datatype Criterion = Resolution | ZoomLimit | IsoLimit | DistanceLimit | SpeedLimit | Sharpness | Exposure

  const Criteria: seq<Criterion> := [Resolution, ZoomLimit, IsoLimit, DistanceLimit, SpeedLimit, Sharpness, Exposure]

  function Rank(c: Criterion): nat
  {
    match c
    case Resolution => 0
    case ZoomLimit => 1
    case IsoLimit => 2
    case DistanceLimit => 3
    case SpeedLimit => 4
    case Sharpness => 5
    case Exposure => 6
  }

  /** The criterion a reason reports on. */
  function CriterionOf(r: Reason): Criterion
    requires !r.LoadErr?
  {
    match r
    case LowRes(_, _) => Resolution
    case DigitalZoom(_) => ZoomLimit
    case HighIso(_) => IsoLimit
    case TooClose(_, _) => DistanceLimit
    case TooFast(_) => SpeedLimit
    case Blurry(_) => Sharpness
    case TooDark(_) => Exposure
    case Overexposed(_) => Exposure
  }

  /** Resolution fails when either side is below its minimum. */
  function ResolutionReason(m: Metrics, cfg: Config): Option<Reason>
  {
    if m.width < cfg.minWidth || m.height < cfg.minHeight then Some(LowRes(m.width, m.height)) else None
  }

  /** Digital zoom fails above its maximum. */
  function ZoomReason(m: Metrics, cfg: Config): Option<Reason>
  {
    if m.digitalZoom > cfg.maxDigitalZoom then Some(DigitalZoom(m.digitalZoom)) else None
  }

  /** ISO fails above its maximum. */
  function IsoReason(m: Metrics, cfg: Config): Option<Reason>
  {
    if m.iso > cfg.maxIso then Some(HighIso(m.iso)) else None
  }

  /** Distance fails below its minimum, and only when a distance was read. */
  function DistanceReason(m: Metrics, cfg: Config): Option<Reason>
  {
    if m.hasDistance && m.distance < cfg.minDistance then Some(TooClose(m.distance, cfg.minDistance)) else None
  }

  /** Speed fails above its maximum. */
  function SpeedReason(m: Metrics, cfg: Config): Option<Reason>
  {
    if !SpeedWithin(m.speedSquared, cfg.maxSpeed) then Some(TooFast(m.speedSquared)) else None
  }

  /** Sharpness fails below its minimum. */
  function BlurReason(m: Metrics, cfg: Config): Option<Reason>
  {
    if m.blurScore < cfg.minBlurScore then Some(Blurry(m.blurScore)) else None
  }

  /** Brightness fails as too dark below its minimum, otherwise as overexposed above its maximum. */
  function ExposureReason(m: Metrics, cfg: Config): Option<Reason>
  {
    if m.brightness < cfg.minBrightness then Some(TooDark(m.brightness))
    else if m.brightness > cfg.maxBrightness then Some(Overexposed(m.brightness))
    else None
  }

  /** The reason a criterion fails with, or `None` when it passes or is skipped. */
  function Check(c: Criterion, m: Metrics, cfg: Config): (r: Option<Reason>)
    ensures r.Some? ==> !r.value.LoadErr? && CriterionOf(r.value) == c
  {
    match c
    case Resolution => ResolutionReason(m, cfg)
    case ZoomLimit => ZoomReason(m, cfg)
    case IsoLimit => IsoReason(m, cfg)
    case DistanceLimit => DistanceReason(m, cfg)
    case SpeedLimit => SpeedReason(m, cfg)
    case Sharpness => BlurReason(m, cfg)
    case Exposure => ExposureReason(m, cfg)
  }

  function ReasonsOf(o: Option<Reason>): seq<Reason>
  {
    if o.Some? then [o.value] else []
  }

  /** The reasons of the failing criteria among `cs`, in the order of `cs`. */
  function Collect(cs: seq<Criterion>, m: Metrics, cfg: Config): seq<Reason>
  {
    if cs == [] then [] else ReasonsOf(Check(cs[0], m, cfg)) + Collect(cs[1..], m, cfg)
  }

  /** The reasons of the seven criteria, in evaluation order. */
  function CriteriaReasons(m: Metrics, cfg: Config): seq<Reason>
  {
    ReasonsOf(ResolutionReason(m, cfg)) + ReasonsOf(ZoomReason(m, cfg)) + ReasonsOf(IsoReason(m, cfg))
    + ReasonsOf(DistanceReason(m, cfg)) + ReasonsOf(SpeedReason(m, cfg))
    + ReasonsOf(BlurReason(m, cfg)) + ReasonsOf(ExposureReason(m, cfg))
  }

  /** The reasons the engine reports: the load error alone, or the failing criteria in order. */
  function Reasons(m: Metrics, cfg: Config): seq<Reason>
  {
    if LoadFailed(m) then [LoadErr(m.loadError.value)] else CriteriaReasons(m, cfg)
  }

  /** The mark of a criterion's column: `Fail` exactly when it produced a reason. */
  function MarkFor(reason: Option<Reason>): Mark
  {
    if reason.Some? then Fail else Pass
  }

  function BrightnessMarkFor(reason: Option<Reason>): BrightnessMark
  {
    match reason
    case None => BrightnessPass
    case Some(r) => if r.TooDark? then FailDark else FailBright
  }

  /** The diagnostic line the engine reports, each column's mark taken from its criterion. */
  function Log(m: Metrics, cfg: Config): LogLine
  {
    if LoadFailed(m) then ErrorLine(LoadErrorPrefix + m.loadError.value)
    else
      Summary(
        LensOf(m.focalLength), Truncate(m.focalLength),
        m.digitalZoom, MarkFor(ZoomReason(m, cfg)),
        if m.hasDistance then Measured(m.distance, MarkFor(DistanceReason(m, cfg))) else NoLrf,
        m.speedSquared, MarkFor(SpeedReason(m, cfg)),
        m.blurScore, MarkFor(BlurReason(m, cfg)),
        m.brightness, BrightnessMarkFor(ExposureReason(m, cfg)))
  }

  /** The reasons of the last three criteria, written out. */
  lemma CollectLastThree(m: Metrics, cfg: Config)
    ensures Collect([SpeedLimit, Sharpness, Exposure], m, cfg)
      == ReasonsOf(SpeedReason(m, cfg)) + (ReasonsOf(BlurReason(m, cfg)) + ReasonsOf(ExposureReason(m, cfg)))
  {
    var t4 := [SpeedLimit, Sharpness, Exposure];
    var t5 := [Sharpness, Exposure];
    var t6 := [Exposure];
    assert t4[1..] == t5 && t5[1..] == t6 && t6[1..] == [];
    assert Collect(t6, m, cfg) == ReasonsOf(ExposureReason(m, cfg)) by {
      assert Collect(t6, m, cfg) == ReasonsOf(Check(Exposure, m, cfg)) + [];
    }
    assert Collect(t5, m, cfg) == ReasonsOf(BlurReason(m, cfg)) + Collect(t6, m, cfg);
  }

  /** The reasons of all seven criteria, written out. */
  lemma CollectCriteria(m: Metrics, cfg: Config)
    ensures Collect(Criteria, m, cfg) == CriteriaReasons(m, cfg)
  {
    var t1 := [ZoomLimit, IsoLimit, DistanceLimit, SpeedLimit, Sharpness, Exposure];
    var t2 := [IsoLimit, DistanceLimit, SpeedLimit, Sharpness, Exposure];
    var t3 := [DistanceLimit, SpeedLimit, Sharpness, Exposure];
    var t4 := [SpeedLimit, Sharpness, Exposure];
    assert Criteria[1..] == t1 && t1[1..] == t2 && t2[1..] == t3 && t3[1..] == t4;
    var r1, r2, r3, r4 := ReasonsOf(ResolutionReason(m, cfg)), ReasonsOf(ZoomReason(m, cfg)),
      ReasonsOf(IsoReason(m, cfg)), ReasonsOf(DistanceReason(m, cfg));
    var r5, r6, r7 := ReasonsOf(SpeedReason(m, cfg)), ReasonsOf(BlurReason(m, cfg)), ReasonsOf(ExposureReason(m, cfg));
    CollectLastThree(m, cfg);
    assert Collect(t3, m, cfg) == r4 + Collect(t4, m, cfg);
    assert Collect(t2, m, cfg) == r3 + Collect(t3, m, cfg);
    assert Collect(t1, m, cfg) == r2 + Collect(t2, m, cfg);
    assert Collect(Criteria, m, cfg) == r1 + Collect(t1, m, cfg);
    Reassociate(r1, r2, r3, r4, r5, r6, r7);
  }

  lemma Reassociate<T>(r1: seq<T>, r2: seq<T>, r3: seq<T>, r4: seq<T>, r5: seq<T>, r6: seq<T>, r7: seq<T>)
    ensures r1 + (r2 + (r3 + (r4 + (r5 + (r6 + r7))))) == r1 + r2 + r3 + r4 + r5 + r6 + r7
  {
  }

  // ---------------------------------------------------------------------------
  // The engine

  // Each criterion's step of the engine: a failed comparison appends the
  // criterion's reason and clears the verdict; the step also returns the mark of
  // its column in the diagnostic line.

  method GradeResolution(m: Metrics, cfg: Config, reasons: seq<Reason>, isGood: bool)
    returns (reasons': seq<Reason>, isGood': bool)
    requires isGood <==> reasons == []
    ensures reasons' == reasons + ReasonsOf(ResolutionReason(m, cfg))
    ensures isGood' <==> reasons' == []
  {
    reasons', isGood' := reasons, isGood;
    if m.width < cfg.minWidth || m.height < cfg.minHeight {
      reasons' := reasons' + [LowRes(m.width, m.height)];
      isGood' := false;
    }
  }

  method GradeZoom(m: Metrics, cfg: Config, reasons: seq<Reason>, isGood: bool)
    returns (reasons': seq<Reason>, isGood': bool, mark: Mark)
    requires isGood <==> reasons == []
    ensures reasons' == reasons + ReasonsOf(ZoomReason(m, cfg))
    ensures isGood' <==> reasons' == []
    ensures mark == MarkFor(ZoomReason(m, cfg))
  {
    reasons', isGood' := reasons, isGood;
    var passed := Grade(m.digitalZoom, cfg.maxDigitalZoom, AtMost);
    if !passed {
      reasons' := reasons' + [DigitalZoom(m.digitalZoom)];
      isGood' := false;
    }
    mark := MarkOf(passed);
  }

  method GradeIso(m: Metrics, cfg: Config, reasons: seq<Reason>, isGood: bool)
    returns (reasons': seq<Reason>, isGood': bool)
    requires isGood <==> reasons == []
    ensures reasons' == reasons + ReasonsOf(IsoReason(m, cfg))
    ensures isGood' <==> reasons' == []
  {
    reasons', isGood' := reasons, isGood;
    var passed := Grade(m.iso as real, cfg.maxIso as real, AtMost);
    if !passed {
      reasons' := reasons' + [HighIso(m.iso)];
      isGood' := false;
    }
  }

  /** Grades the distance only when the range finder reported one; otherwise the column is the placeholder. */
  method GradeDistance(m: Metrics, cfg: Config, reasons: seq<Reason>, isGood: bool)
    returns (reasons': seq<Reason>, isGood': bool, column: DistanceColumn)
    requires isGood <==> reasons == []
    ensures reasons' == reasons + ReasonsOf(DistanceReason(m, cfg))
    ensures isGood' <==> reasons' == []
    ensures column == if m.hasDistance then Measured(m.distance, MarkFor(DistanceReason(m, cfg))) else NoLrf
  {
    reasons', isGood' := reasons, isGood;
    if m.hasDistance {
      var passed := Grade(m.distance, cfg.minDistance, AtLeast);
      if !passed {
        reasons' := reasons' + [TooClose(m.distance, cfg.minDistance)];
        isGood' := false;
      }
      column := Measured(m.distance, MarkOf(passed));
    } else {
      column := NoLrf;
    }
  }

  method GradeSpeed(m: Metrics, cfg: Config, reasons: seq<Reason>, isGood: bool)
    returns (reasons': seq<Reason>, isGood': bool, mark: Mark)
    requires isGood <==> reasons == []
    ensures reasons' == reasons + ReasonsOf(SpeedReason(m, cfg))
    ensures isGood' <==> reasons' == []
    ensures mark == MarkFor(SpeedReason(m, cfg))
  {
    reasons', isGood' := reasons, isGood;
    var passed := SpeedWithin(m.speedSquared, cfg.maxSpeed);
    if !passed {
      reasons' := reasons' + [TooFast(m.speedSquared)];
      isGood' := false;
    }
    mark := MarkOf(passed);
  }

  method GradeBlur(m: Metrics, cfg: Config, reasons: seq<Reason>, isGood: bool)
    returns (reasons': seq<Reason>, isGood': bool, mark: Mark)
    requires isGood <==> reasons == []
    ensures reasons' == reasons + ReasonsOf(BlurReason(m, cfg))
    ensures isGood' <==> reasons' == []
    ensures mark == MarkFor(BlurReason(m, cfg))
  {
    reasons', isGood' := reasons, isGood;
    var passed := Grade(m.blurScore, cfg.minBlurScore, AtLeast);
    if !passed {
      reasons' := reasons' + [Blurry(m.blurScore)];
      isGood' := false;
    }
    mark := MarkOf(passed);
  }

  /** Too dark below the minimum, otherwise overexposed above the maximum: one slot, never both. */
  method GradeBrightness(m: Metrics, cfg: Config, reasons: seq<Reason>, isGood: bool)
    returns (reasons': seq<Reason>, isGood': bool, mark: BrightnessMark)
    requires isGood <==> reasons == []
    ensures reasons' == reasons + ReasonsOf(ExposureReason(m, cfg))
    ensures isGood' <==> reasons' == []
    ensures mark == BrightnessMarkFor(ExposureReason(m, cfg))
  {
    reasons', isGood' := reasons, isGood;
    mark := BrightnessPass;
    if m.brightness < cfg.minBrightness {
      reasons' := reasons' + [TooDark(m.brightness)];
      mark := FailDark;
      isGood' := false;
    } else if m.brightness > cfg.maxBrightness {
      reasons' := reasons' + [Overexposed(m.brightness)];
      mark := FailBright;
      isGood' := false;
    }
  }

  /**
   * Grades a record criterion by criterion, accumulating the failures; a load
   * error, checked after the speed, discards them and returns at once with the
   * load error as the only reason.
   */
  method EvaluateImage(m: Metrics, cfg: Config) returns (isGood: bool, log: LogLine, reasons: seq<Reason>)
    ensures isGood <==> reasons == []
    ensures reasons == Reasons(m, cfg)
    ensures log == Log(m, cfg)
  {
    reasons := [];
    isGood := true;
    reasons, isGood := GradeResolution(m, cfg, reasons, isGood);
    assert reasons == ReasonsOf(ResolutionReason(m, cfg));
    // The lens label is descriptive only
    var lens := LensOf(m.focalLength);
    var zoomMark, distance, speedMark;
    reasons, isGood, zoomMark := GradeZoom(m, cfg, reasons, isGood);
    reasons, isGood := GradeIso(m, cfg, reasons, isGood);
    reasons, isGood, distance := GradeDistance(m, cfg, reasons, isGood);
    reasons, isGood, speedMark := GradeSpeed(m, cfg, reasons, isGood);

    // A load error discards everything above
    if LoadFailed(m) {
      return false, ErrorLine(LoadErrorPrefix + m.loadError.value), [LoadErr(m.loadError.value)];
    }

    var blurMark, brightnessMark;
    reasons, isGood, blurMark := GradeBlur(m, cfg, reasons, isGood);
    reasons, isGood, brightnessMark := GradeBrightness(m, cfg, reasons, isGood);
    log := Summary(
      lens, Truncate(m.focalLength),
      m.digitalZoom, zoomMark,
      distance,
      m.speedSquared, speedMark,
      m.blurScore, blurMark,
      m.brightness, brightnessMark);
  }

  // ---------------------------------------------------------------------------
  // Properties of the verdict

  /** A load error alone decides the verdict, whatever the other fields and the thresholds hold. */
  lemma LoadErrorShortCircuits(m: Metrics, cfg: Config, other: Metrics, otherCfg: Config)
    requires LoadFailed(m) && other.loadError == m.loadError
    ensures Reasons(m, cfg) == [LoadErr(m.loadError.value)]
    ensures Log(m, cfg) == ErrorLine(LoadErrorPrefix + m.loadError.value)
    ensures Reasons(other, otherCfg) == Reasons(m, cfg) && Log(other, otherCfg) == Log(m, cfg)
  {
  }

  /** A record is accepted exactly when it did not fail to load and every criterion passes. */
  lemma AcceptedIffAllPass(m: Metrics, cfg: Config)
    ensures Reasons(m, cfg) == [] <==> !LoadFailed(m) && forall c: Criterion :: Check(c, m, cfg).None?
  {
    if !LoadFailed(m) && Reasons(m, cfg) == [] {
      forall c: Criterion ensures Check(c, m, cfg).None? {
        if Check(c, m, cfg).Some? {
          CriterionReasonListed(c, m, cfg);
        }
      }
    }
    if !LoadFailed(m) && Reasons(m, cfg) != [] {
      ReasonsFollowCriteriaOrder(m, cfg);
      assert Check(CriterionOf(Reasons(m, cfg)[0]), m, cfg).Some?;
    }
  }

  /** Each failing criterion's reason is among the reported ones. */
  lemma CriterionReasonListed(c: Criterion, m: Metrics, cfg: Config)
    requires !LoadFailed(m) && Check(c, m, cfg).Some?
    ensures Check(c, m, cfg).value in Reasons(m, cfg)
  {
    var r1, r2, r3, r4 := ReasonsOf(ResolutionReason(m, cfg)), ReasonsOf(ZoomReason(m, cfg)),
      ReasonsOf(IsoReason(m, cfg)), ReasonsOf(DistanceReason(m, cfg));
    var r5, r6, r7 := ReasonsOf(SpeedReason(m, cfg)), ReasonsOf(BlurReason(m, cfg)), ReasonsOf(ExposureReason(m, cfg));
    assert Reasons(m, cfg) == r1 + r2 + r3 + r4 + r5 + r6 + r7;
    assert ReasonsOf(Check(c, m, cfg)) == [Check(c, m, cfg).value];
    match c
    case Resolution => assert r1 <= Reasons(m, cfg);
    case ZoomLimit => assert Reasons(m, cfg)[|r1|] == r2[0];
    case IsoLimit => assert Reasons(m, cfg)[|r1 + r2|] == r3[0];
    case DistanceLimit => assert Reasons(m, cfg)[|r1 + r2 + r3|] == r4[0];
    case SpeedLimit => assert Reasons(m, cfg)[|r1 + r2 + r3 + r4|] == r5[0];
    case Sharpness => assert Reasons(m, cfg)[|r1 + r2 + r3 + r4 + r5|] == r6[0];
    case Exposure => assert Reasons(m, cfg)[|r1 + r2 + r3 + r4 + r5 + r6|] == r7[0];
  }

  /** Ranks strictly increase along `cs`. */
  predicate InOrder(cs: seq<Criterion>)
  {
    forall i, j :: 0 <= i < j < |cs| ==> Rank(cs[i]) < Rank(cs[j])
  }

  /** Ranks of the reasons' criteria strictly increase along `rs`. */
  predicate ReasonsInOrder(rs: seq<Reason>)
  {
    && (forall k :: 0 <= k < |rs| ==> !rs[k].LoadErr?)
    && (forall i, j :: 0 <= i < j < |rs| ==> Rank(CriterionOf(rs[i])) < Rank(CriterionOf(rs[j])))
  }

  /**
   * Collecting over criteria in order gives at most one reason per criterion,
   * each the reason its criterion produced, in the criteria's order.
   */
  lemma {:induction false} CollectInOrder(cs: seq<Criterion>, m: Metrics, cfg: Config)
    requires InOrder(cs)
    ensures var rs := Collect(cs, m, cfg);
      && |rs| <= |cs|
      && ReasonsInOrder(rs)
      && (forall k :: 0 <= k < |rs| ==> CriterionOf(rs[k]) in cs && Check(CriterionOf(rs[k]), m, cfg) == Some(rs[k]))
  {
    if cs != [] {
      InOrderTail(cs);
      CollectInOrder(cs[1..], m, cfg);
      var head := ReasonsOf(Check(cs[0], m, cfg));
      var rest := Collect(cs[1..], m, cfg);
      var rs := head + rest;
      assert Collect(cs, m, cfg) == rs;
      assert forall k :: 0 <= k < |rest| ==> Rank(cs[0]) < Rank(CriterionOf(rest[k]));
      PrependInOrder(Check(cs[0], m, cfg), cs[0], rest);
      PrependChecked(cs, m, cfg, rest);
    }
  }

  /** Each collected reason, the head's included, is the one its criterion in `cs` produced. */
  lemma PrependChecked(cs: seq<Criterion>, m: Metrics, cfg: Config, rest: seq<Reason>)
    requires cs != [] && ReasonsInOrder(rest)
    requires forall k :: 0 <= k < |rest| ==> CriterionOf(rest[k]) in cs[1..] && Check(CriterionOf(rest[k]), m, cfg) == Some(rest[k])
    ensures var rs := ReasonsOf(Check(cs[0], m, cfg)) + rest;
      forall k :: 0 <= k < |rs| ==> !rs[k].LoadErr? && CriterionOf(rs[k]) in cs && Check(CriterionOf(rs[k]), m, cfg) == Some(rs[k])
  {
    var head := ReasonsOf(Check(cs[0], m, cfg));
    var rs := head + rest;
    forall k | 0 <= k < |rs|
      ensures !rs[k].LoadErr? && CriterionOf(rs[k]) in cs && Check(CriterionOf(rs[k]), m, cfg) == Some(rs[k])
    {
      if k < |head| {
        assert rs[k] == Check(cs[0], m, cfg).value;
      } else {
        assert rs[k] == rest[k - |head|];
      }
    }
  }

  /** A reason of a criterion ranked before all of `rest` keeps the order. */
  lemma PrependInOrder(o: Option<Reason>, c: Criterion, rest: seq<Reason>)
    requires o.Some? ==> !o.value.LoadErr? && CriterionOf(o.value) == c
    requires ReasonsInOrder(rest)
    requires forall k :: 0 <= k < |rest| ==> Rank(c) < Rank(CriterionOf(rest[k]))
    ensures ReasonsInOrder(ReasonsOf(o) + rest)
  {
    if o.Some? {
      var rs := [o.value] + rest;
      forall i, j | 0 <= i < j < |rs|
        ensures Rank(CriterionOf(rs[i])) < Rank(CriterionOf(rs[j]))
      {
        assert rs[j] == rest[j - 1];
        if i > 0 {
          assert rs[i] == rest[i - 1];
        }
      }
      forall k | 0 <= k < |rs| ensures !rs[k].LoadErr? {
        if k > 0 {
          assert rs[k] == rest[k - 1];
        }
      }
    }
  }

  /** The criteria after the first are in order, and all rank after it. */
  lemma InOrderTail(cs: seq<Criterion>)
    requires InOrder(cs) && cs != []
    ensures InOrder(cs[1..])
    ensures forall c :: c in cs[1..] ==> Rank(cs[0]) < Rank(c)
  {
    var tail := cs[1..];
    forall i, j | 0 <= i < j < |tail| ensures Rank(tail[i]) < Rank(tail[j]) {
      assert tail[i] == cs[i + 1] && tail[j] == cs[j + 1];
    }
    forall c | c in tail ensures Rank(cs[0]) < Rank(c) {
      var i :| 0 <= i < |tail| && tail[i] == c;
      assert cs[i + 1] == c;
    }
  }

  /** The criteria are listed once each, in rank order. */
  lemma CriteriaInOrder()
    ensures InOrder(Criteria)
    ensures forall c: Criterion :: c in Criteria
  {
    forall c: Criterion ensures c in Criteria {
      assert Criteria[Rank(c)] == c;
    }
  }

  /**
   * Without a load error the reasons follow the criteria's evaluation order, at
   * most one per criterion, so at most seven; each is the reason its criterion produced.
   */
  lemma ReasonsFollowCriteriaOrder(m: Metrics, cfg: Config)
    requires !LoadFailed(m)
    ensures var rs := Reasons(m, cfg);
      && |rs| <= 7
      && ReasonsInOrder(rs)
      && (forall k :: 0 <= k < |rs| ==> Check(CriterionOf(rs[k]), m, cfg) == Some(rs[k]))
  {
    CriteriaInOrder();
    CollectInOrder(Criteria, m, cfg);
    CollectCriteria(m, cfg);
  }

  /** A reason is reported exactly when its criterion produces it. */
  lemma ReasonsAreTheFailures(m: Metrics, cfg: Config, r: Reason)
    requires !LoadFailed(m)
    ensures r in Reasons(m, cfg) <==> !r.LoadErr? && Check(CriterionOf(r), m, cfg) == Some(r)
  {
    ReasonsFollowCriteriaOrder(m, cfg);
    if !r.LoadErr? && Check(CriterionOf(r), m, cfg) == Some(r) {
      CriterionReasonListed(CriterionOf(r), m, cfg);
    }
  }

  /** Too dark and overexposed share the brightness slot: never both in one verdict. */
  lemma DarkAndOverexposedExclusive(m: Metrics, cfg: Config)
    ensures !((exists i :: 0 <= i < |Reasons(m, cfg)| && Reasons(m, cfg)[i].TooDark?)
              && (exists j :: 0 <= j < |Reasons(m, cfg)| && Reasons(m, cfg)[j].Overexposed?))
  {
    if !LoadFailed(m) {
      ReasonsFollowCriteriaOrder(m, cfg);
      var rs := Reasons(m, cfg);
      // Both would come from the exposure criterion, whose rank appears at most once.
      forall i, j | 0 <= i < |rs| && 0 <= j < |rs| && rs[i].TooDark? ensures !rs[j].Overexposed? {
        if i < j {
          assert Rank(CriterionOf(rs[i])) < Rank(CriterionOf(rs[j]));
        } else if j < i {
          assert Rank(CriterionOf(rs[j])) < Rank(CriterionOf(rs[i]));
        }
      }
    }
  }

  /** "Too Dark" exactly below the minimum; "Overexposed" exactly above the maximum and not too dark. */
  lemma ExposureReasons(m: Metrics, cfg: Config)
    requires !LoadFailed(m)
    ensures TooDark(m.brightness) in Reasons(m, cfg) <==> m.brightness < cfg.minBrightness
    ensures Overexposed(m.brightness) in Reasons(m, cfg) <==>
      cfg.minBrightness <= m.brightness && m.brightness > cfg.maxBrightness
  {
    ReasonsAreTheFailures(m, cfg, TooDark(m.brightness));
    ReasonsAreTheFailures(m, cfg, Overexposed(m.brightness));
  }

  /**
   * Without a range-finder reading the distance is never compared: no "Too Close"
   * reason, the placeholder column, and the same verdict for any distance value.
   */
  lemma NoRangeFinderSkipsDistance(m: Metrics, cfg: Config, d: real)
    requires !m.hasDistance
    ensures forall k :: 0 <= k < |Reasons(m, cfg)| ==> !Reasons(m, cfg)[k].TooClose?
    ensures !LoadFailed(m) ==> Log(m, cfg).distance == NoLrf
    ensures Reasons(m.(distance := d), cfg) == Reasons(m, cfg)
    ensures Log(m.(distance := d), cfg) == Log(m, cfg)
  {
    NoRangeFinderNoTooClose(m, cfg);
    DistanceIgnoredWithoutRangeFinder(m, cfg, d);
  }

  lemma NoRangeFinderNoTooClose(m: Metrics, cfg: Config)
    requires !m.hasDistance
    ensures forall k :: 0 <= k < |Reasons(m, cfg)| ==> !Reasons(m, cfg)[k].TooClose?
  {
    if !LoadFailed(m) {
      ReasonsFollowCriteriaOrder(m, cfg);
    }
  }

  lemma DistanceIgnoredWithoutRangeFinder(m: Metrics, cfg: Config, d: real)
    requires !m.hasDistance
    ensures Reasons(m.(distance := d), cfg) == Reasons(m, cfg)
    ensures Log(m.(distance := d), cfg) == Log(m, cfg)
  {
    assert DistanceReason(m.(distance := d), cfg) == DistanceReason(m, cfg);
  }

  /** The focal length, gimbal pitch and metadata error never change which reasons are reported. */
  lemma InformationalFieldsDoNotGate(m: Metrics, cfg: Config, focal: real, pitch: real, error: Option<MetaError>)
    ensures Reasons(m.(focalLength := focal, gimbalPitch := pitch, metaError := error), cfg) == Reasons(m, cfg)
    ensures Log(m.(gimbalPitch := pitch, metaError := error), cfg) == Log(m, cfg)
  {
  }

  /** The line's marks agree with the reasons: a column shows a failure exactly when its reason is reported. */
  lemma MarksAgreeWithReasons(m: Metrics, cfg: Config)
    requires !LoadFailed(m)
    ensures var log, rs := Log(m, cfg), Reasons(m, cfg);
      && (log.zoomMark == Fail <==> DigitalZoom(m.digitalZoom) in rs)
      && (m.hasDistance ==> (log.distance.mark == Fail <==> TooClose(m.distance, cfg.minDistance) in rs))
      && (log.speedMark == Fail <==> TooFast(m.speedSquared) in rs)
      && (log.blurMark == Fail <==> Blurry(m.blurScore) in rs)
  {
    var log, rs := Log(m, cfg), Reasons(m, cfg);
    assert log.zoomMark == Fail <==> DigitalZoom(m.digitalZoom) in rs by {
      ReasonReportedIff(ZoomLimit, m, cfg, DigitalZoom(m.digitalZoom));
    }
    assert m.hasDistance ==> (log.distance.mark == Fail <==> TooClose(m.distance, cfg.minDistance) in rs) by {
      ReasonReportedIff(DistanceLimit, m, cfg, TooClose(m.distance, cfg.minDistance));
    }
    assert log.speedMark == Fail <==> TooFast(m.speedSquared) in rs by {
      ReasonReportedIff(SpeedLimit, m, cfg, TooFast(m.speedSquared));
    }
    assert log.blurMark == Fail <==> Blurry(m.blurScore) in rs by {
      ReasonReportedIff(Sharpness, m, cfg, Blurry(m.blurScore));
    }
  }

  /** A criterion that can only fail with `r` fails exactly when `r` is reported. */
  lemma ReasonReportedIff(c: Criterion, m: Metrics, cfg: Config, r: Reason)
    requires !LoadFailed(m) && !r.LoadErr? && CriterionOf(r) == c
    requires Check(c, m, cfg).Some? ==> Check(c, m, cfg).value == r
    ensures r in Reasons(m, cfg) <==> Check(c, m, cfg).Some?
  {
    ReasonsAreTheFailures(m, cfg, r);
  }

  /** The brightness column names the reported exposure failure, if any. */
  lemma BrightnessMarkAgreesWithReasons(m: Metrics, cfg: Config)
    requires !LoadFailed(m)
    ensures var log, rs := Log(m, cfg), Reasons(m, cfg);
      && (log.brightnessMark == FailDark <==> TooDark(m.brightness) in rs)
      && (log.brightnessMark == FailBright <==> Overexposed(m.brightness) in rs)
  {
    ExposureReasons(m, cfg);
  }

  /**
   * Each criterion's reference reason is `grade`'s failure: the criterion fails
   * exactly when its `grade` call with the program's operator does not pass;
   * for the speed, `speed` is the magnitude whose square the record holds.
   */
  lemma ReasonsAreGradeFailures(m: Metrics, cfg: Config, speed: real)
    ensures ZoomReason(m, cfg).Some? <==> !Grade(m.digitalZoom, cfg.maxDigitalZoom, AtMost)
    ensures IsoReason(m, cfg).Some? <==> !Grade(m.iso as real, cfg.maxIso as real, AtMost)
    ensures DistanceReason(m, cfg).Some? <==> m.hasDistance && !Grade(m.distance, cfg.minDistance, AtLeast)
    ensures BlurReason(m, cfg).Some? <==> !Grade(m.blurScore, cfg.minBlurScore, AtLeast)
    ensures 0.0 <= speed && speed * speed == m.speedSquared ==>
      (SpeedReason(m, cfg).Some? <==> !Grade(speed, cfg.maxSpeed, AtMost))
  {
    if 0.0 <= speed && speed * speed == m.speedSquared {
      SpeedWithinIsMagnitudeBound(speed, cfg.maxSpeed);
    }
  }

  /** A lower speed bound admits fewer squared speeds. */
  lemma SpeedWithinMonotone(speedSquared: real, maxSpeed: real, stricter: real)
    requires stricter <= maxSpeed
    requires SpeedWithin(speedSquared, stricter)
    ensures SpeedWithin(speedSquared, maxSpeed)
  {
    assert stricter * stricter <= stricter * maxSpeed <= maxSpeed * maxSpeed;
  }

  /** Under stricter thresholds a failing criterion still fails (its reason may move from overexposed to too dark). */
  lemma CheckMonotone(c: Criterion, m: Metrics, cfg: Config, strict: Config)
    requires Stricter(cfg, strict)
    requires Check(c, m, cfg).Some?
    ensures Check(c, m, strict).Some?
  {
    if c == SpeedLimit && Check(c, m, strict).None? {
      SpeedWithinMonotone(m.speedSquared, cfg.maxSpeed, strict.maxSpeed);
    }
  }

  /** Under stricter thresholds no reason is lost: there are at least as many, and a rejected record stays rejected. */
  lemma RejectionMonotone(m: Metrics, cfg: Config, strict: Config)
    requires Stricter(cfg, strict)
    ensures |Reasons(m, cfg)| <= |Reasons(m, strict)|
    ensures Reasons(m, cfg) != [] ==> Reasons(m, strict) != []
  {
    if !LoadFailed(m) {
      forall c: Criterion ensures |ReasonsOf(Check(c, m, cfg))| <= |ReasonsOf(Check(c, m, strict))| {
        if Check(c, m, cfg).Some? {
          CheckMonotone(c, m, cfg, strict);
        }
      }
      assert |ReasonsOf(Check(Resolution, m, cfg))| <= |ReasonsOf(Check(Resolution, m, strict))|;
      assert |ReasonsOf(Check(ZoomLimit, m, cfg))| <= |ReasonsOf(Check(ZoomLimit, m, strict))|;
      assert |ReasonsOf(Check(IsoLimit, m, cfg))| <= |ReasonsOf(Check(IsoLimit, m, strict))|;
      assert |ReasonsOf(Check(DistanceLimit, m, cfg))| <= |ReasonsOf(Check(DistanceLimit, m, strict))|;
      assert |ReasonsOf(Check(SpeedLimit, m, cfg))| <= |ReasonsOf(Check(SpeedLimit, m, strict))|;
      assert |ReasonsOf(Check(Sharpness, m, cfg))| <= |ReasonsOf(Check(Sharpness, m, strict))|;
      assert |ReasonsOf(Check(Exposure, m, cfg))| <= |ReasonsOf(Check(Exposure, m, strict))|;
    }
  }

  // ---------------------------------------------------------------------------
  // Worked cases under the shipped thresholds

  /** A sharp, well-exposed frame taken from 50 m at 1.2 m/s. */
  const Sample: Metrics := Initial.(
    width := 4000, height := 3000, digitalZoom := 1.0, iso := 400, hasDistance := true,
    distance := 50.0, speedSquared := 1.44, blurScore := 300.0, brightness := 120.0)

  lemma SampleScenarios()
    ensures Reasons(Sample, Defaults) == []
    ensures Reasons(Sample.(digitalZoom := 2.5), Defaults) == [DigitalZoom(2.5)]
    ensures Reasons(Sample.(iso := 2000), Defaults) == [HighIso(2000)]
    ensures Reasons(Sample.(brightness := 10.0), Defaults) == [TooDark(10.0)]
    ensures Reasons(Sample.(brightness := 250.0), Defaults) == [Overexposed(250.0)]
    ensures Reasons(Sample.(loadError := Some(CorruptImage)), Defaults) == [LoadErr(CorruptImage)]
  {
  }
}
