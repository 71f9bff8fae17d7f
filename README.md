# DJI image sorter: verified model of the grading core

`sort_images.py` sorts drone photographs into `_GOOD_IMAGES` and `_BAD_IMAGES`.
For each image file in its folder it does three things:

1. It reads a metadata record through ExifTool and normalises it into a metrics record.
2. It adds two image statistics from OpenCV: sharpness, as the Laplacian variance, and mean brightness.
3. It grades the record against nine thresholds. The result is an accept/reject flag, the list of failure reasons, and a one-line diagnostic.

This project models the three pieces of logic in that pipeline, and proves what each promises.

- **Verdict engine** (`verdict.dfy`, module `Verdict`).
  - `EvaluateImage` is an imperative method. Like `evaluate_image`, it runs the seven criteria in order: resolution, digital zoom, ISO, distance (only when a range-finder reading exists), speed, sharpness and brightness.
    - Each failed comparison appends a reason and clears the flag.
    - A load error is checked after the speed. When there is one, the method returns at once with that error as the only reason.
  - `EvaluateImage` is proved against reference functions:
    - `Reasons` and `Log`;
    - one function per criterion, such as `ZoomReason`;
    - `Check` and `Collect`, which phrase the same criteria over a list of `Criterion` values.
  - `Grade` is the nested `grade` helper.
  - Reasons are a datatype rather than message text.
  - The diagnostic line is a structured `LogLine`. It has the lens label, the focal length truncated as `int()` does, and each column's value with its mark. Resolution and ISO have no column in the program's line either.
- **Thresholds** (`thresholds.dfy`).
  - The nine constants are an explicit `Config`, with `Defaults` holding the program's values.
  - `Stricter` says that one configuration tightens another.
- **Metadata normalisation** (`extractor.dfy`, module `Extractor`).
  - `GetImageMetrics` and `ReadTags` are imperative methods. They fill the record field by field, stopping at the first conversion that raises.
    - They record the error; the fields not yet assigned keep their defaults.
    - A failure while parsing the speed is swallowed.
  - They are proved equal to the reference functions `Normalize` and `MetadataFields`.
  - Raw tag values are `Value`s: an integer, a float or a text.
  - The text-to-number conversions of `float()` and `int()` are a `Parsers` parameter of two partial functions.
  - The speed is kept as its squared magnitude. The speed test compares squares, and `Verdict.SpeedWithinIsMagnitudeBound` ties that back to `sqrt(...) <= MAX_SPEED`.
- **File selection** (`file_filter.dfy`, module `FileFilter`).
  - It covers the extension test on lower-cased names and the listing filter.
  - It covers `os.path.join` (POSIX form, with the separator as a parameter) and the output-directory skip, both as written and as evidently intended (see Findings).
- **Support modules**:
  - `results.dfy` holds `Option` and `Result`.
  - `numbers.dfy` holds `int()` truncation toward zero on floats.
  - `strings.dfy` holds ASCII `lower`, `startswith`, `endswith`, `split` and `join`.
  - `measurements.dfy` holds the metrics record and its defaults.

## Model

| member | source | states |
|---|---|---|
| Verdict.EvaluateImage | sort_images.py:130-223 | the flag is true exactly when no reason was recorded; the reasons are `Reasons(m, cfg)`, and the log line is `Log(m, cfg)` |
| Verdict.LensOf | sort_images.py:157-159 | the lens label, `Zoom` above 80 and `Wide` otherwise; `EvaluateImage` and `Log` put it in the log line only, and `InformationalFieldsDoNotGate` shows it never decides the verdict |
| Verdict.GradeResolution | sort_images.py:149-153 | appends `LowRes(w, h)` exactly when the width or height is below its minimum; the flag is cleared exactly when some reason exists |
| Verdict.GradeZoom | sort_images.py:161-165 | appends `DigitalZoom` exactly when `grade(zoom, MAX_DIGITAL_ZOOM, "<=")` fails; returns the column's mark |
| Verdict.GradeIso | sort_images.py:167-171 | appends `HighIso` exactly when the ISO exceeds its maximum |
| Verdict.GradeDistance | sort_images.py:173-181 | grades the distance only when `has_distance` holds; otherwise it gives the no-LRF column and adds no reason |
| Verdict.GradeSpeed | sort_images.py:183-187 | appends `TooFast` exactly when the speed magnitude exceeds its maximum, compared on squares |
| Verdict.GradeBlur | sort_images.py:193-197 | appends `Blurry` exactly when the sharpness score is below its minimum |
| Verdict.GradeBrightness | sort_images.py:199-210 | appends `TooDark` below the minimum, otherwise `Overexposed` above the maximum, and at most one of them; the mark names which |
| Verdict.Grade | sort_images.py:139-147 | the helper `grade` with its four comparison operators; `ReasonsAreGradeFailures` ties each criterion's reason to the failing call |
| Verdict.ReasonsAreGradeFailures | sort_images.py:139-197 | the zoom, ISO, distance (when read) and blur criteria fail exactly when their `grade` call with `<=` or `>=` does not pass; the speed criterion fails exactly when `grade(speed, MAX_SPEED, "<=")` does not pass for the non-negative magnitude |
| Verdict.SpeedWithinIsMagnitudeBound | sort_images.py:98 | for a non-negative speed, the squared test holds exactly when `speed <= max` |
| Verdict.Check | sort_images.py:149-210 | a criterion's reason, when it has one, is not a load error and reports on that criterion |
| Verdict.CollectCriteria | sort_images.py:149-210 | collecting over the criteria list gives the seven per-criterion reasons in evaluation order |
| Verdict.CollectLastThree | sort_images.py:183-210 | the same for the speed, blur and brightness criteria |
| Verdict.CollectInOrder | sort_images.py:149-210 | over criteria in rank order, there is at most one reason per criterion, in rank order, each the one its criterion produced |
| Verdict.PrependInOrder | sort_images.py:149-210 | a reason from a criterion ranked before all the others keeps the order |
| Verdict.InOrderTail | sort_images.py:149-210 | the tail of an ordered criteria list is ordered and ranks after the head |
| Verdict.CriteriaInOrder | sort_images.py:149-210 | the seven criteria appear once each, in rank order |
| Verdict.ReasonsFollowCriteriaOrder | sort_images.py:149-210 | without a load error there are at most 7 reasons, in evaluation order, each the one its criterion produced |
| Verdict.CriterionReasonListed | sort_images.py:149-210 | every failing criterion's reason is reported |
| Verdict.ReasonsAreTheFailures | sort_images.py:149-210 | without a load error, a reason is reported exactly when its criterion produces it |
| Verdict.AcceptedIffAllPass | sort_images.py:135-223 | no reasons exactly when there is no load error and every criterion passes |
| Verdict.LoadErrorShortCircuits | sort_images.py:190-191 | a load error gives `[LoadErr(err)]` and the `[ERROR] Could not load image: ` line, whatever the other fields and thresholds hold |
| Verdict.DarkAndOverexposedExclusive | sort_images.py:202-209 | a verdict never holds both a too-dark and an overexposed reason |
| Verdict.ExposureReasons | sort_images.py:202-209 | too dark exactly below the minimum; overexposed exactly above the maximum and not below the minimum |
| Verdict.NoRangeFinderSkipsDistance | sort_images.py:174-181 | without a range-finder reading there is no `TooClose` reason and the column is no-LRF; the 9999.0 default never affects reasons or log |
| Verdict.InformationalFieldsDoNotGate | sort_images.py:130-223 | focal length, gimbal pitch and metadata error never change the reasons, and pitch and metadata error never change the log |
| Verdict.MarksAgreeWithReasons | sort_images.py:162-197 | the zoom, distance, speed and blur columns show a failure exactly when their reason is reported |
| Verdict.ReasonReportedIff | sort_images.py:149-210 | a criterion that can only fail with one reason fails exactly when that reason is reported |
| Verdict.BrightnessMarkAgreesWithReasons | sort_images.py:199-210 | the brightness column shows dark or bright exactly when that reason is reported |
| Verdict.SpeedWithinMonotone | sort_images.py:184 | a lower speed bound admits no more squared speeds |
| Verdict.CheckMonotone | sort_images.py:151-209 | under stricter thresholds a failing criterion still fails |
| Verdict.RejectionMonotone | sort_images.py:151-209 | under stricter thresholds there are at least as many reasons, and a rejected record stays rejected |
| Verdict.SampleScenarios | sort_images.py:11-19 | with the shipped thresholds, a sharp 4000x3000 frame at 50 m and 1.2 m/s is accepted; zoom 2.5, ISO 2000, brightness 10, brightness 250 and a corrupt image each give exactly their one reason |
| Extractor.GetImageMetrics | sort_images.py:47-128 | the record built equals `Normalize(reply, visual, p)`: the metadata part first, whatever happens there, then the loader's part |
| Extractor.ReadTags | sort_images.py:63-103 | the fields read from one record equal `MetadataFields`, stopping at the first conversion that raises |
| Extractor.ReadSpeed | sort_images.py:91-100 | the squared speed is `SpeedSquared(tags, p)`, with any parse failure giving 0 |
| Extractor.FloatOf | sort_images.py:77 | `float()` fails only on text that does not parse, with that text in the error; parsable text gives the parsed number, and numbers convert exactly |
| Extractor.IntOf | sort_images.py:78 | `int()` fails only on unparsable text; parsable text gives the parsed integer, integers are kept, and floats truncate toward zero: a non-negative float gives the largest integer not above it, a negative one the smallest integer not below it |
| Extractor.ParseAll | sort_images.py:95 | all parts convert, giving one value per part, or the result is none |
| Extractor.PixelsKeepsResolutionCheck | sort_images.py:151 | flooring a float resolution keeps its comparison with an integer minimum |
| Extractor.FirstErrorIsStoppingStep | sort_images.py:63-109 | the recorded error is that of the step at which reading stopped, and none when every step completed |
| Extractor.ResolutionFallback | sort_images.py:69-74 | each dimension uses the generic tag exactly when the EXIF tag is 0 or absent |
| Extractor.FocalLengthFallback | sort_images.py:82 | the focal length is the composite value unless that is falsy or absent, in which case it is the EXIF 35mm value |
| Extractor.HasDistanceExactly | sort_images.py:86-89 | a distance is recorded exactly when the tag is present, converts and is reached; otherwise the distance stays 9999.0 |
| Extractor.SpeedNonNegative | sort_images.py:98 | the squared speed is never negative |
| Extractor.SpeedZeroUnlessParsed | sort_images.py:92-100 | a non-zero speed needs non-empty text, no earlier error, at least three parts, and every part converting |
| Extractor.SpeedNeedsTwoCommas | sort_images.py:95-96 | a speed text with fewer than two commas leaves the speed 0 |
| Extractor.SpeedFromComponents | sort_images.py:95-98 | when every part converts, the squared speed is the sum of the squares of the first three parts |
| Extractor.SpeedSquaredOfParts | sort_images.py:95-98 | the squared speed of a speed text whose parts all convert is the sum of the squares of its first three parts |
| Extractor.RaiseKeepsLaterDefaults | sort_images.py:108-109 | a raising conversion records its error, and its field and every later one keep their defaults (the speed too when the distance raises) |
| Extractor.NoErrorMeansAllRead | sort_images.py:63-109 | no metadata error exactly when a record came back and every conversion succeeded |
| Extractor.NoRecordKeepsDefaults | sort_images.py:105-109 | without a record, every metadata field keeps its default and the failure is recorded |
| Extractor.VisualPart | sort_images.py:112-126 | no load error exactly when the image loaded; its two statistics are then taken, and otherwise both stay 0 |
| Strings.LowerChar | sort_images.py:241 | lower-casing leaves no upper-case ASCII letter and moves only upper-case letters |
| Strings.Lower | sort_images.py:241 | lower-casing keeps the length and works character by character |
| Strings.LowerIdempotent | sort_images.py:241 | lower-casing twice changes nothing more |
| Strings.Split | sort_images.py:95 | `split` gives one more piece than there are separators, and no piece holds the separator |
| Strings.JoinSplit | sort_images.py:95 | joining the pieces of a split gives the string back |
| Strings.JoinSplitStep | sort_images.py:95 | one induction step of the round trip: the first character comes back in front |
| Strings.JoinSplitAtSeparator | sort_images.py:95 | a leading separator splits off an empty first piece that joining restores |
| Strings.SplitWithoutSeparator | sort_images.py:95 | a string without the separator splits into itself |
| FileFilter.ImageNameExtensions | sort_images.py:240-241 | a name is selected exactly when its lower-cased form ends with `.jpg`, `.jpeg`, `.png`, `.dng` or `.tiff` |
| FileFilter.ImageNameIgnoresCase | sort_images.py:241 | letter case never decides whether a name is selected |
| FileFilter.ImageNameExamples | sort_images.py:241 | `DJI_0001.JPG` is selected; `DJI_0001.JPG.xmp` is not |
| FileFilter.NotImageByLastChar | sort_images.py:241 | a name whose lower-cased last letter is neither `g` nor `f` is never an image, since every accepted extension ends in one of them |
| FileFilter.ImageFiles | sort_images.py:241 | the filtered listing is no longer than the listing |
| FileFilter.ImageFilesMembers | sort_images.py:241 | the filtered listing holds exactly the listed names that are images |
| FileFilter.ImageFilesAppend | sort_images.py:241 | filtering a concatenated listing filters each part, keeping order |
| FileFilter.ImageFilesIdempotent | sort_images.py:241 | filtering twice removes nothing more |
| FileFilter.PathJoin | sort_images.py:326 | an absolute name replaces the directory; otherwise the path is the directory, then exactly one separator unless the directory is empty or already ends with one, then the name |
| FileFilter.SkippedAsWrittenByName | sort_images.py:329 | the skip as written fires exactly for names starting with `_GOOD_IMAGES` or `_BAD_IMAGES` |
| FileFilter.TopLevelNameIsImage | sort_images.py:241 | `_GOOD_IMAGES_0001.jpg` is selected as an image |
| FileFilter.TopLevelNameOutsideOutputDirs | sort_images.py:329 | in any folder, `_GOOD_IMAGES_0001.jpg` at its top is inside neither output directory |
| FileFilter.AsWrittenSkipsTopLevelImage | sort_images.py:329 | in any folder, that top-level image is selected, lies outside both output directories, and is skipped by the test as written |
| FileFilter.ListedNamesNeverInOutputDir | sort_images.py:329 | a listed name has no separator, so it is never inside an output directory |
| FileFilter.InOutputDirSkippedAsWritten | sort_images.py:329 | whatever the intended test skips, the test as written skips as well |
| FileFilter.Processed | sort_images.py:325-333 | with the corrected skip, the graded files are exactly the selected names outside the output directories that `isfile` accepts |
| FileFilter.ProcessedAsWritten | sort_images.py:325-333 | with the skip as written, the graded files are exactly the selected names the `startswith` test lets through that `isfile` accepts |
| FileFilter.AsWrittenDropsOutputDirPrefixes | sort_images.py:240-333 | for a folder's listing, the loop as written grades what the corrected loop grades, minus the names starting with `_GOOD_IMAGES` or `_BAD_IMAGES` |
| FileFilter.ListedImagesAllProcessed | sort_images.py:240-333 | under the intended skip, every listed image that is a regular file is graded, and nothing else is |
| Numbers.TruncateTowardZero | sort_images.py:215 | `int()` on a float lies within 1 of it, toward zero |

## Left out

- OpenCV decoding, Laplacian variance and mean: floating-point numerics in a foreign library. The sharpness, the brightness and load success or failure are inputs (`VisualReply`).
- The ExifTool process: starting it, locating the bundled executable, `PERL5LIB`, and the PyInstaller path helpers. These are foreign processes and environment I/O. The metadata record is an input (`MetadataReply`).
- File moves, directory creation, `logging`, `print`, `input`, and the audit line, which is written before each move, so a file whose move fails is still logged as ACCEPTED or REJECTED. These are I/O.
- The text-to-number parsing inside `float()` and `int()`: it is the `Parsers` parameter, a partial function per conversion.
- `math.sqrt`: the speed is kept squared and the tests compare squares.
- Python's NaN and infinities: `real` has no such values. A NaN speed or brightness, which Python would grade in its own way, is not represented.
- Extractor.SpeedSquared: reals are unbounded, so it squares every component. In the program `x**2` on a component above about 1.34e154 raises `OverflowError`, which the bare `except` swallows, and the speed stays 0.
- Extractor.FloatOf: it returns every integer tag exactly. In the program `float()` of an integer beyond the double range raises and sets `meta_error`; rounding of float arithmetic is not modelled either.
- Exception messages: `str(e)` is replaced by the `MetaError` constructors, which carry the offending text.
- Extractor.Pixels: a text-valued width or height is read as 0, so the model rejects that one file with a `LowRes` reason. In Python the text is kept, and the `or` at sort_images.py:151 stops at its first true operand. When the width is text, or the width is a number at or above its minimum and the height is text, the comparison raises a `TypeError`. The outer handler catches it and the loop ends, so none of the remaining files is graded. When the width is a number below its minimum, Python also rejects just that file with Low Resolution, and its reason quotes the text where the model quotes 0.
- Extractor.Pixels: a float resolution is floored. `PixelsKeepsResolutionCheck` shows this keeps the verdict. The `LowRes` reason then quotes the floored integers.
- JSON `null`, booleans and lists as tag values: tag values are integers, floats or text only.
- `os.path.isfile`: it is the `isFile` parameter of `FileFilter.Processed` and `FileFilter.ProcessedAsWritten`.
- `os.listdir`: it is the `names` input. Its order is kept but not specified.
- Strings.Lower: lower-cases ASCII letters only, where Python's `str.lower` covers all of Unicode.
- FileFilter.PathJoin: POSIX joining only; Windows drive letters and mixed separators are not modelled.
- Fixed-precision formatting (`:.2f`, `:.1f`) and the text of the log line: it is the structured `LogLine`. `iso_str` is computed by the program but appears nowhere, and it appears nowhere here either.
- The main loop's `for` over the files: `FileFilter.ProcessedAsWritten` describes which files it grades as written, `FileFilter.Processed` the same with the corrected skip, and `Verdict.EvaluateImage` describes each grading.

## Findings

| source | as written | input that shows it | evidently intended | confidence | as-written member | corrected member |
|---|---|---|---|---|---|---|
| sort_images.py:329 | `filepath.startswith(good_dir)` skips every path that starts with the output directory's path. There is no separator after it, and `os.listdir` lists only the top folder, so no listed file is ever inside an output directory. | an image named `_GOOD_IMAGES_0001.jpg` in the folder being sorted is silently never graded; `FileFilter.AsWrittenDropsOutputDirPrefixes` shows these names are exactly what the loop as written loses | skip only paths inside `_GOOD_IMAGES/` or `_BAD_IMAGES/`, which no top-level name is: grade every listed image | medium; not executed | FileFilter.AsWrittenSkipsTopLevelImage | FileFilter.ListedImagesAllProcessed |
