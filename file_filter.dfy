/**
 * Which directory entries the sorter grades: names with an image extension,
 * in any letter case, that are not inside one of its two output directories.
 * Paths follow POSIX `os.path.join`, with the separator as a parameter.
 */
module FileFilter {
  import opened Strings

  /** The accepted extensions, compared against the lower-cased name. */
  const Extensions: seq<string> := [".jpg", ".jpeg", ".png", ".dng", ".tiff"]

  /** `name.lower().endswith(extensions)`. */
  predicate IsImageName(name: string)
  {
    exists e :: e in Extensions && EndsWith(Lower(name), e)
  }

  /** The extension test written out: one of the five suffixes, after lower-casing. */
  lemma ImageNameExtensions(name: string)
    ensures IsImageName(name) <==>
      var l := Lower(name);
      EndsWith(l, ".jpg") || EndsWith(l, ".jpeg") || EndsWith(l, ".png") || EndsWith(l, ".dng") || EndsWith(l, ".tiff")
  {
    if IsImageName(name) {
      var e :| e in Extensions && EndsWith(Lower(name), e);
    }
    assert Extensions[0] == ".jpg" && Extensions[1] == ".jpeg" && Extensions[2] == ".png";
    assert Extensions[3] == ".dng" && Extensions[4] == ".tiff";
  }

  /** Letter case never decides whether a name is an image. */
  lemma ImageNameIgnoresCase(name: string)
    ensures IsImageName(Lower(name)) <==> IsImageName(name)
  {
    LowerIdempotent(name);
  }

  /** Upper-case extensions as the camera writes them are accepted; a sidecar file is not. */
  lemma ImageNameExamples()
    ensures IsImageName("DJI_0001.JPG")
    ensures !IsImageName("DJI_0001.JPG.xmp")
  {
    UpperCaseImageName();
    SidecarNotImageName();
  }

  lemma UpperCaseImageName()
    ensures IsImageName("DJI_0001.JPG")
  {
    var upper := "DJI_0001.JPG";
    assert Lower(upper)[|upper| - 4..] == ".jpg";
    assert EndsWith(Lower(upper), Extensions[0]);
  }

  lemma SidecarNotImageName()
    ensures !IsImageName("DJI_0001.JPG.xmp")
  {
    var sidecar := "DJI_0001.JPG.xmp";
    assert sidecar[|sidecar| - 1] == 'p';
    NotImageByLastChar(sidecar);
  }

  /** Every extension ends in `g` or `f`, so a name whose lower-cased last letter is neither is no image. */
  lemma NotImageByLastChar(name: string)
    requires |name| > 0 && LowerChar(name[|name| - 1]) != 'g' && LowerChar(name[|name| - 1]) != 'f'
    ensures !IsImageName(name)
  {
    var l := Lower(name);
    forall e | e in Extensions ensures !EndsWith(l, e) {
      EndsWithLastChar(l, e);
    }
  }

  /** The directory listing's image files, in listing order. */
  function ImageFiles(names: seq<string>): (files: seq<string>)
    ensures |files| <= |names|
  {
    if names == [] then []
    else if IsImageName(names[0]) then [names[0]] + ImageFiles(names[1..])
    else ImageFiles(names[1..])
  }

  /** The filter keeps exactly the listed image names. */
  lemma {:induction false} ImageFilesMembers(names: seq<string>, f: string)
    ensures f in ImageFiles(names) <==> f in names && IsImageName(f)
  {
    if names != [] {
      ImageFilesMembers(names[1..], f);
      assert names == [names[0]] + names[1..];
    }
  }

  /** Filtering a listing in two parts is filtering each part, in order. */
  lemma {:induction false} ImageFilesAppend(a: seq<string>, b: seq<string>)
    ensures ImageFiles(a + b) == ImageFiles(a) + ImageFiles(b)
  {
    if a == [] {
      assert a + b == b;
    } else {
      ImageFilesAppend(a[1..], b);
      SplitHead(a, b);
      ImageFilesAppendStep(a[0], a[1..], b);
    }
  }

  lemma ImageFilesAppendStep(x: string, rest: seq<string>, b: seq<string>)
    requires ImageFiles(rest + b) == ImageFiles(rest) + ImageFiles(b)
    ensures ImageFiles([x] + (rest + b)) == ImageFiles([x] + rest) + ImageFiles(b)
  {
    ImageFilesCons(x, rest + b);
    ImageFilesCons(x, rest);
    if IsImageName(x) {
      SeqAssociative([x], ImageFiles(rest), ImageFiles(b));
    }
  }

  lemma SplitHead(a: seq<string>, b: seq<string>)
    requires a != []
    ensures a == [a[0]] + a[1..] && a + b == [a[0]] + (a[1..] + b)
  {
  }

  lemma SeqAssociative(p: seq<string>, q: seq<string>, r: seq<string>)
    ensures p + (q + r) == (p + q) + r
  {
  }

  /** One step of the filter: `x`, if it is an image, before the filtered rest. */
  lemma ImageFilesCons(x: string, rest: seq<string>)
    ensures ImageFiles([x] + rest) == (if IsImageName(x) then [x] else []) + ImageFiles(rest)
  {
    var names := [x] + rest;
    assert names[0] == x && names[1..] == rest;
    if !IsImageName(x) {
      assert [] + ImageFiles(rest) == ImageFiles(rest);
    }
  }

  /** Filtering a second time removes nothing more. */
  lemma {:induction false} ImageFilesIdempotent(names: seq<string>)
    ensures ImageFiles(ImageFiles(names)) == ImageFiles(names)
  {
    if names != [] {
      ImageFilesIdempotent(names[1..]);
      if IsImageName(names[0]) {
        var files := ImageFiles(names);
        assert files[0] == names[0] && files[1..] == ImageFiles(names[1..]);
      }
    }
  }

  // ---------------------------------------------------------------------------
  // Paths

  const GoodDirName := "_GOOD_IMAGES"
  const BadDirName := "_BAD_IMAGES"

  /** The directory part of a joined path: `dir` followed by one separator. */
  function DirPrefix(dir: string, sep: char): string
  {
    if dir == [] || EndsWith(dir, [sep]) then dir else dir + [sep]
  }

  /** POSIX `os.path.join(dir, name)`; an absolute `name` replaces `dir`. */
  function PathJoin(dir: string, name: string, sep: char): (path: string)
    ensures StartsWith(name, [sep]) ==> path == name
    ensures !StartsWith(name, [sep]) ==> EndsWith(path, name) && StartsWith(path, dir)
    ensures !StartsWith(name, [sep]) ==> |path| == |dir| + |name| + (if dir == [] || EndsWith(dir, [sep]) then 0 else 1)
    ensures !StartsWith(name, [sep]) && dir != [] && !EndsWith(dir, [sep]) ==> path[|dir|] == sep
  {
    if StartsWith(name, [sep]) then name else DirPrefix(dir, sep) + name
  }

  /** The skip test as written: the joined path starts with an output directory's path. */
  predicate SkippedAsWritten(base: string, name: string, sep: char)
  {
    var path := PathJoin(base, name, sep);
    StartsWith(path, PathJoin(base, GoodDirName, sep)) || StartsWith(path, PathJoin(base, BadDirName, sep))
  }

  /** The test as written skips exactly the names that start with an output directory's name. */
  lemma SkippedAsWrittenByName(base: string, name: string, sep: char)
    requires sep != '_' && !StartsWith(name, [sep])
    ensures SkippedAsWritten(base, name, sep) <==> StartsWith(name, GoodDirName) || StartsWith(name, BadDirName)
  {
    var p := DirPrefix(base, sep);
    StartsWithChar(GoodDirName, sep);
    StartsWithChar(BadDirName, sep);
    StartsWithAfterCommonPrefix(p, name, GoodDirName);
    StartsWithAfterCommonPrefix(p, name, BadDirName);
  }

  /** An image name a person or another tool might give, at the top of the folder: not a `DJI_` camera name. */
  const TopLevelName := "_GOOD_IMAGES_0001.jpg"

  lemma TopLevelNameIsImage()
    ensures IsImageName(TopLevelName)
  {
    var l := Lower(TopLevelName);
    assert l[|l| - 4..] == ".jpg";
    assert EndsWith(l, Extensions[0]);
  }

  lemma TopLevelNameOutsideOutputDirs(base: string)
    ensures !InOutputDir(base, TopLevelName, '/')
  {
    assert '/' !in TopLevelName by {
      forall i | 0 <= i < |TopLevelName| ensures TopLevelName[i] != '/' {
      }
    }
    ListedNamesNeverInOutputDir(base, TopLevelName, '/');
  }

  /** In any folder, an image file at its top, outside both output directories, skipped by the test as written. */
  lemma AsWrittenSkipsTopLevelImage(base: string)
    ensures IsImageName(TopLevelName)
    ensures !InOutputDir(base, TopLevelName, '/')
    ensures SkippedAsWritten(base, TopLevelName, '/')
  {
    TopLevelNameIsImage();
    TopLevelNameOutsideOutputDirs(base);
    TopLevelNameSkippedAsWritten(base);
  }

  lemma TopLevelNameSkippedAsWritten(base: string)
    ensures SkippedAsWritten(base, TopLevelName, '/')
  {
    assert StartsWith(TopLevelName, GoodDirName) by {
      assert TopLevelName[..|GoodDirName|] == GoodDirName;
    }
    StartsWithChar(TopLevelName, '/');
    SkippedAsWrittenByName(base, TopLevelName, '/');
  }

  /** The evident intent: the path lies inside one of the output directories. */
  predicate InOutputDir(base: string, name: string, sep: char)
  {
    var path := PathJoin(base, name, sep);
    StartsWith(path, PathJoin(base, GoodDirName, sep) + [sep]) || StartsWith(path, PathJoin(base, BadDirName, sep) + [sep])
  }

  /** A name from the listing of `base` holds no separator, so it is never inside an output directory. */
  lemma ListedNamesNeverInOutputDir(base: string, name: string, sep: char)
    requires sep != '_' && sep !in name
    ensures !InOutputDir(base, name, sep)
  {
    var p := DirPrefix(base, sep);
    StartsWithChar(name, sep);
    StartsWithChar(GoodDirName, sep);
    StartsWithChar(BadDirName, sep);
    assert p + GoodDirName + [sep] == p + (GoodDirName + [sep]);
    assert p + BadDirName + [sep] == p + (BadDirName + [sep]);
    StartsWithAfterCommonPrefix(p, name, GoodDirName + [sep]);
    StartsWithAfterCommonPrefix(p, name, BadDirName + [sep]);
    if StartsWith(name, GoodDirName + [sep]) {
      StartsWithShowsChar(name, GoodDirName, sep);
    }
    if StartsWith(name, BadDirName + [sep]) {
      StartsWithShowsChar(name, BadDirName, sep);
    }
  }

  /** The intended test only narrows the one as written: whatever it skips, the test as written skips too. */
  lemma InOutputDirSkippedAsWritten(base: string, name: string, sep: char)
    requires InOutputDir(base, name, sep)
    ensures SkippedAsWritten(base, name, sep)
  {
    var path := PathJoin(base, name, sep);
    var good := PathJoin(base, GoodDirName, sep);
    var bad := PathJoin(base, BadDirName, sep);
    if StartsWith(path, good + [sep]) {
      assert path[..|good|] == (good + [sep])[..|good|];
    } else {
      assert path[..|bad|] == (bad + [sep])[..|bad|];
    }
  }

  /**
   * The image files the main loop grades under the corrected skip, in order:
   * outside the output directories and, by `isFile` (`os.path.isfile`), a regular file.
   */
  function Processed(base: string, files: seq<string>, sep: char, isFile: string -> bool): (done: seq<string>)
    ensures |done| <= |files|
    ensures forall f :: f in done <==>
      f in files && !InOutputDir(base, f, sep) && isFile(PathJoin(base, f, sep))
  {
    if files == [] then []
    else
      var f := files[0];
      var rest := Processed(base, files[1..], sep, isFile);
      if !InOutputDir(base, f, sep) && isFile(PathJoin(base, f, sep)) then [f] + rest else rest
  }

  /** Every image in the folder's listing that is a regular file is graded, and nothing else. */
  lemma ListedImagesAllProcessed(base: string, names: seq<string>, sep: char, isFile: string -> bool)
    requires sep != '_'
    requires forall n :: n in names ==> sep !in n
    ensures forall f :: f in Processed(base, ImageFiles(names), sep, isFile) <==>
      f in names && IsImageName(f) && isFile(PathJoin(base, f, sep))
  {
    forall f
      ensures f in ImageFiles(names) <==> f in names && IsImageName(f)
      ensures f in names ==> !InOutputDir(base, f, sep)
    {
      ImageFilesMembers(names, f);
      if f in names {
        ListedNamesNeverInOutputDir(base, f, sep);
      }
    }
  }

  /** The image files the main loop grades with its skip as written, in order. */
  function ProcessedAsWritten(base: string, files: seq<string>, sep: char, isFile: string -> bool): (done: seq<string>)
    ensures |done| <= |files|
    ensures forall f :: f in done <==>
      f in files && !SkippedAsWritten(base, f, sep) && isFile(PathJoin(base, f, sep))
  {
    if files == [] then []
    else
      var f := files[0];
      var rest := ProcessedAsWritten(base, files[1..], sep, isFile);
      if !SkippedAsWritten(base, f, sep) && isFile(PathJoin(base, f, sep)) then [f] + rest else rest
  }

  /**
   * For a folder's listing, the loop as written grades what the corrected loop
   * grades, minus the names starting with an output directory's name.
   */
  lemma AsWrittenDropsOutputDirPrefixes(base: string, names: seq<string>, sep: char, isFile: string -> bool)
    requires sep != '_'
    requires forall n :: n in names ==> sep !in n
    ensures forall f :: f in ProcessedAsWritten(base, ImageFiles(names), sep, isFile) <==>
      f in Processed(base, ImageFiles(names), sep, isFile)
      && !(StartsWith(f, GoodDirName) || StartsWith(f, BadDirName))
  {
    forall f
      ensures f in ImageFiles(names) <==> f in names && IsImageName(f)
      ensures f in names ==> !InOutputDir(base, f, sep)
      ensures f in names ==>
        (SkippedAsWritten(base, f, sep) <==> StartsWith(f, GoodDirName) || StartsWith(f, BadDirName))
    {
      ImageFilesMembers(names, f);
      if f in names {
        ListedNamesNeverInOutputDir(base, f, sep);
        StartsWithChar(f, sep);
        SkippedAsWrittenByName(base, f, sep);
      }
    }
  }
}
