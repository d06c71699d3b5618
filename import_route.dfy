/**
 * Which importer a file path goes to: `os.path.splitext` and `os.path.basename` on
 * '/'-separated paths, lower-cased, then the `.mat` / `t-cal.mat` / `.txt` dispatch.
 */
module ImportRoute {
  import opened Text

  datatype ImportKind = MatFile | CalibrationSkipped | TextFile | InvalidFormat

  /** `os.path.basename`: what follows the last '/'. */
  function Basename(path: string): (b: string)
    ensures '/' !in b
  {
    path[RFind(path, '/') + 1..]
  }

  predicate AllDots(s: string) {
    forall i :: 0 <= i < |s| ==> s[i] == '.'
  }

  /**
   * `os.path.splitext`: the extension runs from the last '.' of the last path component,
   * provided that component has a character other than '.' before it.
   */
  function SplitExt(path: string): (string, string) {
    var sepIndex := RFind(path, '/');
    var dotIndex := RFind(path, '.');
    if dotIndex > sepIndex && !AllDots(path[sepIndex + 1..dotIndex]) then
      (path[..dotIndex], path[dotIndex..])
    else
      (path, "")
  }

  /** The dispatch of `importFile`, before `cleanData` runs. */
  function Route(filepath: string): ImportKind {
    var ext := Lower(SplitExt(filepath).1);
    if ext == ".mat" then
      if Lower(Basename(filepath)) != "t-cal.mat" then MatFile else CalibrationSkipped
    else if ext == ".txt" then TextFile
    else InvalidFormat
  }

  /** An extension, when there is one, is a '.' followed by neither '.' nor '/'. */
  lemma ExtensionShape(path: string)
    ensures SplitExt(path).0 + SplitExt(path).1 == path
    ensures var ext := SplitExt(path).1;
      ext == [] || (ext[0] == '.' && '.' !in ext[1..] && '/' !in ext)
  {
    var ext := SplitExt(path).1;
    if ext != [] {
      var dotIndex := RFind(path, '.');
      assert ext == path[dotIndex..];
      forall i | 0 <= i < |ext| ensures ext[i] != '/' && (i > 0 ==> ext[i] != '.') {
        assert ext[i] == path[dotIndex + i];
      }
    }
  }

  lemma {:induction false} RFindSkips(x: string, y: string, c: char)
    requires c !in y
    ensures RFind(x + y, c) == RFind(x, c)
    decreases |y|
  {
    if y != [] {
      var s := x + y;
      assert s[..|s| - 1] == x + y[..|y| - 1];
      RFindSkips(x, y[..|y| - 1], c);
    } else {
      assert x + y == x;
    }
  }

  lemma RFindLast(x: string, c: char, y: string)
    requires c !in y
    ensures RFind(x + [c] + y, c) == |x|
  {
    RFindSkips(x + [c], y, c);
    assert (x + [c])[..|x|] == x;
  }

  /** For a file `stem.ext` in some directory, the extension and the file name split off as expected. */
  lemma NamedFileParts(dir: string, stem: string, ext: string)
    requires '/' !in stem && '/' !in ext && '.' !in ext
    requires !AllDots(stem)
    ensures SplitExt(dir + "/" + stem + "." + ext) == (dir + "/" + stem, "." + ext)
    ensures Basename(dir + "/" + stem + "." + ext) == stem + "." + ext
  {
    var path := dir + "/" + stem + "." + ext;
    assert path == dir + ['/'] + (stem + "." + ext);
    assert '/' !in stem + "." + ext;
    RFindLast(dir, '/', stem + "." + ext);
    assert path == (dir + "/" + stem) + ['.'] + ext;
    RFindLast(dir + "/" + stem, '.', ext);
    var dotIndex := |dir| + 1 + |stem|;
    assert path[|dir| + 1..dotIndex] == stem;
    assert path[..dotIndex] == dir + "/" + stem;
    assert path[dotIndex..] == "." + ext;
    assert path[|dir| + 1..] == stem + "." + ext;
  }

  /** `.mat` files go to the matrix importer, in any letter case. */
  lemma MatFileRouted(dir: string, stem: string, ext: string)
    requires '/' !in stem && '.' !in stem && |stem| > 0 && Lower(stem) != "t-cal"
    requires ext == "mat" || ext == "MAT"
    ensures Route(dir + "/" + stem + "." + ext) == MatFile
  {
    assert !AllDots(stem) by { assert stem[0] != '.'; }
    NamedFileParts(dir, stem, ext);
    assert Lower("." + ext) == ".mat";
    LowerAppend(stem, "." + ext);
    assert stem + "." + ext == stem + ("." + ext);
    var lowered := Lower(stem + "." + ext);
    assert lowered == Lower(stem) + ".mat";
    assert lowered[..|stem|] == Lower(stem);
    assert lowered != "t-cal.mat";
  }

  /** The calibration file is skipped, whatever its letter case. */
  lemma CalibrationFileSkipped(dir: string, stem: string, ext: string)
    requires Lower(stem) == "t-cal" && Lower(ext) == "mat"
    ensures Route(dir + "/" + stem + "." + ext) == CalibrationSkipped
  {
    assert |stem| == 5 && Lower(stem)[0] == LowerChar(stem[0]) == 't';
    assert !AllDots(stem);
    assert '/' !in stem && '/' !in ext && '.' !in ext by {
      forall i | 0 <= i < |stem| ensures stem[i] != '/' && stem[i] != '.' {
        assert Lower(stem)[i] == LowerChar(stem[i]);
      }
      forall i | 0 <= i < |ext| ensures ext[i] != '/' && ext[i] != '.' {
        assert Lower(ext)[i] == LowerChar(ext[i]);
      }
    }
    NamedFileParts(dir, stem, ext);
    LowerAppend(".", ext);
    LowerAppend(stem, "." + ext);
    assert stem + "." + ext == stem + ("." + ext);
    assert Lower(stem + "." + ext) == "t-cal" + ".mat";
  }

  /** `.txt` files go to the text importer, in any letter case. */
  lemma TextFileRouted(dir: string, stem: string, ext: string)
    requires '/' !in stem && '.' !in stem && |stem| > 0
    requires ext == "txt" || ext == "TXT"
    ensures Route(dir + "/" + stem + "." + ext) == TextFile
  {
    assert !AllDots(stem) by { assert stem[0] != '.'; }
    NamedFileParts(dir, stem, ext);
    assert Lower("." + ext) == ".txt";
  }

  /** A file name made only of dots and an extension, such as `.mat`, has no extension. */
  lemma HiddenFileInvalid(dir: string)
    ensures Route(dir + "/.mat") == InvalidFormat
  {
    var path := dir + "/.mat";
    assert path == dir + ['/'] + ".mat";
    RFindLast(dir, '/', ".mat");
    assert path == (dir + "/") + ['.'] + "mat";
    RFindLast(dir + "/", '.', "mat");
    assert path[|dir| + 1..|dir| + 1] == [];
    assert SplitExt(path).1 == "";
  }
}
