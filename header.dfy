/**
 * The header rule of `importCSV`: a line whose first tab-separated field, with spaces
 * turned into '_' and lower-cased, names an existing attribute sets that attribute to the
 * line's second field, as raw text.
 */
module Header {
  import opened Values
  import opened Text

  /** The attribute name a header line speaks about. */
  function HeaderName(line: string): (name: string)
    ensures ' ' !in name
    ensures forall i :: 0 <= i < |name| ==> !('A' <= name[i] <= 'Z')
  {
    var field := Split(line, '\t')[0];
    ReplaceRemoves(field, ' ', '_');
    var replaced := Replace(field, ' ', '_');
    var name := Lower(replaced);
    assert forall i :: 0 <= i < |name| ==> name[i] == LowerChar(replaced[i]);
    name
  }

  /** The second field of a header line, or None when the line has no tab. */
  function HeaderValue(line: string): (v: Option<string>)
    ensures v.Some? ==> '\t' !in v.value
  {
    var fields := Split(line, '\t');
    if |fields| >= 2 then Some(fields[1]) else None
  }

  /** A line has a second field exactly when it holds a tab. */
  lemma HeaderValueFound(line: string)
    ensures HeaderValue(line).Some? <==> '\t' in line
  {
    if '\t' in line {
      var k :| 0 <= k < |line| && line[k] == '\t';
      assert line == line[..k] + ['\t'] + line[k + 1..];
      SplitAround(line[..k], '\t', line[k + 1..]);
    } else {
      SplitWithoutSeparator(line, '\t');
    }
  }

  /**
   * The attributes the header loop assigns, by name, and how the loop ends: a line that
   * names an attribute but has no second field raises IndexError and ends the import
   * with the earlier assignments made.
   */
  function HeaderScan(names: set<string>, lines: seq<string>): (r: (map<string, string>, Status))
    ensures r.0.Keys <= names
    ensures forall k :: k in r.0 ==> exists i :: 0 <= i < |lines| && HeaderName(lines[i]) == k
    ensures r.1 == Completed || r.1 == Raised(IndexError)
    decreases |lines|
  {
    if lines == [] then (map[], Completed)
    else
      var earlier := lines[..|lines| - 1];
      var before := HeaderScan(names, earlier);
      var written := before.0;
      var status := before.1;
      var line := lines[|lines| - 1];
      var name := HeaderName(line);
      assert forall i :: 0 <= i < |earlier| ==> earlier[i] == lines[i];
      if status.Raised? || name !in names then (written, status)
      else if HeaderValue(line).None? then (written, Raised(IndexError))
      else (written[name := HeaderValue(line).value], Completed)
  }

  /** One more line of the header loop. */
  lemma HeaderStep(names: set<string>, lines: seq<string>, i: nat)
    requires i < |lines|
    ensures HeaderScan(names, lines[..i + 1])
         == var before := HeaderScan(names, lines[..i]);
            var name := HeaderName(lines[i]);
            if before.1.Raised? || name !in names then before
            else if HeaderValue(lines[i]).None? then (before.0, Raised(IndexError))
            else (before.0[name := HeaderValue(lines[i]).value], Completed)
  {
    assert lines[..i + 1][..i] == lines[..i];
    assert lines[..i + 1][i] == lines[i];
  }

  /** Header names are lower-cased, so the attribute R0 can never be set from a header. */
  lemma ReflectivityNeverAssigned(names: set<string>, lines: seq<string>)
    ensures "R0" !in HeaderScan(names, lines).0
  {
    forall i | 0 <= i < |lines|
      ensures HeaderName(lines[i]) != "R0"
    {
      var name := HeaderName(lines[i]);
      assert |name| == 0 || name[0] != 'R';
    }
  }

  /** A line that names no attribute changes nothing. */
  lemma UnmatchedLineIgnored(names: set<string>, lines: seq<string>, line: string)
    requires HeaderName(line) !in names
    ensures HeaderScan(names, lines + [line]) == HeaderScan(names, lines)
  {
    assert (lines + [line])[..|lines|] == lines;
  }

  /** After the IndexError no later line is read. */
  lemma {:induction false} StopsAtError(names: set<string>, lines: seq<string>, more: seq<string>)
    requires HeaderScan(names, lines).1.Raised?
    ensures HeaderScan(names, lines + more) == HeaderScan(names, lines)
    decreases |more|
  {
    if more != [] {
      var shorter := more[..|more| - 1];
      assert (lines + more)[..|lines + more| - 1] == lines + shorter;
      StopsAtError(names, lines, shorter);
    } else {
      assert lines + more == lines;
    }
  }

  /**
   * When the loop completes, an attribute named by some line holds the value of the last
   * line naming it: a later line overrides an earlier one.
   */
  lemma {:induction false} LastLineWins(names: set<string>, lines: seq<string>, j: nat)
    requires j < |lines| && HeaderScan(names, lines).1 == Completed
    requires HeaderName(lines[j]) in names
    requires forall i :: j < i < |lines| ==> HeaderName(lines[i]) != HeaderName(lines[j])
    ensures HeaderValue(lines[j]).Some?
    ensures HeaderName(lines[j]) in HeaderScan(names, lines).0
    ensures HeaderScan(names, lines).0[HeaderName(lines[j])] == HeaderValue(lines[j]).value
    decreases |lines|
  {
    var n := |lines| - 1;
    var earlier := lines[..n];
    HeaderStep(names, lines, n);
    assert lines[..n + 1] == lines;
    if j < n {
      assert HeaderScan(names, earlier).1 == Completed;
      forall i | j < i < |earlier|
        ensures HeaderName(earlier[i]) != HeaderName(earlier[j])
      {
        assert earlier[i] == lines[i] && earlier[j] == lines[j];
      }
      LastLineWins(names, earlier, j);
      assert HeaderName(lines[n]) != HeaderName(lines[j]);
    }
  }

  /** Every assigned attribute is named by a line that has a second field. */
  lemma {:induction false} AssignedFromSomeLine(names: set<string>, lines: seq<string>, k: string)
    requires k in HeaderScan(names, lines).0
    ensures exists i :: (0 <= i < |lines| && HeaderName(lines[i]) == k
      && HeaderValue(lines[i]) == Some(HeaderScan(names, lines).0[k]))
    decreases |lines|
  {
    var earlier := lines[..|lines| - 1];
    var last := lines[|lines| - 1];
    var written, status := HeaderScan(names, earlier).0, HeaderScan(names, earlier).1;
    if status.Completed? && HeaderName(last) in names && HeaderValue(last).Some? && HeaderName(last) == k {
      assert HeaderName(lines[|lines| - 1]) == k;
    } else {
      AssignedFromSomeLine(names, earlier, k);
      var i :| 0 <= i < |earlier| && HeaderName(earlier[i]) == k
        && HeaderValue(earlier[i]) == Some(written[k]);
      assert lines[i] == earlier[i];
    }
  }
}
