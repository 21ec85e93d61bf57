/**
 * `update_gitignore` of create_calibration_links.py: the .gitignore is read as
 * lines, every marker-delimited auto-generated block is dropped, trailing
 * blank lines are removed, and a fresh block listing the created links in
 * sorted order is appended.
 */
module Gitignore {
  import opened Wrappers
  import opened PyStrings

  // GITIGNORE_START_MARKER and GITIGNORE_END_MARKER, written in three pieces
  // so that their end characters are visible to the verifier.
  const StartMarker: string := "# >>> AUTO-GENERATED" + " SYMLINKS (do not edit" + " manually) >>>"
  const EndMarker: string := "# <<< AUTO-GENERATED" + " SYMLINKS <<<"

  predicate IsMarker(line: string)
  {
    Strip(line) == StartMarker || Strip(line) == EndMarker
  }

  /**
   * The lines the scan keeps, starting inside (`inSection`) or outside an
   * auto-generated block: marker lines are always dropped, a start marker
   * enters a block, an end marker leaves it, and other lines are kept only
   * outside a block.
   */
  function Kept(lines: seq<string>, inSection: bool): (r: seq<string>)
    ensures forall k :: 0 <= k < |r| ==> !IsMarker(r[k])
    ensures |r| <= |lines|
  {
    if |lines| == 0 then []
    else
      var rest := Kept(lines[1..], if Strip(lines[0]) == StartMarker then true
                                   else if Strip(lines[0]) == EndMarker then false
                                   else inSection);
      if IsMarker(lines[0]) || inSection then rest else [lines[0]] + rest
  }

  /** Both markers are their own stripped form, and they differ. */
  lemma MarkersStripped()
    ensures Strip(StartMarker) == StartMarker && Strip(EndMarker) == EndMarker
    ensures StartMarker != EndMarker
  {
    assert StartMarker[0] == '#' && StartMarker[|StartMarker| - 1] == '>';
    assert EndMarker[0] == '#' && EndMarker[|EndMarker| - 1] == '<';
    assert StartMarker[2] != EndMarker[2];
  }

  /** Neither marker holds a line boundary. */
  lemma MarkersUnbroken()
    ensures NoLineBreak(StartMarker) && NoLineBreak(EndMarker)
  {
    StartUnbroken();
    NoLineBreakAppend("# <<< AUTO-GENERATED", " SYMLINKS <<<");
  }

  lemma StartUnbroken()
    ensures NoLineBreak(StartMarker)
  {
    NoLineBreakAppend("# >>> AUTO-GENERATED", " SYMLINKS (do not edit");
    NoLineBreakAppend("# >>> AUTO-GENERATED" + " SYMLINKS (do not edit", " manually) >>>");
  }

  /** Whether the scan is inside a block after reading `lines`. */
  function InSectionAfter(lines: seq<string>, inSection: bool): bool
  {
    if |lines| == 0 then inSection
    else InSectionAfter(lines[1..], if Strip(lines[0]) == StartMarker then true
                                    else if Strip(lines[0]) == EndMarker then false
                                    else inSection)
  }

  /** The scan is compositional: reading `a` then `b` keeps what each part keeps, in order. */
  lemma {:induction false} KeptAppend(a: seq<string>, b: seq<string>, inSection: bool)
    ensures Kept(a + b, inSection) == Kept(a, inSection) + Kept(b, InSectionAfter(a, inSection))
  {
    if |a| == 0 {
      assert a + b == b;
    } else {
      assert (a + b)[1..] == a[1..] + b;
      assert (a + b)[0] == a[0];
      var next := if Strip(a[0]) == StartMarker then true else if Strip(a[0]) == EndMarker then false else inSection;
      KeptAppend(a[1..], b, next);
    }
  }

  /** Lines with no marker, read outside a block, are all kept and leave the scan outside. */
  lemma {:induction false} KeptNoMarkers(lines: seq<string>)
    requires forall k :: 0 <= k < |lines| ==> !IsMarker(lines[k])
    ensures Kept(lines, false) == lines && !InSectionAfter(lines, false)
  {
    if |lines| > 0 {
      KeptNoMarkers(lines[1..]);
    }
  }

  /** From inside a block, lines none of which strips to the end marker are all dropped. */
  lemma {:induction false} KeptInsideBlock(lines: seq<string>)
    requires forall k :: 0 <= k < |lines| ==> Strip(lines[k]) != EndMarker
    ensures Kept(lines, true) == [] && InSectionAfter(lines, true)
  {
    if |lines| > 0 {
      KeptInsideBlock(lines[1..]);
    }
  }

  /**
   * A complete block is cut out: a line stripping to the start marker, lines
   * none of which strips to the end marker, and a line stripping to the end
   * marker are dropped; what precedes is kept as before and what follows is
   * read from outside a block.
   */
  lemma {:induction false} BlockDropped(before: seq<string>, open: string, body: seq<string>, close: string, after: seq<string>)
    requires Strip(open) == StartMarker && Strip(close) == EndMarker
    requires forall k :: 0 <= k < |body| ==> Strip(body[k]) != EndMarker
    ensures Kept(before + [open] + body + [close] + after, false)
      == Kept(before, false) + Kept(after, false)
  {
    var tail := [open] + body + [close] + after;
    assert before + [open] + body + [close] + after == before + tail;
    KeptAppend(before, tail, false);
    BlockSkipped(open, body, close, after, InSectionAfter(before, false));
  }

  lemma {:induction false} BlockSkipped(open: string, body: seq<string>, close: string, after: seq<string>, inSection: bool)
    requires Strip(open) == StartMarker && Strip(close) == EndMarker
    requires forall k :: 0 <= k < |body| ==> Strip(body[k]) != EndMarker
    ensures Kept([open] + body + [close] + after, inSection) == Kept(after, false)
  {
    MarkersStripped();
    var tail := [open] + body + [close] + after;
    var closing := [close] + after;
    assert tail[0] == open && tail[1..] == body + closing;
    KeptAppend(body, closing, true);
    KeptInsideBlock(body);
    assert closing[0] == close && closing[1..] == after;
    assert Kept(closing, true) == Kept(after, false);
  }

  /** A line stripping to the start marker with no end marker after it drops every following line. */
  lemma {:induction false} UnterminatedBlockDropsRest(before: seq<string>, open: string, rest: seq<string>)
    requires Strip(open) == StartMarker
    requires forall k :: 0 <= k < |rest| ==> Strip(rest[k]) != EndMarker
    ensures Kept(before + [open] + rest, false) == Kept(before, false)
  {
    assert before + [open] + rest == before + ([open] + rest);
    KeptAppend(before, [open] + rest, false);
    assert ([open] + rest)[1..] == rest;
    KeptInsideBlock(rest);
  }

  /** `lines` without its trailing whitespace-only lines. */
  function TrimBlank(lines: seq<string>): (r: seq<string>)
    ensures |r| <= |lines| && r == lines[..|r|]
    ensures |r| > 0 ==> Strip(r[|r| - 1]) != ""
    ensures forall k :: |r| <= k < |lines| ==> Strip(lines[k]) == ""
  {
    if |lines| > 0 && Strip(lines[|lines| - 1]) == "" then
      var r := TrimBlank(lines[..|lines| - 1]);
      assert lines[..|lines| - 1][..|r|] == lines[..|r|];
      r
    else lines
  }

  /**
   * The lines of the rewritten .gitignore: the kept content, then (for a
   * non-empty path list) a blank separator when that content is non-empty,
   * the start marker, the paths in sorted order and the end marker.
   */
  function Rebuilt(kept: seq<string>, paths: seq<string>): seq<string>
  {
    if |paths| == 0 then kept
    else kept + (if |kept| > 0 then [""] else []) + [StartMarker] + SortStrings(paths) + [EndMarker]
  }

  /** The new .gitignore, as lines, for the old content (empty when the file is missing). */
  function NewLines(existing: string, paths: seq<string>): seq<string>
  {
    Rebuilt(TrimBlank(Kept(SplitLines(existing), false)), paths)
  }

  /**
   * `update_gitignore` on the file's content (None when the file does not
   * exist): the text written back is exactly NewLines, each line
   * newline-terminated.
   */
  method UpdateGitignore(existing: Option<string>, paths: seq<string>) returns (content: string)
    ensures content == JoinTerminated(NewLines(if existing.Some? then existing.value else "", paths))
  {
    var existingContent := "";
    if existing.Some? {
      existingContent := existing.value;
    }
    var lines := SplitLines(existingContent);
    var newLines := DropAutoSections(lines);
    newLines := DropTrailingBlank(newLines);
    content := BuildContent(newLines, paths);
  }

  /** The scan over the lines: the kept lines, in order. */
  method DropAutoSections(lines: seq<string>) returns (newLines: seq<string>)
    ensures newLines == Kept(lines, false)
  {
    newLines := [];
    var inAutoSection := false;
    for i := 0 to |lines|
      invariant newLines + Kept(lines[i..], inAutoSection) == Kept(lines, false)
    {
      var line := lines[i];
      KeptStep(lines, i, inAutoSection);
      if Strip(line) == StartMarker {
        inAutoSection := true;
        continue;
      } else if Strip(line) == EndMarker {
        inAutoSection := false;
        continue;
      }
      if !inAutoSection {
        newLines := newLines + [line];
      }
    }
    assert lines[|lines|..] == [];
  }

  /** One step of the scan, read at position i of `lines`. */
  lemma KeptStep(lines: seq<string>, i: nat, inSection: bool)
    requires i < |lines|
    ensures Kept(lines[i..], inSection)
      == (if IsMarker(lines[i]) || inSection then [] else [lines[i]])
         + Kept(lines[i + 1..], if Strip(lines[i]) == StartMarker then true
                                else if Strip(lines[i]) == EndMarker then false
                                else inSection)
  {
    assert lines[i..][1..] == lines[i + 1..];
  }

  /** Popping trailing whitespace-only lines leaves TrimBlank of the lines. */
  method DropTrailingBlank(lines: seq<string>) returns (newLines: seq<string>)
    ensures newLines == TrimBlank(lines)
  {
    newLines := lines;
    while |newLines| > 0 && Strip(newLines[|newLines| - 1]) == ""
      invariant TrimBlank(newLines) == TrimBlank(lines)
      decreases |newLines|
    {
      newLines := newLines[..|newLines| - 1];
    }
  }

  /**
   * The text assembled from the trimmed lines: joined with newlines, then for
   * a non-empty path list a blank line (when there was content), the start
   * marker, the sorted paths and the end marker, else a final newline.
   */
  method BuildContent(newLines: seq<string>, paths: seq<string>) returns (finalContent: string)
    requires |newLines| > 0 ==> Strip(newLines[|newLines| - 1]) != ""
    ensures finalContent == JoinTerminated(Rebuilt(newLines, paths))
  {
    finalContent := JoinLines(newLines);
    JoinLinesEmpty(newLines);
    if |paths| > 0 {
      if finalContent != "" {
        finalContent := finalContent + "\n\n";
      }
      finalContent := finalContent + StartMarker + "\n";
      var sorted := SortStrings(paths);
      finalContent := AppendEntries(finalContent, sorted);
      finalContent := finalContent + EndMarker + "\n";
      RebuiltLayout(newLines, StartMarker, sorted, EndMarker);
    } else if finalContent != "" {
      finalContent := finalContent + "\n";
    }
  }

  /** The loop adding each entry followed by a newline. */
  method AppendEntries(text: string, entries: seq<string>) returns (r: string)
    ensures r == text + JoinTerminated(entries)
  {
    r := text;
    for k := 0 to |entries|
      invariant r == text + JoinTerminated(entries[..k])
    {
      JoinTerminatedAppend(entries[..k], [entries[k]]);
      assert entries[..k + 1] == entries[..k] + [entries[k]];
      r := r + entries[k] + "\n";
    }
    assert entries[..|entries|] == entries;
  }

  /** With the last line not blank, the joined text is empty exactly when there are no lines. */
  lemma {:induction false} JoinLinesEmpty(lines: seq<string>)
    requires |lines| > 0 ==> Strip(lines[|lines| - 1]) != ""
    ensures JoinLines(lines) == "" <==> |lines| == 0
  {
    if |lines| > 0 {
      JoinLinesLength(lines);
    }
  }

  lemma {:induction false} JoinLinesLength(lines: seq<string>)
    requires |lines| > 0
    ensures |JoinLines(lines)| >= |lines[|lines| - 1]|
  {
    if |lines| > 1 {
      JoinLinesLength(lines[1..]);
    }
  }

  /**
   * The text the appending steps build (the joined kept lines, a blank line
   * when they are non-empty, the opening line, every entry, the closing line)
   * is the terminated layout of the corresponding lines.
   */
  lemma {:induction false} RebuiltLayout(kept: seq<string>, open: string, sorted: seq<string>, close: string)
    requires JoinLines(kept) == "" <==> |kept| == 0
    ensures
      var head := if JoinLines(kept) != "" then JoinLines(kept) + "\n\n" else "";
      head + open + "\n" + JoinTerminated(sorted) + close + "\n"
        == JoinTerminated(kept + (if |kept| > 0 then [""] else []) + [open] + sorted + [close])
  {
    var sep: seq<string> := if |kept| > 0 then [""] else [];
    var tail := [open] + sorted + [close];
    assert kept + sep + [open] + sorted + [close] == (kept + sep) + tail;
    JoinTerminatedAppend(kept + sep, tail);
    HeadLayout(kept);
    TailLayout(open, sorted, close);
    LayoutAssoc(JoinTerminated(kept + sep), open, JoinTerminated(sorted), close);
  }

  lemma {:induction false} HeadLayout(kept: seq<string>)
    requires JoinLines(kept) == "" <==> |kept| == 0
    ensures JoinTerminated(kept + (if |kept| > 0 then [""] else []))
      == if JoinLines(kept) != "" then JoinLines(kept) + "\n\n" else ""
  {
    if |kept| > 0 {
      JoinTerminatedAppend(kept, [""]);
      assert JoinTerminated([""]) == "\n";
      assert JoinLines(kept) + "\n" + "\n" == JoinLines(kept) + "\n\n";
    } else {
      assert kept + [] == [];
    }
  }

  lemma {:induction false} TailLayout(open: string, sorted: seq<string>, close: string)
    ensures JoinTerminated([open] + sorted + [close]) == open + "\n" + JoinTerminated(sorted) + close + "\n"
  {
    JoinTerminatedAppend([open] + sorted, [close]);
    JoinTerminatedAppend([open], sorted);
    assert JoinTerminated([close]) == close + "\n";
    assert JoinTerminated([open]) == open + "\n";
  }

  lemma LayoutAssoc(head: string, open: string, body: string, close: string)
    ensures head + open + "\n" + body + close + "\n" == head + (open + "\n" + body + close + "\n")
  {
  }

  // ---------------------------------------------------------------------
  // Rewriting is idempotent
  // ---------------------------------------------------------------------

  /** The scan only drops lines, so lines free of line boundaries stay so. */
  lemma {:induction false} KeptUnbroken(lines: seq<string>, inSection: bool)
    requires forall k :: 0 <= k < |lines| ==> NoLineBreak(lines[k])
    ensures forall k :: 0 <= k < |Kept(lines, inSection)| ==> NoLineBreak(Kept(lines, inSection)[k])
  {
    if |lines| > 0 {
      var next := if Strip(lines[0]) == StartMarker then true else if Strip(lines[0]) == EndMarker then false else inSection;
      KeptUnbroken(lines[1..], next);
      assert forall k :: 0 <= k < |lines| - 1 ==> lines[1..][k] == lines[k + 1];
      var rest := Kept(lines[1..], next);
      var r := Kept(lines, inSection);
      assert r == if IsMarker(lines[0]) || inSection then rest else [lines[0]] + rest;
      forall k | 0 <= k < |r| ensures NoLineBreak(r[k]) {
        if IsMarker(lines[0]) || inSection {
          assert r[k] == rest[k];
        } else if k > 0 {
          assert r[k] == rest[k - 1];
        } else {
          assert r[k] == lines[0];
        }
      }
    }
  }

  /** A line list whose last line is not blank has nothing to trim. */
  lemma TrimBlankNothing(lines: seq<string>)
    requires |lines| > 0 ==> Strip(lines[|lines| - 1]) != ""
    ensures TrimBlank(lines) == lines
  {
  }

  /** The sorted paths are the given paths, so a property of every path holds of every sorted entry. */
  lemma SortedEntries(paths: seq<string>)
    ensures forall x :: x in SortStrings(paths) <==> x in paths
  {
    var sorted := SortStrings(paths);
    forall x ensures x in sorted <==> x in paths {
      assert x in sorted <==> x in multiset(sorted);
      assert x in paths <==> x in multiset(paths);
    }
  }

  /** Every line of the new file is free of line boundaries when every path is. */
  lemma NewLinesUnbroken(existing: string, paths: seq<string>)
    requires forall k :: 0 <= k < |paths| ==> NoLineBreak(paths[k])
    ensures forall k :: 0 <= k < |NewLines(existing, paths)| ==> NoLineBreak(NewLines(existing, paths)[k])
  {
    var lines := SplitLines(existing);
    KeptUnbroken(lines, false);
    var t := TrimBlank(Kept(lines, false));
    assert forall k :: 0 <= k < |t| ==> t[k] == Kept(lines, false)[k];
    RebuiltUnbroken(t, paths);
  }

  lemma RebuiltUnbroken(t: seq<string>, paths: seq<string>)
    requires forall k :: 0 <= k < |t| ==> NoLineBreak(t[k])
    requires forall k :: 0 <= k < |paths| ==> NoLineBreak(paths[k])
    ensures forall k :: 0 <= k < |Rebuilt(t, paths)| ==> NoLineBreak(Rebuilt(t, paths)[k])
  {
    if |paths| > 0 {
      MarkersUnbroken();
      SortedEntries(paths);
      var sorted := SortStrings(paths);
      forall k | 0 <= k < |sorted| ensures NoLineBreak(sorted[k]) {
        assert sorted[k] in paths;
      }
      var l := Rebuilt(t, paths);
      var sep: seq<string> := if |t| > 0 then [""] else [];
      assert l == t + sep + [StartMarker] + sorted + [EndMarker];
      forall k | 0 <= k < |l| ensures NoLineBreak(l[k]) {
        if k < |t| {
          assert l[k] == t[k];
        } else if k < |t| + |sep| {
          assert l[k] == "";
        } else if k == |t| + |sep| {
          assert l[k] == StartMarker;
        } else if k < |t| + |sep| + 1 + |sorted| {
          assert l[k] == sorted[k - |t| - |sep| - 1];
        } else {
          assert l[k] == EndMarker;
        }
      }
    }
  }

  /**
   * Running the update a second time with the same paths, on the file the
   * first run wrote, produces the same lines: the old block is recognised
   * and replaced by an identical one. It needs paths that hold no line
   * boundary and none of which strips to the end marker.
   */
  lemma {:induction false} UpdateIdempotent(existing: string, paths: seq<string>)
    requires forall k :: 0 <= k < |paths| ==> NoLineBreak(paths[k]) && Strip(paths[k]) != EndMarker
    ensures NewLines(JoinTerminated(NewLines(existing, paths)), paths) == NewLines(existing, paths)
  {
    var l := NewLines(existing, paths);
    NewLinesUnbroken(existing, paths);
    SplitJoinTerminated(l);
    var t := TrimBlank(Kept(SplitLines(existing), false));
    TrimmedKeptClean(SplitLines(existing));
    RereadRebuilt(t, paths);
    assert l == Rebuilt(t, paths);
  }

  /** The trimmed kept lines hold no marker and do not end in a blank line. */
  lemma TrimmedKeptClean(lines: seq<string>)
    ensures var t := TrimBlank(Kept(lines, false));
      && (forall k :: 0 <= k < |t| ==> !IsMarker(t[k]))
      && (|t| > 0 ==> Strip(t[|t| - 1]) != "")
  {
    var kept := Kept(lines, false);
    var t := TrimBlank(kept);
    assert forall k :: 0 <= k < |t| ==> t[k] == kept[k];
  }

  /** Reading back a rebuilt line list recovers the lines kept before the block. */
  lemma RereadRebuilt(t: seq<string>, paths: seq<string>)
    requires forall k :: 0 <= k < |t| ==> !IsMarker(t[k])
    requires |t| > 0 ==> Strip(t[|t| - 1]) != ""
    requires forall k :: 0 <= k < |paths| ==> Strip(paths[k]) != EndMarker
    ensures TrimBlank(Kept(Rebuilt(t, paths), false)) == t
  {
    KeptNoMarkers(t);
    if |paths| == 0 {
      TrimBlankNothing(t);
    } else {
      KeptRebuilt(t, paths);
      TrimSeparator(t);
    }
  }

  /** Re-reading a rebuilt file keeps its kept part and the blank separator, and drops the block. */
  lemma {:induction false} KeptRebuilt(t: seq<string>, paths: seq<string>)
    requires |paths| > 0 && Kept(t, false) == t && !InSectionAfter(t, false)
    requires forall k :: 0 <= k < |paths| ==> Strip(paths[k]) != EndMarker
    ensures Kept(Rebuilt(t, paths), false) == t + (if |t| > 0 then [""] else [])
  {
    var sorted := SortStrings(paths);
    SortedEntries(paths);
    forall k | 0 <= k < |sorted| ensures Strip(sorted[k]) != EndMarker {
      assert sorted[k] in paths;
    }
    var sep: seq<string> := if |t| > 0 then [""] else [];
    assert Rebuilt(t, paths) == (t + sep) + [StartMarker] + sorted + [EndMarker] + [];
    MarkersStripped();
    BlockDropped(t + sep, StartMarker, sorted, EndMarker, []);
    KeptAppend(t, sep, false);
    if |t| > 0 {
      assert Strip("") == "";
      assert !IsMarker("");
      assert Kept(sep, false) == sep;
    }
  }

  /** Trimming removes the blank separator and nothing before it. */
  lemma TrimSeparator(t: seq<string>)
    requires |t| > 0 ==> Strip(t[|t| - 1]) != ""
    ensures TrimBlank(t + (if |t| > 0 then [""] else [])) == t
  {
    if |t| > 0 {
      assert Strip("") == "";
      assert (t + [""])[..|t|] == t;
      TrimBlankNothing(t);
    } else {
      assert t + [] == [];
    }
  }
}
