/**
 * The Python `str` operations the link tool relies on, over `seq<char>`:
 * `strip()` with Python's whitespace set, `splitlines()` with its line
 * boundaries, `"\n".join`, and the code-point order `sorted()` uses.
 */
module PyStrings {

  /** The characters `str.isspace()` accepts (and `strip()` removes), by code point. */
  predicate IsSpace(c: char)
  {
    var n := c as int;
    || (0x09 <= n <= 0x0D) || (0x1C <= n <= 0x20)
    || n == 0x85 || n == 0xA0 || n == 0x1680
    || (0x2000 <= n <= 0x200A)
    || n == 0x2028 || n == 0x2029 || n == 0x202F || n == 0x205F || n == 0x3000
  }

  /** The characters `str.splitlines()` splits at, by code point (`\r\n` counts as one boundary). */
  predicate IsLineBreak(c: char)
  {
    var n := c as int;
    (0x0A <= n <= 0x0D) || (0x1C <= n <= 0x1E) || n == 0x85 || n == 0x2028 || n == 0x2029
  }

  predicate NoLineBreak(s: string)
  {
    forall i :: 0 <= i < |s| ==> !IsLineBreak(s[i])
  }

  lemma NoLineBreakAppend(a: string, b: string)
    ensures NoLineBreak(a + b) <==> NoLineBreak(a) && NoLineBreak(b)
  {
    assert forall i :: 0 <= i < |a| ==> (a + b)[i] == a[i];
    assert forall i :: 0 <= i < |b| ==> (a + b)[|a| + i] == b[i];
  }

  function StripLeft(s: string): string
  {
    if |s| > 0 && IsSpace(s[0]) then StripLeft(s[1..]) else s
  }

  function StripRight(s: string): string
  {
    if |s| > 0 && IsSpace(s[|s| - 1]) then StripRight(s[..|s| - 1]) else s
  }

  /**
   * `s.strip()`: `s` without its leading and trailing whitespace. The result
   * neither starts nor ends with whitespace, and a string without whitespace
   * at either end is left as it is.
   */
  function Strip(s: string): (r: string)
    ensures |r| <= |s|
    ensures |r| > 0 ==> !IsSpace(r[0]) && !IsSpace(r[|r| - 1])
    ensures |s| > 0 && !IsSpace(s[0]) && !IsSpace(s[|s| - 1]) ==> r == s
  {
    var left := StripLeft(s);
    StripLeftSuffix(s);
    StripRightPrefix(left);
    var r := StripRight(left);
    if |r| > 0 then
      assert r[0] == left[0];
      r
    else r
  }

  lemma {:induction false} StripLeftSuffix(s: string)
    ensures var r := StripLeft(s);
      && |r| <= |s| && r == s[|s| - |r|..]
      && (forall i :: 0 <= i < |s| - |r| ==> IsSpace(s[i]))
      && (|r| > 0 ==> !IsSpace(r[0]))
  {
    if |s| > 0 && IsSpace(s[0]) {
      StripLeftSuffix(s[1..]);
      var r := StripLeft(s[1..]);
      assert s[1..][|s| - 1 - |r|..] == s[|s| - |r|..];
      assert forall i :: 1 <= i < |s| - |r| ==> s[i] == s[1..][i - 1];
    }
  }

  lemma {:induction false} StripRightPrefix(s: string)
    ensures var r := StripRight(s);
      && |r| <= |s| && r == s[..|r|]
      && (forall i :: |r| <= i < |s| ==> IsSpace(s[i]))
      && (|r| > 0 ==> !IsSpace(r[|r| - 1]))
  {
    if |s| > 0 && IsSpace(s[|s| - 1]) {
      StripRightPrefix(s[..|s| - 1]);
      var r := StripRight(s[..|s| - 1]);
      assert s[..|s| - 1][..|r|] == s[..|r|];
      assert forall i :: |r| <= i < |s| - 1 ==> s[i] == s[..|s| - 1][i];
    }
  }

  /** A string strips to "" exactly when it consists of whitespace only. */
  lemma {:induction false} StripBlank(s: string)
    ensures Strip(s) == "" <==> forall i :: 0 <= i < |s| ==> IsSpace(s[i])
  {
    var left := StripLeft(s);
    StripLeftSuffix(s);
    StripRightPrefix(left);
    forall i | |s| - |left| <= i < |s| ensures s[i] == left[i - (|s| - |left|)] {
    }
    if |left| > 0 {
      assert !IsSpace(s[|s| - |left|]);
    }
  }

  /** Position of the first line boundary in `s`, or |s| when there is none. */
  function FirstBreak(s: string): (i: nat)
    ensures i <= |s| && (i < |s| ==> IsLineBreak(s[i]))
    ensures forall j :: 0 <= j < i ==> !IsLineBreak(s[j])
  {
    if |s| == 0 || IsLineBreak(s[0]) then 0 else 1 + FirstBreak(s[1..])
  }

  /**
   * `s.splitlines()`: the pieces between line boundaries, with no trailing
   * empty piece for a final boundary; `\r\n` is a single boundary.
   */
  function SplitLines(s: string): (lines: seq<string>)
    ensures forall k :: 0 <= k < |lines| ==> NoLineBreak(lines[k])
    decreases |s|
  {
    if |s| == 0 then []
    else
      var i := FirstBreak(s);
      if i == |s| then [s]
      else
        var width := if s[i] == '\r' && i + 1 < |s| && s[i + 1] == '\n' then 2 else 1;
        [s[..i]] + SplitLines(s[i + width..])
  }

  /** `"\n".join(lines)`: with a final newline added it is the newline-terminated layout. */
  function JoinLines(lines: seq<string>): (s: string)
    ensures |lines| > 0 ==> s + "\n" == JoinTerminated(lines)
  {
    if |lines| == 0 then "" else if |lines| == 1 then lines[0]
    else
      var rest := JoinLines(lines[1..]);
      assert lines[0] + "\n" + rest + "\n" == lines[0] + "\n" + (rest + "\n");
      lines[0] + "\n" + rest
  }

  /** Every line followed by a newline: the layout of a newline-terminated text file. */
  function JoinTerminated(lines: seq<string>): string
  {
    if |lines| == 0 then "" else lines[0] + "\n" + JoinTerminated(lines[1..])
  }

  lemma {:induction false} JoinTerminatedAppend(a: seq<string>, b: seq<string>)
    ensures JoinTerminated(a + b) == JoinTerminated(a) + JoinTerminated(b)
  {
    if |a| > 0 {
      assert (a + b)[1..] == a[1..] + b;
      JoinTerminatedAppend(a[1..], b);
    } else {
      assert a + b == b;
    }
  }

  /** Reading a newline-terminated file back line by line recovers its lines. */
  lemma {:induction false} SplitJoinTerminated(lines: seq<string>)
    requires forall k :: 0 <= k < |lines| ==> NoLineBreak(lines[k])
    ensures SplitLines(JoinTerminated(lines)) == lines
  {
    if |lines| > 0 {
      var s := JoinTerminated(lines);
      var head := lines[0];
      assert s == head + "\n" + JoinTerminated(lines[1..]);
      assert FirstBreak(s) == |head| by {
        FirstBreakAt(s, head);
      }
      assert s[..|head|] == head;
      assert s[|head| + 1..] == JoinTerminated(lines[1..]);
      SplitJoinTerminated(lines[1..]);
    }
  }

  /** Reading back `"\n".join(lines)` written with a final newline recovers the lines. */
  lemma SplitJoinLines(lines: seq<string>)
    requires |lines| > 0 && forall k :: 0 <= k < |lines| ==> NoLineBreak(lines[k])
    ensures SplitLines(JoinLines(lines) + "\n") == lines
  {
    SplitJoinTerminated(lines);
  }

  lemma {:induction false} FirstBreakAt(s: string, head: string)
    requires NoLineBreak(head) && |s| > |head| && s[..|head|] == head && s[|head|] == '\n'
    ensures FirstBreak(s) == |head|
    decreases |head|
  {
    if |head| > 0 {
      assert s[0] == head[0];
      assert s[1..][..|head| - 1] == head[1..];
      FirstBreakAt(s[1..], head[1..]);
    }
  }

  // ---------------------------------------------------------------------
  // The order `sorted()` uses on strings: lexicographic by code point
  // ---------------------------------------------------------------------

  predicate LexLe(a: string, b: string)
  {
    |a| == 0 || (|b| > 0 && (a[0] < b[0] || (a[0] == b[0] && LexLe(a[1..], b[1..]))))
  }

  lemma {:induction false} LexTotal(a: string, b: string)
    ensures LexLe(a, b) || LexLe(b, a)
  {
    if |a| > 0 && |b| > 0 && a[0] == b[0] {
      LexTotal(a[1..], b[1..]);
    }
  }

  lemma {:induction false} LexTrans(a: string, b: string, c: string)
    requires LexLe(a, b) && LexLe(b, c)
    ensures LexLe(a, c)
  {
    if |a| > 0 && a[0] == b[0] && b[0] == c[0] {
      LexTrans(a[1..], b[1..], c[1..]);
    }
  }

  lemma {:induction false} LexAntisym(a: string, b: string)
    requires LexLe(a, b) && LexLe(b, a)
    ensures a == b
  {
    if |a| > 0 && |b| > 0 && a[0] == b[0] {
      LexAntisym(a[1..], b[1..]);
      assert a == [a[0]] + a[1..] && b == [b[0]] + b[1..];
    }
  }

  predicate Sorted(s: seq<string>)
  {
    forall i, j :: 0 <= i < j < |s| ==> LexLe(s[i], s[j])
  }

  /** Insert `x` into a sorted sequence before the first entry it does not follow. */
  function Insert(x: string, s: seq<string>): (r: seq<string>)
    requires Sorted(s)
    ensures Sorted(r) && multiset(r) == multiset(s) + multiset{x}
  {
    if |s| == 0 then [x]
    else if LexLe(x, s[0]) then
      assert forall j :: 0 <= j < |s| ==> LexLe(x, s[j]) by {
        forall j | 0 <= j < |s| ensures LexLe(x, s[j]) {
          if j > 0 {
            LexTrans(x, s[0], s[j]);
          }
        }
      }
      [x] + s
    else
      LexTotal(x, s[0]);
      var rest := Insert(x, s[1..]);
      assert s == [s[0]] + s[1..];
      assert forall j :: 0 <= j < |rest| ==> LexLe(s[0], rest[j]) by {
        forall j | 0 <= j < |rest| ensures LexLe(s[0], rest[j]) {
          assert rest[j] in multiset(rest);
          assert rest[j] == x || rest[j] in multiset(s[1..]);
          if rest[j] != x {
            var k :| 0 <= k < |s[1..]| && s[1..][k] == rest[j];
            assert LexLe(s[0], s[k + 1]);
          }
        }
      }
      [s[0]] + rest
  }

  /** `sorted(xs)`: the same strings in lexicographic order. */
  function SortStrings(xs: seq<string>): (r: seq<string>)
    ensures Sorted(r) && multiset(r) == multiset(xs) && |r| == |xs|
  {
    if |xs| == 0 then []
    else
      assert xs == [xs[0]] + xs[1..];
      Insert(xs[0], SortStrings(xs[1..]))
  }
}
