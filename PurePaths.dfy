/**
 * POSIX `pathlib.PurePath` as create_calibration_links.py uses it: a path is
 * its root flag and its parts. Parsing a string splits it at every '/',
 * drops the empty pieces a doubled or trailing slash leaves and the "."
 * pieces, and keeps ".." as a part; `str(path)` writes the parts back with
 * single slashes, and the empty relative path as ".".
 */
module PurePaths {
  import opened PyStrings

  /** A parsed path: whether it has the root "/", and its parts in order. */
  datatype PurePath = PurePath(absolute: bool, parts: seq<string>)

  /** `s.split('/')`: the pieces between the slashes, always at least one. */
  function SplitSlash(s: string): (pieces: seq<string>)
    ensures |pieces| >= 1
    ensures forall k :: 0 <= k < |pieces| ==> '/' !in pieces[k]
  {
    if |s| == 0 then [""]
    else
      var rest := SplitSlash(s[1..]);
      if s[0] == '/' then [""] + rest
      else [[s[0]] + rest[0]] + rest[1..]
  }

  /** A piece pathlib keeps as a part: not empty and not ".". */
  predicate Kept(piece: string)
  {
    piece != "" && piece != "."
  }

  /** A well-formed part: kept, and free of slashes. */
  predicate ValidPart(part: string)
  {
    Kept(part) && '/' !in part
  }

  predicate Valid(p: PurePath)
  {
    forall k :: 0 <= k < |p.parts| ==> ValidPart(p.parts[k])
  }

  /** The pieces pathlib keeps, in order. */
  function KeptParts(pieces: seq<string>): (parts: seq<string>)
  {
    if |pieces| == 0 then []
    else if Kept(pieces[0]) then [pieces[0]] + KeptParts(pieces[1..])
    else KeptParts(pieces[1..])
  }

  /** `PurePosixPath(s)`: rooted exactly when `s` starts with '/', and every part is well-formed. */
  function Parse(s: string): (p: PurePath)
    ensures p.absolute <==> |s| > 0 && s[0] == '/'
    ensures Valid(p)
  {
    KeptPartsValid(SplitSlash(s));
    PurePath(|s| > 0 && s[0] == '/', KeptParts(SplitSlash(s)))
  }

  /** `"/".join(parts)`. */
  function JoinSlash(parts: seq<string>): string
  {
    if |parts| == 0 then ""
    else if |parts| == 1 then parts[0]
    else parts[0] + "/" + JoinSlash(parts[1..])
  }

  /**
   * `str(p)`: "/" before the parts of an absolute path, "." for the empty
   * relative path. The text of a well-formed path is never empty and starts
   * with '/' exactly when the path is absolute.
   */
  function Render(p: PurePath): (s: string)
    ensures Valid(p) ==> |s| > 0 && (s[0] == '/' <==> p.absolute)
  {
    if p.absolute then "/" + JoinSlash(p.parts)
    else if |p.parts| == 0 then "."
    else JoinSlash(p.parts)
  }

  /** `p / rel`: an absolute `rel` replaces `p`, a relative one extends it. */
  function Join(p: PurePath, rel: PurePath): (r: PurePath)
    ensures Valid(p) && Valid(rel) ==> Valid(r)
  {
    if rel.absolute then rel else PurePath(p.absolute, p.parts + rel.parts)
  }

  /** Kept pieces of a concatenation are the kept pieces of each half. */
  lemma {:induction false} KeptPartsAppend(a: seq<string>, b: seq<string>)
    ensures KeptParts(a + b) == KeptParts(a) + KeptParts(b)
  {
    if |a| == 0 {
      assert a + b == b;
    } else {
      assert (a + b)[1..] == a[1..] + b;
      KeptPartsAppend(a[1..], b);
    }
  }

  /** Every part of a parsed path is a well-formed part. */
  lemma {:induction false} KeptPartsValid(pieces: seq<string>)
    requires forall k :: 0 <= k < |pieces| ==> '/' !in pieces[k]
    ensures forall k :: 0 <= k < |KeptParts(pieces)| ==> ValidPart(KeptParts(pieces)[k])
  {
    if |pieces| > 0 {
      KeptPartsValid(pieces[1..]);
    }
  }

  /** Splitting a slash-free prefix glues it to the first piece of the rest. */
  lemma {:induction false} SplitSlashPrefix(a: string, t: string)
    requires '/' !in a
    ensures SplitSlash(a + t) == [a + SplitSlash(t)[0]] + SplitSlash(t)[1..]
  {
    if |a| > 0 {
      assert (a + t)[0] == a[0] && (a + t)[1..] == a[1..] + t;
      SplitSlashPrefix(a[1..], t);
      assert [a[0]] + (a[1..] + SplitSlash(t)[0]) == a + SplitSlash(t)[0];
    } else {
      var st := SplitSlash(t);
      assert a + t == t && a + st[0] == st[0];
      assert [st[0]] + st[1..] == st;
    }
  }

  /** A trailing slash adds one empty piece. */
  lemma {:induction false} SplitSlashTrailing(s: string)
    ensures SplitSlash(s + "/") == SplitSlash(s) + [""]
  {
    if |s| > 0 {
      assert (s + "/")[0] == s[0] && (s + "/")[1..] == s[1..] + "/";
      SplitSlashTrailing(s[1..]);
    } else {
      assert s + "/" == "/";
    }
  }

  /** Splitting the join of slash-free, non-empty parts gives back the parts. */
  lemma {:induction false} SplitJoinSlash(parts: seq<string>)
    requires |parts| > 0 && forall k :: 0 <= k < |parts| ==> ValidPart(parts[k])
    ensures SplitSlash(JoinSlash(parts)) == parts
  {
    var head := parts[0];
    assert '/' !in head;
    if |parts| == 1 {
      SplitSlashPrefix(head, "");
      assert head + "" == head;
    } else {
      SplitJoinSlash(parts[1..]);
      var tail := JoinSlash(parts[1..]);
      var t := "/" + tail;
      assert JoinSlash(parts) == head + t;
      SplitSlashPrefix(head, t);
      assert SplitSlash(t) == [""] + SplitSlash(tail) by {
        assert t[0] == '/' && t[1..] == tail;
      }
      assert head + "" == head;
      assert parts == [head] + parts[1..];
    }
  }

  /** Splitting at a slash splits each side. */
  lemma {:induction false} SplitSlashJoin(a: string, b: string)
    ensures SplitSlash(a + "/" + b) == SplitSlash(a) + SplitSlash(b)
  {
    if |a| == 0 {
      assert a + "/" + b == "/" + b && ("/" + b)[1..] == b;
    } else {
      assert (a + "/" + b)[0] == a[0] && (a + "/" + b)[1..] == a[1..] + "/" + b;
      SplitSlashJoin(a[1..], b);
    }
  }

  /** A string joined with a slash to a relative one parses as the path join. */
  lemma ParseSlash(a: string, b: string)
    requires |a| > 0 && !(|b| > 0 && b[0] == '/')
    ensures Parse(a + "/" + b) == Join(Parse(a), Parse(b))
  {
    SplitSlashJoin(a, b);
    KeptPartsAppend(SplitSlash(a), SplitSlash(b));
    assert (a + "/" + b)[0] == a[0];
  }

  /** Kept parts of well-formed parts are the parts themselves. */
  lemma {:induction false} KeptPartsOfValid(parts: seq<string>)
    requires forall k :: 0 <= k < |parts| ==> ValidPart(parts[k])
    ensures KeptParts(parts) == parts
  {
    if |parts| > 0 {
      KeptPartsOfValid(parts[1..]);
    }
  }

  /** The first character of a join of non-empty parts is the first part's. */
  lemma JoinSlashHead(parts: seq<string>)
    requires |parts| > 0 && |parts[0]| > 0
    ensures |JoinSlash(parts)| > 0 && JoinSlash(parts)[0] == parts[0][0]
  {
  }

  /** Round trip: parsing what `str` writes gives back the path. */
  lemma {:induction false} ParseRender(p: PurePath)
    requires Valid(p)
    ensures Parse(Render(p)) == p
  {
    var s := Render(p);
    if |p.parts| == 0 {
      assert SplitSlash("") == [""];
      assert KeptParts([""]) == KeptParts([""][1..]) == [];
      if p.absolute {
        assert s == "/" && s[1..] == "";
        assert SplitSlash(s) == [""] + [""];
        KeptPartsAppend([""], [""]);
      } else {
        assert s == "." && s[1..] == "";
        assert SplitSlash(s) == [['.'] + ""] + [];
        assert KeptParts(["."]) == KeptParts(["."][1..]) == [];
      }
    } else {
      SplitJoinSlash(p.parts);
      KeptPartsOfValid(p.parts);
      JoinSlashHead(p.parts);
      if p.absolute {
        var j := JoinSlash(p.parts);
        assert s[0] == '/' && s[1..] == j;
        assert SplitSlash(s) == [""] + p.parts;
      } else {
        assert s == JoinSlash(p.parts) && s[0] != '/';
      }
    }
  }

  /** A single well-formed part parses as the relative path of that part. */
  lemma ParsePart(part: string)
    requires ValidPart(part)
    ensures Parse(part) == PurePath(false, [part])
  {
    ParseRender(PurePath(false, [part]));
  }

  /** `str(Path(s))` is already normal: parsing it again changes nothing. */
  lemma RenderNormal(s: string)
    ensures Parse(Render(Parse(s))) == Parse(s)
  {
    ParseRender(Parse(s));
  }

  /** A trailing slash on a non-empty string does not change the path. */
  lemma TrailingSlash(s: string)
    requires |s| > 0
    ensures Parse(s + "/") == Parse(s)
  {
    SplitSlashTrailing(s);
    KeptPartsAppend(SplitSlash(s), [""]);
    assert KeptParts([""]) == [];
    assert (s + "/")[0] == s[0];
  }

  /** The empty string is the empty relative path, written ".". */
  lemma EmptyIsCurrent()
    ensures Parse("") == PurePath(false, []) && Render(Parse("")) == "."
  {
  }

  /** Appending an empty relative path leaves a path unchanged. */
  lemma JoinEmpty(p: PurePath)
    ensures Join(p, Parse("")) == p
  {
    assert p.parts + [] == p.parts;
  }

  // ---------------------------------------------------------------------
  // The order `sorted()` puts POSIX paths in
  // ---------------------------------------------------------------------

  /** What `<` on POSIX paths compares: the text split at '/', so an absolute path's key starts with "". */
  function SortKey(p: PurePath): seq<string>
  {
    SplitSlash(Render(p))
  }

  /** Python's `<=` on lists of strings: the first differing entry decides, and a prefix comes first. */
  predicate PartsLe(a: seq<string>, b: seq<string>)
  {
    |a| == 0 || (|b| > 0 && (if a[0] == b[0] then PartsLe(a[1..], b[1..]) else LexLe(a[0], b[0])))
  }

  /** `p <= q` on POSIX paths: their keys compared like lists. Every path is in order with itself. */
  predicate PathLe(p: PurePath, q: PurePath)
    ensures p == q ==> PathLe(p, q)
  {
    PartsLeRefl(SortKey(p));
    PartsLe(SortKey(p), SortKey(q))
  }

  lemma {:induction false} PartsLeRefl(a: seq<string>)
    ensures PartsLe(a, a)
  {
    if |a| > 0 {
      PartsLeRefl(a[1..]);
    }
  }

  /** Any two lists of strings are in order one way or the other. */
  lemma {:induction false} PartsLeTotal(a: seq<string>, b: seq<string>)
    ensures PartsLe(a, b) || PartsLe(b, a)
  {
    if |a| > 0 && |b| > 0 {
      if a[0] == b[0] {
        PartsLeTotal(a[1..], b[1..]);
      } else {
        LexTotal(a[0], b[0]);
      }
    }
  }

  /** Lists of strings in order both ways are equal. */
  lemma {:induction false} PartsLeAntisym(a: seq<string>, b: seq<string>)
    requires PartsLe(a, b) && PartsLe(b, a)
    ensures a == b
  {
    if |a| > 0 {
      if a[0] == b[0] {
        PartsLeAntisym(a[1..], b[1..]);
        assert a == [a[0]] + a[1..] && b == [b[0]] + b[1..];
      } else {
        LexAntisym(a[0], b[0]);
      }
    }
  }

  lemma {:induction false} PartsLeTrans(a: seq<string>, b: seq<string>, c: seq<string>)
    requires PartsLe(a, b) && PartsLe(b, c)
    ensures PartsLe(a, c)
  {
    if |a| > 0 {
      if a[0] == b[0] && b[0] == c[0] {
        PartsLeTrans(a[1..], b[1..], c[1..]);
      } else if a[0] != b[0] && b[0] != c[0] {
        LexTrans(a[0], b[0], c[0]);
        if a[0] == c[0] {
          LexAntisym(a[0], b[0]);
        }
      }
    }
  }

  /** Splitting at '/' loses nothing: joining the pieces gives the text back. */
  lemma {:induction false} JoinSplitSlash(s: string)
    ensures JoinSlash(SplitSlash(s)) == s
  {
    if |s| > 0 {
      JoinSplitSlash(s[1..]);
      var rest := SplitSlash(s[1..]);
      if s[0] == '/' {
        assert SplitSlash(s) == [""] + rest && ([""] + rest)[1..] == rest;
        assert s == "" + "/" + s[1..];
      } else {
        var pieces := [[s[0]] + rest[0]] + rest[1..];
        assert SplitSlash(s) == pieces && pieces[1..] == rest[1..];
        if |rest| > 1 {
          assert JoinSlash(rest) == rest[0] + "/" + JoinSlash(rest[1..]);
          assert JoinSlash(pieces) == ([s[0]] + rest[0]) + "/" + JoinSlash(rest[1..]);
        }
        assert s == [s[0]] + s[1..];
      }
    }
  }

  /** Any two paths are in order one way or the other. */
  lemma PathLeTotal(p: PurePath, q: PurePath)
    ensures PathLe(p, q) || PathLe(q, p)
  {
    PartsLeTotal(SortKey(p), SortKey(q));
  }

  lemma PathLeTrans(p: PurePath, q: PurePath, r: PurePath)
    requires PathLe(p, q) && PathLe(q, r)
    ensures PathLe(p, r)
  {
    PartsLeTrans(SortKey(p), SortKey(q), SortKey(r));
  }

  /** Two well-formed paths in order both ways are the same path. */
  lemma PathLeAntisym(p: PurePath, q: PurePath)
    requires Valid(p) && Valid(q) && PathLe(p, q) && PathLe(q, p)
    ensures p == q
  {
    PartsLeAntisym(SortKey(p), SortKey(q));
    JoinSplitSlash(Render(p));
    JoinSplitSlash(Render(q));
    ParseRender(p);
    ParseRender(q);
  }

  /** The key of a root path: "" for "/", nothing for a relative path. */
  function RootKey(p: PurePath): seq<string>
  {
    if p.absolute then [""] else []
  }

  /** The key of a child of `p` is the root key, p's parts and the child's name. */
  lemma SortKeyChild(p: PurePath, part: string)
    requires Valid(p) && ValidPart(part)
    ensures SortKey(Join(p, PurePath(false, [part]))) == RootKey(p) + p.parts + [part]
  {
    var q := Join(p, PurePath(false, [part]));
    assert q.parts == p.parts + [part];
    SplitJoinSlash(q.parts);
    var j := JoinSlash(q.parts);
    if p.absolute {
      assert ("/" + j)[0] == '/' && ("/" + j)[1..] == j;
    }
  }

  /** Lists with a common prefix compare as their next entries. */
  lemma {:induction false} PartsLePrefix(f: seq<string>, x: string, y: string)
    ensures PartsLe(f + [x], f + [y]) <==> LexLe(x, y)
  {
    if |f| == 0 {
      LexTotal(x, x);
      assert [x][1..] == [] && [y][1..] == [];
    } else {
      assert (f + [x])[1..] == f[1..] + [x] && (f + [y])[1..] == f[1..] + [y];
      PartsLePrefix(f[1..], x, y);
    }
  }

  /** Two children of one folder are in path order exactly when their names are in string order. */
  lemma ChildOrder(p: PurePath, a: string, b: string)
    requires Valid(p) && ValidPart(a) && ValidPart(b)
    ensures PathLe(Join(p, PurePath(false, [a])), Join(p, PurePath(false, [b]))) <==> LexLe(a, b)
  {
    SortKeyChild(p, a);
    SortKeyChild(p, b);
    PartsLePrefix(RootKey(p) + p.parts, a, b);
  }
}
