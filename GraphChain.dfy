/**
 * The chain construction shared by the calibration-graph scripts. Each
 * script fills a `nodes` dict with copies of library nodes, one copy per
 * node kind for every index of a `range`, and then a `connectivity` list
 * that links the copies of one index in kind order and, under a guard on
 * the index, the last kind of an index to the first kind of the next.
 * Node names are Python f-strings `f"{prefix}{i}"`, rendered here in
 * decimal, so that name clashes are proved absent rather than assumed.
 */
module GraphChain {

  /** A keyword-argument value of a `copy(...)` call. */
  datatype Value = IntV(i: int) | RealV(r: real) | StrV(s: string) | BoolV(b: bool) | ListV(xs: seq<Value>)

  /** A graph node: the library node it copies and the keyword arguments of the copy. */
  datatype Node = Node(template: string, params: map<string, Value>)

  /** A `connectivity` entry: (from-node name, to-node name). */
  type Edge = (string, string)

  // ---------------------------------------------------------------------
  // f"{i}": decimal rendering of a non-negative index
  // ---------------------------------------------------------------------

  predicate IsDigit(c: char)
  {
    '0' <= c <= '9'
  }

  function DigitChar(d: nat): (c: char)
    requires d < 10
    ensures IsDigit(c) && c as int - '0' as int == d
  {
    ('0' as int + d) as char
  }

  /** `str(n)` for n >= 0: its decimal digits, with no leading zero. */
  function Decimal(n: nat): (s: string)
    ensures |s| > 0 && forall k :: 0 <= k < |s| ==> IsDigit(s[k])
  {
    if n < 10 then [DigitChar(n)] else Decimal(n / 10) + [DigitChar(n % 10)]
  }

  /** The number a string of decimal digits denotes. */
  function ParseDecimal(s: string): nat
  {
    if |s| == 0 then 0
    else
      var d := s[|s| - 1] as int - '0' as int;
      ParseDecimal(s[..|s| - 1]) * 10 + (if 0 <= d then d else 0)
  }

  lemma {:induction false} DecimalRoundTrip(n: nat)
    ensures ParseDecimal(Decimal(n)) == n
  {
    if n >= 10 {
      DecimalRoundTrip(n / 10);
      var s := Decimal(n);
      assert s[..|s| - 1] == Decimal(n / 10);
    }
  }

  /** Different indices render differently. */
  lemma {:induction false} DecimalInjective(m: nat, n: nat)
    ensures Decimal(m) == Decimal(n) ==> m == n
  {
    DecimalRoundTrip(m);
    DecimalRoundTrip(n);
  }

  /** f"{prefix}{i}". */
  function Indexed(prefix: string, i: nat): string
  {
    prefix + Decimal(i)
  }

  predicate EndsInNonDigit(s: string)
  {
    |s| > 0 && !IsDigit(s[|s| - 1])
  }

  /**
   * With prefixes that end in a non-digit (every prefix the scripts use ends
   * in '_' or a letter), the rendered name determines both prefix and index.
   */
  lemma {:induction false} IndexedInjective(p1: string, i1: nat, p2: string, i2: nat)
    requires EndsInNonDigit(p1) && EndsInNonDigit(p2)
    ensures Indexed(p1, i1) == Indexed(p2, i2) ==> p1 == p2 && i1 == i2
  {
    if Indexed(p1, i1) == Indexed(p2, i2) {
      var s := Indexed(p1, i1);
      IndexedLayout(p1, i1);
      IndexedLayout(p2, i2);
      assert |p1| == |p2|;
      assert p1 == s[..|p1|] && p2 == s[..|p2|];
      assert Decimal(i1) == s[|p1|..] && Decimal(i2) == s[|p2|..];
      DecimalInjective(i1, i2);
    }
  }

  /** f"{prefix}{i}" is the prefix, whose last character is not a digit, followed by digits only. */
  lemma IndexedLayout(prefix: string, i: nat)
    requires EndsInNonDigit(prefix)
    ensures var s := Indexed(prefix, i);
      && !IsDigit(s[|prefix| - 1])
      && forall k :: |prefix| <= k < |s| ==> IsDigit(s[k])
  {
    var s := Indexed(prefix, i);
    assert s[|prefix| - 1] == prefix[|prefix| - 1];
    forall k | |prefix| <= k < |s| ensures IsDigit(s[k]) {
      assert s[k] == Decimal(i)[k - |prefix|];
    }
  }

  /** A rendered name ends in a digit, so it never equals a name that does not. */
  lemma {:induction false} IndexedEndsInDigit(prefix: string, i: nat)
    ensures !EndsInNonDigit(Indexed(prefix, i))
  {
    var s := Indexed(prefix, i);
    assert s[|s| - 1] == Decimal(i)[|Decimal(i)| - 1];
  }

  // ---------------------------------------------------------------------
  // Sequences without repetition, and simple paths
  // ---------------------------------------------------------------------

  predicate Distinct(s: seq<string>)
  {
    forall p, q :: 0 <= p < q < |s| ==> s[p] != s[q]
  }

  lemma {:induction false} DistinctCard(s: seq<string>)
    requires Distinct(s)
    ensures |set x | x in s| == |s|
  {
    if |s| > 0 {
      var init := s[..|s| - 1];
      DistinctCard(init);
      assert (set x | x in s) == (set x | x in init) + {s[|s| - 1]};
      assert s[|s| - 1] !in init;
    }
  }

  /** The edges of the path visiting `order` front to back: one per consecutive pair. */
  function PathEdges(order: seq<string>): (r: seq<Edge>)
    ensures |r| == if |order| == 0 then 0 else |order| - 1
  {
    if |order| <= 1 then [] else [(order[0], order[1])] + PathEdges(order[1..])
  }

  /** The k-th edge of the path joins the k-th name to the next. */
  lemma {:induction false} PathEdgesAt(order: seq<string>)
    ensures forall k :: 0 <= k < |PathEdges(order)| ==> PathEdges(order)[k] == (order[k], order[k + 1])
  {
    if |order| > 1 {
      PathEdgesAt(order[1..]);
      var r := PathEdges(order);
      forall k | 0 < k < |r| ensures r[k] == (order[k], order[k + 1]) {
        assert r[k] == PathEdges(order[1..])[k - 1];
      }
    }
  }

  /** Concatenating two paths joins them with one edge from the end of the first to the start of the second. */
  lemma {:induction false} PathEdgesAppend(a: seq<string>, b: seq<string>)
    requires |a| > 0 && |b| > 0
    ensures PathEdges(a + b) == PathEdges(a) + [(a[|a| - 1], b[0])] + PathEdges(b)
  {
    var l := PathEdges(a + b);
    var r := PathEdges(a) + [(a[|a| - 1], b[0])] + PathEdges(b);
    PathEdgesAt(a + b);
    PathEdgesAt(a);
    PathEdgesAt(b);
    assert |l| == |r|;
    forall k | 0 <= k < |l| ensures l[k] == r[k] {
      if k < |a| - 1 {
        assert r[k] == PathEdges(a)[k];
        assert (a + b)[k] == a[k] && (a + b)[k + 1] == a[k + 1];
      } else if k == |a| - 1 {
        assert r[k] == (a[|a| - 1], b[0]);
        assert (a + b)[k] == a[k] && (a + b)[k + 1] == b[0];
      } else {
        assert r[k] == PathEdges(b)[k - |a|];
        assert (a + b)[k] == b[k - |a|] && (a + b)[k + 1] == b[k + 1 - |a|];
      }
    }
  }

  /**
   * The graph is one simple path through `order`: the node names are
   * exactly the names in `order`, none repeats, and the edges link
   * consecutive names and nothing else.
   */
  predicate PathThrough(nodes: map<string, Node>, edges: seq<Edge>, order: seq<string>)
  {
    && Distinct(order)
    && nodes.Keys == (set x | x in order)
    && edges == PathEdges(order)
  }

  /** Every `connectivity` endpoint names a node of the graph. */
  predicate EndpointsDefined(nodes: map<string, Node>, edges: seq<Edge>)
  {
    forall k :: 0 <= k < |edges| ==> edges[k].0 in nodes && edges[k].1 in nodes
  }

  /** A simple path through n > 0 nodes has every endpoint defined and n - 1 edges. */
  lemma {:induction false} PathShape(nodes: map<string, Node>, edges: seq<Edge>, order: seq<string>)
    requires PathThrough(nodes, edges, order) && |order| > 0
    ensures EndpointsDefined(nodes, edges)
    ensures |nodes| == |order| && |edges| == |nodes| - 1
  {
    DistinctCard(order);
    PathEdgesAt(order);
    assert |nodes| == |nodes.Keys|;
    forall k | 0 <= k < |edges| ensures edges[k].0 in nodes && edges[k].1 in nodes {
      assert edges[k] == (order[k], order[k + 1]);
    }
  }

  // ---------------------------------------------------------------------
  // The builder loops' specification
  // ---------------------------------------------------------------------

  /** One node kind of a loop body: the name of its copy for index i, and the copy. */
  datatype Kind = Kind(name: nat -> string, make: nat -> Node)

  /** The names one loop iteration adds, in the order of the loop body. */
  function Round(kinds: seq<Kind>, i: nat): (r: seq<string>)
    ensures |r| == |kinds| && forall j :: 0 <= j < |kinds| ==> r[j] == kinds[j].name(i)
  {
    seq(|kinds|, j requires 0 <= j < |kinds| => kinds[j].name(i))
  }

  /** The names `for i in range(lo, hi)` adds, iteration by iteration. */
  function Order(kinds: seq<Kind>, lo: nat, hi: nat): seq<string>
    requires lo <= hi
    decreases hi - lo
  {
    if hi == lo then [] else Order(kinds, lo, hi - 1) + Round(kinds, hi - 1)
  }

  /** A non-empty range starts with the first kind's name at lo and ends with the last kind's name at hi - 1. */
  lemma OrderEnds(kinds: seq<Kind>, lo: nat, hi: nat)
    requires |kinds| > 0 && lo < hi
    ensures var r := Order(kinds, lo, hi);
      |r| > 0 && r[0] == kinds[0].name(lo) && r[|r| - 1] == kinds[|kinds| - 1].name(hi - 1)
  {
    OrderFirst(kinds, lo, hi - 1);
    OrderLast(kinds, lo, hi - 1);
  }

  lemma {:induction false} OrderFirst(kinds: seq<Kind>, lo: nat, i: nat)
    requires |kinds| > 0 && lo <= i
    ensures var r := Order(kinds, lo, i + 1); |r| > 0 && r[0] == kinds[0].name(lo)
    decreases i - lo
  {
    var a := Order(kinds, lo, i);
    var b := Round(kinds, i);
    assert Order(kinds, lo, i + 1) == a + b;
    if i > lo {
      OrderFirst(kinds, lo, i - 1);
      assert (a + b)[0] == a[0];
    } else {
      assert a + b == b;
    }
  }

  lemma OrderLast(kinds: seq<Kind>, lo: nat, i: nat)
    requires |kinds| > 0 && lo <= i
    ensures var r := Order(kinds, lo, i + 1); |r| > 0 && r[|r| - 1] == kinds[|kinds| - 1].name(i)
  {
    var a := Order(kinds, lo, i);
    var b := Round(kinds, i);
    assert Order(kinds, lo, i + 1) == a + b;
    assert (a + b)[|a + b| - 1] == b[|b| - 1];
  }

  /** Every iteration adds one name per kind. */
  lemma {:induction false} OrderLength(kinds: seq<Kind>, lo: nat, hi: nat)
    requires lo <= hi
    ensures |Order(kinds, lo, hi)| == |kinds| * (hi - lo)
    decreases hi - lo
  {
    if hi > lo {
      OrderLength(kinds, lo, hi - 1);
      assert |kinds| * (hi - lo) == |kinds| * (hi - 1 - lo) + |kinds|;
    }
  }

  ghost predicate MadeIn(kinds: seq<Kind>, lo: nat, hi: nat, x: string)
  {
    exists i: nat, j :: lo <= i < hi && 0 <= j < |kinds| && x == kinds[j].name(i)
  }

  /** The names in the order are exactly the names of the kinds at the indices of the range. */
  lemma {:induction false} OrderNames(kinds: seq<Kind>, lo: nat, hi: nat)
    requires lo <= hi
    ensures forall x :: x in Order(kinds, lo, hi) <==> MadeIn(kinds, lo, hi, x)
    decreases hi - lo
  {
    if hi > lo {
      OrderNames(kinds, lo, hi - 1);
      var r := Round(kinds, hi - 1);
      forall x ensures x in Order(kinds, lo, hi) <==> MadeIn(kinds, lo, hi, x) {
        if x in r {
          var j :| 0 <= j < |r| && r[j] == x;
          assert x == kinds[j].name(hi - 1);
        }
        if MadeIn(kinds, lo, hi, x) {
          var i: nat, j :| lo <= i < hi && 0 <= j < |kinds| && x == kinds[j].name(i);
          if i == hi - 1 {
            assert x == r[j];
          } else {
            assert MadeIn(kinds, lo, hi - 1, x);
          }
        }
      }
    }
  }

  /** No two (index, kind) pairs of the range give the same name. */
  ghost predicate NamesInjective(kinds: seq<Kind>, lo: nat, hi: nat)
  {
    forall i1: nat, j1, i2: nat, j2 ::
      lo <= i1 < hi && 0 <= j1 < |kinds| && lo <= i2 < hi && 0 <= j2 < |kinds| && kinds[j1].name(i1) == kinds[j2].name(i2)
      ==> i1 == i2 && j1 == j2
  }

  /** No name of `a` is a name of `b`. */
  predicate Disjoint(a: seq<string>, b: seq<string>)
  {
    forall x :: x in a ==> x !in b
  }

  lemma {:induction false} DistinctAppend(a: seq<string>, b: seq<string>)
    requires Distinct(a) && Distinct(b) && Disjoint(a, b)
    ensures Distinct(a + b)
  {
    var s := a + b;
    forall p, q | 0 <= p < q < |s| ensures s[p] != s[q] {
      if p < |a| && q >= |a| {
        assert s[p] == a[p] && s[q] == b[q - |a|];
        assert a[p] in a;
      } else if p >= |a| {
        assert s[p] == b[p - |a|] && s[q] == b[q - |a|];
      } else {
        assert s[p] == a[p] && s[q] == a[q];
      }
    }
  }

  lemma RoundDistinct(kinds: seq<Kind>, i: nat, lo: nat, hi: nat)
    requires lo <= i < hi && NamesInjective(kinds, lo, hi)
    ensures Distinct(Round(kinds, i))
  {
  }

  /** A name of an earlier iteration is not a name of iteration i. */
  lemma {:induction false} RoundFresh(kinds: seq<Kind>, lo: nat, i: nat, hi: nat, x: string)
    requires lo <= i < hi && NamesInjective(kinds, lo, hi)
    requires x in Order(kinds, lo, i)
    ensures x !in Round(kinds, i)
  {
    OrderNames(kinds, lo, i);
    assert MadeIn(kinds, lo, i, x);
    var i1: nat, j1 :| lo <= i1 < i && 0 <= j1 < |kinds| && x == kinds[j1].name(i1);
    var r := Round(kinds, i);
    forall j2 | 0 <= j2 < |r| ensures r[j2] != x {
      assert r[j2] == kinds[j2].name(i);
    }
  }

  /** No name of the iterations before i is a name of iteration i. */
  lemma {:induction false} OrderRoundDisjoint(kinds: seq<Kind>, lo: nat, i: nat, hi: nat)
    requires lo <= i < hi && NamesInjective(kinds, lo, hi)
    ensures Disjoint(Order(kinds, lo, i), Round(kinds, i))
  {
    forall x | x in Order(kinds, lo, i) ensures x !in Round(kinds, i) {
      RoundFresh(kinds, lo, i, hi, x);
    }
  }

  /** With no name clash in a range, no name repeats in its order. */
  lemma {:induction false} OrderDistinct(kinds: seq<Kind>, lo: nat, hi: nat, top: nat)
    requires lo <= hi <= top && NamesInjective(kinds, lo, top)
    ensures Distinct(Order(kinds, lo, hi))
    decreases hi - lo
  {
    if hi > lo {
      OrderDistinct(kinds, lo, hi - 1, top);
      OrderDistinctStep(kinds, lo, hi - 1, top);
    }
  }

  /** Iteration i adds names that repeat neither each other nor an earlier name. */
  lemma OrderDistinctStep(kinds: seq<Kind>, lo: nat, i: nat, top: nat)
    requires lo <= i < top && NamesInjective(kinds, lo, top)
    requires Distinct(Order(kinds, lo, i))
    ensures Distinct(Order(kinds, lo, i + 1))
  {
    RoundDistinct(kinds, i, lo, top);
    OrderRoundDisjoint(kinds, lo, i, top);
    DistinctAppend(Order(kinds, lo, i), Round(kinds, i));
  }

  /** The dict after the first c assignments of iteration i. */
  function AddRound(m: map<string, Node>, kinds: seq<Kind>, i: nat, c: nat): map<string, Node>
    requires c <= |kinds|
  {
    if c == 0 then m else AddRound(m, kinds, i, c - 1)[kinds[c - 1].name(i) := kinds[c - 1].make(i)]
  }

  /** The dict after `for i in range(lo, hi)`, starting from m0. */
  function Built(m0: map<string, Node>, kinds: seq<Kind>, lo: nat, hi: nat): map<string, Node>
    requires lo <= hi
    decreases hi - lo
  {
    if hi == lo then m0 else AddRound(Built(m0, kinds, lo, hi - 1), kinds, hi - 1, |kinds|)
  }

  lemma {:induction false} AddRoundKeys(m: map<string, Node>, kinds: seq<Kind>, i: nat, c: nat)
    requires c <= |kinds|
    ensures forall x :: x in AddRound(m, kinds, i, c) <==> x in m || x in Round(kinds, i)[..c]
  {
    if c > 0 {
      AddRoundKeys(m, kinds, i, c - 1);
      assert Round(kinds, i)[..c] == Round(kinds, i)[..c - 1] + [kinds[c - 1].name(i)];
    }
  }

  /** The dict holds the names it started with and every name of the range, and nothing else. */
  lemma {:induction false} BuiltKeys(m0: map<string, Node>, kinds: seq<Kind>, lo: nat, hi: nat)
    requires lo <= hi
    ensures forall x :: x in Built(m0, kinds, lo, hi) <==> x in m0 || x in Order(kinds, lo, hi)
    decreases hi - lo
  {
    if hi > lo {
      BuiltKeys(m0, kinds, lo, hi - 1);
      AddRoundKeys(Built(m0, kinds, lo, hi - 1), kinds, hi - 1, |kinds|);
      assert Round(kinds, hi - 1)[..|kinds|] == Round(kinds, hi - 1);
    }
  }

  /** An assignment of iteration i is not undone by the later assignments of the same iteration. */
  lemma {:induction false} AddRoundAt(m: map<string, Node>, kinds: seq<Kind>, i: nat, c: nat, j: nat, lo: nat, hi: nat)
    requires j < c <= |kinds| && lo <= i < hi && NamesInjective(kinds, lo, hi)
    ensures kinds[j].name(i) in AddRound(m, kinds, i, c)
    ensures AddRound(m, kinds, i, c)[kinds[j].name(i)] == kinds[j].make(i)
  {
    if j < c - 1 {
      AddRoundAt(m, kinds, i, c - 1, j, lo, hi);
      assert kinds[c - 1].name(i) != kinds[j].name(i);
    }
  }

  /** A name the first c assignments of iteration i do not use keeps its node. */
  lemma {:induction false} AddRoundOther(m: map<string, Node>, kinds: seq<Kind>, i: nat, c: nat, x: string)
    requires c <= |kinds| && x in m
    requires forall j :: 0 <= j < c ==> kinds[j].name(i) != x
    ensures x in AddRound(m, kinds, i, c) && AddRound(m, kinds, i, c)[x] == m[x]
  {
    if c > 0 {
      AddRoundOther(m, kinds, i, c - 1, x);
    }
  }

  /** With no name clash in the range, a name of the range holds the copy its own kind made for its own index. */
  lemma {:induction false} BuiltAt(m0: map<string, Node>, kinds: seq<Kind>, lo: nat, hi: nat, top: nat, i: nat, j: nat)
    requires lo <= i < hi <= top && j < |kinds| && NamesInjective(kinds, lo, top)
    ensures kinds[j].name(i) in Built(m0, kinds, lo, hi)
    ensures Built(m0, kinds, lo, hi)[kinds[j].name(i)] == kinds[j].make(i)
    decreases hi - lo
  {
    var prev := Built(m0, kinds, lo, hi - 1);
    if i == hi - 1 {
      AddRoundAt(prev, kinds, i, |kinds|, j, lo, top);
    } else {
      BuiltAt(m0, kinds, lo, hi - 1, top, i, j);
      forall j' | 0 <= j' < |kinds| ensures kinds[j'].name(hi - 1) != kinds[j].name(i) {
      }
      AddRoundOther(prev, kinds, hi - 1, |kinds|, kinds[j].name(i));
    }
  }

  /** A starting name that the range does not reuse keeps its node. */
  lemma {:induction false} BuiltOther(m0: map<string, Node>, kinds: seq<Kind>, lo: nat, hi: nat, x: string)
    requires lo <= hi && x in m0 && x !in Order(kinds, lo, hi)
    ensures x in Built(m0, kinds, lo, hi) && Built(m0, kinds, lo, hi)[x] == m0[x]
    decreases hi - lo
  {
    if hi > lo {
      var r := Round(kinds, hi - 1);
      assert Order(kinds, lo, hi) == Order(kinds, lo, hi - 1) + r;
      BuiltOther(m0, kinds, lo, hi - 1, x);
      forall j | 0 <= j < |kinds| ensures kinds[j].name(hi - 1) != x {
        assert r[j] in Order(kinds, lo, hi);
      }
      AddRoundOther(Built(m0, kinds, lo, hi - 1), kinds, hi - 1, |kinds|, x);
    }
  }

  /**
   * With no name clash in the range, each name holds the copy its own kind
   * made for its own index, and the names it started with keep their nodes.
   */
  lemma BuiltValues(m0: map<string, Node>, kinds: seq<Kind>, lo: nat, hi: nat)
    requires lo <= hi && NamesInjective(kinds, lo, hi)
    ensures forall i: nat, j :: lo <= i < hi && 0 <= j < |kinds| ==>
      kinds[j].name(i) in Built(m0, kinds, lo, hi) && Built(m0, kinds, lo, hi)[kinds[j].name(i)] == kinds[j].make(i)
    ensures forall x :: x in m0 && x !in Order(kinds, lo, hi) ==> x in Built(m0, kinds, lo, hi) && Built(m0, kinds, lo, hi)[x] == m0[x]
  {
    forall i: nat, j | lo <= i < hi && 0 <= j < |kinds|
      ensures kinds[j].name(i) in Built(m0, kinds, lo, hi) && Built(m0, kinds, lo, hi)[kinds[j].name(i)] == kinds[j].make(i)
    {
      BuiltAt(m0, kinds, lo, hi, hi, i, j);
    }
    forall x | x in m0 && x !in Order(kinds, lo, hi)
      ensures x in Built(m0, kinds, lo, hi) && Built(m0, kinds, lo, hi)[x] == m0[x]
    {
      BuiltOther(m0, kinds, lo, hi, x);
    }
  }

  /** A property every starting node and every copy of the range has, every node of the dict has. */
  lemma {:induction false} BuiltAll(m0: map<string, Node>, kinds: seq<Kind>, lo: nat, hi: nat, P: Node -> bool)
    requires lo <= hi
    requires forall x :: x in m0 ==> P(m0[x])
    requires forall i: nat, j :: lo <= i < hi && 0 <= j < |kinds| ==> P(kinds[j].make(i))
    ensures forall x :: x in Built(m0, kinds, lo, hi) ==> P(Built(m0, kinds, lo, hi)[x])
    decreases hi - lo
  {
    if hi > lo {
      BuiltAll(m0, kinds, lo, hi - 1, P);
      AddRoundAll(Built(m0, kinds, lo, hi - 1), kinds, hi - 1, |kinds|, P);
    }
  }

  lemma {:induction false} AddRoundAll(m: map<string, Node>, kinds: seq<Kind>, i: nat, c: nat, P: Node -> bool)
    requires c <= |kinds|
    requires forall x :: x in m ==> P(m[x])
    requires forall j :: 0 <= j < |kinds| ==> P(kinds[j].make(i))
    ensures forall x :: x in AddRound(m, kinds, i, c) ==> P(AddRound(m, kinds, i, c)[x])
  {
    if c > 0 {
      AddRoundAll(m, kinds, i, c - 1, P);
    }
  }

  /** The edges one iteration adds: its kinds in order, then, when i < bound, on to the next index. */
  function RoundEdges(kinds: seq<Kind>, i: nat, bound: int): seq<Edge>
    requires |kinds| > 0
  {
    PathEdges(Round(kinds, i)) + (if i < bound then [(kinds[|kinds| - 1].name(i), kinds[0].name(i + 1))] else [])
  }

  /** The edges `for i in range(lo, hi)` adds with the guard `i < bound`. */
  function Chain(kinds: seq<Kind>, lo: nat, hi: nat, bound: int): seq<Edge>
    requires |kinds| > 0 && lo <= hi
    decreases hi - lo
  {
    if hi == lo then [] else Chain(kinds, lo, hi - 1, bound) + RoundEdges(kinds, hi - 1, bound)
  }

  /** A path ending where the next begins, followed by the next, is the path through both. */
  lemma {:induction false} PathJoin(a: seq<string>, r: seq<string>, t: seq<string>)
    requires |a| > 0 && |r| > 0
    ensures PathEdges(a + [r[0]]) + PathEdges(r + t) == PathEdges((a + r) + t)
  {
    var rt := r + t;
    assert rt[0] == r[0];
    assert (a + r) + t == a + rt;
    PathEdgesAppend(a, [r[0]]);
    PathEdgesAppend(a, rt);
    PathEdgesUnit(r[0]);
  }

  lemma PathEdgesUnit(x: string)
    ensures PathEdges([x]) == []
  {
  }

  /** Under the guard, one iteration's edges are the path through its names on to the next index's first name. */
  lemma {:induction false} RoundLinked(kinds: seq<Kind>, i: nat, bound: int)
    requires |kinds| > 0 && i < bound
    ensures RoundEdges(kinds, i, bound) == PathEdges(Round(kinds, i) + [kinds[0].name(i + 1)])
  {
    var r := Round(kinds, i);
    var t := [kinds[0].name(i + 1)];
    PathEdgesAppend(r, t);
    assert PathEdges(t) == [];
    assert r[|r| - 1] == kinds[|kinds| - 1].name(i);
  }

  /**
   * While the guard holds, the edges are the path through the names of the
   * range, continued to the first kind's name at index hi.
   */
  lemma {:induction false} ChainLinked(kinds: seq<Kind>, lo: nat, hi: nat, bound: int)
    requires |kinds| > 0 && lo < hi && hi <= bound
    ensures Chain(kinds, lo, hi, bound) == PathEdges(Order(kinds, lo, hi) + [kinds[0].name(hi)])
    decreases hi - lo
  {
    var r := Round(kinds, hi - 1);
    var a := Order(kinds, lo, hi - 1);
    var t := [kinds[0].name(hi)];
    RoundLinked(kinds, hi - 1, bound);
    if hi - 1 > lo {
      ChainLinked(kinds, lo, hi - 1, bound);
      assert [kinds[0].name(hi - 1)] == [r[0]];
      PathJoin(a, r, t);
    } else {
      assert a + r + t == r + t;
    }
  }

  /**
   * When the guard fails only at the last index, the edges are exactly the
   * path through the names of the range.
   */
  lemma {:induction false} ChainClosed(kinds: seq<Kind>, lo: nat, hi: nat, bound: int)
    requires |kinds| > 0 && lo < hi && bound == hi - 1
    ensures Chain(kinds, lo, hi, bound) == PathEdges(Order(kinds, lo, hi))
  {
    var last := hi - 1;
    var r := Round(kinds, last);
    var a := Order(kinds, lo, last);
    RoundClosed(kinds, last);
    assert Chain(kinds, lo, hi, bound) == Chain(kinds, lo, last, bound) + PathEdges(r);
    assert Order(kinds, lo, hi) == a + r;
    if last > lo {
      ChainLinked(kinds, lo, last, bound);
      assert r[0] == kinds[0].name(last);
      PathClose(a, r);
    } else {
      assert a + r == r && [] + PathEdges(r) == PathEdges(r);
    }
  }

  /** The last iteration, where the guard fails: its edges are the path through its own names. */
  lemma RoundClosed(kinds: seq<Kind>, i: nat)
    requires |kinds| > 0
    ensures RoundEdges(kinds, i, i) == PathEdges(Round(kinds, i))
  {
    assert PathEdges(Round(kinds, i)) + [] == PathEdges(Round(kinds, i));
  }

  /** A path continued to the start of `r`, followed by the path through `r`, is the path through both. */
  lemma PathClose(a: seq<string>, r: seq<string>)
    requires |r| > 0
    ensures PathEdges(a + [r[0]]) + PathEdges(r) == PathEdges(a + r)
  {
    PathEdgesUnit(r[0]);
    if |a| == 0 {
      assert a + [r[0]] == [r[0]] && a + r == r;
    } else {
      PathEdgesAppend(a, [r[0]]);
      PathEdgesAppend(a, r);
    }
  }

  // ---------------------------------------------------------------------
  // The builder loops
  // ---------------------------------------------------------------------

  /** The node loop of a script: for i in range(lo, hi), every kind's copy for i, in kind order. */
  method AddNodes(nodes0: map<string, Node>, kinds: seq<Kind>, lo: nat, hi: nat) returns (nodes: map<string, Node>)
    requires lo <= hi
    ensures nodes == Built(nodes0, kinds, lo, hi)
  {
    nodes := nodes0;
    for i := lo to hi
      invariant nodes == Built(nodes0, kinds, lo, i)
    {
      ghost var start := nodes;
      for j := 0 to |kinds|
        invariant nodes == AddRound(start, kinds, i, j)
      {
        nodes := nodes[kinds[j].name(i) := kinds[j].make(i)];
      }
    }
  }

  /**
   * The connectivity loop of a script: for i in range(lo, hi), an edge
   * between consecutive kinds of index i, then, if i < bound, an edge from
   * the last kind of i to the first kind of i + 1.
   */
  method ConnectChain(edges0: seq<Edge>, kinds: seq<Kind>, lo: nat, hi: nat, bound: int) returns (edges: seq<Edge>)
    requires |kinds| > 0 && lo <= hi
    ensures edges == edges0 + Chain(kinds, lo, hi, bound)
  {
    edges := edges0;
    for i := lo to hi
      invariant edges == edges0 + Chain(kinds, lo, i, bound)
    {
      edges := ConnectRound(edges, kinds, i, bound);
      assert Chain(kinds, lo, i + 1, bound) == Chain(kinds, lo, i, bound) + RoundEdges(kinds, i, bound);
      AppendAssoc(edges0, Chain(kinds, lo, i, bound), RoundEdges(kinds, i, bound));
    }
  }

  lemma AppendAssoc(a: seq<Edge>, b: seq<Edge>, c: seq<Edge>)
    ensures (a + b) + c == a + (b + c)
  {
  }

  /** The body of the connectivity loop for index i. */
  method ConnectRound(edges0: seq<Edge>, kinds: seq<Kind>, i: nat, bound: int) returns (edges: seq<Edge>)
    requires |kinds| > 0
    ensures edges == edges0 + RoundEdges(kinds, i, bound)
  {
    edges := edges0;
    ghost var r := Round(kinds, i);
    assert r[..1] == [kinds[0].name(i)];
    for j := 0 to |kinds| - 1
      invariant edges == edges0 + PathEdges(r[..j + 1])
    {
      edges := edges + [(kinds[j].name(i), kinds[j + 1].name(i))];
      PathEdgesAppend(r[..j + 1], [r[j + 1]]);
      assert r[..j + 2] == r[..j + 1] + [r[j + 1]];
    }
    assert r[..|kinds|] == r;
    if i < bound {
      edges := edges + [(kinds[|kinds| - 1].name(i), kinds[0].name(i + 1))];
    }
  }

  /**
   * Copies named f"{prefix}{i}" with one prefix per kind, each ending in a
   * non-digit and no two alike: no two (index, kind) pairs clash.
   */
  lemma {:induction false} IndexedKindsInjective(kinds: seq<Kind>, prefixes: seq<string>, lo: nat, hi: nat)
    requires |prefixes| == |kinds|
    requires forall j :: 0 <= j < |kinds| ==> EndsInNonDigit(prefixes[j])
    requires forall j, i: nat :: 0 <= j < |kinds| ==> kinds[j].name(i) == Indexed(prefixes[j], i)
    requires forall j1, j2 :: 0 <= j1 < j2 < |prefixes| ==> prefixes[j1] != prefixes[j2]
    ensures NamesInjective(kinds, lo, hi)
  {
    forall i1: nat, j1, i2: nat, j2 |
      lo <= i1 < hi && 0 <= j1 < |kinds| && lo <= i2 < hi && 0 <= j2 < |kinds| && kinds[j1].name(i1) == kinds[j2].name(i2)
      ensures i1 == i2 && j1 == j2
    {
      IndexedInjective(prefixes[j1], i1, prefixes[j2], i2);
      assert prefixes[j1] == prefixes[j2];
    }
  }

  /** A name that does not end in a digit is no copy's name. */
  lemma {:induction false} UnindexedFresh(kinds: seq<Kind>, prefixes: seq<string>, lo: nat, hi: nat, x: string)
    requires lo <= hi && |prefixes| == |kinds|
    requires forall j, i: nat :: 0 <= j < |kinds| ==> kinds[j].name(i) == Indexed(prefixes[j], i)
    requires EndsInNonDigit(x)
    ensures x !in Order(kinds, lo, hi)
  {
    OrderNames(kinds, lo, hi);
    if x in Order(kinds, lo, hi) {
      var i: nat, j :| lo <= i < hi && 0 <= j < |kinds| && x == kinds[j].name(i);
      IndexedEndsInDigit(prefixes[j], i);
    }
  }

  /** The name a kind gives to an index outside the range is no copy's name. */
  lemma {:induction false} OutOfRangeFresh(kinds: seq<Kind>, prefixes: seq<string>, lo: nat, hi: nat, j0: nat, k: nat)
    requires lo <= hi && |prefixes| == |kinds| && j0 < |kinds| && !(lo <= k < hi)
    requires forall j :: 0 <= j < |kinds| ==> EndsInNonDigit(prefixes[j])
    requires forall j, i: nat :: 0 <= j < |kinds| ==> kinds[j].name(i) == Indexed(prefixes[j], i)
    ensures kinds[j0].name(k) !in Order(kinds, lo, hi)
  {
    OrderNames(kinds, lo, hi);
    if kinds[j0].name(k) in Order(kinds, lo, hi) {
      var i: nat, j :| lo <= i < hi && 0 <= j < |kinds| && kinds[j0].name(k) == kinds[j].name(i);
      IndexedInjective(prefixes[j0], k, prefixes[j], i);
    }
  }

  // ---------------------------------------------------------------------
  // The shapes the scripts build
  // ---------------------------------------------------------------------

  /** The copy was made with keyword argument `key` set to `v`. */
  predicate HasParam(n: Node, key: string, v: Value)
  {
    key in n.params && n.params[key] == v
  }

  /** Every copy passes its own dict key as its `name` argument. */
  ghost predicate NamedAfterKey(nodes: map<string, Node>)
  {
    forall x :: x in nodes ==> "name" in nodes[x].params && nodes[x].params["name"] == StrV(x)
  }

  /** Adding one entry named after its key keeps the dict named after its keys. */
  lemma NamedUpdate(nodes: map<string, Node>, key: string, t: Node)
    requires NamedAfterKey(nodes) && "name" in t.params && t.params["name"] == StrV(key)
    ensures NamedAfterKey(nodes[key := t])
  {
  }

  /** When every kind names its copy after its key, and the initial entries are named so, so is the whole dict. */
  lemma BuiltNamed(m0: map<string, Node>, kinds: seq<Kind>, lo: nat, hi: nat)
    requires lo <= hi && NamesInjective(kinds, lo, hi) && NamedAfterKey(m0)
    requires forall i: nat, j :: lo <= i < hi && 0 <= j < |kinds| ==>
      "name" in kinds[j].make(i).params && kinds[j].make(i).params["name"] == StrV(kinds[j].name(i))
    ensures NamedAfterKey(Built(m0, kinds, lo, hi))
  {
    var nodes := Built(m0, kinds, lo, hi);
    BuiltKeys(m0, kinds, lo, hi);
    OrderNames(kinds, lo, hi);
    BuiltValues(m0, kinds, lo, hi);
    forall x | x in nodes ensures "name" in nodes[x].params && nodes[x].params["name"] == StrV(x) {
      if x in Order(kinds, lo, hi) {
        assert MadeIn(kinds, lo, hi, x);
      }
    }
  }

  /** Started from an empty dict, the keys are the names of the order. */
  lemma KeysOfOrder(kinds: seq<Kind>, lo: nat, hi: nat)
    requires lo <= hi
    ensures Built(map[], kinds, lo, hi).Keys == set x | x in Order(kinds, lo, hi)
  {
    BuiltKeys(map[], kinds, lo, hi);
  }

  /** With no name clash, the loops create |kinds|·(hi - lo) entries. */
  lemma BuiltCount(kinds: seq<Kind>, lo: nat, hi: nat)
    requires lo <= hi && NamesInjective(kinds, lo, hi)
    ensures |Built(map[], kinds, lo, hi)| == |kinds| * (hi - lo)
  {
    OrderDistinct(kinds, lo, hi, hi);
    KeysOfOrder(kinds, lo, hi);
    DistinctCard(Order(kinds, lo, hi));
    OrderLength(kinds, lo, hi);
    assert |Built(map[], kinds, lo, hi)| == |Built(map[], kinds, lo, hi).Keys|;
  }

  // A guarded chain: `if i < hi - 1` before the link to the next index.

  /** The guarded chain is one simple path through every copy. */
  lemma GuardedChainPath(kinds: seq<Kind>, lo: nat, hi: nat)
    requires |kinds| > 0 && lo < hi && NamesInjective(kinds, lo, hi)
    ensures PathThrough(Built(map[], kinds, lo, hi), Chain(kinds, lo, hi, hi - 1), Order(kinds, lo, hi))
  {
    OrderDistinct(kinds, lo, hi, hi);
    KeysOfOrder(kinds, lo, hi);
    ChainClosed(kinds, lo, hi, hi - 1);
  }

  lemma GuardedChainEndpoints(kinds: seq<Kind>, lo: nat, hi: nat)
    requires |kinds| > 0 && lo < hi && NamesInjective(kinds, lo, hi)
    ensures EndpointsDefined(Built(map[], kinds, lo, hi), Chain(kinds, lo, hi, hi - 1))
  {
    GuardedChainPath(kinds, lo, hi);
    PathShape(Built(map[], kinds, lo, hi), Chain(kinds, lo, hi, hi - 1), Order(kinds, lo, hi));
  }

  /** The guarded chain has one edge fewer than there are copies. */
  lemma GuardedChainLength(kinds: seq<Kind>, lo: nat, hi: nat)
    requires |kinds| > 0 && lo < hi
    ensures |Chain(kinds, lo, hi, hi - 1)| == |kinds| * (hi - lo) - 1
  {
    ChainClosed(kinds, lo, hi, hi - 1);
    OrderLength(kinds, lo, hi);
  }

  // One kind linked pairwise: `for i in range(n - 1)` adding (name(i), name(i + 1)).

  lemma PairChainPath(kinds: seq<Kind>, n: nat)
    requires |kinds| == 1 && n >= 2 && NamesInjective(kinds, 0, n)
    ensures PathThrough(Built(map[], kinds, 0, n), Chain(kinds, 0, n - 1, n - 1), Order(kinds, 0, n))
  {
    OrderDistinct(kinds, 0, n, n);
    KeysOfOrder(kinds, 0, n);
    ChainLinked(kinds, 0, n - 1, n - 1);
    assert Order(kinds, 0, n) == Order(kinds, 0, n - 1) + [kinds[0].name(n - 1)];
  }

  lemma PairChainEndpoints(kinds: seq<Kind>, n: nat)
    requires |kinds| == 1 && n >= 2 && NamesInjective(kinds, 0, n)
    ensures EndpointsDefined(Built(map[], kinds, 0, n), Chain(kinds, 0, n - 1, n - 1))
  {
    PairChainPath(kinds, n);
    PathShape(Built(map[], kinds, 0, n), Chain(kinds, 0, n - 1, n - 1), Order(kinds, 0, n));
  }

  /** The pairwise chain through n copies has n - 1 edges. */
  lemma PairChainLength(kinds: seq<Kind>, n: nat)
    requires |kinds| == 1 && n >= 2
    ensures |Chain(kinds, 0, n - 1, n - 1)| == n - 1
  {
    ChainLinked(kinds, 0, n - 1, n - 1);
    OrderLength(kinds, 0, n - 1);
  }

  // A chain whose guard is always true (`bound == hi`), completed by a
  // separately added copy of the first kind for index hi.

  /** The completed chain is one simple path through every copy and the terminal one. */
  lemma TerminalChainPath(kinds: seq<Kind>, lo: nat, hi: nat, t: Node)
    requires |kinds| > 0 && lo < hi && NamesInjective(kinds, lo, hi + 1)
    ensures PathThrough(Built(map[], kinds, lo, hi)[kinds[0].name(hi) := t], Chain(kinds, lo, hi, hi),
                        Order(kinds, lo, hi) + [kinds[0].name(hi)])
  {
    TerminalDistinct(kinds, lo, hi);
    TerminalKeys(kinds, lo, hi, t);
    ChainLinked(kinds, lo, hi, hi);
  }

  lemma TerminalDistinct(kinds: seq<Kind>, lo: nat, hi: nat)
    requires |kinds| > 0 && lo <= hi && NamesInjective(kinds, lo, hi + 1)
    ensures Distinct(Order(kinds, lo, hi) + [kinds[0].name(hi)])
  {
    TerminalFresh(kinds, lo, hi);
    OrderDistinct(kinds, lo, hi, hi + 1);
    DistinctAppend(Order(kinds, lo, hi), [kinds[0].name(hi)]);
  }

  lemma TerminalKeys(kinds: seq<Kind>, lo: nat, hi: nat, t: Node)
    requires |kinds| > 0 && lo <= hi
    ensures Built(map[], kinds, lo, hi)[kinds[0].name(hi) := t].Keys == set x | x in Order(kinds, lo, hi) + [kinds[0].name(hi)]
  {
    KeysOfOrder(kinds, lo, hi);
  }

  /** The terminal copy's name is not among the loop's names. */
  lemma TerminalFresh(kinds: seq<Kind>, lo: nat, hi: nat)
    requires |kinds| > 0 && lo <= hi && NamesInjective(kinds, lo, hi + 1)
    ensures kinds[0].name(hi) !in Order(kinds, lo, hi)
  {
    assert Round(kinds, hi)[0] == kinds[0].name(hi);
    OrderRoundDisjoint(kinds, lo, hi, hi + 1);
  }

  lemma TerminalChainEndpoints(kinds: seq<Kind>, lo: nat, hi: nat, t: Node)
    requires |kinds| > 0 && lo < hi && NamesInjective(kinds, lo, hi + 1)
    ensures EndpointsDefined(Built(map[], kinds, lo, hi)[kinds[0].name(hi) := t], Chain(kinds, lo, hi, hi))
  {
    TerminalChainPath(kinds, lo, hi, t);
    PathShape(Built(map[], kinds, lo, hi)[kinds[0].name(hi) := t], Chain(kinds, lo, hi, hi),
              Order(kinds, lo, hi) + [kinds[0].name(hi)]);
  }

  /** The loop's copies and the terminal one: |kinds|·(hi - lo) + 1 entries. */
  lemma TerminalNodeCount(kinds: seq<Kind>, lo: nat, hi: nat, t: Node)
    requires |kinds| > 0 && lo <= hi && NamesInjective(kinds, lo, hi + 1)
    ensures |Built(map[], kinds, lo, hi)[kinds[0].name(hi) := t]| == |kinds| * (hi - lo) + 1
  {
    NamesInjectiveNarrow(kinds, lo, hi, hi + 1);
    BuiltCount(kinds, lo, hi);
    TerminalFresh(kinds, lo, hi);
    KeysOfOrder(kinds, lo, hi);
  }

  /** Unguarded, every index adds |kinds| edges. */
  lemma TerminalChainLength(kinds: seq<Kind>, lo: nat, hi: nat)
    requires |kinds| > 0 && lo < hi
    ensures |Chain(kinds, lo, hi, hi)| == |kinds| * (hi - lo)
  {
    ChainLinked(kinds, lo, hi, hi);
    OrderLength(kinds, lo, hi);
  }

  /** Injectivity on a range holds on every range inside it. */
  lemma NamesInjectiveNarrow(kinds: seq<Kind>, lo: nat, hi: nat, top: nat)
    requires hi <= top && NamesInjective(kinds, lo, top)
    ensures NamesInjective(kinds, lo, hi)
  {
  }

  // A chain introduced by an extra first node `head`, linked to the first
  // copy of index lo, with the guard `i < hi - 1`.

  /** The headed chain is one simple path from head through every copy. */
  lemma HeadedChainPath(head: string, h: Node, kinds: seq<Kind>, lo: nat, hi: nat)
    requires |kinds| > 0 && lo < hi && NamesInjective(kinds, lo, hi)
    requires head !in Order(kinds, lo, hi)
    ensures PathThrough(Built(map[head := h], kinds, lo, hi), [(head, kinds[0].name(lo))] + Chain(kinds, lo, hi, hi - 1),
                        [head] + Order(kinds, lo, hi))
  {
    var body := Order(kinds, lo, hi);
    assert Distinct([head] + body) by {
      OrderDistinct(kinds, lo, hi, hi);
      DistinctAppend([head], body);
    }
    HeadedKeys(head, h, kinds, lo, hi);
    HeadedEdges(head, kinds, lo, hi);
  }

  lemma HeadedKeys(head: string, h: Node, kinds: seq<Kind>, lo: nat, hi: nat)
    requires lo <= hi
    ensures Built(map[head := h], kinds, lo, hi).Keys == set x | x in [head] + Order(kinds, lo, hi)
  {
    BuiltKeys(map[head := h], kinds, lo, hi);
  }

  lemma HeadedEdges(head: string, kinds: seq<Kind>, lo: nat, hi: nat)
    requires |kinds| > 0 && lo < hi
    ensures [(head, kinds[0].name(lo))] + Chain(kinds, lo, hi, hi - 1) == PathEdges([head] + Order(kinds, lo, hi))
  {
    ChainClosed(kinds, lo, hi, hi - 1);
    OrderEnds(kinds, lo, hi);
    PathEdgesAppend([head], Order(kinds, lo, hi));
    assert PathEdges([head]) == [];
  }

  lemma HeadedChainEndpoints(head: string, h: Node, kinds: seq<Kind>, lo: nat, hi: nat)
    requires |kinds| > 0 && lo < hi && NamesInjective(kinds, lo, hi)
    requires head !in Order(kinds, lo, hi)
    ensures EndpointsDefined(Built(map[head := h], kinds, lo, hi), [(head, kinds[0].name(lo))] + Chain(kinds, lo, hi, hi - 1))
  {
    HeadedChainPath(head, h, kinds, lo, hi);
    PathShape(Built(map[head := h], kinds, lo, hi), [(head, kinds[0].name(lo))] + Chain(kinds, lo, hi, hi - 1),
              [head] + Order(kinds, lo, hi));
  }

  /** The head and the loop's copies: |kinds|·(hi - lo) + 1 entries. */
  lemma HeadedNodeCount(head: string, h: Node, kinds: seq<Kind>, lo: nat, hi: nat)
    requires lo <= hi && NamesInjective(kinds, lo, hi)
    requires head !in Order(kinds, lo, hi)
    ensures |Built(map[head := h], kinds, lo, hi)| == |kinds| * (hi - lo) + 1
  {
    var body := Order(kinds, lo, hi);
    OrderDistinct(kinds, lo, hi, hi);
    DistinctAppend([head], body);
    HeadedKeys(head, h, kinds, lo, hi);
    DistinctCard([head] + body);
    OrderLength(kinds, lo, hi);
    assert |Built(map[head := h], kinds, lo, hi)| == |Built(map[head := h], kinds, lo, hi).Keys|;
  }

  /** The link from the head and the guarded chain: as many edges as copies. */
  lemma HeadedChainLength(head: string, kinds: seq<Kind>, lo: nat, hi: nat)
    requires |kinds| > 0 && lo < hi
    ensures |[(head, kinds[0].name(lo))] + Chain(kinds, lo, hi, hi - 1)| == |kinds| * (hi - lo)
  {
    GuardedChainLength(kinds, lo, hi);
  }
}
