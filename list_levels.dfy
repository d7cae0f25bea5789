/** `setLILevel` (src/parse.php:364-402): after parsing, the raw indentation
    width stored in each open LI of a list becomes the rank of that width among
    the distinct widths of the list, so that widths 0, 4, 2 become levels 0, 2, 1. */
module ListLevels {
  import opened Elements

  predicate IsListTag(t: Tag) {
    t == UL || t == OL
  }

  predicate IsOpenLI(e: Element) {
    e.tag == LI && !e.close
  }

  predicate Sorted(s: seq<int>) {
    forall i, j :: 0 <= i < j < |s| ==> s[i] <= s[j]
  }

  /** Insert `x` before the first element not below it. */
  function Insert(x: int, s: seq<int>): (r: seq<int>)
    ensures |r| == |s| + 1
  {
    if s == [] || x <= s[0] then [x] + s else [s[0]] + Insert(x, s[1..])
  }

  /** A lower bound of `x` and of all of `s` bounds the insertion too. */
  lemma {:induction false} InsertBound(x: int, s: seq<int>, lo: int)
    requires lo <= x && forall k :: 0 <= k < |s| ==> lo <= s[k]
    ensures forall k :: 0 <= k < |Insert(x, s)| ==> lo <= Insert(x, s)[k]
    decreases |s|
  {
    if s != [] && x > s[0] {
      InsertBound(x, s[1..], lo);
    }
  }

  /** Inserting into a sorted sequence keeps it sorted. */
  lemma {:induction false} InsertSorted(x: int, s: seq<int>)
    requires Sorted(s)
    ensures Sorted(Insert(x, s))
    decreases |s|
  {
    var r := Insert(x, s);
    if s == [] || x <= s[0] {
      forall a, b | 0 <= a < b < |r| ensures r[a] <= r[b] {
        assert r[b] == s[b - 1];
        if a > 0 {
          assert r[a] == s[a - 1];
        } else if b > 1 {
          assert s[0] <= s[b - 1];
        }
      }
    } else {
      var t := Insert(x, s[1..]);
      InsertSorted(x, s[1..]);
      InsertBound(x, s[1..], s[0]);
      assert r == [s[0]] + t;
      forall a, b | 0 <= a < b < |r| ensures r[a] <= r[b] {
        assert r[b] == t[b - 1];
        if a > 0 {
          assert r[a] == t[a - 1];
        }
      }
    }
  }

  /** Insertion adds exactly `x`. */
  lemma {:induction false} InsertPerm(x: int, s: seq<int>)
    ensures multiset(Insert(x, s)) == multiset(s) + multiset{x}
    decreases |s|
  {
    if s != [] && x > s[0] {
      InsertPerm(x, s[1..]);
      assert s == [s[0]] + s[1..];
    }
  }

  /** PHP's `sort` on a list of integers (insertion sort here). */
  function Sort(s: seq<int>): (r: seq<int>)
    ensures |r| == |s|
  {
    if s == [] then [] else Insert(s[0], Sort(s[1..]))
  }

  /** `sort` orders the list ascending and keeps its elements. */
  lemma {:induction false} SortSpec(s: seq<int>)
    ensures Sorted(Sort(s)) && multiset(Sort(s)) == multiset(s)
    decreases |s|
  {
    if s != [] {
      assert s == [s[0]] + s[1..];
      SortSpec(s[1..]);
      InsertSorted(s[0], Sort(s[1..]));
      InsertPerm(s[0], Sort(s[1..]));
    }
  }

  /** `array_search` on a list: the first index holding `x`, or -1 for `false`. */
  function IndexOf(s: seq<int>, x: int): (r: int)
    ensures -1 <= r < |s|
  {
    if s == [] then -1
    else if s[0] == x then 0
    else
      var p := IndexOf(s[1..], x);
      if p < 0 then -1 else p + 1
  }

  /** `array_search` answers `false` exactly for a non-member, and otherwise
      the first index holding `x`. */
  lemma {:induction false} IndexOfMeans(s: seq<int>, x: int)
    ensures IndexOf(s, x) == -1 <==> x !in s
    ensures IndexOf(s, x) != -1 ==> s[IndexOf(s, x)] == x && x !in s[..IndexOf(s, x)]
    decreases |s|
  {
    if s != [] && s[0] != x {
      IndexOfMeans(s[1..], x);
      var p := IndexOf(s[1..], x);
      assert x in s <==> x in s[1..] by {
        assert s == [s[0]] + s[1..];
      }
      if p >= 0 {
        assert s[..p + 1] == [s[0]] + s[1..][..p];
      }
    }
  }

  /** The re-levelling loop for one closed list, from index `i` up to `k`: each
      open LI gets the index of its current level in `sorted`; a level missing
      from `sorted` makes `array_search` answer `false`, and assigning that to
      the `int` property is a `TypeError` at that index. */
  function Relevel(es: seq<Element>, i: nat, k: nat, sorted: seq<int>): (r: Result<seq<Element>>)
    requires i <= k <= |es|
    ensures r.Ok? ==> |r.value| == |es|
    decreases k - i
  {
    if i == k then Ok(es)
    else if !IsOpenLI(es[i]) then Relevel(es, i + 1, k, sorted)
    else
      var p := IndexOf(sorted, es[i].level);
      if p < 0 then Err(LevelTypeError(i))
      else Relevel(es[i := es[i].(level := p)], i + 1, k, sorted)
  }

  /** `es` with each open LI of `[i, k)` given the index of its width in `sorted`. */
  function Relevelled(es: seq<Element>, i: nat, k: nat, sorted: seq<int>): (r: seq<Element>)
    requires i <= k <= |es|
    ensures |r| == |es|
  {
    seq(|es|, j requires 0 <= j < |es| =>
      if i <= j < k && IsOpenLI(es[j]) then es[j].(level := IndexOf(sorted, es[j].level)) else es[j])
  }

  /** When every open LI's width is among `sorted`, the re-levelling succeeds,
      gives each such LI the index of its width and changes nothing else. */
  lemma {:induction false} RelevelOk(es: seq<Element>, i: nat, k: nat, sorted: seq<int>)
    requires i <= k <= |es|
    requires forall j :: i <= j < k && IsOpenLI(es[j]) ==> es[j].level in sorted
    ensures Relevel(es, i, k, sorted) == Ok(Relevelled(es, i, k, sorted))
    decreases k - i
  {
    if i < k {
      var want := Relevelled(es, i, k, sorted);
      if !IsOpenLI(es[i]) {
        RelevelOk(es, i + 1, k, sorted);
        var got := Relevelled(es, i + 1, k, sorted);
        forall j | 0 <= j < |es| ensures got[j] == want[j] {
        }
        assert got == want;
      } else {
        var p := IndexOf(sorted, es[i].level);
        IndexOfMeans(sorted, es[i].level);
        var es' := es[i := es[i].(level := p)];
        assert forall j :: 0 <= j < |es| && j != i ==> es'[j] == es[j];
        RelevelOk(es', i + 1, k, sorted);
        var got := Relevelled(es', i + 1, k, sorted);
        forall j | 0 <= j < |es| ensures got[j] == want[j] {
        }
        assert got == want;
      }
    } else {
      assert Relevelled(es, i, k, sorted) == es;
    }
  }

  /** The re-levelling fails exactly when some open LI's width is missing from
      `sorted`, and the error names the first such LI. */
  lemma {:induction false} RelevelError(es: seq<Element>, i: nat, k: nat, sorted: seq<int>)
    requires i <= k <= |es|
    ensures Relevel(es, i, k, sorted).Ok? <==> forall j :: i <= j < k && IsOpenLI(es[j]) ==> es[j].level in sorted
    ensures Relevel(es, i, k, sorted).Err? ==>
              var n := Relevel(es, i, k, sorted).error.index;
              && Relevel(es, i, k, sorted).error.LevelTypeError? && i <= n < k
              && IsOpenLI(es[n]) && es[n].level !in sorted
              && forall j :: i <= j < n && IsOpenLI(es[j]) ==> es[j].level in sorted
    decreases k - i
  {
    if i < k {
      if !IsOpenLI(es[i]) {
        RelevelError(es, i + 1, k, sorted);
      } else {
        var p := IndexOf(sorted, es[i].level);
        IndexOfMeans(sorted, es[i].level);
        if p >= 0 {
          var es' := es[i := es[i].(level := p)];
          assert forall j :: 0 <= j < |es| && j != i ==> es'[j] == es[j];
          RelevelError(es', i + 1, k, sorted);
        }
      }
    }
  }

  /** The `foreach` of `setLILevel` from index `k` on, with its state: whether
      a list is open, the widths collected so far, and where the list began.
      An opening UL/OL records its index; a closing one sorts the widths,
      re-levels the open LIs since the recorded index and clears the widths;
      an open LI inside an open list adds its width if it is new. */
  function LevelPass(es: seq<Element>, k: nat, openList: bool, levels: seq<int>, from: nat): Result<seq<Element>>
    requires k <= |es| && from <= |es|
    decreases |es| - k
  {
    if k == |es| then Ok(es)
    else
      var e := es[k];
      if IsListTag(e.tag) && !e.close then LevelPass(es, k + 1, true, levels, k)
      else if IsListTag(e.tag) && e.close then
        if from > k then LevelPass(es, k + 1, false, [], from)  // never the case: `from` is an earlier index
        else match Relevel(es, from, k, Sort(levels))
          case Err(x) => Err(x)
          case Ok(es') => LevelPass(es', k + 1, false, [], from)
      else if openList && IsOpenLI(e) && e.level !in levels then LevelPass(es, k + 1, openList, levels + [e.level], from)
      else LevelPass(es, k + 1, openList, levels, from)
  }

  /** `out` differs from `es` at most in the levels of open LIs. */
  predicate SameShape(es: seq<Element>, out: seq<Element>) {
    |out| == |es| && forall j :: 0 <= j < |es| ==>
      out[j].tag == es[j].tag && out[j].close == es[j].close
      && out[j].value == es[j].value && out[j].block == es[j].block
      && (!IsOpenLI(es[j]) ==> out[j] == es[j])
  }

  lemma SameShapeTrans(a: seq<Element>, b: seq<Element>, c: seq<Element>)
    requires SameShape(a, b) && SameShape(b, c)
    ensures SameShape(a, c)
  {
  }

  lemma RelevelledShape(es: seq<Element>, i: nat, k: nat, sorted: seq<int>)
    requires i <= k <= |es|
    ensures SameShape(es, Relevelled(es, i, k, sorted))
  {
  }

  /** The pass only ever changes the level of open LIs: everything else of
      every element stays as it was. */
  lemma {:induction false} LevelPassShape(es: seq<Element>, k: nat, openList: bool, levels: seq<int>, from: nat)
    requires k <= |es| && from <= |es|
    ensures var r := LevelPass(es, k, openList, levels, from);
            r.Ok? ==> SameShape(es, r.value)
    decreases |es| - k, 1
  {
    if k == |es| {
      assert SameShape(es, es);
    } else {
      var e := es[k];
      if IsListTag(e.tag) && !e.close {
        LevelPassShape(es, k + 1, true, levels, k);
      } else if IsListTag(e.tag) && e.close {
        if from > k {
          LevelPassShape(es, k + 1, false, [], from);
        } else {
          ClosingShape(es, k, openList, levels, from);
        }
      } else if openList && IsOpenLI(e) && e.level !in levels {
        LevelPassShape(es, k + 1, openList, levels + [e.level], from);
      } else {
        LevelPassShape(es, k + 1, openList, levels, from);
      }
    }
  }

  /** The same at a list closer, where the span since `from` is re-levelled. */
  lemma {:induction false} ClosingShape(es: seq<Element>, k: nat, openList: bool, levels: seq<int>, from: nat)
    requires from <= k < |es| && IsListTag(es[k].tag) && es[k].close
    ensures var r := LevelPass(es, k, openList, levels, from);
            r.Ok? ==> SameShape(es, r.value)
    decreases |es| - k, 0
  {
    var rr := Relevel(es, from, k, Sort(levels));
    RelevelError(es, from, k, Sort(levels));
    if rr.Ok? {
      RelevelOk(es, from, k, Sort(levels));
      RelevelledShape(es, from, k, Sort(levels));
      LevelPassShape(rr.value, k + 1, false, [], from);
      var r := LevelPass(rr.value, k + 1, false, [], from);
      if r.Ok? {
        SameShapeTrans(es, rr.value, r.value);
      }
    }
  }

  /** `setLILevel` as a whole. */
  function SetLILevelSpec(es: seq<Element>): Result<seq<Element>> {
    LevelPass(es, 0, false, [], 0)
  }

  /** `setLILevel`: the `foreach` and its inner `for`, updating the elements in place. */
  method SetLILevel(a: array<Element>) returns (res: Result<()>)
    modifies a
    ensures SetLILevelSpec(old(a[..])).Ok? ==> res.Ok? && a[..] == SetLILevelSpec(old(a[..])).value
    ensures SetLILevelSpec(old(a[..])).Err? ==> res == Err(SetLILevelSpec(old(a[..])).error)
  {
    var openList := false;
    var levels: seq<int> := [];
    var from := 0;
    var k := 0;
    while k < a.Length
      invariant 0 <= k <= a.Length && from <= a.Length
      invariant from <= k
      invariant LevelPass(a[..], k, openList, levels, from) == SetLILevelSpec(old(a[..]))
    {
      var element := a[k];
      if IsListTag(element.tag) && !element.close {
        openList := true;
        from := k;
        k := k + 1;
        continue;
      }
      if IsListTag(element.tag) && element.close {
        openList := false;
        var sorted := Sort(levels);
        ghost var before := a[..];
        for i := from to k
          invariant a.Length == |before|
          invariant Relevel(a[..], i, k, sorted) == Relevel(before, from, k, sorted)
        {
          if a[i].tag != LI || a[i].close {
            continue;
          }
          var p := IndexOf(sorted, a[i].level);
          if p < 0 {
            return Err(LevelTypeError(i));
          }
          a[i] := a[i].(level := p);
        }
        levels := [];
        k := k + 1;
        continue;
      }
      if openList && element.tag == LI && !element.close {
        if element.level !in levels {
          levels := levels + [element.level];
        }
      }
      k := k + 1;
    }
    return Ok(());
  }

  // ---------------------------------------------------------------------------
  // What the re-levelling means.

  /** The number of elements of `s` below `x`. */
  function CountBelow(s: seq<int>, x: int): (n: nat)
    ensures n <= |s|
  {
    if s == [] then 0 else (if s[0] < x then 1 else 0) + CountBelow(s[1..], x)
  }

  /** The distinct widths of the open LIs of `es[lo..hi]` in order of first
      appearance: the `$levels` a list collects. */
  function Collected(es: seq<Element>, lo: nat, hi: nat): seq<int>
    requires lo <= hi <= |es|
    decreases hi - lo
  {
    if hi == lo then []
    else
      var l := Collected(es, lo, hi - 1);
      if IsOpenLI(es[hi - 1]) && es[hi - 1].level !in l then l + [es[hi - 1].level] else l
  }

  /** The collected widths are exactly the widths of the open LIs, each once. */
  lemma {:induction false} CollectedMembers(es: seq<Element>, lo: nat, hi: nat)
    requires lo <= hi <= |es|
    ensures forall x :: x in Collected(es, lo, hi) <==> exists j :: lo <= j < hi && IsOpenLI(es[j]) && es[j].level == x
    ensures forall a, b :: 0 <= a < b < |Collected(es, lo, hi)| ==> Collected(es, lo, hi)[a] != Collected(es, lo, hi)[b]
    decreases hi - lo
  {
    if hi > lo {
      CollectedMembers(es, lo, hi - 1);
    }
  }

  /** The level a width gets: how many distinct widths of the list are smaller. */
  function Rank(es: seq<Element>, k: nat, c: nat, x: int): int
    requires k < c <= |es|
  {
    CountBelow(Collected(es, k + 1, c), x)
  }

  /** `es` after the list opened at `k` and closed at `c` is re-levelled. */
  function Ranked(es: seq<Element>, k: nat, c: nat): (r: seq<Element>)
    requires k < c <= |es|
    ensures |r| == |es|
  {
    seq(|es|, j requires 0 <= j < |es| =>
      if k < j < c && IsOpenLI(es[j]) then es[j].(level := Rank(es, k, c, es[j].level)) else es[j])
  }

  lemma {:induction false} InsertCountBelow(a: int, s: seq<int>, x: int)
    ensures CountBelow(Insert(a, s), x) == (if a < x then 1 else 0) + CountBelow(s, x)
    decreases |s|
  {
    if s != [] && a > s[0] {
      InsertCountBelow(a, s[1..], x);
      assert ([s[0]] + Insert(a, s[1..]))[1..] == Insert(a, s[1..]);
    } else {
      assert ([a] + s)[1..] == s;
    }
  }

  lemma {:induction false} SortCountBelow(s: seq<int>, x: int)
    ensures CountBelow(Sort(s), x) == CountBelow(s, x)
    decreases |s|
  {
    if s != [] {
      SortCountBelow(s[1..], x);
      InsertCountBelow(s[0], Sort(s[1..]), x);
    }
  }

  lemma {:induction false} CountBelowNone(s: seq<int>, x: int)
    requires forall j :: 0 <= j < |s| ==> s[j] >= x
    ensures CountBelow(s, x) == 0
    decreases |s|
  {
    if s != [] {
      CountBelowNone(s[1..], x);
    }
  }

  /** In a sorted list the first index of a member is the number of smaller elements. */
  lemma {:induction false} SortedIndexOf(s: seq<int>, x: int)
    requires Sorted(s) && x in s
    ensures IndexOf(s, x) == CountBelow(s, x)
    decreases |s|
  {
    if s[0] == x {
      CountBelowNone(s[1..], x);
    } else {
      assert x in s[1..] by {
        var j :| 0 <= j < |s| && s[j] == x;
        assert s[1..][j - 1] == x;
      }
      SortedIndexOf(s[1..], x);
    }
  }

  /** Distinct members of a list have distinct ranks, in the order of the widths. */
  lemma {:induction false} CountBelowStrict(s: seq<int>, x: int, y: int)
    requires x in s && x < y
    ensures CountBelow(s, x) < CountBelow(s, y)
    decreases |s|
  {
    CountBelowMonotone(s[1..], x, y);
    if s[0] != x {
      assert x in s[1..] by {
        var j :| 0 <= j < |s| && s[j] == x;
        assert s[1..][j - 1] == x;
      }
      CountBelowStrict(s[1..], x, y);
    }
  }

  lemma {:induction false} CountBelowMonotone(s: seq<int>, x: int, y: int)
    requires x <= y
    ensures CountBelow(s, x) <= CountBelow(s, y)
    decreases |s|
  {
    if s != [] {
      CountBelowMonotone(s[1..], x, y);
    }
  }

  /** While the list is open, the pass collects exactly the `$levels` of `Collected`. */
  lemma {:induction false} CollectingPhase(es: seq<Element>, k: nat, m: nat, c: nat)
    requires k < m <= c < |es|
    requires forall j :: m <= j < c ==> !IsListTag(es[j].tag)
    ensures LevelPass(es, m, true, Collected(es, k + 1, m), k) == LevelPass(es, c, true, Collected(es, k + 1, c), k)
    decreases c - m
  {
    if m < c {
      CollectStep(es, k, m);
      CollectingPhase(es, k, m + 1, c);
    }
  }

  /** One element inside an open list: an open LI with a new width adds it. */
  lemma CollectStep(es: seq<Element>, k: nat, m: nat)
    requires k < m < |es| && !IsListTag(es[m].tag)
    ensures LevelPass(es, m, true, Collected(es, k + 1, m), k) == LevelPass(es, m + 1, true, Collected(es, k + 1, m + 1), k)
  {
  }

  /** One flat list, opened at `k` and closed at `c` with no list markers
      between: `setLILevel` replaces each open LI's width by its rank among the
      list's distinct widths and then carries on after the close. */
  lemma ListSpan(es: seq<Element>, k: nat, c: nat, from: nat)
    requires k < c < |es| && from <= |es|
    requires IsListTag(es[k].tag) && !es[k].close && IsListTag(es[c].tag) && es[c].close
    requires forall j :: k < j < c ==> !IsListTag(es[j].tag)
    ensures LevelPass(es, k, false, [], from) == LevelPass(Ranked(es, k, c), c + 1, false, [], k)
  {
    PassOpens(es, k, from);
    assert Collected(es, k + 1, k + 1) == [];
    CollectingPhase(es, k, k + 1, c);
    PassCloses(es, c, Collected(es, k + 1, c), k);
    RelevelSpan(es, k, c);
  }

  /** An opening UL/OL starts collecting from scratch. */
  lemma PassOpens(es: seq<Element>, k: nat, from: nat)
    requires k < |es| && from <= |es| && IsListTag(es[k].tag) && !es[k].close
    ensures LevelPass(es, k, false, [], from) == LevelPass(es, k + 1, true, [], k)
  {
  }

  /** A closing UL/OL re-levels from where its list began and starts afresh. */
  lemma PassCloses(es: seq<Element>, c: nat, levels: seq<int>, k: nat)
    requires k <= c < |es| && IsListTag(es[c].tag) && es[c].close
    ensures LevelPass(es, c, true, levels, k)
         == match Relevel(es, k, c, Sort(levels))
            case Err(x) => Err(x)
            case Ok(es') => LevelPass(es', c + 1, false, [], k)
  {
  }

  /** The re-levelling at the close of such a list yields `Ranked`. */
  lemma RelevelSpan(es: seq<Element>, k: nat, c: nat)
    requires k < c <= |es| && IsListTag(es[k].tag)
    ensures Relevel(es, k, c, Sort(Collected(es, k + 1, c))) == Ok(Ranked(es, k, c))
  {
    var l := Collected(es, k + 1, c);
    var ss := Sort(l);
    CollectedMembers(es, k + 1, c);
    forall j | k <= j < c && IsOpenLI(es[j]) ensures es[j].level in ss && IndexOf(ss, es[j].level) == CountBelow(l, es[j].level) {
      assert k < j;
      SortedPosition(l, es[j].level);
    }
    RelevelOk(es, k, c, ss);
    var got := Relevelled(es, k, c, ss);
    var want := Ranked(es, k, c);
    forall j | 0 <= j < |es| ensures got[j] == want[j] {
    }
    assert got == want;
  }

  /** After `sort`, `array_search` finds a member at the number of smaller elements. */
  lemma SortedPosition(l: seq<int>, x: int)
    requires x in l
    ensures x in Sort(l) && IndexOf(Sort(l), x) == CountBelow(l, x)
  {
    SortSpec(l);
    assert x in multiset(l);
    assert x in multiset(Sort(l));
    SortedIndexOf(Sort(l), x);
    SortCountBelow(l, x);
  }

  /** Ranks order the widths: each lies in `[0, number of distinct widths)`,
      equal widths share a rank, and a smaller width gets a smaller rank. */
  lemma RankOrdersWidths(es: seq<Element>, k: nat, c: nat, a: nat, b: nat)
    requires k < a < c && k < b < c && c <= |es|
    requires IsOpenLI(es[a]) && IsOpenLI(es[b])
    ensures 0 <= Rank(es, k, c, es[a].level) < |Collected(es, k + 1, c)|
    ensures es[a].level < es[b].level <==> Rank(es, k, c, es[a].level) < Rank(es, k, c, es[b].level)
    ensures es[a].level == es[b].level <==> Rank(es, k, c, es[a].level) == Rank(es, k, c, es[b].level)
  {
    var l := Collected(es, k + 1, c);
    var x, y := es[a].level, es[b].level;
    CollectedMembers(es, k + 1, c);
    assert x in l && y in l;
    RankBelowLength(l, x);
    if x < y {
      CountBelowStrict(l, x, y);
    } else if y < x {
      CountBelowStrict(l, y, x);
    }
  }

  lemma {:induction false} RankBelowLength(s: seq<int>, x: int)
    requires x in s
    ensures CountBelow(s, x) < |s|
    decreases |s|
  {
    if s[0] != x {
      assert x in s[1..] by {
        var j :| 0 <= j < |s| && s[j] == x;
        assert s[1..][j - 1] == x;
      }
      RankBelowLength(s[1..], x);
    }
  }

  /** With no closing UL/OL left, nothing changes any more: the LIs of a list
      that is never closed keep their raw widths. */
  lemma {:induction false} NoCloseNoChange(es: seq<Element>, k: nat, openList: bool, levels: seq<int>, from: nat)
    requires k <= |es| && from <= |es|
    requires forall j :: k <= j < |es| ==> !(IsListTag(es[j].tag) && es[j].close)
    ensures LevelPass(es, k, openList, levels, from) == Ok(es)
    decreases |es| - k
  {
    if k < |es| {
      var e := es[k];
      if IsListTag(e.tag) && !e.close {
        NoCloseNoChange(es, k + 1, true, levels, k);
      } else if openList && IsOpenLI(e) && e.level !in levels {
        NoCloseNoChange(es, k + 1, openList, levels + [e.level], from);
      } else {
        NoCloseNoChange(es, k + 1, openList, levels, from);
      }
    }
  }

  /** The elements of the list `- \n- t\n    - \n  - \n\n`: items indented
      0, 0, 4 and 2, each closed at its line end, the second one holding `t`. */
  function IndentInput(t: string): seq<Element> {
    [Open(UL), NewElement(LI, 0, false, ""), Close(LI),
     NewElement(LI, 0, false, ""), NewElement(Elements.Text, 0, false, t), Close(LI),
     NewElement(LI, 4, false, ""), Close(LI), NewElement(LI, 2, false, ""), Close(LI),
     Close(UL)]
  }

  /** That list with the ranks 0, 0, 2, 1. */
  function IndentOutput(t: string): seq<Element> {
    [Open(UL), NewElement(LI, 0, false, ""), Close(LI),
     NewElement(LI, 0, false, ""), NewElement(Elements.Text, 0, false, t), Close(LI),
     NewElement(LI, 2, false, ""), Close(LI), NewElement(LI, 1, false, ""), Close(LI),
     Close(UL)]
  }

  /** `setLILevel` turns the widths 0, 0, 4, 2 into the ranks 0, 0, 2, 1. */
  lemma IndentExample(t: string)
    ensures SetLILevelSpec(IndentInput(t)) == Ok(IndentOutput(t))
  {
    var es := IndentInput(t);
    ListSpan(es, 0, 10, 0);
    IndentRanked(t);
    NoCloseNoChange(IndentOutput(t), 11, false, [], 0);
  }

  lemma IndentCollected(t: string)
    ensures Collected(IndentInput(t), 1, 10) == [0, 4, 2]
  {
    var es := IndentInput(t);
    assert Collected(es, 1, 2) == [0];
    assert Collected(es, 1, 4) == [0];
    assert Collected(es, 1, 6) == [0];
    assert Collected(es, 1, 7) == [0, 4];
    assert Collected(es, 1, 8) == [0, 4];
  }

  lemma IndentRanked(t: string)
    ensures Ranked(IndentInput(t), 0, 10) == IndentOutput(t)
  {
    var es := IndentInput(t);
    IndentCollected(t);
    assert [0, 4, 2][1..] == [4, 2] && [4, 2][1..] == [2] && [2][1..] == [];
    assert CountBelow([0, 4, 2], 4) == 2 && CountBelow([0, 4, 2], 2) == 1 && CountBelow([0, 4, 2], 0) == 0;
    var r := Ranked(es, 0, 10);
    var want := IndentOutput(t);
    assert r[1] == want[1] && r[3] == want[3] && r[6] == want[6] && r[8] == want[8];
    assert r == want;
  }

  /** The elements of `- a\n1. b\n\n\n`: a numbered item right after a bullet
      item opens an OL inside the still open UL; the line ends then close the
      second LI, the UL and the OL, whose closer is built from an empty element. */
  function MixedInput(a: string, b: string): seq<Element> {
    [Open(UL), NewElement(LI, 0, false, ""), NewElement(Elements.Text, 0, false, a), Close(LI),
     Open(OL), NewElement(LI, 0, false, ""), NewElement(Elements.Text, 0, false, b), Close(LI),
     Close(UL), Element(OL, 0, true, "", false)]
  }

  /** Closing the UL re-levels from the OL and empties `$levels`; closing the
      OL then re-levels the same item against no widths at all, and
      `array_search`'s `false` is assigned to the level of element 5. */
  lemma MixedListsThrow(a: string, b: string)
    ensures SetLILevelSpec(MixedInput(a, b)) == Err(LevelTypeError(5))
  {
    MixedUpToUlClose(a, b);
    MixedUlClose(a, b);
    var es := MixedInput(a, b);
    assert Relevel(es, 4, 9, Sort([])) == Err(LevelTypeError(5));
  }

  /** Up to the UL's close: the widths of both items are collected (once), and
      the OL's opening moves the start of the list to element 4. */
  lemma MixedUpToUlClose(a: string, b: string)
    ensures SetLILevelSpec(MixedInput(a, b)) == LevelPass(MixedInput(a, b), 8, true, [0], 4)
  {
    MixedFirstItem(a, b);
    MixedSecondItem(a, b);
  }

  /** The UL and its item: width 0 is collected. */
  lemma MixedFirstItem(a: string, b: string)
    ensures SetLILevelSpec(MixedInput(a, b)) == LevelPass(MixedInput(a, b), 4, true, [0], 0)
  {
    var es := MixedInput(a, b);
    PassOpens(es, 0, 0);
    assert Collected(es, 1, 1) == [];
    CollectingPhase(es, 0, 1, 4);
    assert Collected(es, 1, 4) == [0];
  }

  /** The OL and its item: the start moves to 4 and width 0 is already known. */
  lemma MixedSecondItem(a: string, b: string)
    ensures LevelPass(MixedInput(a, b), 4, true, [0], 0) == LevelPass(MixedInput(a, b), 8, true, [0], 4)
  {
    var es := MixedInput(a, b);
    assert LevelPass(es, 4, true, [0], 0) == LevelPass(es, 5, true, [0], 4);
    assert LevelPass(es, 5, true, [0], 4) == LevelPass(es, 6, true, [0], 4);
    assert LevelPass(es, 6, true, [0], 4) == LevelPass(es, 8, true, [0], 4);
  }

  /** The UL's close re-levels elements 4 to 7 (the OL's item keeps rank 0)
      and forgets the widths. */
  lemma MixedUlClose(a: string, b: string)
    ensures LevelPass(MixedInput(a, b), 8, true, [0], 4) == LevelPass(MixedInput(a, b), 9, false, [], 4)
  {
    var es := MixedInput(a, b);
    assert Sort([0]) == [0];
    assert es[5 := es[5].(level := 0)] == es;
    assert Relevel(es, 4, 8, [0]) == Ok(es);
  }
}
