/** Sets of block numbers kept as a list of ranges that `extend` normalises in place. */
module Ranges {
  import opened Words

  datatype Range = Range(begin: u64, end: u64)

  predicate AllValid(rs: seq<Range>) { forall i :: 0 <= i < |rs| ==> rs[i].begin <= rs[i].end }

  predicate Inside(r: Range, point: int) { r.begin <= point <= r.end }

  ghost predicate Covers(rs: seq<Range>, point: int) { exists i :: 0 <= i < |rs| && Inside(rs[i], point) }

  /** Sorted, and any two neighbours leave at least one point out between them. */
  predicate Canonical(rs: seq<Range>) {
    && AllValid(rs)
    && forall i, j :: 0 <= i < j < |rs| ==> rs[i].end as int + 1 < rs[j].begin
  }

  // ----- sorting, as the standard sort orders ranges -----

  predicate Le(a: Range, b: Range) { a.begin < b.begin || (a.begin == b.begin && a.end <= b.end) }

  predicate Sorted(rs: seq<Range>) { forall i, j :: 0 <= i < j < |rs| ==> Le(rs[i], rs[j]) }

  function Insert(r: Range, rs: seq<Range>): seq<Range> {
    if rs == [] || Le(r, rs[0]) then [r] + rs else [rs[0]] + Insert(r, rs[1..])
  }

  function Sort(rs: seq<Range>): seq<Range> { if rs == [] then [] else Insert(rs[0], Sort(rs[1..])) }

  lemma {:induction false} InsertAdds(r: Range, rs: seq<Range>)
    ensures multiset(Insert(r, rs)) == multiset(rs) + multiset{r}
  {
    if rs != [] && !Le(r, rs[0]) {
      InsertAdds(r, rs[1..]);
      assert rs == [rs[0]] + rs[1..];
    }
  }

  lemma {:induction false} InsertKeepsSorted(r: Range, rs: seq<Range>)
    requires Sorted(rs)
    ensures Sorted(Insert(r, rs))
  {
    if rs != [] && !Le(r, rs[0]) {
      InsertKeepsSorted(r, rs[1..]);
      InsertAdds(r, rs[1..]);
      var t := Insert(r, rs[1..]);
      forall k | 0 <= k < |t| ensures Le(rs[0], t[k]) {
        assert t[k] in multiset(t);
        assert t[k] == r || t[k] in rs[1..];
      }
    }
  }

  lemma {:induction false} SortSorts(rs: seq<Range>)
    ensures Sorted(Sort(rs)) && multiset(Sort(rs)) == multiset(rs)
  {
    if rs != [] {
      SortSorts(rs[1..]);
      InsertAdds(rs[0], Sort(rs[1..]));
      InsertKeepsSorted(rs[0], Sort(rs[1..]));
      assert rs == [rs[0]] + rs[1..];
    }
  }

  // ----- compaction -----

  /** `p.end + 1` on u64, which wraps to 0 at the top. */
  function Next(p: Range): u64 { WrapAdd64(p.end, 1) }

  /** The range `c` either starts a new entry or widens the last one. */
  function Add(done: seq<Range>, c: Range): (r: seq<Range>)
    requires done != []
    ensures r != []
  {
    var p := done[|done| - 1];
    if c.begin > Next(p) then done + [c]
    else done[..|done| - 1] + [Range(p.begin, Max64(c.end, p.end))]
  }

  function Compact(done: seq<Range>, rest: seq<Range>): (r: seq<Range>)
    requires done != []
    decreases |rest|
  {
    if rest == [] then done else Compact(Add(done, rest[0]), rest[1..])
  }

  /** What `extend` makes of the old and the new ranges together. */
  function Normalised(all: seq<Range>): seq<Range> {
    var s := Sort(all);
    if s == [] then [] else Compact(s[..1], s[1..])
  }

  class RangeSet {
    var ranges: seq<Range>

    constructor ()
      ensures ranges == []
    {
      ranges := [];
    }

    method Extend(iter: seq<Range>)
      modifies this
      ensures ranges == Normalised(old(ranges) + iter)
    {
      ranges := ranges + iter;
      ranges := Sort(ranges);
      ranges := CompactInPlace(ranges);
    }
  }

  /** One round of the pass: the unread part stays, the written part becomes what `Add` makes of it. */
  method Place(rs: seq<Range>, pi: nat, i: nat) returns (w: seq<Range>, pj: nat)
    requires pi < i < |rs|
    ensures |w| == |rs| && pj <= i && w[..pj + 1] == Add(rs[..pi + 1], rs[i]) && w[i + 1..] == rs[i + 1..]
  {
    var c := rs[i];
    var p := rs[pi];
    if c.begin > Next(p) {
      pj := pi + 1;
      w := rs[pj := c];
    } else {
      pj := pi;
      w := rs[pj := Range(p.begin, Max64(c.end, p.end))];
    }
  }

  /** The pass over the sorted list, with a write index that trails the read index. */
  method CompactInPlace(sorted: seq<Range>) returns (rs: seq<Range>)
    ensures rs == if sorted == [] then [] else Compact(sorted[..1], sorted[1..])
  {
    rs := sorted;
    if rs == [] {
      return;
    }
    var pi := 0;
    ghost var want, rest := Compact(rs[..1], rs[1..]), rs[1..];
    for i := 1 to |rs|
      invariant 0 <= pi < i && |rs| == |sorted| && rs[i..] == rest
      invariant Compact(rs[..pi + 1], rest) == want
    {
      assert rest[1..] == rs[i + 1..];
      rest := rest[1..];
      rs, pi := Place(rs, pi, i);
    }
    rs := rs[..pi + 1];
  }

  // ----- coverage -----

  lemma {:induction false} AddCovers(done: seq<Range>, c: Range, point: int)
    requires done != [] && AllValid(done) && c.begin <= c.end && done[|done| - 1].begin <= c.begin
    ensures AllValid(Add(done, c))
    ensures Covers(Add(done, c), point) <==> Covers(done, point) || Inside(c, point)
  {
    var p, r := done[|done| - 1], Add(done, c);
    if c.begin > Next(p) {
      if Covers(r, point) {
        var i :| 0 <= i < |r| && Inside(r[i], point);
        assert i < |done| ==> Inside(done[i], point);
      }
      if Covers(done, point) {
        var i :| 0 <= i < |done| && Inside(done[i], point);
        assert Inside(r[i], point);
      }
      assert r[|done|] == c;
    } else {
      assert r[|done| - 1] == Range(p.begin, Max64(c.end, p.end));
      if Covers(r, point) {
        var i :| 0 <= i < |r| && Inside(r[i], point);
        assert i < |done| - 1 ==> Inside(done[i], point);
      }
      if Covers(done, point) {
        var i :| 0 <= i < |done| && Inside(done[i], point);
        assert Inside(r[i], point);
      }
      assert Inside(c, point) ==> Inside(r[|done| - 1], point);
    }
  }

  lemma {:induction false} CompactCovers(done: seq<Range>, rest: seq<Range>, point: int)
    requires done != [] && AllValid(done) && AllValid(rest) && Sorted(rest)
    requires rest != [] ==> done[|done| - 1].begin <= rest[0].begin
    ensures AllValid(Compact(done, rest))
    ensures Covers(Compact(done, rest), point) <==> Covers(done, point) || Covers(rest, point)
    decreases |rest|
  {
    if rest != [] {
      AddCovers(done, rest[0], point);
      CompactCovers(Add(done, rest[0]), rest[1..], point);
      CoversCons(rest, point);
    }
  }

  lemma CoversCons(rs: seq<Range>, point: int)
    requires rs != []
    ensures Covers(rs, point) <==> Inside(rs[0], point) || Covers(rs[1..], point)
  {
  }

  lemma {:induction false} CoversAppend(a: seq<Range>, b: seq<Range>, point: int)
    ensures Covers(a + b, point) <==> Covers(a, point) || Covers(b, point)
  {
    if i :| 0 <= i < |a| && Inside(a[i], point) {
      assert Inside((a + b)[i], point);
    }
    if i :| 0 <= i < |b| && Inside(b[i], point) {
      assert Inside((a + b)[|a| + i], point);
    }
  }

  lemma {:induction false} SamePointsSorted(rs: seq<Range>, point: int)
    ensures Covers(Sort(rs), point) <==> Covers(rs, point)
    ensures AllValid(rs) ==> AllValid(Sort(rs))
  {
    SortSorts(rs);
    var s := Sort(rs);
    forall i | 0 <= i < |s| ensures s[i] in rs { assert s[i] in multiset(s); }
    forall i | 0 <= i < |rs| ensures rs[i] in s { assert rs[i] in multiset(rs); }
  }

  /** Extending covers exactly the union of the old and the new ranges, even where `end + 1` wraps. */
  lemma {:induction false} ExtendCoversUnion(before: seq<Range>, iter: seq<Range>, point: int)
    requires AllValid(before) && AllValid(iter)
    ensures Covers(Normalised(before + iter), point) <==> Covers(before, point) || Covers(iter, point)
  {
    var all := before + iter;
    var s := Sort(all);
    SortSorts(all);
    SamePointsSorted(all, point);
    CoversAppend(before, iter, point);
    if s != [] {
      CompactCovers(s[..1], s[1..], point);
      CoversCons(s, point);
      CoversCons(s[..1], point);
    }
  }

  // ----- canonical form -----

  /** In sorted order, a range reaching the top is followed by one that does not start at 0. */
  ghost predicate WrapsAt(s: seq<Range>, i: int, j: int) {
    0 <= i < j < |s| && s[i].end == U64_MAX && s[j].begin > 0
  }

  ghost predicate Wraps(s: seq<Range>) { exists i, j :: WrapsAt(s, i, j) }

  /** What is canonical apart from the last entry, which is yet to be compared. */
  ghost predicate Ready(done: seq<Range>, rest: seq<Range>) {
    && done != [] && Canonical(done) && AllValid(rest) && Sorted(rest)
    && (rest != [] ==> done[|done| - 1].begin <= rest[0].begin)
  }

  lemma AddKeepsReady(done: seq<Range>, rest: seq<Range>)
    requires Ready(done, rest) && rest != []
    requires done[|done| - 1].end == U64_MAX ==> rest[0].begin == 0
    ensures Ready(Add(done, rest[0]), rest[1..])
    ensures Add(done, rest[0])[|Add(done, rest[0])| - 1].end == U64_MAX ==>
              rest[0].end == U64_MAX || done[|done| - 1].end == U64_MAX
  {
  }

  /** Some range already taken in reaches the top, and a later one does not start at 0. */
  ghost predicate WillWrap(done: seq<Range>, rest: seq<Range>)
    requires done != []
  {
    Wraps(rest) || (done[|done| - 1].end == U64_MAX && exists j :: 0 <= j < |rest| && rest[j].begin > 0)
  }

  ghost predicate Broken(rs: seq<Range>, k: nat) { k + 1 < |rs| && rs[k + 1].begin <= rs[k].end }

  lemma {:induction false} BrokenStays(done: seq<Range>, rest: seq<Range>, k: nat)
    requires done != [] && Broken(done, k)
    ensures Broken(Compact(done, rest), k)
    decreases |rest|
  {
    if rest != [] { BrokenStays(Add(done, rest[0]), rest[1..], k); }
  }

  lemma {:induction false} WrapsCons(rest: seq<Range>)
    requires rest != []
    ensures Wraps(rest) <==>
              Wraps(rest[1..]) || (rest[0].end == U64_MAX && exists j :: 0 <= j < |rest| - 1 && rest[1..][j].begin > 0)
  {
    if Wraps(rest) {
      var i, j :| WrapsAt(rest, i, j);
      if i > 0 { assert WrapsAt(rest[1..], i - 1, j - 1); } else { assert rest[1..][j - 1].begin > 0; }
    }
    if Wraps(rest[1..]) {
      var i, j :| WrapsAt(rest[1..], i, j);
      assert WrapsAt(rest, i + 1, j + 1);
    }
    if rest[0].end == U64_MAX && exists j :: 0 <= j < |rest| - 1 && rest[1..][j].begin > 0 {
      var j :| 0 <= j < |rest| - 1 && rest[1..][j].begin > 0;
      assert WrapsAt(rest, 0, j + 1);
    }
  }

  lemma {:induction false} WillWrapStep(done: seq<Range>, rest: seq<Range>)
    requires Ready(done, rest) && rest != []
    requires done[|done| - 1].end == U64_MAX ==> rest[0].begin == 0
    ensures WillWrap(Add(done, rest[0]), rest[1..]) <==> WillWrap(done, rest)
  {
    WrapsCons(rest);
    var p, c, r := done[|done| - 1], rest[0], Add(done, rest[0]);
    assert r[|r| - 1].end == U64_MAX <==> c.end == U64_MAX || p.end == U64_MAX;
    if p.end == U64_MAX && exists j :: 0 <= j < |rest| && rest[j].begin > 0 {
      var j :| 0 <= j < |rest| && rest[j].begin > 0;
      assert rest[1..][j - 1].begin > 0;
    }
    if exists j :: 0 <= j < |rest| - 1 && rest[1..][j].begin > 0 {
      var j :| 0 <= j < |rest| - 1 && rest[1..][j].begin > 0;
      assert rest[j + 1].begin > 0;
    }
  }

  lemma {:induction false} CompactCanonicalIff(done: seq<Range>, rest: seq<Range>)
    requires Ready(done, rest)
    ensures Canonical(Compact(done, rest)) <==> !WillWrap(done, rest)
    decreases |rest|
  {
    if rest != [] {
      var p, c := done[|done| - 1], rest[0];
      if p.end == U64_MAX && c.begin > 0 {
        assert Broken(Add(done, c), |done| - 1);
        BrokenStays(Add(done, c), rest[1..], |done| - 1);
        assert rest[0].begin > 0;
      } else {
        AddKeepsReady(done, rest);
        WillWrapStep(done, rest);
        CompactCanonicalIff(Add(done, c), rest[1..]);
      }
    }
  }

  /** Among the given ranges, one reaches the top and another, not before it, starts above 0. */
  ghost predicate TopPair(all: seq<Range>, a: Range, b: Range) {
    && a in multiset(all) && b in multiset(all) - multiset{a}
    && a.end == U64_MAX && Le(a, b) && b.begin > 0
  }

  lemma {:induction false} TwoPlaces(s: seq<Range>, a: Range, b: Range) returns (i: nat, j: nat)
    requires a in multiset(s) && b in multiset(s) - multiset{a}
    ensures i < |s| && j < |s| && i != j && s[i] == a && s[j] == b
  {
    i :| i < |s| && s[i] == a;
    var without := s[..i] + s[i + 1..];
    assert s == s[..i] + [s[i]] + s[i + 1..];
    assert multiset(s) == multiset(without) + multiset{a};
    assert b in multiset(without);
    var k :| 0 <= k < |without| && without[k] == b;
    j := if k < i then k else k + 1;
  }

  lemma {:induction false} WrapMeansTopPair(s: seq<Range>, i: nat, j: nat)
    requires Sorted(s) && WrapsAt(s, i, j)
    ensures TopPair(s, s[i], s[j])
  {
    assert s == s[..i] + [s[i]] + s[i + 1..];
    assert multiset(s) == multiset(s[..i]) + multiset{s[i]} + multiset(s[i + 1..]);
    assert s[j] == s[i + 1..][j - i - 1];
  }

  lemma {:induction false} TopPairMeansWrap(s: seq<Range>, a: Range, b: Range)
    requires Sorted(s) && TopPair(s, a, b)
    ensures Wraps(s)
  {
    var i, j := TwoPlaces(s, a, b);
    if i < j {
      assert WrapsAt(s, i, j);
    } else {
      assert Le(b, a) && a == b;
      assert WrapsAt(s, j, i);
    }
  }

  lemma {:induction false} WrapsIffTopPair(all: seq<Range>)
    ensures Wraps(Sort(all)) <==> exists a, b :: TopPair(all, a, b)
  {
    var s := Sort(all);
    SortSorts(all);
    if i, j :| WrapsAt(s, i, j) {
      WrapMeansTopPair(s, i, j);
      assert TopPair(all, s[i], s[j]);
    }
    if a, b :| TopPair(all, a, b) {
      TopPairMeansWrap(s, a, b);
    }
  }

  /**
   * `extend` leaves the canonical form exactly unless a range reaches u64::MAX and another, not
   * before it in order, starts above 0; a caller can see that before calling.
   */
  lemma {:induction false} ExtendCanonicalIff(all: seq<Range>)
    requires AllValid(all)
    ensures Canonical(Normalised(all)) <==> !exists a, b :: TopPair(all, a, b)
  {
    SortSorts(all);
    SamePointsSorted(all, 0);
    WrapsIffTopPair(all);
    if Sort(all) != [] {
      SortedCanonicalIff(Sort(all));
    }
  }

  lemma {:induction false} SortedCanonicalIff(s: seq<Range>)
    requires Sorted(s) && AllValid(s) && s != []
    ensures Canonical(Compact(s[..1], s[1..])) <==> !Wraps(s)
  {
    assert Ready(s[..1], s[1..]);
    CompactCanonicalIff(s[..1], s[1..]);
    WrapsCons(s);
  }

  /** The smallest instance: two valid ranges that overlap stay apart. */
  lemma {:induction false} TopRangeStaysApart()
    ensures !Canonical(Normalised([Range(1, U64_MAX), Range(2, 3)]))
  {
    var a, b := Range(1, U64_MAX), Range(2, 3);
    var all := [a, b];
    assert multiset(all) == multiset{a, b};
    assert TopPair(all, a, b);
    ExtendCanonicalIff(all);
  }

  /** Ranges that end below u64::MAX always normalise. */
  lemma {:induction false} BelowTopIsCanonical(all: seq<Range>)
    requires AllValid(all) && forall i :: 0 <= i < |all| ==> all[i].end < U64_MAX
    ensures Canonical(Normalised(all))
  {
    ExtendCanonicalIff(all);
    forall a, b ensures !TopPair(all, a, b) {
    }
  }

  // ----- uniqueness -----

  ghost predicate SamePoints(x: seq<Range>, y: seq<Range>) { forall point :: Covers(x, point) <==> Covers(y, point) }

  lemma {:induction false} HeadFromCoverage(x: seq<Range>, y: seq<Range>)
    requires Canonical(x) && Canonical(y) && x != [] && y != [] && SamePoints(x, y)
    ensures x[0].begin >= y[0].begin && x[0].end <= y[0].end
  {
    assert Inside(x[0], x[0].begin);
    assert Covers(y, x[0].begin);
    var i :| 0 <= i < |y| && Inside(y[i], x[0].begin);
    assert y[0].begin <= y[i].begin;
    assert Inside(y[0], y[0].begin) && Covers(x, y[0].begin);
    var j :| 0 <= j < |x| && Inside(x[j], y[0].begin);
    assert x[0].begin <= x[j].begin <= y[0].begin;
    var gap := y[0].end as int + 1;
    HeadEnds(y);
    assert !Covers(x, gap);
    assert !Inside(x[0], gap);
  }

  /** The point after the first range of a separated list is not covered. */
  lemma HeadEnds(y: seq<Range>)
    requires Canonical(y) && y != []
    ensures !Covers(y, y[0].end as int + 1)
  {
  }

  lemma {:induction false} TailsSamePoints(x: seq<Range>, y: seq<Range>)
    requires Canonical(x) && Canonical(y) && x != [] && y != [] && SamePoints(x, y) && x[0] == y[0]
    ensures SamePoints(x[1..], y[1..])
  {
    forall point ensures Covers(x[1..], point) <==> Covers(y[1..], point) {
      CoversCons(x, point);
      CoversCons(y, point);
      assert Covers(x, point) <==> Covers(y, point);
      TailAvoidsHead(x, point);
      TailAvoidsHead(y, point);
    }
  }

  lemma TailAvoidsHead(x: seq<Range>, point: int)
    requires Canonical(x) && x != []
    ensures !(Inside(x[0], point) && Covers(x[1..], point))
  {
  }

  /** Two canonical lists covering the same points are the same list. */
  lemma {:induction false} CanonicalUnique(x: seq<Range>, y: seq<Range>)
    requires Canonical(x) && Canonical(y) && SamePoints(x, y)
    ensures x == y
  {
    if x != [] {
      assert Inside(x[0], x[0].begin) && Covers(x, x[0].begin);
    }
    if y != [] {
      assert Inside(y[0], y[0].begin) && Covers(y, y[0].begin);
    }
    if x != [] && y != [] {
      HeadFromCoverage(x, y);
      HeadFromCoverage(y, x);
      TailsSamePoints(x, y);
      CanonicalUnique(x[1..], y[1..]);
      assert x == [x[0]] + x[1..] && y == [y[0]] + y[1..];
    }
  }

  /** Any order, split or overlap: inputs covering the same points normalise to the same list. */
  lemma {:induction false} SameInputSameList(a: seq<Range>, b: seq<Range>)
    requires AllValid(a) && AllValid(b) && SamePoints(a, b)
    requires !exists x, y :: TopPair(a, x, y)
    requires !exists x, y :: TopPair(b, x, y)
    ensures Normalised(a) == Normalised(b)
  {
    ExtendCanonicalIff(a);
    ExtendCanonicalIff(b);
    forall point ensures Covers(Normalised(a), point) <==> Covers(Normalised(b), point) {
      ExtendCoversUnion(a, [], point);
      ExtendCoversUnion(b, [], point);
      assert a + [] == a && b + [] == b;
      assert Covers(a, point) <==> Covers(b, point);
    }
    CanonicalUnique(Normalised(a), Normalised(b));
  }

  // ----- queries -----

  /** The standard binary search for the range holding the point. */
  function ContainingRange(rs: seq<Range>, point: u64, lo: nat, hi: nat): (r: Option<nat>)
    requires lo <= hi <= |rs|
    ensures r.Some? ==> lo <= r.value < hi && Inside(rs[r.value], point)
    decreases hi - lo
  {
    if lo == hi then None else
    var mid := lo + (hi - lo) / 2;
    if point < rs[mid].begin then ContainingRange(rs, point, lo, mid)
    else if rs[mid].end < point then ContainingRange(rs, point, mid + 1, hi)
    else Some(mid)
  }

  function Has(rs: seq<Range>, point: u64): bool { ContainingRange(rs, point, 0, |rs|).Some? }

  function FindContainingRange(rs: seq<Range>, point: u64): Option<Range> {
    match ContainingRange(rs, point, 0, |rs|)
    case None => None
    case Some(i) => Some(rs[i])
  }

  function Includes(rs: seq<Range>, range: Range): bool {
    match FindContainingRange(rs, range.begin)
    case None => false
    case Some(c) => c.end >= range.end
  }

  lemma {:induction false} SearchFinds(rs: seq<Range>, point: u64, lo: nat, hi: nat, i: nat)
    requires Canonical(rs) && lo <= i < hi <= |rs| && Inside(rs[i], point)
    ensures ContainingRange(rs, point, lo, hi) == Some(i)
    decreases hi - lo
  {
    var mid := lo + (hi - lo) / 2;
    if point < rs[mid].begin {
      SearchFinds(rs, point, lo, mid, i);
    } else if rs[mid].end < point {
      SearchFinds(rs, point, mid + 1, hi, i);
    }
  }

  /** A point is in the set exactly when some range covers it. */
  lemma {:induction false} HasIffCovered(rs: seq<Range>, point: u64)
    requires Canonical(rs)
    ensures Has(rs, point) <==> Covers(rs, point)
  {
    if i :| 0 <= i < |rs| && Inside(rs[i], point) {
      SearchFinds(rs, point, 0, |rs|, i);
    }
  }

  /** A range is included exactly when every point of it is covered, though one entry is inspected. */
  lemma {:induction false} IncludesIffCovered(rs: seq<Range>, range: Range)
    requires Canonical(rs) && range.begin <= range.end
    ensures Includes(rs, range) <==> forall point :: Inside(range, point) ==> Covers(rs, point)
  {
    HasIffCovered(rs, range.begin);
    match ContainingRange(rs, range.begin, 0, |rs|)
    case None => assert Inside(range, range.begin);
    case Some(i) =>
      if rs[i].end < range.end {
        var gap := rs[i].end as int + 1;
        assert Inside(range, gap);
        if k :| 0 <= k < |rs| && Inside(rs[k], gap) {
          assert false;
        }
      } else {
        forall point | Inside(range, point) ensures Covers(rs, point) {
          assert Inside(rs[i], point);
        }
      }
  }
}
