/** The bitmap a chunk carries over its write schema's table roster. */
module Tables {
  import opened Words

  // ----- name order -----

  /** Byte order on strings, which for UTF-8 is code point order. */
  predicate Before(a: string, b: string) {
    if b == [] then false
    else if a == [] then true
    else a[0] < b[0] || (a[0] == b[0] && Before(a[1..], b[1..]))
  }

  /** What both `is_sorted_by` checks ask of a list: each neighbour strictly after the last. */
  predicate Ascending(names: seq<string>) {
    forall i :: 0 <= i < |names| - 1 ==> Before(names[i], names[i + 1])
  }

  lemma {:induction false} BeforeIrreflexive(a: string)
    ensures !Before(a, a)
  {
    if a != [] { BeforeIrreflexive(a[1..]); }
  }

  lemma {:induction false} BeforeTransitive(a: string, b: string, c: string)
    requires Before(a, b) && Before(b, c)
    ensures Before(a, c)
  {
    if a != [] && a[0] == b[0] && b[0] == c[0] {
      BeforeTransitive(a[1..], b[1..], c[1..]);
    }
  }

  lemma {:induction false} BeforeTotal(a: string, b: string)
    ensures Before(a, b) || a == b || Before(b, a)
  {
    if a != [] && b != [] && a[0] == b[0] {
      BeforeTotal(a[1..], b[1..]);
      assert a == [a[0]] + a[1..] && b == [b[0]] + b[1..];
    }
  }

  lemma {:induction false} AscendingPairs(names: seq<string>, i: nat, j: nat)
    requires Ascending(names) && i < j < |names|
    ensures Before(names[i], names[j])
    decreases j - i
  {
    if i + 1 < j {
      AscendingPairs(names, i, j - 1);
      BeforeTransitive(names[i], names[j - 1], names[j]);
    }
  }

  // ----- bits -----

  /** `1u8 << k`. */
  function Mask(k: nat): bv8
    requires k < 8
  {
    [1, 2, 4, 8, 16, 32, 64, 128][k]
  }

  predicate Has(b: bv8, k: nat)
    requires k < 8
  {
    b & Mask(k) != 0
  }

  function With(b: bv8, k: nat): bv8
    requires k < 8
  {
    b | Mask(k)
  }

  predicate Bit(bits: seq<bv8>, i: nat) {
    i / 8 < |bits| && Has(bits[i / 8], i % 8)
  }

  function SetBit(bits: seq<bv8>, i: nat): seq<bv8>
    requires i / 8 < |bits|
  {
    bits[i / 8 := With(bits[i / 8], i % 8)]
  }

  /** Bit `i` is bit `i % 8`, counted from the low end, of byte `i / 8`. */
  lemma {:induction false} BitIs(bits: seq<bv8>, i: nat)
    ensures Bit(bits, i) <==> i / 8 < |bits| && (bits[i / 8] >> (i % 8)) & 1 == 1
  {
    if i / 8 < |bits| {
      ShiftIs(bits[i / 8], i % 8);
    }
  }

  lemma ShiftIs(b: bv8, k: nat)
    requires k < 8
    ensures Has(b, k) <==> (b >> k) & 1 == 1
  {
  }

  lemma WithHas(b: bv8, j: nat, k: nat)
    requires j < 8 && k < 8
    ensures Has(With(b, j), k) <==> j == k || Has(b, k)
  {
  }

  lemma {:induction false} SetBitAt(bits: seq<bv8>, i: nat, j: nat)
    requires i / 8 < |bits|
    ensures Bit(SetBit(bits, i), j) <==> i == j || Bit(bits, j)
  {
    assert i == 8 * (i / 8) + i % 8 && j == 8 * (j / 8) + j % 8;
    if i / 8 == j / 8 {
      WithHas(bits[i / 8], i % 8, j % 8);
    }
  }

  // ----- tables_present -----

  /** The roster cursor moved forward past every name before `name`. */
  function SkipTo(roster: seq<string>, index: nat, name: string): (k: nat)
    requires index <= |roster|
    ensures index <= k <= |roster|
    decreases |roster| - index
  {
    if index < |roster| && Before(roster[index], name) then SkipTo(roster, index + 1, name) else index
  }

  lemma {:induction false} SkipsExactly(roster: seq<string>, index: nat, name: string)
    requires index <= |roster|
    ensures var k := SkipTo(roster, index, name);
            && (forall i :: index <= i < k ==> Before(roster[i], name))
            && (k < |roster| ==> !Before(roster[k], name))
    decreases |roster| - index
  {
    if index < |roster| && Before(roster[index], name) {
      SkipsExactly(roster, index + 1, name);
    }
  }

  datatype Matched = Matched(ok: bool, at: seq<nat>)

  /** The one-pass walk along the roster, up to the first name it cannot find. */
  function Match(roster: seq<string>, tables: seq<string>, index: nat): Matched
    requires index <= |roster|
    decreases |tables|
  {
    if tables == [] then Matched(true, []) else
    var k := SkipTo(roster, index, tables[0]);
    if k < |roster| && roster[k] == tables[0]
    then
      var m := Match(roster, tables[1..], k + 1);
      Matched(m.ok, [k] + m.at)
    else Matched(false, [])
  }

  predicate InRange(at: seq<nat>, n: nat) { forall j :: 0 <= j < |at| ==> at[j] < n }

  lemma {:induction false} MatchInRange(roster: seq<string>, tables: seq<string>, index: nat)
    requires index <= |roster|
    ensures InRange(Match(roster, tables, index).at, |roster|)
    decreases |tables|
  {
    if tables != [] {
      var k := SkipTo(roster, index, tables[0]);
      if k < |roster| {
        MatchInRange(roster, tables[1..], k + 1);
      }
    }
  }

  /** Sets the bits one after the other. */
  function SetAll(bits: seq<bv8>, at: seq<nat>): (r: seq<bv8>)
    requires InRange(at, 8 * |bits|)
    ensures |r| == |bits|
  {
    if at == [] then bits else SetBit(SetAll(bits, at[..|at| - 1]), at[|at| - 1])
  }

  lemma SetAllAppend(bits: seq<bv8>, at: seq<nat>, k: nat)
    requires InRange(at, 8 * |bits|) && k < 8 * |bits|
    ensures InRange(at + [k], 8 * |bits|) && SetAll(bits, at + [k]) == SetBit(SetAll(bits, at), k)
  {
    assert (at + [k])[..|at|] == at;
  }

  function ZeroBits(n: nat): (bits: seq<bv8>)
    ensures n <= 8 * |bits| && (bits == [] <==> n == 0)
  {
    seq((n + 7) / 8, _ => 0)
  }

  datatype Merged = Merged(ok: bool, bits: seq<bv8>)

  function TablesPresent(roster: seq<string>, tables: seq<string>): Merged {
    var m := Match(roster, tables, 0);
    MatchInRange(roster, tables, 0);
    Merged(m.ok, SetAll(ZeroBits(|roster|), m.at))
  }

  method Advance(roster: seq<string>, start: nat, name: string) returns (index: nat)
    requires start <= |roster|
    ensures index == SkipTo(roster, start, name)
  {
    index := start;
    while index < |roster| && Before(roster[index], name)
      invariant start <= index <= |roster|
      invariant SkipTo(roster, index, name) == SkipTo(roster, start, name)
    {
      index := index + 1;
    }
  }

  /** After `t` names, found at the positions `done`, the rest of the walk completes `whole`. */
  ghost predicate Continues(
    roster: seq<string>, tables: seq<string>, t: nat, index: nat, done: seq<nat>, whole: Matched)
    requires index <= |roster| && t <= |tables|
  {
    var m := Match(roster, tables[t..], index);
    whole == Matched(m.ok, done + m.at)
  }

  lemma {:induction false} WalkBegins(roster: seq<string>, tables: seq<string>)
    ensures Continues(roster, tables, 0, 0, [], Match(roster, tables, 0))
  {
    assert tables[0..] == tables;
    assert [] + Match(roster, tables, 0).at == Match(roster, tables, 0).at;
  }

  lemma {:induction false} WalkStep(
    roster: seq<string>, tables: seq<string>, t: nat, index: nat, done: seq<nat>, whole: Matched)
    requires index <= |roster| && t < |tables| && Continues(roster, tables, t, index, done, whole)
    ensures var k := SkipTo(roster, index, tables[t]);
            if k < |roster| && roster[k] == tables[t] then Continues(roster, tables, t + 1, k + 1, done + [k], whole)
            else whole == Matched(false, done)
  {
    var k := SkipTo(roster, index, tables[t]);
    assert tables[t..][0] == tables[t] && tables[t..][1..] == tables[t + 1..];
    if k < |roster| && roster[k] == tables[t] {
      var m := Match(roster, tables[t + 1..], k + 1);
      assert done + ([k] + m.at) == (done + [k]) + m.at;
    } else {
      assert done + [] == done;
    }
  }

  lemma {:induction false} WalkEnds(
    roster: seq<string>, tables: seq<string>, index: nat, done: seq<nat>, whole: Matched)
    requires index <= |roster| && Continues(roster, tables, |tables|, index, done, whole)
    ensures whole == Matched(true, done)
  {
    assert tables[|tables|..] == [];
    assert done + [] == done;
  }

  /** One round of the loop: finds the next name in the roster and sets its bit. */
  method MarkNext(
    roster: seq<string>, tables: seq<string>, t: nat, index: nat, bits: seq<bv8>,
    ghost zeros: seq<bv8>, ghost done: seq<nat>, ghost whole: Matched)
    returns (found: bool, k: nat, marked: seq<bv8>)
    requires index <= |roster| <= 8 * |zeros| && t < |tables|
    requires Continues(roster, tables, t, index, done, whole)
    requires InRange(done, 8 * |zeros|) && bits == SetAll(zeros, done)
    ensures found ==>
              && k < |roster| && Continues(roster, tables, t + 1, k + 1, done + [k], whole)
              && InRange(done + [k], 8 * |zeros|) && marked == SetAll(zeros, done + [k])
    ensures !found ==> whole == Matched(false, done) && marked == bits
  {
    WalkStep(roster, tables, t, index, done, whole);
    k := Advance(roster, index, tables[t]);
    if !(k < |roster| && roster[k] == tables[t]) {
      return false, k, bits;
    }
    SetAllAppend(zeros, done, k);
    return true, k, SetBit(bits, k);
  }

  /** The loop of the chunk builder, over a buffer of zeros. */
  method MarkAll(roster: seq<string>, tables: seq<string>, zeros: seq<bv8>) returns (m: Merged)
    requires |roster| <= 8 * |zeros|
    ensures var whole := Match(roster, tables, 0);
            InRange(whole.at, 8 * |zeros|) && m == Merged(whole.ok, SetAll(zeros, whole.at))
  {
    var bits, index := zeros, 0;
    ghost var whole := Match(roster, tables, 0);
    ghost var done: seq<nat> := [];
    WalkBegins(roster, tables);
    for t := 0 to |tables|
      invariant 0 <= index <= |roster| && Continues(roster, tables, t, index, done, whole)
      invariant InRange(done, 8 * |zeros|) && bits == SetAll(zeros, done)
    {
      var found, k, marked := MarkNext(roster, tables, t, index, bits, zeros, done, whole);
      if !found {
        return Merged(false, bits);
      }
      bits, index := marked, k + 1;
      done := done + [k];
    }
    WalkEnds(roster, tables, index, done, whole);
    m := Merged(true, bits);
  }

  /** `m.bits` is what the staging buffer holds afterwards. */
  method EncodeTables(roster: seq<string>, tables: seq<string>) returns (m: Merged)
    ensures m == TablesPresent(roster, tables)
  {
    var zeros := ZeroBits(|roster|);
    m := MarkAll(roster, tables, zeros);
  }

  // ----- chunk_tables -----

  /** The roster names from `i` on whose bit is set. */
  function Selected(roster: seq<string>, bits: seq<bv8>, i: nat): seq<string>
    decreases |roster| - i
  {
    if i >= |roster| then []
    else (if Bit(bits, i) then [roster[i]] else []) + Selected(roster, bits, i + 1)
  }

  /** What the reader lists for a chunk: no bitmap means the whole roster. */
  function ChunkTables(roster: seq<string>, bits: Option<seq<bv8>>): seq<string> {
    match bits
    case None => roster
    case Some(bits) => Selected(roster, bits, 0)
  }

  /** Roster entry `k` is that name, and its bit, if there are bits, is set. */
  predicate Shows(roster: seq<string>, bits: Option<seq<bv8>>, name: string, k: nat) {
    k < |roster| && roster[k] == name && (bits.Some? ==> Bit(bits.value, k))
  }

  lemma SelectedStep(roster: seq<string>, bits: seq<bv8>, i: nat)
    requires i < |roster|
    ensures Selected(roster, bits, i)
         == (if Bit(bits, i) then [roster[i]] else []) + Selected(roster, bits, i + 1)
  {
  }

  lemma {:induction false} SelectedShows(roster: seq<string>, bits: seq<bv8>, i: nat, name: string) returns (k: nat)
    requires name in Selected(roster, bits, i)
    ensures i <= k && Shows(roster, Some(bits), name, k)
    decreases |roster| - i
  {
    SelectedStep(roster, bits, i);
    if Bit(bits, i) && roster[i] == name {
      k := i;
    } else {
      k := SelectedShows(roster, bits, i + 1, name);
    }
  }

  lemma {:induction false} ShownIsSelected(roster: seq<string>, bits: seq<bv8>, i: nat, name: string, k: nat)
    requires i <= k && Shows(roster, Some(bits), name, k)
    ensures name in Selected(roster, bits, i)
    decreases k - i
  {
    SelectedStep(roster, bits, i);
    if i < k {
      ShownIsSelected(roster, bits, i + 1, name, k);
    }
  }

  /** For any bitmap, the reader lists the roster names whose bit is set, and bits past the roster name none. */
  lemma {:induction false} ListedIff(roster: seq<string>, bits: Option<seq<bv8>>, name: string)
    ensures name in ChunkTables(roster, bits) <==> exists k: nat :: Shows(roster, bits, name, k)
  {
    if k: nat :| Shows(roster, bits, name, k) {
      if bits.Some? {
        ShownIsSelected(roster, bits.value, 0, name, k);
      }
    }
    if name in ChunkTables(roster, bits) {
      if bits.Some? {
        var k := SelectedShows(roster, bits.value, 0, name);
      } else {
        var k :| 0 <= k < |roster| && roster[k] == name;
        assert Shows(roster, bits, name, k);
      }
    }
  }

  // ----- when the walk succeeds -----

  /** The names a walk starting at `index` can succeed on. */
  ghost predicate Mergeable(roster: seq<string>, tables: seq<string>, index: nat) {
    Ascending(tables) && forall t :: t in tables ==> exists i :: index <= i < |roster| && roster[i] == t
  }

  lemma {:induction false} MatchSucceedsIff(roster: seq<string>, tables: seq<string>, index: nat)
    requires Ascending(roster) && index <= |roster|
    ensures Match(roster, tables, index).ok <==> Mergeable(roster, tables, index)
    decreases |tables|
  {
    if tables != [] {
      var name := tables[0];
      var k := SkipTo(roster, index, name);
      if k < |roster| && roster[k] == name {
        MatchSucceedsIff(roster, tables[1..], k + 1);
        if Mergeable(roster, tables[1..], k + 1) {
          MergeableCons(roster, tables, index, k);
        }
        if Mergeable(roster, tables, index) {
          MergeableTail(roster, tables, index, k);
        }
      } else {
        assert name in tables;
        MissIsAbsent(roster, index, name);
      }
    }
  }

  /** On a sorted roster the walk misses only names that are not there. */
  lemma {:induction false} MissIsAbsent(roster: seq<string>, index: nat, name: string)
    requires Ascending(roster) && index <= |roster|
    requires var k := SkipTo(roster, index, name); k < |roster| ==> roster[k] != name
    ensures forall j :: index <= j < |roster| ==> roster[j] != name
  {
    var k := SkipTo(roster, index, name);
    SkipsExactly(roster, index, name);
    BeforeIrreflexive(name);
    forall j | index <= j < |roster| ensures roster[j] != name {
      if k < j { AscendingPairs(roster, k, j); }
    }
  }

  lemma {:induction false} MergeableCons(roster: seq<string>, tables: seq<string>, index: nat, k: nat)
    requires Ascending(roster) && tables != [] && index <= k < |roster| && roster[k] == tables[0]
    requires Mergeable(roster, tables[1..], k + 1)
    ensures Mergeable(roster, tables, index)
  {
    if |tables| > 1 {
      assert tables[1] in tables[1..];
      var i :| k + 1 <= i < |roster| && roster[i] == tables[1];
      AscendingPairs(roster, k, i);
    }
    forall i | 0 <= i < |tables| - 1 ensures Before(tables[i], tables[i + 1]) {
      if i > 0 { assert tables[i] == tables[1..][i - 1] && tables[i + 1] == tables[1..][i]; }
    }
    forall t | t in tables ensures exists i :: index <= i < |roster| && roster[i] == t {
      if t != tables[0] { assert t in tables[1..]; }
    }
  }

  lemma {:induction false} MergeableTail(roster: seq<string>, tables: seq<string>, index: nat, k: nat)
    requires Ascending(roster) && tables != [] && index <= k < |roster| && roster[k] == tables[0]
    requires Mergeable(roster, tables, index)
    ensures Mergeable(roster, tables[1..], k + 1)
  {
    forall t | t in tables[1..] ensures exists i :: k + 1 <= i < |roster| && roster[i] == t {
      var m :| 1 <= m < |tables| && tables[m] == t;
      AscendingPairs(tables, 0, m);
      assert t in tables;
      var i :| index <= i < |roster| && roster[i] == t;
      if i < k {
        AscendingPairs(roster, i, k);
        BeforeTransitive(t, tables[0], t);
      }
      BeforeIrreflexive(t);
    }
  }

  // ----- what it selects -----

  /** Increasing positions at or after `index`. */
  predicate Climbs(at: seq<nat>, index: nat) {
    at != [] ==> index <= at[0] && Climbs(at[1..], at[0] + 1)
  }

  function NamesAt(roster: seq<string>, at: seq<nat>): seq<string>
    requires InRange(at, |roster|)
  {
    seq(|at|, j requires 0 <= j < |at| => roster[at[j]])
  }

  /** The walk's positions increase, and on success they name the tables in order. */
  lemma {:induction false} MatchNames(roster: seq<string>, tables: seq<string>, index: nat)
    requires index <= |roster|
    ensures var m := Match(roster, tables, index);
            && InRange(m.at, |roster|) && Climbs(m.at, index)
            && (m.ok ==> NamesAt(roster, m.at) == tables)
    decreases |tables|
  {
    if tables != [] {
      var k := SkipTo(roster, index, tables[0]);
      if k < |roster| && roster[k] == tables[0] {
        MatchNames(roster, tables[1..], k + 1);
        ConsPosition(roster, k, Match(roster, tables[1..], k + 1).at, index);
      }
    }
  }

  lemma {:induction false} ConsPosition(roster: seq<string>, k: nat, at: seq<nat>, index: nat)
    requires index <= k < |roster| && InRange(at, |roster|) && Climbs(at, k + 1)
    ensures InRange([k] + at, |roster|) && Climbs([k] + at, index)
    ensures NamesAt(roster, [k] + at) == [roster[k]] + NamesAt(roster, at)
  {
    assert ([k] + at)[1..] == at;
  }

  lemma {:induction false} ClimbsAbove(at: seq<nat>, index: nat, x: nat)
    requires Climbs(at, index) && x in at
    ensures x >= index
  {
    if x != at[0] {
      assert at == [at[0]] + at[1..];
      ClimbsAbove(at[1..], at[0] + 1, x);
    }
  }

  lemma {:induction false} ClimbsPast(at: seq<nat>, i: nat)
    requires Climbs(at, i) && (at == [] || at[0] != i)
    ensures Climbs(at, i + 1) && i !in at
  {
    forall x | x in at ensures x != i {
      ClimbsAbove(at, i + 1, x);
    }
  }

  lemma {:induction false} SetAllSets(bits: seq<bv8>, at: seq<nat>, i: nat)
    requires InRange(at, 8 * |bits|)
    ensures Bit(SetAll(bits, at), i) <==> Bit(bits, i) || i in at
  {
    if at != [] {
      var front, last := at[..|at| - 1], at[|at| - 1];
      assert at == front + [last];
      SetAllSets(bits, front, i);
      SetBitAt(SetAll(bits, front), last, i);
    }
  }

  /** The roster names from `i` on at the given positions. */
  function Picked(roster: seq<string>, at: seq<nat>, i: nat): seq<string>
    decreases |roster| - i
  {
    if i >= |roster| then [] else (if i in at then [roster[i]] else []) + Picked(roster, at, i + 1)
  }

  lemma {:induction false} SelectedIsPicked(roster: seq<string>, bits: seq<bv8>, at: seq<nat>, i: nat)
    requires forall j: nat :: Bit(bits, j) <==> j in at
    ensures Selected(roster, bits, i) == Picked(roster, at, i)
    decreases |roster| - i
  {
    if i < |roster| {
      SelectedIsPicked(roster, bits, at, i + 1);
    }
  }

  /** A position below `i` makes no difference from `i` on. */
  lemma {:induction false} PickedAfter(roster: seq<string>, k: nat, at: seq<nat>, i: nat)
    requires k < i
    ensures Picked(roster, [k] + at, i) == Picked(roster, at, i)
    decreases |roster| - i
  {
    if i < |roster| {
      PickedAfter(roster, k, at, i + 1);
    }
  }

  /** Increasing positions pick the names there. */
  lemma {:induction false} PickedNames(roster: seq<string>, at: seq<nat>, i: nat)
    requires i <= |roster| && InRange(at, |roster|) && Climbs(at, i)
    ensures Picked(roster, at, i) == NamesAt(roster, at)
    decreases |roster| - i
  {
    if i == |roster| {
      assert at == [];
    } else if at != [] && at[0] == i {
      var rest := at[1..];
      assert at == [i] + rest;
      PickedAfter(roster, i, rest, i + 1);
      PickedNames(roster, rest, i + 1);
      ConsPosition(roster, i, rest, i);
    } else {
      ClimbsPast(at, i);
      PickedNames(roster, at, i + 1);
    }
  }

  lemma {:induction false} ZeroHasNone(n: nat, i: nat)
    ensures !Bit(ZeroBits(n), i)
  {
    if i / 8 < |ZeroBits(n)| {
      assert ZeroBits(n)[i / 8] == 0;
    }
  }

  /** The bits left behind are those at the walk's positions. */
  lemma {:induction false} PresentBits(roster: seq<string>, tables: seq<string>, i: nat)
    ensures Bit(TablesPresent(roster, tables).bits, i) <==> i in Match(roster, tables, 0).at
  {
    MatchInRange(roster, tables, 0);
    SetAllSets(ZeroBits(|roster|), Match(roster, tables, 0).at, i);
    ZeroHasNone(|roster|, i);
  }

  /**
   * Without the debug assertion, `tables_present` accepts exactly the strictly ascending lists of
   * roster names; then bit `i` is set exactly when `roster[i]` is listed.
   */
  lemma {:induction false} TablesPresentExact(roster: seq<string>, tables: seq<string>)
    requires Ascending(roster)
    ensures var m := TablesPresent(roster, tables);
            && (m.ok <==> Ascending(tables) && forall t :: t in tables ==> t in roster)
            && (m.ok ==> forall i: nat :: Bit(m.bits, i) <==> i < |roster| && roster[i] in tables)
            && |m.bits| == (|roster| + 7) / 8
  {
    MatchSucceedsIff(roster, tables, 0);
    assert Mergeable(roster, tables, 0) <==> Ascending(tables) && forall t :: t in tables ==> t in roster;
    var m := Match(roster, tables, 0);
    MatchNames(roster, tables, 0);
    if m.ok {
      forall i: nat ensures Bit(TablesPresent(roster, tables).bits, i) <==> i < |roster| && roster[i] in tables {
        PresentBits(roster, tables, i);
        NamedIffPosition(roster, tables, m.at, i);
      }
    }
  }

  lemma {:induction false} NamedIffPosition(roster: seq<string>, tables: seq<string>, at: seq<nat>, i: nat)
    requires Ascending(roster) && InRange(at, |roster|) && NamesAt(roster, at) == tables
    ensures i in at <==> i < |roster| && roster[i] in tables
  {
    if i in at {
      var j :| 0 <= j < |at| && at[j] == i;
      assert tables[j] == roster[i];
    }
    if i < |roster| && roster[i] in tables {
      var j :| 0 <= j < |tables| && tables[j] == roster[i];
      assert roster[at[j]] == roster[i];
      DistinctNames(roster, at[j], i);
    }
  }

  lemma {:induction false} DistinctNames(roster: seq<string>, i: nat, j: nat)
    requires Ascending(roster) && i < |roster| && j < |roster| && roster[i] == roster[j]
    ensures i == j
  {
    BeforeIrreflexive(roster[i]);
    if i < j { AscendingPairs(roster, i, j); }
    if j < i { AscendingPairs(roster, j, i); }
  }

  /** The reader lists exactly the tables the builder was given; an empty bitmap is the whole roster. */
  lemma {:induction false} TablesRoundTrip(roster: seq<string>, tables: seq<string>)
    requires TablesPresent(roster, tables).ok
    ensures var bits := TablesPresent(roster, tables).bits;
            ChunkTables(roster, if bits == [] then None else Some(bits)) == tables
  {
    var bits, at := TablesPresent(roster, tables).bits, Match(roster, tables, 0).at;
    MatchNames(roster, tables, 0);
    if bits == [] {
      assert roster == [] && at == [];
    } else {
      forall j: nat ensures Bit(bits, j) <==> j in at {
        PresentBits(roster, tables, j);
      }
      SelectedIsPicked(roster, bits, at, 0);
      PickedNames(roster, at, 0);
    }
  }
}
