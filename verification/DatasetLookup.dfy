/** Finding a dataset by its id among those an assignment holds. */
module DatasetLookup {
  import opened Words
  import opened Tables
  import opened Search

  function CompareIds(a: string, b: string): Ordering {
    if a == b then Equal else if Before(a, b) then Less else Greater
  }

  function ById(ids: seq<string>, id: string): nat --> Ordering {
    (i: nat) requires i < |ids| => CompareIds(ids[i], id)
  }

  /** `get_dataset`: the keyed vector is bisected, whatever order it is in. */
  function GetDataset(ids: seq<string>, id: string): Option<nat> { KeyIndex(0, |ids| - 1, ById(ids, id)) }

  method FindDataset(ids: seq<string>, id: string) returns (r: Option<nat>)
    ensures r == GetDataset(ids, id)
    ensures r.Some? ==> r.value < |ids| && ids[r.value] == id
  {
    r := LookupIndexByKey(|ids|, ById(ids, id));
  }

  predicate SortedWithin(ids: seq<string>, lo: nat, hi: nat)
    requires hi <= |ids|
  {
    forall i, j :: lo <= i < j < hi ==> Before(ids[i], ids[j])
  }

  predicate FoundWithin(ids: seq<string>, lo: nat, hi: nat, i: nat)
    requires lo <= hi <= |ids| && i < |ids|
  {
    KeyIndex(lo, hi - 1, ById(ids, ids[i])) == Some(i)
  }

  lemma {:induction false} Opposite(a: string, b: string)
    ensures CompareIds(a, b) == Less <==> Before(a, b)
    ensures CompareIds(a, b) == Greater <==> Before(b, a)
  {
    BeforeTotal(a, b);
    BeforeIrreflexive(a);
    if Before(a, b) && Before(b, a) {
      BeforeTransitive(a, b, a);
    }
  }

  lemma {:induction false} SortedFinds(ids: seq<string>, lo: nat, hi: nat, i: nat)
    requires lo <= i < hi <= |ids| && SortedWithin(ids, lo, hi)
    ensures FoundWithin(ids, lo, hi, i)
    decreases hi - lo
  {
    var mid := (lo + (hi - 1)) / 2;
    Opposite(ids[mid], ids[i]);
    if mid < i {
      SortedFinds(ids, mid + 1, hi, i);
    } else if i < mid {
      SortedFinds(ids, lo, mid, i);
    }
  }

  /** A search that ends at `i` was led there by the middle id, and goes on to end at `i`. */
  lemma {:induction false} LedThere(ids: seq<string>, lo: nat, hi: nat, i: nat)
    requires lo <= i < hi <= |ids| && FoundWithin(ids, lo, hi, i)
    ensures var mid := (lo + (hi - 1)) / 2;
            && (i < mid ==> Before(ids[i], ids[mid]) && FoundWithin(ids, lo, mid, i))
            && (mid < i ==> Before(ids[mid], ids[i]) && FoundWithin(ids, mid + 1, hi, i))
  {
    Opposite(ids[(lo + (hi - 1)) / 2], ids[i]);
  }

  lemma {:induction false} FoundMeansSorted(ids: seq<string>, lo: nat, hi: nat)
    requires lo <= hi <= |ids| && forall i: nat :: lo <= i < hi ==> FoundWithin(ids, lo, hi, i)
    ensures SortedWithin(ids, lo, hi)
    decreases hi - lo
  {
    if lo < hi {
      var mid := (lo + (hi - 1)) / 2;
      forall i: nat | lo <= i < hi
        ensures i < mid ==> Before(ids[i], ids[mid]) && FoundWithin(ids, lo, mid, i)
        ensures mid < i ==> Before(ids[mid], ids[i]) && FoundWithin(ids, mid + 1, hi, i)
      {
        LedThere(ids, lo, hi, i);
      }
      FoundMeansSorted(ids, lo, mid);
      FoundMeansSorted(ids, mid + 1, hi);
      SortedAround(ids, lo, mid, hi);
    }
  }

  lemma {:induction false} SortedAround(ids: seq<string>, lo: nat, mid: nat, hi: nat)
    requires lo <= mid < hi <= |ids| && SortedWithin(ids, lo, mid) && SortedWithin(ids, mid + 1, hi)
    requires forall i :: lo <= i < mid ==> Before(ids[i], ids[mid])
    requires forall i :: mid < i < hi ==> Before(ids[mid], ids[i])
    ensures SortedWithin(ids, lo, hi)
  {
    forall i, j | lo <= i < j < hi ensures Before(ids[i], ids[j]) {
      if i < mid < j {
        BeforeTransitive(ids[i], ids[mid], ids[j]);
      }
    }
  }

  /** Every dataset is found under its own id. */
  predicate AllFound(ids: seq<string>) { forall i: nat :: i < |ids| ==> FoundWithin(ids, 0, |ids|, i) }

  /** That is so if and only if the ids are strictly ascending. */
  lemma {:induction false} FoundIffAscending(ids: seq<string>)
    ensures AllFound(ids) <==> Tables.Ascending(ids)
  {
    if AllFound(ids) {
      FoundMeansSorted(ids, 0, |ids|);
    }
    if Tables.Ascending(ids) {
      forall i, j | 0 <= i < j < |ids| ensures Before(ids[i], ids[j]) {
        AscendingPairs(ids, i, j);
      }
      forall i: nat | i < |ids| ensures FoundWithin(ids, 0, |ids|, i) {
        SortedFinds(ids, 0, |ids|, i);
      }
    }
  }

  /** Two datasets opened the other way round: the second is there and is not found. */
  lemma {:induction false} OutOfOrderIsLost()
    ensures GetDataset(["b", "a"], "a") == None
  {
    var ids := ["b", "a"];
    assert !Before("b", "a");
    assert ById(ids, "a")(0) == Greater;
    assert KeyIndex(0, -1, ById(ids, "a")) == None;
  }
}
