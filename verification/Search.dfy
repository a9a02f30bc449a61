/** The hand-written binary searches of the assignment reader. */
module Search {
  import opened Words

  datatype Ordering = Less | Equal | Greater

  // ----- partition_point -----

  /** The index the bisection of `[lo, hi)` settles on, for any predicate, prefix-shaped or not. */
  function PartitionIndex(lo: nat, hi: nat, pred: nat --> bool): (r: nat)
    requires lo <= hi
    requires forall i: nat :: lo <= i < hi ==> pred.requires(i)
    ensures lo <= r <= hi
    ensures r > lo ==> pred(r - 1)
    ensures r < hi ==> !pred(r)
    decreases hi - lo
  {
    if lo == hi then lo else
    var mid := (lo + hi) / 2;
    if pred(mid) then PartitionIndex(mid + 1, hi, pred) else PartitionIndex(lo, mid, pred)
  }

  lemma Middle(lo: nat, hi: nat)
    requires lo <= hi
    ensures lo + (hi - lo) / 2 == (lo + hi) / 2
  {
  }

  method PartitionPoint(len: nat, pred: nat --> bool) returns (r: nat)
    requires forall i: nat :: i < len ==> pred.requires(i)
    ensures r == PartitionIndex(0, len, pred)
  {
    var low, high := 0, len;
    ghost var target := PartitionIndex(0, len, pred);
    while low < high
      invariant 0 <= low <= high <= len
      invariant PartitionIndex(low, high, pred) == target
      decreases high - low
    {
      low, high := Halve(low, high, pred);
    }
    r := low;
  }

  /** One round of the loop. */
  method Halve(low: nat, high: nat, pred: nat --> bool) returns (l: nat, h: nat)
    requires low < high && forall i: nat :: low <= i < high ==> pred.requires(i)
    ensures low <= l <= h <= high && h - l < high - low
    ensures PartitionIndex(l, h, pred) == PartitionIndex(low, high, pred)
  {
    Middle(low, high);
    var mid := low + (high - low) / 2;
    if pred(mid) {
      return mid + 1, high;
    } else {
      return low, mid;
    }
  }

  // ----- binary_search_by -----

  /** The bisection of the open interval `(left, right)`; `left == -1` stands for "before the first". */
  function BisectBy(left: int, right: int, cmp: nat --> Ordering): (r: Result<nat, Option<nat>>)
    requires -1 <= left < right
    requires forall i: nat :: left < i < right ==> cmp.requires(i)
    ensures r.Ok? ==> left < r.value < right && cmp(r.value) == Equal
    ensures r.Err? && r.error.None? ==> left == -1 && (0 < right ==> cmp(0) == Greater)
    ensures r.Err? && r.error.Some? ==>
              && left <= r.error.value < right
              && (left < r.error.value ==> cmp(r.error.value) == Less)
              && (r.error.value + 1 < right ==> cmp(r.error.value + 1) == Greater)
    decreases right - left
  {
    if left + 1 >= right then Err(if left == -1 then None else Some(left)) else
    var mid := (left + right) / 2;
    match cmp(mid)
    case Less => BisectBy(mid, right, cmp)
    case Greater => BisectBy(left, mid, cmp)
    case Equal => Ok(mid)
  }

  method BinarySearchBy(len: nat, cmp: nat --> Ordering) returns (r: Result<nat, Option<nat>>)
    requires forall i: nat :: i < len ==> cmp.requires(i)
    ensures r == BisectBy(-1, len, cmp)
  {
    var left: int, right: int := -1, len;
    while left + 1 < right
      invariant -1 <= left < right <= len
      invariant BisectBy(left, right, cmp) == BisectBy(-1, len, cmp)
    {
      var mid := (left + right) / 2;
      match cmp(mid) {
        case Less => left := mid;
        case Greater => right := mid;
        case Equal => return Ok(mid);
      }
    }
    r := Err(if left == -1 then None else Some(left));
  }

  // ----- lookup_index_by_key -----

  /** A comparison that is `Less` on a prefix, `Greater` on a suffix and `Equal` at most in between. */
  ghost predicate Ascending(len: nat, cmp: nat --> Ordering)
    requires forall i: nat :: i < len ==> cmp.requires(i)
  {
    forall i: nat, j: nat :: i < j < len ==>
      && (cmp(j) == Less ==> cmp(i) == Less)
      && (cmp(i) == Greater ==> cmp(j) == Greater)
  }

  /** The bisection of `left` to `right`, both included, for any comparison, ascending or not. */
  function KeyIndex(left: nat, right: int, cmp: nat --> Ordering): (r: Option<nat>)
    requires left <= right + 1
    requires forall i: nat :: left <= i <= right ==> cmp.requires(i)
    ensures r.Some? ==> left <= r.value <= right && cmp(r.value) == Equal
    decreases right - left + 1
  {
    if left > right then None else
    var mid := (left + right) / 2;
    match cmp(mid)
    case Less => KeyIndex(mid + 1, right, cmp)
    case Greater => KeyIndex(left, mid - 1, cmp)
    case Equal => Some(mid)
  }

  method LookupIndexByKey(len: nat, cmp: nat --> Ordering) returns (r: Option<nat>)
    requires forall i: nat :: i < len ==> cmp.requires(i)
    ensures r == KeyIndex(0, len - 1, cmp)
    ensures Ascending(len, cmp) ==> (r.Some? <==> exists i: nat :: i < len && cmp(i) == Equal)
  {
    KeyFoundIff(len, cmp);
    if len == 0 {
      return None;
    }
    var left: nat, right: int := 0, len - 1;
    ghost var target := KeyIndex(0, len - 1, cmp);
    while left <= right
      invariant left <= right + 1 <= len && KeyIndex(left, right, cmp) == target
      decreases right - left + 1
    {
      var done;
      done, r, left, right := Probe(left, right, cmp);
      if done {
        return;
      }
    }
    r := None;
  }

  /** One round of the loop: the outcome, or the half to go on with. */
  method Probe(left: nat, right: int, cmp: nat --> Ordering) returns (done: bool, r: Option<nat>, l: nat, h: int)
    requires left <= right && forall i: nat :: left <= i <= right ==> cmp.requires(i)
    ensures done ==> r == KeyIndex(left, right, cmp)
    ensures !done ==> left <= l <= h + 1 <= right + 1 && h - l < right - left
    ensures !done ==> KeyIndex(l, h, cmp) == KeyIndex(left, right, cmp)
  {
    var mid := (left + right) / 2;
    match cmp(mid) {
      case Equal => return true, Some(mid), left, right;
      case Less => return false, None, mid + 1, right;
      case Greater =>
        if mid == 0 {
          return true, None, left, right;
        }
        return false, None, left, mid - 1;
    }
  }

  /** On ascending keys the lookup finds a match whenever there is one. */
  lemma {:induction false} KeyFound(left: nat, right: int, len: nat, cmp: nat --> Ordering, i: nat)
    requires left <= i <= right < len && forall j: nat :: j < len ==> cmp.requires(j)
    requires Ascending(len, cmp) && cmp(i) == Equal
    ensures KeyIndex(left, right, cmp).Some?
    decreases right - left + 1
  {
    var mid := (left + right) / 2;
    if cmp(mid) == Less {
      KeyFound(mid + 1, right, len, cmp, i);
    } else if cmp(mid) == Greater {
      KeyFound(left, mid - 1, len, cmp, i);
    }
  }

  lemma {:induction false} KeyFoundIff(len: nat, cmp: nat --> Ordering)
    requires forall i: nat :: i < len ==> cmp.requires(i)
    ensures Ascending(len, cmp) ==>
              (KeyIndex(0, len - 1, cmp).Some? <==> exists i: nat :: i < len && cmp(i) == Equal)
  {
    if i: nat :| i < len && cmp(i) == Equal && Ascending(len, cmp) {
      KeyFound(0, len - 1, len, cmp, i);
    }
  }
}
