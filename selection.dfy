/** Boolean masks over sequences, the way numpy uses them: `np.nonzero(mask)`
    (or a list comprehension with a condition) gives the ascending list of
    indices where the mask holds, fancy indexing `s[idx]` picks those
    entries, and `s[mask]` is the two together. */
module Selection {

  /** Strictly increasing, as every index list produced from a mask is. */
  predicate Ascending(s: seq<nat>) {
    forall j, k :: 0 <= j < k < |s| ==> s[j] < s[k]
  }

  /** Every index is in range for a sequence of length n. */
  predicate InRange(idx: seq<nat>, n: nat) {
    forall k :: 0 <= k < |idx| ==> idx[k] < n
  }

  /** The indices i >= lo at which mask[i] holds, in ascending order. */
  function WhereFrom(mask: seq<bool>, lo: nat): (r: seq<nat>)
    ensures forall i :: i in r <==> lo <= i < |mask| && mask[i]
    ensures Ascending(r) && InRange(r, |mask|)
    decreases |mask| - lo
  {
    if lo >= |mask| then []
    else
      var rest := WhereFrom(mask, lo + 1);
      assert forall k :: 0 <= k < |rest| ==> rest[k] in rest;
      if mask[lo] then [lo] + rest else rest
  }

  /** There are no more indices from lo on than positions from lo on. */
  lemma {:induction false} WhereFromLength(mask: seq<bool>, lo: nat)
    requires lo <= |mask|
    ensures |WhereFrom(mask, lo)| <= |mask| - lo
    decreases |mask| - lo
  {
    if lo < |mask| {
      WhereFromLength(mask, lo + 1);
    }
  }

  /** `np.nonzero(mask)`: all indices at which the mask holds, ascending. */
  function Where(mask: seq<bool>): (r: seq<nat>)
    ensures forall i :: i in r <==> 0 <= i < |mask| && mask[i]
    ensures Ascending(r)
    ensures InRange(r, |mask|)
    ensures |r| <= |mask|
  {
    WhereFromLength(mask, 0);
    WhereFrom(mask, 0)
  }

  /** The first index of Where(mask) is the smallest index where the mask
      holds: the `[0]` that follows a boolean mask in numpy. */
  lemma WhereFirst(mask: seq<bool>, i: nat)
    requires i < |mask| && mask[i]
    ensures Where(mask) != []
    ensures Where(mask)[0] <= i && mask[Where(mask)[0]]
    ensures forall k :: 0 <= k < Where(mask)[0] ==> !mask[k]
  {
  }

  /** A mask that holds at exactly one index m selects just m. */
  lemma {:induction false} WhereSingle(mask: seq<bool>, lo: nat, m: nat)
    requires m < |mask| && lo <= |mask|
    requires forall i :: 0 <= i < |mask| ==> (mask[i] <==> i == m)
    ensures WhereFrom(mask, lo) == if lo <= m then [m] else []
    decreases |mask| - lo
  {
    if lo < |mask| {
      WhereSingle(mask, lo + 1, m);
    }
  }

  /** A mask that holds everywhere selects every index, in order. */
  lemma {:induction false} WhereAll(mask: seq<bool>, lo: nat)
    requires lo <= |mask|
    requires forall i :: 0 <= i < |mask| ==> mask[i]
    ensures |WhereFrom(mask, lo)| == |mask| - lo
    ensures forall k :: 0 <= k < |mask| - lo ==> WhereFrom(mask, lo)[k] == lo + k
    decreases |mask| - lo
  {
    if lo < |mask| {
      WhereAll(mask, lo + 1);
      var rest := WhereFrom(mask, lo + 1);
      assert WhereFrom(mask, lo) == [lo] + rest;
    }
  }

  /** Fancy indexing `s[idx]`. */
  function Pick<T>(s: seq<T>, idx: seq<nat>): (r: seq<T>)
    requires InRange(idx, |s|)
    ensures |r| == |idx|
  {
    seq(|idx|, k requires 0 <= k < |idx| => s[idx[k]])
  }

  /** Boolean-mask indexing `s[mask]`: the entries at the indices of
      `Where(mask)`, so in index order, one per position where the mask
      holds; no longer than `s`, every entry where the mask holds is kept,
      and every kept entry comes from a position where it holds. */
  function Compress<T>(s: seq<T>, mask: seq<bool>): (r: seq<T>)
    requires |s| == |mask|
    ensures |r| <= |s|
    ensures |r| == |Where(mask)| && forall k :: 0 <= k < |r| ==> r[k] == s[Where(mask)[k]]
    ensures forall i :: 0 <= i < |s| && mask[i] ==> s[i] in r
    ensures forall k :: 0 <= k < |r| ==> Where(mask)[k] < |s| && mask[Where(mask)[k]]
  {
    var idx := Where(mask);
    assert forall k :: 0 <= k < |idx| ==> idx[k] in idx;
    Pick(s, idx)
  }

  /** A mask that holds everywhere keeps the whole sequence. */
  lemma CompressAllTrue<T>(s: seq<T>, mask: seq<bool>)
    requires |s| == |mask| && forall i :: 0 <= i < |mask| ==> mask[i]
    ensures Compress(s, mask) == s
  {
    WhereAll(mask, 0);
    assert forall k :: 0 <= k < |s| ==> Compress(s, mask)[k] == s[Where(mask)[k]];
  }

  /** Element-wise pairing of two sequences of one length. */
  function Zip<A, B>(a: seq<A>, b: seq<B>): (r: seq<(A, B)>)
    requires |a| == |b|
  {
    seq(|a|, k requires 0 <= k < |a| => (a[k], b[k]))
  }
}
