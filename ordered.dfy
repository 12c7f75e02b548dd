/**
 * PHP's ordered arrays as the gateways walk them with `foreach`: a sequence
 * of key/value entries. Two walks recur: copying the entries whose value
 * passes a test, and keeping each value only when no earlier accepted value
 * is equivalent to it. Both are stated here once, for any test and any
 * equivalence, with what they keep and drop.
 */
module OrderedArrays {

  /** An entry of an ordered PHP array: its key and its value. */
  datatype Entry<T> = Entry(code: string, row: T)

  /** The entries whose value passes `keep`, in their order. */
  function Filter<T>(t: seq<Entry<T>>, keep: T -> bool): (r: seq<Entry<T>>)
    ensures |r| <= |t|
  {
    if t == [] then []
    else Filter(t[..|t| - 1], keep) + (if keep(t[|t| - 1].row) then [t[|t| - 1]] else [])
  }

  /** Extending the walked prefix by one entry. */
  lemma FilterStep<T>(t: seq<Entry<T>>, i: int, keep: T -> bool)
    requires 0 <= i < |t|
    ensures Filter(t[..i + 1], keep) == Filter(t[..i], keep) + (if keep(t[i].row) then [t[i]] else [])
  {
    assert t[..i + 1][..i] == t[..i];
  }

  /** An entry is kept exactly when it is an entry of the array and its value passes the test. */
  lemma {:induction false} FilterMembers<T>(t: seq<Entry<T>>, keep: T -> bool, e: Entry<T>)
    ensures e in Filter(t, keep) <==> e in t && keep(e.row)
  {
    if t != [] {
      var init := t[..|t| - 1];
      var last := if keep(t[|t| - 1].row) then [t[|t| - 1]] else [];
      assert Filter(t, keep) == Filter(init, keep) + last;
      assert t == init + [t[|t| - 1]];
      FilterMembers(init, keep, e);
      assert e in Filter(init, keep) + last <==> e in Filter(init, keep) || e in last;
      assert e in t <==> e in init || e == t[|t| - 1];
    }
  }

  /** Every kept entry is an entry of the array. */
  lemma {:induction false} FilterSubset<T>(t: seq<Entry<T>>, keep: T -> bool)
    ensures forall e :: e in Filter(t, keep) ==> e in t
  {
    forall e | e in Filter(t, keep) {
      FilterMembers(t, keep, e);
    }
  }

  // ---------------------------------------------------------------------------
  // First occurrences under an equivalence

  /** Some value before position `i` passes `ok` and is `same` as `x`. */
  predicate SeenBefore<T>(rows: seq<Entry<T>>, i: int, x: T, ok: T -> bool, same: (T, T) -> bool)
    requires 0 <= i <= |rows|
    decreases i
  {
    i > 0 && (SeenBefore(rows, i - 1, x, ok, same) || (ok(rows[i - 1].row) && same(x, rows[i - 1].row)))
  }

  /** `SeenBefore` read as a statement about positions. */
  lemma {:induction false} SeenBeforeAt<T>(rows: seq<Entry<T>>, i: int, x: T, ok: T -> bool, same: (T, T) -> bool)
    requires 0 <= i <= |rows|
    ensures SeenBefore(rows, i, x, ok, same) <==> exists j :: 0 <= j < i && ok(rows[j].row) && same(x, rows[j].row)
    decreases i
  {
    if i > 0 {
      SeenBeforeAt(rows, i - 1, x, ok, same);
      var here := ok(rows[i - 1].row) && same(x, rows[i - 1].row);
      if SeenBefore(rows, i, x, ok, same) {
        if !SeenBefore(rows, i - 1, x, ok, same) {
          assert here;
        }
      } else {
        forall j | 0 <= j < i
          ensures !(ok(rows[j].row) && same(x, rows[j].row))
        {
          if j == i - 1 {
            assert !here;
          }
        }
      }
    }
  }

  /** The value at position `i` passes `ok` and no earlier value that passes is `same` as it. */
  predicate FirstOf<T>(rows: seq<Entry<T>>, i: int, ok: T -> bool, same: (T, T) -> bool)
    requires 0 <= i < |rows|
  {
    ok(rows[i].row) && !SeenBefore(rows, i, rows[i].row, ok, same)
  }

  /** The entries among the first `n` that are first of their kind, in their order. */
  function FirstOccurrences<T>(rows: seq<Entry<T>>, n: nat, ok: T -> bool, same: (T, T) -> bool): (r: seq<Entry<T>>)
    requires n <= |rows|
    ensures |r| <= n
  {
    if n == 0 then []
    else FirstOccurrences(rows, n - 1, ok, same) + (if FirstOf(rows, n - 1, ok, same) then [rows[n - 1]] else [])
  }

  /** The position of the entry a kept entry is. */
  lemma {:induction false} FirstOccurrencesOrigin<T>(rows: seq<Entry<T>>, n: nat, ok: T -> bool,
                                                     same: (T, T) -> bool, p: int)
    returns (j: int)
    requires n <= |rows|
    requires 0 <= p < |FirstOccurrences(rows, n, ok, same)|
    ensures 0 <= j < n && FirstOf(rows, j, ok, same)
    ensures FirstOccurrences(rows, n, ok, same)[p] == rows[j]
  {
    var prev := FirstOccurrences(rows, n - 1, ok, same);
    var last := if FirstOf(rows, n - 1, ok, same) then [rows[n - 1]] else [];
    var r := FirstOccurrences(rows, n, ok, same);
    assert r == prev + last;
    if p < |prev| {
      j := FirstOccurrencesOrigin(rows, n - 1, ok, same, p);
      assert r[p] == prev[p];
    } else {
      j := n - 1;
      assert r[p] == last[0];
    }
  }

  /** Every entry that is first of its kind is kept. */
  lemma {:induction false} FirstOccurrencesComplete<T>(rows: seq<Entry<T>>, n: nat, ok: T -> bool,
                                                       same: (T, T) -> bool, j: int)
    requires n <= |rows| && 0 <= j < n && FirstOf(rows, j, ok, same)
    ensures rows[j] in FirstOccurrences(rows, n, ok, same)
  {
    var prev := FirstOccurrences(rows, n - 1, ok, same);
    var last := if FirstOf(rows, n - 1, ok, same) then [rows[n - 1]] else [];
    assert FirstOccurrences(rows, n, ok, same) == prev + last;
    if j < n - 1 {
      FirstOccurrencesComplete(rows, n - 1, ok, same, j);
      assert rows[j] in prev;
    } else {
      assert last == [rows[j]];
    }
  }

  /** No two entries of `r` hold values that are `same`. */
  predicate Apart<T>(r: seq<Entry<T>>, same: (T, T) -> bool) {
    forall p, q :: 0 <= p < |r| && 0 <= q < |r| && p != q ==> !same(r[p].row, r[q].row)
  }

  /** No two kept values are `same`, when `same` is symmetric. */
  lemma {:induction false} FirstOccurrencesDistinct<T>(rows: seq<Entry<T>>, n: nat, ok: T -> bool,
                                                       same: (T, T) -> bool)
    requires n <= |rows|
    requires forall a, b :: same(a, b) ==> same(b, a)
    ensures Apart(FirstOccurrences(rows, n, ok, same), same)
  {
    if n > 0 {
      var r := FirstOccurrences(rows, n, ok, same);
      var prev := FirstOccurrences(rows, n - 1, ok, same);
      var last := if FirstOf(rows, n - 1, ok, same) then [rows[n - 1]] else [];
      assert r == prev + last;
      FirstOccurrencesDistinct(rows, n - 1, ok, same);
      forall p, q | 0 <= p < |r| && 0 <= q < |r| && p != q
        ensures !same(r[p].row, r[q].row)
      {
        if p < |prev| && q < |prev| {
          assert r[p] == prev[p] && r[q] == prev[q];
          assert !same(prev[p].row, prev[q].row);
        } else {
          var older := if p < q then p else q;
          var newer := if p < q then q else p;
          assert newer == |prev| && r[newer] == rows[n - 1];
          var j := FirstOccurrencesOrigin(rows, n - 1, ok, same, older);
          assert r[older] == prev[older] == rows[j];
          assert FirstOf(rows, n - 1, ok, same);
          SeenBeforeAt(rows, n - 1, rows[n - 1].row, ok, same);
          assert !same(rows[n - 1].row, rows[j].row);
          assert !same(rows[j].row, rows[n - 1].row);
        }
      }
    }
  }

  /** Some value of `t` is `same` as `x`. */
  predicate SeenIn<T>(x: T, t: seq<Entry<T>>, same: (T, T) -> bool)
    decreases |t|
  {
    |t| > 0 && (SeenIn(x, t[..|t| - 1], same) || same(x, t[|t| - 1].row))
  }

  lemma SeenInAppend<T>(x: T, t: seq<Entry<T>>, e: Entry<T>, same: (T, T) -> bool)
    ensures SeenIn(x, t + [e], same) <==> SeenIn(x, t, same) || same(x, e.row)
  {
    assert (t + [e])[..|t|] == t;
  }

  /** A value that passes but is not kept is `same` as an earlier value that passes, and so is anything `same` as it. */
  lemma DroppedRepeats<T>(rows: seq<Entry<T>>, k: int, x: T, ok: T -> bool, same: (T, T) -> bool)
    requires 0 <= k < |rows| && ok(rows[k].row) && !FirstOf(rows, k, ok, same)
    requires forall a, b, c :: same(a, b) && same(b, c) ==> same(a, c)
    requires same(x, rows[k].row)
    ensures SeenBefore(rows, k, x, ok, same)
  {
    SeenBeforeAt(rows, k, rows[k].row, ok, same);
    var j :| 0 <= j < k && ok(rows[j].row) && same(rows[k].row, rows[j].row);
    assert same(x, rows[j].row);
    SeenBeforeAt(rows, k, x, ok, same);
  }

  /**
   * When `same` is transitive, a value is `same` as some kept value exactly
   * when it is `same` as some earlier value that passes, kept or not.
   */
  lemma {:induction false} FirstOccurrencesSeen<T>(rows: seq<Entry<T>>, n: nat, x: T, ok: T -> bool,
                                                   same: (T, T) -> bool)
    requires n <= |rows|
    requires forall a, b, c :: same(a, b) && same(b, c) ==> same(a, c)
    ensures SeenIn(x, FirstOccurrences(rows, n, ok, same), same) <==> SeenBefore(rows, n, x, ok, same)
  {
    if n > 0 {
      var prev := FirstOccurrences(rows, n - 1, ok, same);
      FirstOccurrencesSeen(rows, n - 1, x, ok, same);
      if FirstOf(rows, n - 1, ok, same) {
        assert FirstOccurrences(rows, n, ok, same) == prev + [rows[n - 1]];
        SeenInAppend(x, prev, rows[n - 1], same);
      } else {
        assert FirstOccurrences(rows, n, ok, same) == prev;
        if ok(rows[n - 1].row) && same(x, rows[n - 1].row) {
          DroppedRepeats(rows, n - 1, x, ok, same);
        }
      }
    }
  }

  /** A later value that passes and is `same` as an earlier value that passes is dropped. */
  lemma LaterDuplicateDropped<T>(rows: seq<Entry<T>>, i: int, j: int, ok: T -> bool, same: (T, T) -> bool)
    requires 0 <= i < j < |rows|
    requires ok(rows[i].row) && same(rows[j].row, rows[i].row)
    ensures !FirstOf(rows, j, ok, same)
  {
    SeenBeforeAt(rows, j, rows[j].row, ok, same);
  }

  // ---------------------------------------------------------------------------
  // Rewriting every value

  /** Every entry with its value rewritten by `f`, under the same key and in the same order. */
  function MapRows<T, U>(t: seq<Entry<T>>, f: T -> U): (r: seq<Entry<U>>)
    ensures |r| == |t|
  {
    if t == [] then []
    else MapRows(t[..|t| - 1], f) + [Entry(t[|t| - 1].code, f(t[|t| - 1].row))]
  }

  /** Entry `p` of the result is entry `p` of the array with its value rewritten. */
  lemma {:induction false} MapRowsAt<T, U>(t: seq<Entry<T>>, f: T -> U, p: int)
    requires 0 <= p < |t|
    ensures MapRows(t, f)[p] == Entry(t[p].code, f(t[p].row))
  {
    var init := t[..|t| - 1];
    assert MapRows(t, f) == MapRows(init, f) + [Entry(t[|t| - 1].code, f(t[|t| - 1].row))];
    if p < |t| - 1 {
      MapRowsAt(init, f, p);
      assert init[p] == t[p];
    }
  }

  lemma MapRowsAppend<T, U>(t: seq<Entry<T>>, e: Entry<T>, f: T -> U)
    ensures MapRows(t + [e], f) == MapRows(t, f) + [Entry(e.code, f(e.row))]
  {
    assert (t + [e])[..|t|] == t;
  }
}
