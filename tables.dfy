/**
 * Building a keyed table by scanning a list in order, as a `forEach` that assigns
 * `table[key] = value` does: later writes to a key replace earlier ones, entries
 * that produce no key are skipped. Also the enumeration order of integer keys.
 */
module Tables {
  import opened Wrappers

  /** Whether scanning `x` writes key `k`. */
  predicate Writes<T, K(==), V>(entry: T -> Option<(K, V)>, x: T, k: K)
  {
    entry(x).Some? && entry(x).value.0 == k
  }

  /** The table left after scanning `xs` from first to last. */
  function Tabulate<T, K(==), V>(xs: seq<T>, entry: T -> Option<(K, V)>): map<K, V>
    decreases |xs|
  {
    if xs == [] then map[]
    else
      var m := Tabulate(xs[..|xs| - 1], entry);
      match entry(xs[|xs| - 1])
      case None => m
      case Some(kv) => m[kv.0 := kv.1]
  }

  /** A key is in the table exactly when some scanned element writes it. */
  lemma {:induction false} TabulateKeys<T, K, V>(xs: seq<T>, entry: T -> Option<(K, V)>, k: K)
    ensures k in Tabulate(xs, entry) <==> exists i :: 0 <= i < |xs| && Writes(entry, xs[i], k)
    decreases |xs|
  {
    if xs != [] {
      var init := xs[..|xs| - 1];
      TabulateKeys(init, entry, k);
      if k in Tabulate(xs, entry) && !Writes(entry, xs[|xs| - 1], k) {
        var i :| 0 <= i < |init| && Writes(entry, init[i], k);
        assert xs[i] == init[i];
      }
      if (exists i :: 0 <= i < |xs| && Writes(entry, xs[i], k)) && !Writes(entry, xs[|xs| - 1], k) {
        var i :| 0 <= i < |xs| && Writes(entry, xs[i], k);
        assert init[i] == xs[i];
      }
    }
  }

  /** The value under a key comes from the last element that writes that key. */
  lemma {:induction false} TabulateLast<T, K, V>(xs: seq<T>, entry: T -> Option<(K, V)>, k: K)
    requires k in Tabulate(xs, entry)
    ensures exists i :: 0 <= i < |xs| && entry(xs[i]) == Some((k, Tabulate(xs, entry)[k]))
                        && forall j :: i < j < |xs| ==> !Writes(entry, xs[j], k)
    decreases |xs|
  {
    var init := xs[..|xs| - 1];
    var last := |xs| - 1;
    if Writes(entry, xs[last], k) {
      assert entry(xs[last]) == Some((k, Tabulate(xs, entry)[k]));
    } else {
      assert k in Tabulate(init, entry) && Tabulate(xs, entry)[k] == Tabulate(init, entry)[k];
      TabulateLast(init, entry, k);
      var i :| 0 <= i < |init| && entry(init[i]) == Some((k, Tabulate(init, entry)[k]))
                && forall j :: i < j < |init| ==> !Writes(entry, init[j], k);
      assert entry(xs[i]) == Some((k, Tabulate(xs, entry)[k]));
      forall j | i < j < |xs| ensures !Writes(entry, xs[j], k) {
        if j < last { assert xs[j] == init[j]; }
      }
    }
  }

  /** A least element of a non-empty set of integers. */
  lemma {:induction false} MinExists(s: set<int>)
    requires s != {}
    ensures exists m :: m in s && forall y :: y in s ==> m <= y
    decreases |s|
  {
    if forall x :: x !in s { assert false; }
    var x :| x in s;
    if s != {x} {
      MinExists(s - {x});
      var m :| m in s - {x} && forall y :: y in s - {x} ==> m <= y;
      var least := if x < m then x else m;
      forall y | y in s ensures least <= y {
        if y != x { assert y in s - {x}; }
      }
    }
  }

  function MinKey(s: set<int>): (m: int)
    requires s != {}
    ensures m in s && forall y :: y in s ==> m <= y
  {
    MinExists(s);
    var m :| m in s && forall y :: y in s ==> m <= y;
    m
  }

  /**
   * The keys of an object whose keys are integers, in the order JavaScript
   * enumerates them: ascending.
   */
  function SortedKeys(s: set<int>): (r: seq<int>)
    ensures |r| == |s|
    ensures forall x :: x in r <==> x in s
    ensures forall i, j :: 0 <= i < j < |r| ==> r[i] < r[j]
    decreases |s|
  {
    if s == {} then []
    else
      var m := MinKey(s);
      [m] + SortedKeys(s - {m})
  }
}
