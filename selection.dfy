/**
 * Deleting the selected table rows from a list. The dialogs walk the
 * selection backwards and `del` one index at a time, so the indices still
 * to be deleted never shift. The independent description of the result is
 * an index filter: keep exactly the elements whose index is not selected.
 */
module Selection {

  /** Distinct row indices in ascending order, each within a list of length n. */
  predicate AscendingIn(sel: seq<int>, n: int) {
    && (forall i :: 0 <= i < |sel| ==> 0 <= sel[i] < n)
    && (forall i, j :: 0 <= i < j < |sel| ==> sel[i] < sel[j])
  }

  /** `del s[i]`. */
  function RemoveAt<T>(s: seq<T>, i: int): (r: seq<T>)
    requires 0 <= i < |s|
    ensures |r| == |s| - 1
    ensures r[..i] == s[..i] && r[i..] == s[i + 1..]
  {
    s[..i] + s[i + 1..]
  }

  /** An ascending selection of k rows cannot start later than n - k. */
  lemma {:induction false} AscendingRoom(sel: seq<int>, n: int)
    requires AscendingIn(sel, n) && sel != []
    ensures sel[0] + |sel| <= n
    decreases |sel|
  {
    if |sel| > 1 {
      AscendingRoom(sel[1..], n);
    }
  }

  /** `for row in reversed(sel): del s[row]`: the last selected index goes first. */
  function DeleteDescending<T>(s: seq<T>, sel: seq<int>): (r: seq<T>)
    requires AscendingIn(sel, |s|)
    ensures |r| == |s| - |sel|
    decreases |sel|
  {
    if sel == [] then s
    else
      AscendingRoom(sel, |s|);
      RemoveAt(DeleteDescending(s, sel[1..]), sel[0])
  }

  /** The elements of `s` whose index, counted from `base`, is not in `sel`, in order. */
  function KeepFrom<T>(s: seq<T>, sel: seq<int>, base: int): seq<T>
    decreases |s|
  {
    if s == [] then []
    else (if base in sel then [] else [s[0]]) + KeepFrom(s[1..], sel, base + 1)
  }

  /** Keeping some of the elements never adds one or repeats one. */
  lemma {:induction false} KeepFromSub<T>(s: seq<T>, sel: seq<int>, base: int)
    ensures |KeepFrom(s, sel, base)| <= |s|
    ensures multiset(KeepFrom(s, sel, base)) <= multiset(s)
    decreases |s|
  {
    if s != [] {
      KeepFromSub(s[1..], sel, base + 1);
      assert s == [s[0]] + s[1..];
    }
  }

  /** The elements of `s` at unselected indices, in their original order. */
  function Unselected<T>(s: seq<T>, sel: seq<int>): (r: seq<T>)
    ensures |r| <= |s|
    ensures multiset(r) <= multiset(s)
  {
    KeepFromSub(s, sel, 0);
    KeepFrom(s, sel, 0)
  }

  lemma {:induction false} KeepFromSplit<T>(s: seq<T>, sel: seq<int>, base: int, k: int)
    requires 0 <= k <= |s|
    ensures KeepFrom(s, sel, base) == KeepFrom(s[..k], sel, base) + KeepFrom(s[k..], sel, base + k)
    decreases k
  {
    if k > 0 {
      KeepFromSplit(s[1..], sel, base + 1, k - 1);
      assert s[1..][..k - 1] == s[..k][1..];
      assert s[1..][k - 1..] == s[k..];
    }
  }

  lemma {:induction false} KeepFromNone<T>(s: seq<T>, sel: seq<int>, base: int)
    requires forall k :: base <= k < base + |s| ==> k !in sel
    ensures KeepFrom(s, sel, base) == s
    decreases |s|
  {
    if s != [] {
      KeepFromNone(s[1..], sel, base + 1);
    }
  }

  lemma {:induction false} KeepFromAgree<T>(s: seq<T>, a: seq<int>, b: seq<int>, base: int)
    requires forall k :: base <= k < base + |s| ==> (k in a <==> k in b)
    ensures KeepFrom(s, a, base) == KeepFrom(s, b, base)
    decreases |s|
  {
    if s != [] {
      KeepFromAgree(s[1..], a, b, base + 1);
    }
  }

  /** Indices up to a that no later selection touches are all kept. */
  lemma KeepThrough<T>(s: seq<T>, t: seq<int>, a: int)
    requires 0 <= a < |s|
    requires forall k :: k in t ==> k > a
    ensures KeepFrom(s, t, 0) == s[..a + 1] + KeepFrom(s[a + 1..], t, a + 1)
  {
    KeepFromSplit(s, t, 0, a + 1);
    KeepFromNone(s[..a + 1], t, 0);
  }

  /** A selected element at index a of the list is dropped from the filter over its suffix. */
  lemma KeepFromDrop<T>(s: seq<T>, sel: seq<int>, a: int)
    requires 0 <= a < |s| && a in sel
    ensures KeepFrom(s[a..], sel, a) == KeepFrom(s[a + 1..], sel, a + 1)
  {
    assert s[a..][1..] == s[a + 1..];
    assert KeepFrom(s[a..], sel, a) == [] + KeepFrom(s[a + 1..], sel, a + 1);
  }

  /**
   * An ascending selection selects nothing below its first index, and above
   * it the selection and its tail select the same indices.
   */
  lemma AscendingTail(sel: seq<int>, n: int)
    requires AscendingIn(sel, n) && sel != []
    ensures forall k :: k < sel[0] ==> k !in sel
    ensures forall k :: k > sel[0] ==> (k in sel <==> k in sel[1..])
  {
    forall k | k > sel[0] && k in sel
      ensures k in sel[1..]
    {
      var j :| 0 <= j < |sel| && sel[j] == k;
      assert j != 0;
      assert sel[1..][j - 1] == k;
    }
  }

  /** Below the first index of an ascending selection, everything is kept. */
  lemma KeepBelowFirst<T>(s: seq<T>, sel: seq<int>)
    requires AscendingIn(sel, |s|) && sel != []
    ensures KeepFrom(s, sel, 0) == s[..sel[0]] + KeepFrom(s[sel[0]..], sel, sel[0])
  {
    AscendingTail(sel, |s|);
    KeepFromSplit(s, sel, 0, sel[0]);
    KeepFromNone(s[..sel[0]], sel, 0);
  }

  /** From the first index of an ascending selection on, that index is dropped and the tail decides. */
  lemma KeepFromFirst<T>(s: seq<T>, sel: seq<int>)
    requires AscendingIn(sel, |s|) && sel != []
    ensures KeepFrom(s[sel[0]..], sel, sel[0]) == KeepFrom(s[sel[0] + 1..], sel[1..], sel[0] + 1)
  {
    AscendingTail(sel, |s|);
    KeepFromDrop(s, sel, sel[0]);
    KeepFromAgree(s[sel[0] + 1..], sel, sel[1..], sel[0] + 1);
  }

  /** The filter over an ascending selection: everything below its first index, then that index dropped. */
  lemma KeepSkipFirst<T>(s: seq<T>, sel: seq<int>)
    requires AscendingIn(sel, |s|) && sel != []
    ensures KeepFrom(s, sel, 0) == s[..sel[0]] + KeepFrom(s[sel[0] + 1..], sel[1..], sel[0] + 1)
  {
    KeepBelowFirst(s, sel);
    KeepFromFirst(s, sel);
  }

  /**
   * Deleting in descending order removes exactly the selected indices and
   * keeps every other element, in its original relative order.
   */
  lemma {:induction false} DeleteDescendingIsUnselected<T>(s: seq<T>, sel: seq<int>)
    requires AscendingIn(sel, |s|)
    ensures DeleteDescending(s, sel) == Unselected(s, sel)
    decreases |sel|
  {
    if sel == [] {
      KeepFromNone(s, sel, 0);
    } else {
      var a, t := sel[0], sel[1..];
      DeleteDescendingIsUnselected(s, t);
      KeepThrough(s, t, a);
      var rest := KeepFrom(s[a + 1..], t, a + 1);
      assert DeleteDescending(s, t) == s[..a + 1] + rest;
      assert RemoveAt(s[..a + 1] + rest, a) == s[..a] + rest;
      KeepSkipFirst(s, sel);
    }
  }

  /** A selection of k rows shortens the list by exactly k. */
  lemma UnselectedLength<T>(s: seq<T>, sel: seq<int>)
    requires AscendingIn(sel, |s|)
    ensures |Unselected(s, sel)| == |s| - |sel|
  {
    DeleteDescendingIsUnselected(s, sel);
  }

  /** An empty selection deletes nothing. */
  lemma {:induction false} UnselectedNothing<T>(s: seq<T>)
    ensures Unselected(s, []) == s
  {
    KeepFromNone(s, [], 0);
  }
}
