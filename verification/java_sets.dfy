/** java.util.Set.of(E...): an immutable set built from an array of
    elements, refusing an array in which some element occurs twice. */
module JavaSets {
  import opened Wrappers

  /** No element occurs twice in `s`. */
  predicate Distinct<T(==)>(s: seq<T>)
  {
    forall i, j :: 0 <= i < j < |s| ==> s[i] != s[j]
  }

  /** The elements of `s`, as a set. */
  function Elements<T>(s: seq<T>): set<T>
  {
    set x | x in s
  }

  /** Position `j` holds the first element of `s` that repeats an earlier one. */
  predicate FirstRepeatAt<T(==)>(s: seq<T>, j: int)
  {
    0 <= j < |s| && s[j] in s[..j] && Distinct(s[..j])
  }

  /** Appending one element keeps a sequence distinct exactly when the
      element is new. */
  lemma DistinctSnoc<T>(init: seq<T>, last: T)
    ensures Distinct(init + [last]) <==> Distinct(init) && last !in init
  {
    var s := init + [last];
    if Distinct(s) {
      assert forall i, j :: 0 <= i < j < |init| ==> init[i] == s[i] && init[j] == s[j];
      forall k | 0 <= k < |init|
        ensures init[k] != last
      {
        assert s[k] == init[k] && s[|init|] == last;
      }
    }
  }

  /** The first repeat of a sequence stays its first repeat when more
      elements follow. */
  lemma FirstRepeatSnoc<T>(init: seq<T>, last: T, j: int)
    requires FirstRepeatAt(init, j)
    ensures FirstRepeatAt(init + [last], j)
  {
    assert (init + [last])[..j] == init[..j];
  }

  /** Set.of over `elements`: the elements are added in array order and the
      first one already present is reported as the duplicate (the
      IllegalArgumentException). On success the set holds exactly the
      elements, one per array slot. */
  function SetOf<T(==)>(elements: seq<T>): (r: Result<set<T>, T>)
    ensures r.Success? <==> Distinct(elements)
    ensures r.Success? ==> r.value == Elements(elements) && |r.value| == |elements|
    ensures r.Failure? ==> exists j :: FirstRepeatAt(elements, j) && elements[j] == r.error
  {
    if |elements| == 0 then Success({})
    else
      var n := |elements| - 1;
      var init, last := elements[..n], elements[n];
      assert elements == init + [last];
      DistinctSnoc(init, last);
      match SetOf(init)
      case Failure(dup) =>
        var j :| FirstRepeatAt(init, j) && init[j] == dup;
        FirstRepeatSnoc(init, last, j);
        Failure(dup)
      case Success(seen) =>
        assert Elements(elements) == Elements(init) + {last};
        if last in seen then
          assert elements[..n] == init;
          Failure(last)
        else
          Success(seen + {last})
  }
}
