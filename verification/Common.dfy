/** Small shared definitions: optional values, results, and facts about sequences without repetition. */
module Common {

  datatype Option<+T> = None | Some(value: T)

  datatype Result<+T, +E> = Ok(value: T) | Err(error: E) {
    predicate IsFailure() { Err? }

    function PropagateFailure<U>(): Result<U, E>
      requires Err?
    {
      Err(error)
    }

    function Extract(): T
      requires Ok?
    {
      value
    }
  }

  function Elems<T>(s: seq<T>): set<T> { set x | x in s }

  predicate NoRepeats<T(==)>(s: seq<T>) {
    forall i, j :: 0 <= i < j < |s| ==> s[i] != s[j]
  }

  /** A sequence has no repetition exactly when it has as many elements as its set of elements. */
  lemma {:induction false} NoRepeatsByCount<T>(s: seq<T>)
    ensures |Elems(s)| <= |s|
    ensures NoRepeats(s) <==> |Elems(s)| == |s|
  {
    if |s| > 0 {
      var last, rest := s[|s| - 1], s[..|s| - 1];
      NoRepeatsByCount(rest);
      assert s == rest + [last];
      assert Elems(s) == Elems(rest) + {last};
      if last in rest {
        assert Elems(s) == Elems(rest);
        var i :| 0 <= i < |rest| && rest[i] == last;
        assert s[i] == s[|s| - 1];
      }
    }
  }

  lemma NoRepeatsAppend<T>(a: seq<T>, b: seq<T>)
    ensures NoRepeats(a + b) <==> NoRepeats(a) && NoRepeats(b) && Elems(a) !! Elems(b)
  {
    var s := a + b;
    if NoRepeats(s) {
      assert forall i :: 0 <= i < |a| ==> a[i] == s[i];
      assert forall j :: 0 <= j < |b| ==> b[j] == s[|a| + j];
      forall x | x in Elems(a) ensures x !in Elems(b) {
        var i :| 0 <= i < |a| && a[i] == x;
        assert forall j :: 0 <= j < |b| ==> b[j] != x;
      }
    }
    if NoRepeats(a) && NoRepeats(b) && Elems(a) !! Elems(b) {
      forall i, j | 0 <= i < j < |s| ensures s[i] != s[j] {
        if i < |a| <= j {
          assert s[i] in Elems(a) && s[j] in Elems(b);
        }
      }
    }
  }

  lemma SubsetExactly<T>(a: set<T>, b: set<T>)
    ensures a <= b <==> a - b == {}
  {
    assert a <= b + (a - b);
  }

  lemma SubsetCount<T>(a: set<T>, b: set<T>)
    requires a <= b
    ensures |a| <= |b|
  {
    assert b == a + (b - a);
  }

  lemma ElemsAppend<T>(a: seq<T>, b: seq<T>)
    ensures Elems(a + b) == Elems(a) + Elems(b)
  {
  }
}
