/** Vocabulary shared by every journal model. */
module Foundation {
  datatype Option<+T> = None | Some(value: T)

  /** A digest, identifier or opaque text. Equality is all that any journal looks at. */
  type Name = nat

  /** A field once written stays. */
  predicate Keeps<T(==)>(a: Option<T>, b: Option<T>) {
    a.Some? ==> b == a
  }

  function Elements<T(==)>(xs: seq<T>): set<T> {
    set x | x in xs
  }

  ghost predicate Distinct<T>(xs: seq<T>) {
    forall i, j :: 0 <= i < j < |xs| ==> xs[i] != xs[j]
  }

  /** Comparing a set's size with the list it came from is an exact test for repetition. */
  lemma {:induction false} SetSizeIsDistinct<T>(xs: seq<T>)
    ensures |Elements(xs)| <= |xs|
    ensures |Elements(xs)| == |xs| <==> Distinct(xs)
  {
    if xs == [] {
      assert Elements(xs) == {};
    } else {
      var k := |xs| - 1;
      var rest := xs[..k];
      SetSizeIsDistinct(rest);
      assert forall i :: 0 <= i < k ==> rest[i] == xs[i];
      assert Elements(xs) == Elements(rest) + {xs[k]} by {
        forall x | x in xs ensures x in rest || x == xs[k] {
          var i :| 0 <= i < |xs| && xs[i] == x;
          if i < k {
            assert rest[i] == x;
          }
        }
      }
      if xs[k] in rest {
        assert Elements(xs) == Elements(rest);
        var i :| 0 <= i < k && rest[i] == xs[k];
        assert xs[i] == xs[k];
      } else if Distinct(rest) {
        assert Distinct(xs);
      } else {
        var i, j :| 0 <= i < j < k && rest[i] == rest[j];
        assert xs[i] == xs[j];
      }
    }
  }

  lemma DistinctSnoc<T>(xs: seq<T>, x: T)
    ensures Distinct(xs + [x]) <==> Distinct(xs) && x !in xs
  {
    var all := xs + [x];
    if x in xs {
      var i :| 0 <= i < |xs| && xs[i] == x;
      assert all[i] == all[|xs|];
    } else if !Distinct(xs) {
      var i, j :| 0 <= i < j < |xs| && xs[i] == xs[j];
      assert all[i] == all[j];
    }
  }
}
