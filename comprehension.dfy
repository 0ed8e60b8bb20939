/**
 * The loops and comprehensions that build a list element by element in the
 * scripts: `out = []; for x in xs: out += f(x)` and `[y for x in xs for y in f(x)]`,
 * where evaluating f on an element may raise.  The list is built left to right,
 * so it is defined on the prefix read so far, as the loops see it.
 */
module Comprehension {
  import opened Outcome

  /** What the loop has built after reading xs; the first error raised is the loop's. */
  function Collect<X, Y>(xs: seq<X>, f: X -> Result<seq<Y>>): Result<seq<Y>>
    decreases |xs|
  {
    if xs == [] then Ok([])
    else
      var init :- Collect(xs[..|xs| - 1], f);
      var last :- f(xs[|xs| - 1]);
      Ok(init + last)
  }

  /** A single element builds what it adds. */
  lemma CollectSingle<X, Y>(x: X, f: X -> Result<seq<Y>>)
    ensures Collect([x], f) == f(x)
  {
    assert [x][..0] == [];
    if f(x).Ok? {
      assert [] + f(x).value == f(x).value;
    }
  }

  /** One more element read by the loop: what it adds is appended, or its error is the loop's. */
  lemma CollectStep<X, Y>(xs: seq<X>, i: nat, f: X -> Result<seq<Y>>)
    requires i < |xs| && Collect(xs[..i], f).Ok?
    ensures Collect(xs[..i + 1], f) ==
              match f(xs[i])
              case Err(e) => Err(e)
              case Ok(added) => Ok(Collect(xs[..i], f).value + added)
  {
    assert xs[..i + 1][..i] == xs[..i] && xs[..i + 1][i] == xs[i];
  }

  /** An element that raises stops the loop: nothing read after it matters. */
  lemma {:induction false} CollectErrorPersists<X, Y>(xs: seq<X>, k: nat, f: X -> Result<seq<Y>>)
    requires k <= |xs| && Collect(xs[..k], f).Err?
    ensures Collect(xs, f) == Collect(xs[..k], f)
    decreases |xs| - k
  {
    if k < |xs| {
      assert xs[..k + 1][..k] == xs[..k];
      CollectErrorPersists(xs, k + 1, f);
    } else {
      assert xs[..k] == xs;
    }
  }

  /** When no element raises, the loop succeeds, and every step appends what its
      element adds. */
  lemma {:induction false} CollectOk<X, Y>(xs: seq<X>, f: X -> Result<seq<Y>>)
    requires forall i :: 0 <= i < |xs| ==> f(xs[i]).Ok?
    ensures Collect(xs, f).Ok?
    ensures xs != [] ==> Collect(xs, f).value == Collect(xs[..|xs| - 1], f).value + f(xs[|xs| - 1]).value
    decreases |xs|
  {
    if xs != [] {
      CollectOk(xs[..|xs| - 1], f);
    }
  }

  /** Reading two runs of elements one after the other builds what each builds, in order. */
  lemma {:induction false} CollectConcat<X, Y>(a: seq<X>, b: seq<X>, f: X -> Result<seq<Y>>)
    requires Collect(a, f).Ok? && Collect(b, f).Ok?
    ensures Collect(a + b, f) == Ok(Collect(a, f).value + Collect(b, f).value)
    decreases |b|
  {
    if b == [] {
      assert a + b == a;
      assert Collect(a, f).value + [] == Collect(a, f).value;
    } else {
      var n := |b| - 1;
      assert (a + b)[..|a + b| - 1] == a + b[..n];
      assert (a + b)[|a + b| - 1] == b[n];
      CollectConcat(a, b[..n], f);
      var x, y, z := Collect(a, f).value, Collect(b[..n], f).value, f(b[n]).value;
      assert Collect(b, f).value == y + z;
      assert Collect(a + b, f).value == (x + y) + z;
      assert (x + y) + z == x + (y + z);
    }
  }

  /** Everything built was added by some element. */
  lemma {:induction false} CollectFrom<X, Y>(xs: seq<X>, f: X -> Result<seq<Y>>, v: Y)
    requires Collect(xs, f).Ok? && v in Collect(xs, f).value
    ensures exists i :: 0 <= i < |xs| && f(xs[i]).Ok? && v in f(xs[i]).value
    decreases |xs|
  {
    var n := |xs| - 1;
    var init := xs[..n];
    if v in Collect(init, f).value {
      CollectFrom(init, f, v);
      var i :| 0 <= i < n && f(init[i]).Ok? && v in f(init[i]).value;
      assert init[i] == xs[i];
    } else {
      assert f(xs[n]).Ok? && v in f(xs[n]).value;
    }
  }

  /** When no element raises, everything an element adds is built. */
  lemma {:induction false} CollectKeeps<X, Y>(xs: seq<X>, f: X -> Result<seq<Y>>, i: nat, v: Y)
    requires forall j :: 0 <= j < |xs| ==> f(xs[j]).Ok?
    requires i < |xs| && v in f(xs[i]).value
    ensures Collect(xs, f).Ok? && v in Collect(xs, f).value
    decreases |xs|
  {
    CollectOk(xs, f);
    var n := |xs| - 1;
    if i < n {
      var init := xs[..n];
      assert init[i] == xs[i];
      CollectOk(init, f);
      CollectKeeps(init, f, i, v);
    }
  }

  /** When no element raises, nothing is built iff no element adds anything. */
  lemma CollectEmpty<X, Y>(xs: seq<X>, f: X -> Result<seq<Y>>)
    requires forall j :: 0 <= j < |xs| ==> f(xs[j]).Ok?
    ensures Collect(xs, f).Ok?
    ensures Collect(xs, f).value == [] <==> forall i :: 0 <= i < |xs| ==> f(xs[i]).value == []
  {
    CollectOk(xs, f);
    var built := Collect(xs, f).value;
    if built == [] {
      forall i | 0 <= i < |xs|
        ensures f(xs[i]).value == []
      {
        if f(xs[i]).value != [] {
          CollectKeeps(xs, f, i, f(xs[i]).value[0]);
        }
      }
    } else {
      CollectFrom(xs, f, built[0]);
    }
  }

  /** When every element raises or adds nothing, the loop raises or builds nothing. */
  lemma {:induction false} CollectNothing<X, Y>(xs: seq<X>, f: X -> Result<seq<Y>>)
    requires forall i :: 0 <= i < |xs| ==> f(xs[i]).Err? || f(xs[i]).value == []
    ensures Collect(xs, f).Err? || Collect(xs, f).value == []
    decreases |xs|
  {
    if xs != [] {
      var n := |xs| - 1;
      assert forall i :: 0 <= i < n ==> xs[..n][i] == xs[i];
      CollectNothing(xs[..n], f);
    }
  }

  /** A loop that succeeds read every element without an error. */
  lemma {:induction false} CollectOkEach<X, Y>(xs: seq<X>, f: X -> Result<seq<Y>>)
    requires Collect(xs, f).Ok?
    ensures forall i :: 0 <= i < |xs| ==> f(xs[i]).Ok?
    decreases |xs|
  {
    if xs != [] {
      var n := |xs| - 1;
      CollectOkEach(xs[..n], f);
      assert forall i :: 0 <= i < n ==> xs[..n][i] == xs[i];
    }
  }

  /** Two loops over the same elements, where g raises e exactly where f adds
      something and adds nothing elsewhere: g raises e iff f builds anything. */
  lemma {:induction false} CollectRaises<X, Y>(xs: seq<X>, f: X -> Result<seq<Y>>, g: X -> Result<seq<Y>>, e: Exc)
    requires forall i :: 0 <= i < |xs| ==> f(xs[i]).Ok? && g(xs[i]) == (if f(xs[i]).value == [] then Ok([]) else Err(e))
    ensures Collect(xs, f).Ok?
    ensures Collect(xs, g) == if Collect(xs, f).value == [] then Ok([]) else Err(e)
    decreases |xs|
  {
    CollectOk(xs, f);
    if xs != [] {
      var n := |xs| - 1;
      assert forall i :: 0 <= i < n ==> xs[..n][i] == xs[i];
      CollectRaises(xs[..n], f, g, e);
      if Collect(xs[..n], f).value == [] {
        assert Collect(xs, f).value == f(xs[n]).value;
      }
    }
  }

  /** Two loops over the same elements whose steps raise alike: they raise alike. */
  lemma {:induction false} CollectSameErrors<X, Y, Z>(xs: seq<X>, f: X -> Result<seq<Y>>, g: X -> Result<seq<Z>>)
    requires forall i :: 0 <= i < |xs| ==> f(xs[i]).Err? == g(xs[i]).Err?
    requires forall i :: 0 <= i < |xs| && f(xs[i]).Err? ==> f(xs[i]).error == g(xs[i]).error
    ensures Collect(xs, f).Err? == Collect(xs, g).Err?
    ensures Collect(xs, f).Err? ==> Collect(xs, f).error == Collect(xs, g).error
    decreases |xs|
  {
    if xs != [] {
      var n := |xs| - 1;
      assert forall i :: 0 <= i < n ==> xs[..n][i] == xs[i];
      CollectSameErrors(xs[..n], f, g);
    }
  }

  /** The lists of all items, one after another. */
  function Concat<Y>(lists: seq<seq<Y>>): seq<Y> {
    if lists == [] then [] else Concat(lists[..|lists| - 1]) + lists[|lists| - 1]
  }

  /** The list is built iff f succeeds on every element, and then it is f's lists
      (given as `lists`, one per element) concatenated in the order of the elements. */
  lemma {:induction false} CollectConcatenates<X, Y>(xs: seq<X>, f: X -> Result<seq<Y>>, lists: seq<seq<Y>>)
    requires |lists| == |xs| && forall j :: 0 <= j < |xs| && f(xs[j]).Ok? ==> lists[j] == f(xs[j]).value
    ensures Collect(xs, f).Ok? <==> forall j :: 0 <= j < |xs| ==> f(xs[j]).Ok?
    ensures Collect(xs, f).Ok? ==> Collect(xs, f).value == Concat(lists)
    decreases |xs|
  {
    if xs != [] {
      var front := xs[..|xs| - 1];
      CollectConcatenates(front, f, lists[..|lists| - 1]);
      assert forall j :: 0 <= j < |front| ==> front[j] == xs[j];
      if Collect(front, f).Err? {
        var j :| 0 <= j < |front| && f(front[j]).Err?;
        assert f(xs[j]).Err?;
      }
    }
  }
}
