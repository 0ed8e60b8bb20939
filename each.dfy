/**
 * A `for` loop whose body rewrites the current item of a list in place or
 * raises: what it leaves behind, and the method that runs it over an array.
 */
module Each {
  import opened Outcome
  import opened Python

  /** The values a loop leaves behind when its body, run on the items one after
      another, rewrites item j to f(items[j]) or raises: the items before the first
      raise are rewritten, the rest are left as they were. */
  function Applied(items: seq<Value>, f: Value -> Result<Value>): (r: (seq<Value>, Option<Exc>))
    ensures |r.0| == |items|
  {
    if items == [] then ([], None)
    else
      var n := |items| - 1;
      var front := Applied(items[..n], f);
      var last := f(items[n]);
      if front.1.Some? then (front.0 + [items[n]], front.1)
      else if last.Err? then (front.0 + [items[n]], Some(last.error))
      else (front.0 + [last.value], None)
  }

  /** Once an item has raised, the later ones are passed over untouched. */
  lemma {:induction false} AppliedErrPersists(items: seq<Value>, f: Value -> Result<Value>, k: nat)
    requires k <= |items| && Applied(items[..k], f).1.Some?
    ensures Applied(items, f) == (Applied(items[..k], f).0 + items[k..], Applied(items[..k], f).1)
    decreases |items| - k
  {
    if k < |items| {
      var front := Applied(items[..k], f);
      assert items[..k + 1][..k] == items[..k];
      assert items[..k + 1][k] == items[k];
      assert Applied(items[..k + 1], f) == (front.0 + [items[k]], front.1);
      AppliedErrPersists(items, f, k + 1);
      assert items[k..] == [items[k]] + items[k + 1..];
      assert front.0 + [items[k]] + items[k + 1..] == front.0 + items[k..];
    } else {
      assert items[..k] == items;
      assert items[k..] == [];
      assert Applied(items, f).0 + items[k..] == Applied(items, f).0;
    }
  }

  /** The loop finishes iff the body succeeds on every item, and then every item is
      rewritten. */
  lemma {:induction false} AppliedSucceeds(items: seq<Value>, f: Value -> Result<Value>)
    ensures Applied(items, f).1.None? <==> forall j :: 0 <= j < |items| ==> f(items[j]).Ok?
    ensures Applied(items, f).1.None? ==> forall j :: 0 <= j < |items| ==> Applied(items, f).0[j] == f(items[j]).value
  {
    if items != [] {
      var front := items[..|items| - 1];
      AppliedSucceeds(front, f);
      assert forall j :: 0 <= j < |front| ==> front[j] == items[j];
      if Applied(front, f).1.Some? {
        var j :| 0 <= j < |front| && f(front[j]).Err?;
        assert f(items[j]).Err?;
      }
    }
  }

  /** The first item on which the body raises decides the exception; the items
      before it are rewritten and it and the items after it are left as they were. */
  lemma {:induction false} AppliedStopsAtFirstFailure(items: seq<Value>, f: Value -> Result<Value>, j: nat)
    requires j < |items| && f(items[j]).Err?
    requires forall i :: 0 <= i < j ==> f(items[i]).Ok?
    ensures Applied(items, f).1 == Some(f(items[j]).error)
    ensures forall i :: 0 <= i < j ==> Applied(items, f).0[i] == f(items[i]).value
    ensures forall i :: j <= i < |items| ==> Applied(items, f).0[i] == items[i]
  {
    var front := items[..j];
    AppliedSucceeds(front, f);
    assert forall i :: 0 <= i < j ==> front[i] == items[i];
    AppliedFrom(items, f, j);
    var rest := items[j + 1..];
    assert forall i :: j < i < |items| ==> rest[i - j - 1] == items[i];
  }

  /** What the loop leaves behind when the body first raises at item j. */
  lemma AppliedFrom(items: seq<Value>, f: Value -> Result<Value>, j: nat)
    requires j < |items| && Applied(items[..j], f).1.None? && f(items[j]).Err?
    ensures Applied(items, f) == (Applied(items[..j], f).0 + [items[j]] + items[j + 1..], Some(f(items[j]).error))
  {
    AppliedStop(items, f, j);
    AppliedErrPersists(items, f, j + 1);
  }

  /** One more successful step extends what the loop leaves behind by one item. */
  lemma AppliedStep(items: seq<Value>, f: Value -> Result<Value>, i: nat)
    requires i < |items| && Applied(items[..i], f).1.None? && f(items[i]).Ok?
    ensures Applied(items[..i + 1], f) == (Applied(items[..i], f).0 + [f(items[i]).value], None)
  {
    assert items[..i + 1][..i] == items[..i];
  }

  /** A raising step ends the loop with that exception, and the item stays as it was. */
  lemma AppliedStop(items: seq<Value>, f: Value -> Result<Value>, i: nat)
    requires i < |items| && Applied(items[..i], f).1.None? && f(items[i]).Err?
    ensures Applied(items[..i + 1], f) == (Applied(items[..i], f).0 + [items[i]], Some(f(items[i]).error))
  {
    assert items[..i + 1][..i] == items[..i];
  }

  /** A fresh array holding the items. */
  method ArrayOf(items: seq<Value>) returns (a: array<Value>)
    ensures fresh(a) && a[..] == items
  {
    a := new Value[|items|](i requires 0 <= i < |items| => items[i]);
  }

  /** A `for` loop over a list that rewrites its items in place, one after
      another, until the body raises. */
  method UpdateEach(items: array<Value>, f: Value -> Result<Value>) returns (err: Option<Exc>)
    modifies items
    ensures (items[..], err) == Applied(old(items[..]), f)
  {
    ghost var original := items[..];
    var i := 0;
    while i < items.Length
      invariant 0 <= i <= items.Length
      invariant Applied(original[..i], f) == (items[..i], None)
      invariant items[i..] == original[i..]
    {
      var p := f(items[i]);
      if p.Err? {
        AppliedStop(original, f, i);
        AppliedErrPersists(original, f, i + 1);
        assert original[i..] == [original[i]] + original[i + 1..];
        assert items[..] == items[..i] + [original[i]] + original[i + 1..];
        return Some(p.error);
      }
      AppliedStep(original, f, i);
      items[i] := p.value;
      assert items[..i + 1] == items[..i] + [p.value];
      i := i + 1;
    }
    assert original[..i] == original;
    assert items[..i] == items[..];
    return None;
  }

  /** What a loop that appends f(x) for every item x to a new list leaves
      behind: the whole list, or the exception of the first item f raises on. */
  function Mapped(items: seq<Value>, f: Value -> Result<Value>): Result<seq<Value>> {
    if items == [] then Ok([])
    else
      var front := Mapped(items[..|items| - 1], f);
      var last := f(items[|items| - 1]);
      if front.Err? then front
      else if last.Err? then Err(last.error)
      else Ok(front.value + [last.value])
  }

  /** The list is built iff f succeeds on every item, and then it holds f's
      results in the order of the items. */
  lemma {:induction false} MappedSucceeds(items: seq<Value>, f: Value -> Result<Value>)
    ensures Mapped(items, f).Ok? <==> forall j :: 0 <= j < |items| ==> f(items[j]).Ok?
    ensures Mapped(items, f).Ok? ==> |Mapped(items, f).value| == |items|
    ensures Mapped(items, f).Ok? ==> forall j :: 0 <= j < |items| ==> Mapped(items, f).value[j] == f(items[j]).value
  {
    if items != [] {
      var front := items[..|items| - 1];
      MappedSucceeds(front, f);
      assert forall j :: 0 <= j < |front| ==> front[j] == items[j];
      if Mapped(front, f).Err? {
        var j :| 0 <= j < |front| && f(front[j]).Err?;
        assert f(items[j]).Err?;
      }
    }
  }

  /** Once f has raised on an item, the later items change nothing. */
  lemma {:induction false} MappedErrPersists(items: seq<Value>, f: Value -> Result<Value>, k: nat)
    requires k <= |items| && Mapped(items[..k], f).Err?
    ensures Mapped(items, f) == Mapped(items[..k], f)
    decreases |items| - k
  {
    if k < |items| {
      assert items[..k + 1][..k] == items[..k];
      MappedErrPersists(items, f, k + 1);
    } else {
      assert items[..k] == items;
    }
  }

  /** The first item f raises on decides the exception. */
  lemma MappedStopsAtFirstFailure(items: seq<Value>, f: Value -> Result<Value>, j: nat)
    requires j < |items| && f(items[j]).Err?
    requires forall i :: 0 <= i < j ==> f(items[i]).Ok?
    ensures Mapped(items, f) == Err(f(items[j]).error)
  {
    var front := items[..j];
    assert forall i :: 0 <= i < j ==> front[i] == items[i];
    MappedSucceeds(front, f);
    assert items[..j + 1][..j] == front;
    MappedErrPersists(items, f, j + 1);
  }

  /** `out = []; for x in items: out.append(f(x))`. */
  method AppendEach(items: seq<Value>, f: Value -> Result<Value>) returns (r: Result<seq<Value>>)
    ensures r == Mapped(items, f)
  {
    var out: seq<Value> := [];
    var i := 0;
    while i < |items|
      invariant 0 <= i <= |items|
      invariant Mapped(items[..i], f) == Ok(out)
    {
      assert items[..i + 1][..i] == items[..i];
      var x := f(items[i]);
      if x.Err? {
        MappedErrPersists(items, f, i + 1);
        return Err(x.error);
      }
      out := out + [x.value];
      i := i + 1;
    }
    assert items[..i] == items;
    return Ok(out);
  }
}
