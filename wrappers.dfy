/** Option and Result, the two failure-compatible wrappers the model uses.
    A Go panic, a log.Fatal and a runtime index error all end the process;
    the model writes each as a Failure carrying a short reason. */
module Wrappers {

  datatype Option<+T> = None | Some(value: T)

  datatype Result<+T> = Ok(value: T) | Failure(reason: string) {

    predicate IsFailure() {
      Failure?
    }

    function PropagateFailure<U>(): Result<U>
      requires Failure?
    {
      Failure(reason)
    }

    function Extract(): T
      requires Ok?
    {
      value
    }
  }

  /** What a loop has already emitted, followed by what the rest of the
      loop yields; a failure of the rest is the failure of the whole. */
  function Prepend<T>(done: seq<T>, rest: Result<seq<T>>): Result<seq<T>> {
    if rest.Failure? then rest else Ok(done + rest.value)
  }

  lemma PrependNothing<T>(rest: Result<seq<T>>)
    ensures Prepend([], rest) == rest
  {
    if rest.Ok? {
      assert [] + rest.value == rest.value;
    }
  }

  lemma PrependStep<T>(done: seq<T>, items: seq<T>, rest: Result<seq<T>>)
    ensures Prepend(done, if rest.Failure? then rest else Ok(items + rest.value)) == Prepend(done + items, rest)
  {
    if rest.Ok? {
      assert done + (items + rest.value) == done + items + rest.value;
    }
  }

  /** Indexing a sequence that starts with x. */
  lemma ConsAt<T>(x: T, xs: seq<T>, n: nat)
    requires n <= |xs|
    ensures ([x] + xs)[n] == if n == 0 then x else xs[n - 1]
  {
  }

  /** The lists parts[i..] concatenated, failing with the first failure
      among them: a loop that stops at the first failing step. */
  function ConcatFrom<T>(parts: seq<Result<seq<T>>>, i: nat): Result<seq<T>>
    requires i <= |parts|
    decreases |parts| - i
  {
    if i == |parts| then Ok([])
    else
      var here :- parts[i];
      var rest :- ConcatFrom(parts, i + 1);
      Ok(here + rest)
  }

  /** One step of such a loop, after it has emitted done. */
  lemma ConcatFromStep<T>(parts: seq<Result<seq<T>>>, i: nat, done: seq<T>)
    requires i < |parts|
    ensures parts[i].Failure? ==> ConcatFrom(parts, i) == Failure(parts[i].reason)
    ensures parts[i].Ok? ==> Prepend(done, ConcatFrom(parts, i)) == Prepend(done + parts[i].value, ConcatFrom(parts, i + 1))
  {
    if parts[i].Ok? {
      PrependStep(done, parts[i].value, ConcatFrom(parts, i + 1));
    }
  }

  /** The concatenation fails exactly when one of the parts does. */
  lemma {:induction false} ConcatFromFails<T>(parts: seq<Result<seq<T>>>, i: nat)
    requires i <= |parts|
    ensures ConcatFrom(parts, i).Failure? <==> exists m :: i <= m < |parts| && parts[m].Failure?
    decreases |parts| - i
  {
    if i < |parts| {
      ConcatFromFails(parts, i + 1);
      if parts[i].Ok? && forall m :: i + 1 <= m < |parts| ==> parts[m].Ok? {
        assert forall m :: i <= m < |parts| ==> parts[m].Ok?;
      }
    }
  }

  /** The total length of parts[i..m], all of which succeed. */
  function LengthBetween<T>(parts: seq<Result<seq<T>>>, i: nat, m: nat): nat
    requires i <= m <= |parts| && forall n :: i <= n < m ==> parts[n].Ok?
    decreases m - i
  {
    if i == m then 0 else |parts[i].value| + LengthBetween(parts, i + 1, m)
  }

  /** A successful concatenation holds every part, in order: its length
      is the parts' total, and part m sits right after the parts before
      it. */
  lemma {:induction false} ConcatFromContents<T>(parts: seq<Result<seq<T>>>, i: nat, m: nat)
    requires i <= m < |parts| && ConcatFrom(parts, i).Ok?
    ensures forall n :: i <= n < |parts| ==> parts[n].Ok?
    ensures |ConcatFrom(parts, i).value| == LengthBetween(parts, i, |parts|)
    ensures LengthBetween(parts, i, m) + |parts[m].value| <= |ConcatFrom(parts, i).value|
    ensures ConcatFrom(parts, i).value[LengthBetween(parts, i, m)..LengthBetween(parts, i, m) + |parts[m].value|] == parts[m].value
    decreases |parts| - i
  {
    ConcatFromFails(parts, i);
    var whole := ConcatFrom(parts, i).value;
    var rest := ConcatFrom(parts, i + 1).value;
    assert whole == parts[i].value + rest;
    if i + 1 < |parts| {
      ConcatFromContents(parts, i + 1, if m == i then i + 1 else m);
    } else {
      assert rest == [];
    }
    if m == i {
      assert whole[..|parts[i].value|] == parts[i].value;
    } else {
      var start := LengthBetween(parts, i + 1, m);
      assert whole[|parts[i].value| + start..|parts[i].value| + start + |parts[m].value|]
          == rest[start..start + |parts[m].value|];
    }
  }
}
