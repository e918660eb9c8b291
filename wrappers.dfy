/** Failure-compatible wrappers shared by every module: Python's `None`, and
    the exceptions the library raises, as values. */
module Wrappers {

  datatype Option<+T> = None | Some(value: T) {
    function GetOr(default: T): T {
      match this
      case Some(v) => v
      case None => default
    }
  }

  /** The Python exceptions (and assertion failures) the modelled code can raise. */
  datatype Error =
    | AssertionError
    | TypeError
    | KeyError
    | IndexError
    | AttributeError
    | ValueError
    | ImproperlyConfigured
    | NotImplementedError
    | ConversionError
    | ImportError

  /** The outcome of a call that may raise. */
  datatype Result<+T> = Ok(value: T) | Err(error: Error) {
    predicate IsFailure() {
      Err?
    }

    function PropagateFailure<U>(): Result<U>
      requires Err?
    {
      Err(error)
    }

    function Extract(): T
      requires Ok?
    {
      value
    }
  }

  /** `prefix` in front of a successful sequence result; a failure stays as
      it is. Loops that build a result front to back keep it as their
      invariant. */
  function Prepend<T>(prefix: seq<T>, r: Result<seq<T>>): Result<seq<T>> {
    if r.Ok? then Ok(prefix + r.value) else r
  }

  lemma PrependNothing<T>(r: Result<seq<T>>)
    ensures Prepend([], r) == r
  {
    if r.Ok? {
      assert [] + r.value == r.value;
    }
  }

  /** Overwriting position `i` of a sequence that agrees with `s` from `i`
      on extends the done prefix by one and keeps the agreement after it. */
  lemma OverwriteStep<T>(a: seq<T>, s: seq<T>, i: nat, x: T)
    requires i < |a| == |s| && a[i..] == s[i..]
    ensures a[i] == s[i]
    ensures a[i := x][..i + 1] == a[..i] + [x]
    ensures a[i := x][i + 1..] == s[i + 1..]
  {
    assert a[i..][0] == s[i..][0];
    assert forall j :: i < j < |a| ==> a[j] == a[i..][j - i] == s[i..][j - i] == s[j];
  }

  /** At the end of a left-to-right pass, the done prefix is everything. */
  lemma PassDone<T>(a: seq<T>, s: seq<T>, r: Result<seq<T>>)
    requires r == Prepend(a[..|a|], Ok([]))
    ensures r == Ok(a)
  {
    assert a[..|a|] + [] == a;
  }

  lemma PrependTwice<T>(a: seq<T>, b: seq<T>, r: Result<seq<T>>)
    ensures Prepend(a, Prepend(b, r)) == Prepend(a + b, r)
  {
    if r.Ok? {
      assert a + (b + r.value) == (a + b) + r.value;
    }
  }
}
