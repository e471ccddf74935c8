/** Error values and failure-carrying results shared by every module.
    Go's `(T, error)` pairs become `Result<T>`; an `error` that may be nil becomes `Option<Error>`. */
module Results {

  /** An error as the Go code reports it: only its message is observable. */
  datatype Error = Error(message: string)

  datatype Option<+T> = None | Some(value: T)

  datatype Result<+T> = Success(value: T) | Failure(error: Error)

  /** Runs a sequence of fallible steps in order and stops at the first failure,
      the shape of every `for ... { x, err := f(); if err != nil { return err } }` loop. */
  function Collect<T>(rs: seq<Result<T>>): (r: Result<seq<T>>)
    decreases |rs|
  {
    if rs == [] then Success([])
    else match Collect(rs[..|rs| - 1])
      case Failure(e) => Failure(e)
      case Success(vs) =>
        match rs[|rs| - 1]
        case Failure(e) => Failure(e)
        case Success(v) => Success(vs + [v])
  }

  /** On success every step succeeded and the values come back in order. */
  lemma {:induction false} CollectSuccess<T>(rs: seq<Result<T>>)
    requires Collect(rs).Success?
    ensures |Collect(rs).value| == |rs|
    ensures forall i :: 0 <= i < |rs| ==> rs[i] == Success(Collect(rs).value[i])
  {
    if rs != [] {
      CollectSuccess(rs[..|rs| - 1]);
      var vs := Collect(rs[..|rs| - 1]).value;
      assert Collect(rs).value == vs + [rs[|rs| - 1].value];
      forall i | 0 <= i < |rs|
        ensures rs[i] == Success(Collect(rs).value[i])
      {
        if i < |rs| - 1 {
          assert rs[i] == rs[..|rs| - 1][i];
        }
      }
    }
  }

  /** On failure the error is that of the first failing step, and every step before it succeeded. */
  lemma {:induction false} CollectFailure<T>(rs: seq<Result<T>>)
    requires Collect(rs).Failure?
    ensures exists k :: 0 <= k < |rs| && rs[k] == Failure(Collect(rs).error)
                        && forall j :: 0 <= j < k ==> rs[j].Success?
  {
    var init := rs[..|rs| - 1];
    if Collect(init).Failure? {
      CollectFailure(init);
      var k :| 0 <= k < |init| && init[k] == Failure(Collect(init).error)
                && forall j :: 0 <= j < k ==> init[j].Success?;
      assert rs[k] == init[k];
      assert forall j :: 0 <= j < k ==> rs[j] == init[j];
    } else {
      CollectSuccess(init);
      var k := |rs| - 1;
      assert forall j :: 0 <= j < k ==> rs[j] == init[j];
    }
  }

  /** When every step succeeds, so does the whole run. */
  lemma {:induction false} CollectAllSucceed<T>(rs: seq<Result<T>>)
    requires forall i :: 0 <= i < |rs| ==> rs[i].Success?
    ensures Collect(rs).Success?
  {
    if rs != [] {
      CollectAllSucceed(rs[..|rs| - 1]);
    }
  }

  /** `f` applied to every element, in order: the shape of a loop that fills `out[i] = f(xs[i])`. */
  function Each<A, B>(xs: seq<A>, f: A -> B): (ys: seq<B>)
    ensures |ys| == |xs| && forall i :: 0 <= i < |xs| ==> ys[i] == f(xs[i])
  {
    seq(|xs|, i requires 0 <= i < |xs| => f(xs[i]))
  }

  /** Takes any element of a non-empty set: how a `range` over a Go map visits its next key. */
  method Pick<T>(s: set<T>) returns (x: T)
    requires s != {}
    ensures x in s
  {
    x :| x in s;
  }
}
