/** A loop over inputs that gives up at the first error. */
module Each {
  import opened Basics

  function TryEach<T, U, E>(inputs: seq<T>, f: T -> Result<U, E>): Result<seq<U>, E> {
    if inputs == [] then Ok([])
    else match TryEach(inputs[..|inputs| - 1], f)
      case Err(e) => Err(e)
      case Ok(outputs) =>
        match f(inputs[|inputs| - 1])
        case Err(e) => Err(e)
        case Ok(output) => Ok(outputs + [output])
  }

  lemma {:induction false} ErrorsStay<T, U, E>(inputs: seq<T>, more: seq<T>, f: T -> Result<U, E>)
    requires TryEach(inputs, f).Err?
    ensures TryEach(inputs + more, f) == TryEach(inputs, f)
  {
    var all := inputs + more;
    if more == [] {
      assert all == inputs;
    } else {
      ErrorsStay(inputs, more[..|more| - 1], f);
      assert all[..|all| - 1] == inputs + more[..|more| - 1];
    }
  }

  /** One more input: its output is appended, or its error is the outcome of all. */
  lemma TryOneMore<T, U, E>(inputs: seq<T>, i: nat, f: T -> Result<U, E>)
    requires i < |inputs| && TryEach(inputs[..i], f).Ok?
    ensures f(inputs[i]).Ok? ==> TryEach(inputs[..i + 1], f) == Ok(TryEach(inputs[..i], f).value + [f(inputs[i]).value])
    ensures f(inputs[i]).Err? ==> TryEach(inputs, f) == Err(f(inputs[i]).error)
  {
    assert inputs[..i + 1][..i] == inputs[..i];
    if f(inputs[i]).Err? {
      ErrorsStay(inputs[..i + 1], inputs[i + 1..], f);
      assert inputs == inputs[..i + 1] + inputs[i + 1..];
    }
  }

  /** All is well exactly when each single input is. */
  lemma {:induction false} EachOneByOne<T, U, E>(inputs: seq<T>, outputs: seq<U>, f: T -> Result<U, E>)
    ensures TryEach(inputs, f) == Ok(outputs)
       <==> |outputs| == |inputs| && forall i :: 0 <= i < |inputs| ==> f(inputs[i]) == Ok(outputs[i])
  {
    var n := |inputs|;
    LengthOfEach(inputs, f);
    if n > 0 && |outputs| == n {
      EachOneByOne(inputs[..n - 1], outputs[..n - 1], f);
      assert outputs == outputs[..n - 1] + [outputs[n - 1]];
    }
  }

  lemma {:induction false} LengthOfEach<T, U, E>(inputs: seq<T>, f: T -> Result<U, E>)
    ensures TryEach(inputs, f).Ok? ==> |TryEach(inputs, f).value| == |inputs|
  {
    if inputs != [] {
      LengthOfEach(inputs[..|inputs| - 1], f);
    }
  }

  /** The outcome is an error exactly when it is that of the first input that is not well. */
  lemma {:induction false} FirstErrorWins<T, U, E>(inputs: seq<T>, error: E, f: T -> Result<U, E>)
    ensures TryEach(inputs, f) == Err(error)
       <==> exists i :: 0 <= i < |inputs| && f(inputs[i]) == Err(error) && AllWell(inputs[..i], f)
  {
    var n := |inputs|;
    if n > 0 {
      var front := inputs[..n - 1];
      FirstErrorWins(front, error, f);
      AllWellIsOk(front, f);
      forall i | 0 <= i < n - 1 ensures front[..i] == inputs[..i] && front[i] == inputs[i] {
      }
      if i :| 0 <= i < n - 1 && f(front[i]) == Err(error) && AllWell(front[..i], f) {
        assert f(inputs[i]) == Err(error) && AllWell(inputs[..i], f);
      }
      if i :| 0 <= i < n && f(inputs[i]) == Err(error) && AllWell(inputs[..i], f) {
        if i < n - 1 {
          assert f(front[i]) == Err(error) && AllWell(front[..i], f);
        }
      }
    }
  }

  ghost predicate AllWell<T, U, E>(inputs: seq<T>, f: T -> Result<U, E>) {
    forall i :: 0 <= i < |inputs| ==> f(inputs[i]).Ok?
  }

  lemma {:induction false} AllWellIsOk<T, U, E>(inputs: seq<T>, f: T -> Result<U, E>)
    ensures TryEach(inputs, f).Ok? <==> AllWell(inputs, f)
  {
    if inputs != [] {
      var front := inputs[..|inputs| - 1];
      AllWellIsOk(front, f);
      assert forall i :: 0 <= i < |front| ==> front[i] == inputs[i];
    }
  }
}
