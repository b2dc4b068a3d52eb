/** A batch of steps that each yield a list of outputs or an error, where
    the first error aborts the batch: the shape shared by pattern expansion
    and discovery. */
module Batches {
  import opened Outcomes
  import opened Exceptions

  /** The results of a batch of steps, run in order, joined into one list:
      the concatenation of their outputs, or the error of the first step
      that failed. */
  function Joined<T>(rs: seq<Result<seq<T>, Error>>): (r: Result<seq<T>, Error>)
    ensures rs == [] ==> r == Ok([])
  {
    if rs == [] then Ok([])
    else
      var last := |rs| - 1;
      match Joined(rs[..last])
      case Err(e) => Err(e)
      case Ok(earlier) =>
        match rs[last]
        case Err(e) => Err(e)
        case Ok(generated) => Ok(earlier + generated)
  }

  /** The joined results succeed exactly when every result does, and then
      hold every output, in order. */
  lemma {:induction false} JoinedOk<T>(rs: seq<Result<seq<T>, Error>>)
    ensures Joined(rs).Ok? <==> forall i :: 0 <= i < |rs| ==> rs[i].Ok?
    ensures Joined(rs).Err? ==> exists i :: 0 <= i < |rs| && rs[i].Err? && Joined(rs).error == rs[i].error
  {
    if rs != [] {
      var last := |rs| - 1;
      JoinedOk(rs[..last]);
      assert forall i :: 0 <= i < last ==> rs[..last][i] == rs[i];
    }
  }

  /** Joining a longer list of results: one more output, or its error. */
  lemma JoinedStep<T>(rs: seq<Result<seq<T>, Error>>, i: nat)
    requires i < |rs| && Joined(rs[..i]).Ok?
    ensures Joined(rs[..i + 1]) == if rs[i].Ok? then Ok(Joined(rs[..i]).value + rs[i].value) else Err(rs[i].error)
  {
    assert rs[..i + 1][..i] == rs[..i];
  }

  /** Once a prefix of the results fails, the whole list fails with the
      same error. */
  lemma {:induction false} JoinedFailsFrom<T>(rs: seq<Result<seq<T>, Error>>, n: nat)
    requires n <= |rs| && Joined(rs[..n]).Err?
    ensures Joined(rs) == Joined(rs[..n])
    decreases |rs| - n
  {
    if n < |rs| {
      assert rs[..n + 1][..n] == rs[..n];
      JoinedFailsFrom(rs, n + 1);
    } else {
      assert rs[..n] == rs;
    }
  }

  /** Joining two lists one after the other is joining their
      concatenation. */
  lemma {:induction false} JoinedAppend<T>(as_: seq<Result<seq<T>, Error>>, bs: seq<Result<seq<T>, Error>>)
    requires Joined(as_).Ok? && Joined(bs).Ok?
    ensures Joined(as_ + bs) == Ok(Joined(as_).value + Joined(bs).value)
    decreases |bs|
  {
    var both := as_ + bs;
    var a := Joined(as_).value;
    if bs == [] {
      assert both == as_;
      assert a + [] == a;
    } else {
      var last := |bs| - 1;
      var init := bs[..last];
      assert bs[..last + 1] == bs;
      JoinedStep(bs, last);
      JoinedAppend(as_, init);
      assert both[..|both| - 1] == as_ + init;
      assert both[|both| - 1] == bs[last];
      var b := Joined(init).value;
      var g := bs[last].value;
      assert a + b + g == a + (b + g);
    }
  }

  /** The error a discovery call raises: DiscordAPIError with `message`,
      wrapping whatever stopped the loop. */
  function Wrapped<T>(r: Result<T, Error>, message: string): (w: Result<T, Error>)
    ensures w.Ok? <==> r.Ok?
    ensures w.Ok? ==> w.value == r.value
    ensures w.Err? ==> w.error == Raise(DiscordAPIError, message, Some(r.error))
  {
    match r
    case Ok(v) => Ok(v)
    case Err(e) => Err(Raise(DiscordAPIError, message, Some(e)))
  }
}
