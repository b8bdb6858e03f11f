/** Optional values, results and the exception kinds the scraper raises. */
module Errors {

  datatype Option<+T> = None | Some(value: T)

  /** Why a ParseError was raised; the source distinguishes these only by message. */
  datatype Reason =
    | TagNotFound       // a required element is missing
    | OtherPage         // the page-root id is missing: "page for another parsing method"
    | NoName            // a link element without text
    | CounterMismatch   // the page counter text does not match its pattern
    | NoArchiveType     // an archive file name without its "(type).zophar.zip" token

  /** Exceptions that reach the caller. WrongItemError is a subclass of ParseError. */
  datatype Error =
    | ParseError(reason: Reason)
    | WrongItemError
    | KeyError      // a missing attribute (`tag["href"]`) or a missing tree child
    | ValueError    // int() of a non-number, or too few values to unpack
    | TypeError     // a record constructed without one of its required fields

  /** `except ParseError` catches ParseError and its subclass WrongItemError. */
  predicate IsParseError(e: Error) {
    e.ParseError? || e.WrongItemError?
  }

  datatype Result<+T> = Ok(value: T) | Err(error: Error) {
    predicate IsFailure() { Err? }
    function PropagateFailure<U>(): Result<U>
      requires Err?
    {
      Err(error)
    }
    function Extract(): T
      requires Ok?
    {
      value
    }
  }

  /**
   * A sequence of steps that may raise, run in order: every value when none raises,
   * otherwise the error of the first step that raises.
   */
  function Collect<T>(rs: seq<Result<T>>): (r: Result<seq<T>>)
    ensures r.Ok? <==> forall i :: 0 <= i < |rs| ==> rs[i].Ok?
    ensures r.Ok? ==> |r.value| == |rs| && forall i :: 0 <= i < |rs| ==> rs[i] == Ok(r.value[i])
    ensures r.Err? ==> exists i :: 0 <= i < |rs| && rs[i] == Err(r.error)
  {
    if rs == [] then Ok([])
    else
      var n := |rs| - 1;
      var init := Collect(rs[..n]);
      assert forall i :: 0 <= i < n ==> rs[..n][i] == rs[i];
      if init.Err? then Err(init.error)
      else if rs[n].Err? then
        assert rs[n] == Err(rs[n].error);
        Err(rs[n].error)
      else Ok(init.value + [rs[n].value])
  }

  /** Step `i` is the first one that raises. */
  predicate FirstErr<T>(rs: seq<Result<T>>, i: int) {
    0 <= i < |rs| && rs[i].Err? && forall j :: 0 <= j < i ==> rs[j].Ok?
  }

  /** A run that raises raises the error of its first failing step. */
  lemma {:induction false} CollectFirstError<T>(rs: seq<Result<T>>)
    requires Collect(rs).Err?
    ensures exists i :: FirstErr(rs, i) && Collect(rs).error == rs[i].error
  {
    var n := |rs| - 1;
    var init := rs[..n];
    assert forall i :: 0 <= i < n ==> init[i] == rs[i];
    if Collect(init).Err? {
      CollectFirstError(init);
      var i :| FirstErr(init, i) && Collect(init).error == init[i].error;
      assert FirstErr(rs, i);
    } else {
      assert FirstErr(rs, n);
    }
  }

  /** One more step: its error if it raises, otherwise its value appended. */
  lemma CollectSnoc<T>(rs: seq<Result<T>>, n: nat)
    requires n < |rs| && Collect(rs[..n]).Ok?
    ensures rs[n].Err? ==> Collect(rs[..n + 1]) == Err(rs[n].error)
    ensures rs[n].Ok? ==> Collect(rs[..n + 1]) == Ok(Collect(rs[..n]).value + [rs[n].value])
  {
    assert rs[..n + 1][..n] == rs[..n];
  }

  /** Once a prefix of the steps raises, the whole run raises the same error. */
  lemma {:induction false} CollectStopsAtError<T>(rs: seq<Result<T>>, n: nat)
    requires n <= |rs| && Collect(rs[..n]).Err?
    ensures Collect(rs) == Collect(rs[..n])
    decreases |rs| - n
  {
    if n < |rs| {
      assert rs[..n + 1][..n] == rs[..n];
      CollectStopsAtError(rs, n + 1);
    } else {
      assert rs[..n] == rs;
    }
  }
}
