/** `Pipe` of functional/pipe.go: a chain of actions run in insertion order, each
    on the previous one's output, stopping at the first that fails. */
module Functional {
  import opened Base

  /** What an action returns: its output and its error. */
  datatype Step<T> = Step(value: T, err: Option<Error>)

  /** Running `chain` on `input`: the first failing action's own output and error,
      or the last output with no error. */
  function Run<T>(chain: seq<T -> Step<T>>, input: T): Step<T>
    decreases |chain|
  {
    if chain == [] then Step(input, None)
    else
      var s := chain[0](input);
      if s.err.Some? then s else Run(chain[1..], s.value)
  }

  /** No action of `chain` fails when it is run on the outputs before it. */
  predicate NoneFail<T>(chain: seq<T -> Step<T>>, input: T)
    decreases |chain|
  {
    chain == [] || (chain[0](input).err.None? && NoneFail(chain[1..], chain[0](input).value))
  }

  /** The left fold of the actions' outputs over `input`, errors disregarded. */
  function Compose<T>(chain: seq<T -> Step<T>>, input: T): T
    decreases |chain|
  {
    if chain == [] then input else Compose(chain[1..], chain[0](input).value)
  }

  class Pipe<T> {
    var chain: seq<T -> Step<T>>

    /** `NewPipe`: an empty chain. */
    constructor ()
      ensures chain == []
    {
      chain := [];
    }

    /** Appends one action and returns the same pipe. */
    method Next(f: T -> Step<T>) returns (p: Pipe<T>)
      modifies this
      ensures chain == old(chain) + [f]
      ensures p == this
    {
      chain := chain + [f];
      p := this;
    }

    /** `zero` is Go's zero value of `T`, the first action's input. */
    method Do(zero: T) returns (res: T, err: Option<Error>)
      ensures Step(res, err) == Run(chain, zero)
    {
      res, err := zero, None;
      var i := 0;
      while i < |chain|
        invariant 0 <= i <= |chain|
        invariant err == None
        invariant Run(chain[i..], res) == Run(chain, zero)
      {
        var s := chain[i](res);
        assert chain[i..][0] == chain[i] && chain[i..][1..] == chain[i + 1..];
        res, err := s.value, s.err;
        if err.Some? {
          return;
        }
        i := i + 1;
      }
      assert chain[i..] == [];
    }
  }

  /** Running a chain with one more action: if the chain failed, the new action
      does not run; otherwise it runs on the chain's output. */
  lemma {:induction false} RunAppend<T>(chain: seq<T -> Step<T>>, f: T -> Step<T>, x: T)
    ensures Run(chain + [f], x) == if Run(chain, x).err.Some? then Run(chain, x) else f(Run(chain, x).value)
    decreases |chain|
  {
    if chain == [] {
      assert [] + [f] == [f] && [f][1..] == [];
    } else {
      assert (chain + [f])[0] == chain[0] && (chain + [f])[1..] == chain[1..] + [f];
      var s := chain[0](x);
      if s.err.None? {
        RunAppend(chain[1..], f, s.value);
      }
    }
  }

  /** A chain succeeds exactly when none of its actions fails, and then it
      returns the fold of all the actions over the input. */
  lemma {:induction false} RunNoFailure<T>(chain: seq<T -> Step<T>>, x: T)
    ensures Run(chain, x).err.None? <==> NoneFail(chain, x)
    ensures NoneFail(chain, x) ==> Run(chain, x) == Step(Compose(chain, x), None)
    decreases |chain|
  {
    if chain != [] {
      RunNoFailure(chain[1..], chain[0](x).value);
    }
  }

  /** After a failure nothing more runs: whatever follows a failing chain does
      not change its outcome. */
  lemma {:induction false} RunStopsAtFailure<T>(chain: seq<T -> Step<T>>, rest: seq<T -> Step<T>>, x: T)
    requires Run(chain, x).err.Some?
    ensures Run(chain + rest, x) == Run(chain, x)
    decreases |chain|
  {
    assert chain != [];
    assert (chain + rest)[0] == chain[0] && (chain + rest)[1..] == chain[1..] + rest;
    var s := chain[0](x);
    if s.err.None? {
      RunStopsAtFailure(chain[1..], rest, s.value);
    }
  }

  /** Do on an empty chain returns the zero value and no error. */
  lemma RunEmpty<T>(zero: T)
    ensures Run([], zero) == Step(zero, None)
  {
  }
}
