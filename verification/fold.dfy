/**
 A request handler that walks a batch of inputs in order, threading the
 process-wide state through one step per input and collecting the provider
 commands each step issues.
 */
module Fold {

  /** The state after some steps and the commands they issued, in order. */
  datatype Run<S, C> = Run(state: S, out: seq<C>)

  /** Runs `step` over `inputs` from `s`, first input first. */
  function Steps<S, E, C>(step: (S, E) -> Run<S, C>, s: S, inputs: seq<E>): (r: Run<S, C>)
    ensures |inputs| == 0 ==> r == Run(s, [])
    decreases |inputs|
  {
    if |inputs| == 0 then Run(s, [])
    else
      var n := |inputs| - 1;
      var before := Steps(step, s, inputs[..n]);
      var last := step(before.state, inputs[n]);
      Run(last.state, before.out + last.out)
  }

  /** One input more at the end is one step more. */
  lemma StepsSnoc<S, E, C>(step: (S, E) -> Run<S, C>, s: S, inputs: seq<E>, e: E)
    ensures var before := Steps(step, s, inputs);
            var last := step(before.state, e);
            Steps(step, s, inputs + [e]) == Run(last.state, before.out + last.out)
  {
    assert (inputs + [e])[..|inputs|] == inputs;
  }

  /** Two batches in a row have the effect of one batch holding both: the
      second starts from the state the first left, and the commands follow
      one another. */
  lemma {:induction false} StepsSplit<S, E, C>(step: (S, E) -> Run<S, C>, s: S, a: seq<E>, b: seq<E>)
    ensures var first := Steps(step, s, a);
            var second := Steps(step, first.state, b);
            Steps(step, s, a + b) == Run(second.state, first.out + second.out)
    decreases |b|
  {
    if |b| == 0 {
      assert a + b == a;
    } else {
      var n := |b| - 1;
      StepsSplit(step, s, a, b[..n]);
      StepsSplitSnoc(step, s, a, b[..n], b[n]);
      LastSplit(b);
    }
  }

  /** The inductive step of `StepsSplit`: if splitting holds for `c`, it
      holds for `c` with one more input at the end. */
  lemma StepsSplitSnoc<S, E, C>(step: (S, E) -> Run<S, C>, s: S, a: seq<E>, c: seq<E>, e: E)
    requires var first := Steps(step, s, a);
             var second := Steps(step, first.state, c);
             Steps(step, s, a + c) == Run(second.state, first.out + second.out)
    ensures var first := Steps(step, s, a);
            var second := Steps(step, first.state, c + [e]);
            Steps(step, s, a + (c + [e])) == Run(second.state, first.out + second.out)
  {
    var first := Steps(step, s, a);
    var mid := Steps(step, first.state, c);
    var last := step(mid.state, e);
    StepsSnoc(step, s, a + c, e);
    StepsSnoc(step, first.state, c, e);
    Associative(a, c, [e]);
    Associative(first.out, mid.out, last.out);
  }

  /** A non-empty sequence is its front and its last element. */
  lemma LastSplit<T>(x: seq<T>)
    requires |x| > 0
    ensures x[..|x| - 1] + [x[|x| - 1]] == x
  {
  }

  /** Concatenation is associative. */
  lemma Associative<T>(x: seq<T>, y: seq<T>, z: seq<T>)
    ensures x + (y + z) == (x + y) + z
  {
  }

  /** A property of the state that every step keeps holds after the batch. */
  lemma {:induction false} StepsKeep<S(!new), E(!new), C>(step: (S, E) -> Run<S, C>, keep: S -> bool, s: S, inputs: seq<E>)
    requires keep(s)
    requires forall t, e :: keep(t) ==> keep(step(t, e).state)
    ensures keep(Steps(step, s, inputs).state)
    decreases |inputs|
  {
    if |inputs| > 0 {
      var n := |inputs| - 1;
      StepsKeep(step, keep, s, inputs[..n]);
      var before := Steps(step, s, inputs[..n]);
      assert keep(before.state);
      assert keep(step(before.state, inputs[n]).state);
    }
  }

  /** A part of the state that some inputs overwrite and all others keep
      ends up as the last overwriting input left it, or as it started when no
      input overwrites it. */
  lemma {:induction false} StepsLastWrite<S(!new), E(!new), C, R>(step: (S, E) -> Run<S, C>, part: S -> R,
                                                                   writes: E -> bool, value: E -> R,
                                                                   s: S, inputs: seq<E>)
    requires forall t, e :: part(step(t, e).state) == if writes(e) then value(e) else part(t)
    ensures (forall i | 0 <= i < |inputs| :: !writes(inputs[i])) ==> part(Steps(step, s, inputs).state) == part(s)
    ensures forall i | 0 <= i < |inputs| && writes(inputs[i]) && (forall j | i < j < |inputs| :: !writes(inputs[j])) ::
              part(Steps(step, s, inputs).state) == value(inputs[i])
    decreases |inputs|
  {
    if |inputs| > 0 {
      var n := |inputs| - 1;
      var prefix := inputs[..n];
      StepsLastWrite(step, part, writes, value, s, prefix);
      var before := Steps(step, s, prefix);
      assert part(Steps(step, s, inputs).state) == if writes(inputs[n]) then value(inputs[n]) else part(before.state);
      forall i | 0 <= i < |inputs| && writes(inputs[i]) && (forall j | i < j < |inputs| :: !writes(inputs[j]))
        ensures part(Steps(step, s, inputs).state) == value(inputs[i])
      {
        if i < n {
          assert forall j | i < j < n :: !writes(prefix[j]);
        }
      }
    }
  }
}
