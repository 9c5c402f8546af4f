/**
 * `useDebouncedValue` in frontend/src/App.js: the debounced copy of the camera URL input. Each
 * change of the value or of the delay cancels the pending timer and starts a new one that,
 * when it fires, copies the value it was started with into the output. Time is counted in
 * ticks of one millisecond; a timer set for d milliseconds fires on tick max(d, 1).
 */
module Debounce {
  import opened Wrappers

  /** The hook's default delay in milliseconds. */
  const DefaultDelay: nat := 500

  /**
   * `input` is the value passed to the hook, `output` the value it returns; `pending` is the
   * value the live timer will copy, `remaining` the ticks until it fires.
   */
  datatype DebounceState<T> = DebounceState(input: T, pending: Option<T>, remaining: nat, output: T, delay: nat)

  datatype Event<T> =
    | ValueChanged(v: T)    // a render with a new value
    | DelayChanged(d: nat)  // a render with a new delay
    | Tick                  // one millisecond passes

  /** The first render: the output starts as the value, and the mount effect sets a timer. */
  function Start<T>(value: T, delay: nat): (s: DebounceState<T>)
    ensures s.output == s.input == value && s.delay == delay
    ensures s.pending == Some(value) && s.remaining == delay
  {
    DebounceState(value, Some(value), delay, value, delay)
  }

  /** The timer never carries a superseded value: it always holds the current input. */
  ghost predicate Inv<T>(s: DebounceState<T>) {
    s.pending.Some? ==> s.pending.value == s.input
  }

  /**
   * A render whose dependencies changed clears the old timer and sets a new one for the
   * current value; an unchanged render does nothing. A tick counts the live timer down and
   * fires it on its last millisecond.
   */
  function Step<T(==)>(s: DebounceState<T>, e: Event<T>): (t: DebounceState<T>)
    ensures t.output != s.output ==> e.Tick? && s.pending == Some(t.output)
    ensures t.input == (if e.ValueChanged? then e.v else s.input)
    ensures t.delay == (if e.DelayChanged? then e.d else s.delay)
    ensures e.Tick? && s.pending.Some? ==> t.pending.None? || t.remaining < s.remaining
  {
    match e
    case ValueChanged(v) =>
      if v == s.input then s
      else s.(input := v, pending := Some(v), remaining := s.delay)
    case DelayChanged(d) =>
      if d == s.delay then s
      else s.(delay := d, pending := Some(s.input), remaining := d)
    case Tick =>
      if s.pending.None? then s
      else if s.remaining <= 1 then s.(output := s.pending.value, pending := None, remaining := 0)
      else s.(remaining := s.remaining - 1)
  }

  function Run<T(==)>(s: DebounceState<T>, es: seq<Event<T>>): DebounceState<T>
    decreases |es|
  {
    if es == [] then s else Run(Step(s, es[0]), es[1..])
  }

  /** `k` quiet milliseconds. */
  function Ticks<T>(k: nat): (es: seq<Event<T>>)
    ensures |es| == k && forall i :: 0 <= i < k ==> es[i] == Tick
  {
    if k == 0 then [] else [Tick] + Ticks(k - 1)
  }

  lemma {:induction false} RunAppend<T>(s: DebounceState<T>, a: seq<Event<T>>, b: seq<Event<T>>)
    ensures Run(s, a + b) == Run(Run(s, a), b)
    decreases |a|
  {
    if a != [] {
      assert (a + b)[1..] == a[1..] + b;
      RunAppend(Step(s, a[0]), a[1..], b);
    } else {
      assert a + b == b;
    }
  }

  lemma StartInv<T>(value: T, delay: nat)
    ensures Inv(Start(value, delay))
  {
  }

  lemma StepInv<T>(s: DebounceState<T>, e: Event<T>)
    requires Inv(s)
    ensures Inv(Step(s, e))
  {
  }

  /** Whatever happens, the timer only ever holds the current value. */
  lemma {:induction false} RunInv<T>(s: DebounceState<T>, es: seq<Event<T>>)
    requires Inv(s)
    ensures Inv(Run(s, es))
    decreases |es|
  {
    if es != [] {
      StepInv(s, es[0]);
      RunInv(Step(s, es[0]), es[1..]);
    }
  }

  /**
   * Quiet time with a live timer: before it runs out nothing changes but the countdown; from
   * its last millisecond on, the output is the input and no timer is left.
   */
  lemma {:induction false} QuietTicks<T>(s: DebounceState<T>, k: nat)
    requires Inv(s) && s.pending.Some?
    ensures var t := Run(s, Ticks(k));
      && t.input == s.input && t.delay == s.delay
      && (k < s.remaining ==> t == s.(remaining := s.remaining - k))
      && (k >= s.remaining && k >= 1 ==> t.output == s.input && t.pending.None?)
    decreases k
  {
    if k > 0 {
      var u := Step(s, Tick);
      assert Ticks<T>(k)[1..] == Ticks(k - 1);
      if s.remaining <= 1 {
        IdleTicks(u, k - 1);
      } else {
        QuietTicks(u, k - 1);
      }
    }
  }

  /** With no live timer, time passing changes nothing. */
  lemma {:induction false} IdleTicks<T>(s: DebounceState<T>, k: nat)
    requires s.pending.None?
    ensures Run(s, Ticks(k)) == s
  {
    if k > 0 {
      assert Ticks<T>(k)[1..] == Ticks(k - 1);
      IdleTicks(s, k - 1);
    }
  }

  /**
   * After the value changes to `v`, the output stays what it was for fewer than max(delay, 1)
   * quiet milliseconds and is `v` from then on.
   */
  lemma SettlesAfterQuiet<T>(s: DebounceState<T>, v: T, k: nat)
    requires Inv(s) && v != s.input
    ensures Run(Step(s, ValueChanged(v)), Ticks(k)).output ==
      if k < s.delay || k == 0 then s.output else v
  {
    QuietTicks(Step(s, ValueChanged(v)), k);
  }

  /**
   * A value replaced before its timer fired is never emitted: typing `v` and then `w` within
   * the delay yields the old output until `w` has been quiet for the delay, then `w`.
   */
  lemma SupersededNeverEmitted<T>(s: DebounceState<T>, v: T, w: T, k: nat, m: nat)
    requires Inv(s) && v != s.input && w != v
    requires k < s.delay || k == 0
    ensures Run(Step(s, ValueChanged(v)), Ticks(k) + [ValueChanged(w)] + Ticks(m)).output ==
      if m < s.delay || m == 0 then s.output else w
  {
    var s1 := Step(s, ValueChanged(v));
    QuietTicks(s1, k);
    var s2 := Run(s1, Ticks(k));
    assert s2 == s1.(remaining := s1.remaining - k);
    RunAppend(s1, Ticks(k), [ValueChanged(w)] + Ticks(m));
    assert Ticks<T>(k) + [ValueChanged(w)] + Ticks(m) == Ticks(k) + ([ValueChanged(w)] + Ticks(m));
    var s3 := Step(s2, ValueChanged(w));
    assert Run(s2, [ValueChanged(w)] + Ticks(m)) == Run(s3, Ticks(m));
    QuietTicks(s3, m);
  }

  /**
   * The output is only ever the starting output or a value the input held: the debouncer
   * never invents a value.
   */
  lemma {:induction false} EmitsOnlyInputs<T>(s: DebounceState<T>, es: seq<Event<T>>)
    requires Inv(s)
    ensures var t := Run(s, es);
      t.output == s.output || t.output == s.input
      || exists i :: 0 <= i < |es| && es[i] == ValueChanged(t.output)
    decreases |es|
  {
    if es != [] {
      var u := Step(s, es[0]);
      StepInv(s, es[0]);
      EmitsOnlyInputs(u, es[1..]);
      var t := Run(u, es[1..]);
      if exists i :: 0 <= i < |es[1..]| && es[1..][i] == ValueChanged(t.output) {
        var i :| 0 <= i < |es[1..]| && es[1..][i] == ValueChanged(t.output);
        assert es[i + 1] == ValueChanged(t.output);
      } else if t.output == u.input && u.input != s.input {
        assert es[0] == ValueChanged(t.output);
      }
    }
  }

  /**
   * The page's debouncer, `useDebouncedValue(inputRtspUrl)` with the default delay: a new URL
   * reaches the output after 500 quiet milliseconds and not before.
   */
  lemma PageUrlSettles<T>(first: T, v: T, k: nat)
    requires v != first
    ensures Run(Start(first, DefaultDelay), [ValueChanged(v)] + Ticks(k)).output ==
      if k < 500 then first else v
  {
    var s := Start(first, DefaultDelay);
    assert ([ValueChanged(v)] + Ticks(k))[1..] == Ticks<T>(k);
    SettlesAfterQuiet(s, v, k);
  }

  /** The hook's state held across renders. */
  class Debouncer<T(==)> {
    var input: T
    var pending: Option<T>
    var remaining: nat
    var output: T
    var delay: nat

    function State(): DebounceState<T>
      reads this
    {
      DebounceState(input, pending, remaining, output, delay)
    }

    ghost predicate Valid()
      reads this
    {
      Inv(State())
    }

    /** `useDebouncedValue(value, delay)` on the first render. */
    constructor (value: T, delay: nat)
      ensures State() == Start(value, delay) && Valid()
    {
      input, pending, remaining, output := value, Some(value), delay, value;
      this.delay := delay;
    }

    /** The value the hook returns. */
    function Debounced(): (v: T)
      reads this
      ensures v == State().output
    {
      output
    }

    /** A render with `value`. */
    method OnValue(value: T)
      requires Valid()
      modifies this
      ensures State() == Step(old(State()), ValueChanged(value)) && Valid()
    {
      if value != input {
        input, pending, remaining := value, Some(value), delay;
      }
    }

    /** A render with delay `d`. */
    method OnDelay(d: nat)
      requires Valid()
      modifies this
      ensures State() == Step(old(State()), DelayChanged(d)) && Valid()
    {
      if d != delay {
        delay, pending, remaining := d, Some(input), d;
      }
    }

    /** One millisecond passes. */
    method OnTick()
      requires Valid()
      modifies this
      ensures State() == Step(old(State()), Tick) && Valid()
    {
      if pending.Some? {
        if remaining <= 1 {
          output, pending, remaining := pending.value, None, 0;
        } else {
          remaining := remaining - 1;
        }
      }
    }
  }
}
