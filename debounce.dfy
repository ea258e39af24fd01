/** The `debounce` helper that both map pages wrap around their marker
    redraw (src/component/mapComponent/mapGallery.tsx and
    src/app/gallery/mapGallery.tsx). Each call cancels the pending timer, if
    any, and schedules a new one `waitFor` milliseconds ahead with its own
    arguments. Time is a count of elapsed milliseconds rather than the wall
    clock, and a fired call is recorded by appending its arguments to
    `fired`. */
module Debounce {
  import opened Common

  /** The wait the pages use for the marker redraw. */
  const ImageMarkerDebounceTime: nat := 250

  /** A scheduled call: its arguments and the time left before it runs. */
  datatype Timer<A> = Timer(args: A, remaining: nat)

  /** The debounced function's state: at most one pending timer, and the
      arguments of every call that has run so far, oldest first. */
  datatype State<A> = State(pending: Option<Timer<A>>, fired: seq<A>)

  /** No call is waiting. */
  predicate Idle<A>(s: State<A>) { s.pending.None? }

  /** The debounced wrapper is called: a pending timer is cleared and
      replaced; nothing runs now. */
  function Call<A>(s: State<A>, args: A, waitFor: nat): (r: State<A>)
    ensures r.fired == s.fired
    ensures r.pending.Some? && r.pending.value.args == args && r.pending.value.remaining == waitFor
  {
    State(Some(Timer(args, waitFor)), s.fired)
  }

  /** `dt` milliseconds pass: the pending call runs once its time is up. */
  function Elapse<A>(s: State<A>, dt: nat): (r: State<A>)
    ensures Idle(s) ==> r == s
    ensures !Idle(s) && dt >= s.pending.value.remaining ==>
      Idle(r) && r.fired == s.fired + [s.pending.value.args]
    ensures !Idle(s) && dt < s.pending.value.remaining ==>
      r.fired == s.fired && r.pending == Some(Timer(s.pending.value.args, s.pending.value.remaining - dt))
  {
    match s.pending
    case None => s
    case Some(t) =>
      if dt >= t.remaining then State(None, s.fired + [t.args])
      else State(Some(Timer(t.args, t.remaining - dt)), s.fired)
  }

  /** Waiting is additive: two waits in a row do what one wait of the
      combined length does. */
  lemma ElapseAdditive<A>(s: State<A>, a: nat, b: nat)
    ensures Elapse(Elapse(s, a), b) == Elapse(s, a + b)
  {
  }

  /** Waiting long enough for any pending call to run. */
  function Settle<A>(s: State<A>): (r: State<A>)
    ensures Idle(r)
  {
    match s.pending
    case None => s
    case Some(t) => Elapse(s, t.remaining)
  }

  /** One call of the wrapper, `gap` milliseconds after the previous one. */
  datatype Trigger<A> = Trigger(gap: nat, args: A)

  /** A sequence of calls, each preceded by its gap. */
  function Run<A>(s: State<A>, triggers: seq<Trigger<A>>, waitFor: nat): State<A>
    decreases |triggers|
  {
    if triggers == [] then s
    else Run(Call(Elapse(s, triggers[0].gap), triggers[0].args, waitFor), triggers[1..], waitFor)
  }

  function ArgsOf<A>(triggers: seq<Trigger<A>>): (r: seq<A>)
    ensures |r| == |triggers|
    ensures forall i :: 0 <= i < |triggers| ==> r[i] == triggers[i].args
  {
    seq(|triggers|, i requires 0 <= i < |triggers| => triggers[i].args)
  }

  /** While calls keep coming faster than the wait, nothing runs and the
      only pending call is the latest one, with the full wait ahead. */
  lemma {:induction false} BurstKeepsLatest<A>(s: State<A>, triggers: seq<Trigger<A>>, waitFor: nat)
    requires s.pending.Some? && s.pending.value.remaining == waitFor
    requires forall i :: 0 <= i < |triggers| ==> triggers[i].gap < waitFor
    ensures Run(s, triggers, waitFor).fired == s.fired
    ensures triggers != [] ==>
      Run(s, triggers, waitFor).pending == Some(Timer(triggers[|triggers| - 1].args, waitFor))
    ensures triggers == [] ==> Run(s, triggers, waitFor) == s
    decreases |triggers|
  {
    if triggers != [] {
      var next := Call(Elapse(s, triggers[0].gap), triggers[0].args, waitFor);
      assert next.fired == s.fired;
      BurstKeepsLatest(next, triggers[1..], waitFor);
      if triggers[1..] != [] {
        assert triggers[1..][|triggers[1..]| - 1] == triggers[|triggers| - 1];
      }
    }
  }

  /** A burst whose calls are each less than the wait apart runs the
      function exactly once, with the last call's arguments. */
  lemma BurstRunsOnceWithLastArgs<A>(s: State<A>, triggers: seq<Trigger<A>>, waitFor: nat)
    requires Idle(s) && triggers != []
    requires forall i :: 1 <= i < |triggers| ==> triggers[i].gap < waitFor
    ensures Settle(Run(s, triggers, waitFor)).fired == s.fired + [triggers[|triggers| - 1].args]
  {
    var first := Call(Elapse(s, triggers[0].gap), triggers[0].args, waitFor);
    var rest := triggers[1..];
    forall i | 0 <= i < |rest| ensures rest[i].gap < waitFor {
      assert rest[i] == triggers[i + 1];
    }
    BurstKeepsLatest(first, rest, waitFor);
    if rest != [] {
      assert rest[|rest| - 1] == triggers[|triggers| - 1];
    }
  }

  /** Calls spaced at least the wait apart are never merged: every one of
      them runs, in order. */
  lemma {:induction false} SpacedCallsAllRun<A>(s: State<A>, triggers: seq<Trigger<A>>, waitFor: nat)
    requires Idle(s) || s.pending.value.remaining <= waitFor
    requires forall i :: 0 <= i < |triggers| ==> triggers[i].gap >= waitFor
    ensures Settle(Run(s, triggers, waitFor)).fired == Settle(s).fired + ArgsOf(triggers)
    decreases |triggers|
  {
    if triggers == [] {
      assert ArgsOf(triggers) == [];
    } else {
      var next := Call(Settle(s), triggers[0].args, waitFor);
      var rest := triggers[1..];
      SpacedFirstCall(s, triggers, waitFor);
      assert forall i :: 0 <= i < |rest| ==> rest[i].gap >= waitFor by {
        forall i | 0 <= i < |rest| ensures rest[i].gap >= waitFor {
          assert rest[i] == triggers[i + 1];
        }
      }
      SpacedCallsAllRun(next, rest, waitFor);
      ArgsOfCons(triggers);
      calc {
        Settle(Run(s, triggers, waitFor)).fired;
        Settle(Run(next, rest, waitFor)).fired;
        Settle(next).fired + ArgsOf(rest);
        Settle(s).fired + [triggers[0].args] + ArgsOf(rest);
        Settle(s).fired + ([triggers[0].args] + ArgsOf(rest));
      }
    }
  }

  /** The first of a run of spaced calls: the wait before it lets any
      pending call run, and it then runs once its own wait is over. */
  lemma SpacedFirstCall<A>(s: State<A>, triggers: seq<Trigger<A>>, waitFor: nat)
    requires Idle(s) || s.pending.value.remaining <= waitFor
    requires triggers != [] && triggers[0].gap >= waitFor
    ensures Run(s, triggers, waitFor) == Run(Call(Settle(s), triggers[0].args, waitFor), triggers[1..], waitFor)
    ensures Settle(Call(Settle(s), triggers[0].args, waitFor)).fired == Settle(s).fired + [triggers[0].args]
  {
    assert Elapse(s, triggers[0].gap) == Settle(s);
  }

  lemma ArgsOfCons<A>(triggers: seq<Trigger<A>>)
    requires triggers != []
    ensures ArgsOf(triggers) == [triggers[0].args] + ArgsOf(triggers[1..])
  {
  }

  /** The closure `debounce` returns, with its captured `timeoutId`. */
  class Debouncer<A> {
    const waitFor: nat
    var pending: Option<Timer<A>>
    var fired: seq<A>

    function Current(): State<A>
      reads this
    {
      State(pending, fired)
    }

    constructor (waitFor: nat)
      ensures this.waitFor == waitFor
      ensures Idle(Current()) && fired == []
    {
      this.waitFor := waitFor;
      pending := None;
      fired := [];
    }

    /** A call of the debounced wrapper. */
    method Invoke(args: A)
      modifies this
      ensures Current() == Call(old(Current()), args, waitFor)
    {
      if pending.Some? {
        pending := None;
      }
      pending := Some(Timer(args, waitFor));
    }

    /** `dt` milliseconds pass on the timer queue. */
    method Tick(dt: nat)
      modifies this
      ensures Current() == Elapse(old(Current()), dt)
    {
      if pending.Some? {
        var t := pending.value;
        if dt >= t.remaining {
          pending := None;
          fired := fired + [t.args];
        } else {
          pending := Some(Timer(t.args, t.remaining - dt));
        }
      }
    }
  }
}
