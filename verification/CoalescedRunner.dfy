/**
 The coalescing runner: pulses that arrive while the work is in flight are folded into
 one more invocation. A step is what happens between two returns to the event loop.
 */
module CoalescedRunner {

  /** `inFlight` and `started` count the invocations of the work that are unsettled, and all of them. */
  datatype Runner = Runner(active: bool, rerun: bool, stopped: bool, inFlight: nat, started: nat)

  const IDLE := Runner(false, false, false, 0, 0)

  /** `Settles` is the invocation in flight returning, or throwing. */
  datatype Step = Pulses | Settles(threw: bool) | Stops

  /** The body of the loop: forget the pulses so far and invoke the work. */
  function Invoked(s: Runner): Runner {
    s.(rerun := false, inFlight := s.inFlight + 1, started := s.started + 1)
  }

  function Pulse(s: Runner): Runner {
    if s.stopped then s
    else if s.active then s.(rerun := true)
    else Invoked(s.(active := true))
  }

  /** Once more when a pulse came and the runner was not stopped; a throw leaves the loop. */
  function Settle(s: Runner, threw: bool): Runner {
    if s.inFlight == 0 then s
    else
      var settled := s.(inFlight := s.inFlight - 1);
      if !threw && s.rerun && !s.stopped then Invoked(settled) else settled.(active := false)
  }

  function Stop(s: Runner): Runner {
    s.(stopped := true, rerun := false)
  }

  function Next(s: Runner, step: Step): Runner {
    match step
    case Pulses => Pulse(s)
    case Settles(threw) => Settle(s, threw)
    case Stops => Stop(s)
  }

  // ---------------------------------------------------------------- runs

  datatype Trace = Trace(states: seq<Runner>, steps: seq<Step>)

  predicate Linked(r: Trace, i: nat)
    requires i < |r.steps| < |r.states|
  {
    r.states[i + 1] == Next(r.states[i], r.steps[i])
  }

  ghost predicate Legal(r: Trace) {
    && |r.states| == |r.steps| + 1
    && r.states[0] == IDLE
    && forall i {:trigger Linked(r, i)} :: 0 <= i < |r.steps| ==> Linked(r, i)
  }

  /** Step i invokes the work. */
  predicate Starts(r: Trace, i: nat)
    requires i < |r.steps| < |r.states|
  {
    r.states[i + 1].started > r.states[i].started
  }

  /** At most one invocation is in flight, and one is exactly while the runner is active. */
  lemma {:induction false} OneInFlight(r: Trace, i: nat)
    requires Legal(r) && i <= |r.steps|
    ensures r.states[i].inFlight == if r.states[i].active then 1 else 0
  {
    if i > 0 {
      OneInFlight(r, i - 1);
      assert Linked(r, i - 1);
    }
  }

  lemma {:induction false} StoppedForever(r: Trace, i: nat, j: nat)
    requires Legal(r) && i <= j <= |r.steps| && r.states[i].stopped
    ensures r.states[j].stopped && r.states[j].started == r.states[i].started
    ensures !r.states[i].rerun ==> !r.states[j].rerun
  {
    if i < j {
      StoppedForever(r, i, j - 1);
      assert Linked(r, j - 1);
    }
  }

  /** Until the invocation in flight settles, a pulse waits, unless the runner is stopped. */
  lemma {:induction false} PulseWaits(r: Trace, i: nat, j: nat)
    requires Legal(r) && i < j <= |r.steps| && r.steps[i] == Pulses
    requires r.states[i].active && !r.states[i].stopped
    requires forall k :: i < k < j ==> !r.steps[k].Settles?
    ensures r.states[j].active && r.states[j].inFlight == 1
    ensures (r.states[j].rerun && !r.states[j].stopped) || (r.states[j].stopped && !r.states[j].rerun)
    ensures r.states[j].stopped <==> exists k :: i < k < j && r.steps[k] == Stops
  {
    OneInFlight(r, i);
    assert Linked(r, j - 1);
    if i < j - 1 {
      PulseWaits(r, i, j - 1);
      if r.steps[j - 1] != Stops {
        assert forall k :: i < k < j && r.steps[k] == Stops ==> k < j - 1;
      }
    }
  }

  /** A pulse on an idle runner invokes the work at once. */
  lemma PulseOnIdleStarts(r: Trace, i: nat)
    requires Legal(r) && i < |r.steps| && r.steps[i] == Pulses
    ensures Starts(r, i) <==> !r.states[i].active && !r.states[i].stopped
  {
    assert Linked(r, i);
  }

  /**
   A pulse on an active runner is answered when the invocation in flight settles, exactly
   when that invocation does not throw and nobody stopped the runner in between.
   */
  lemma PulseAnsweredIff(r: Trace, i: nat, j: nat)
    requires Legal(r) && i < j < |r.steps| && r.steps[i] == Pulses && r.steps[j].Settles?
    requires r.states[i].active && !r.states[i].stopped
    requires forall k :: i < k < j ==> !r.steps[k].Settles?
    ensures Starts(r, j) <==> !r.steps[j].threw && forall k :: i < k < j ==> r.steps[k] != Stops
    ensures !Starts(r, j) ==> !r.states[j + 1].active
  {
    PulseWaits(r, i, j);
    assert Linked(r, j);
  }

  /**
   No lost wake-up: when the work never throws and the runner is never stopped, every pulse
   is followed by an invocation by the time the runner is idle again.
   */
  lemma {:induction false} NoLostWakeUp(r: Trace, i: nat, j: nat) returns (k: nat)
    requires Legal(r) && i < j <= |r.steps| && r.steps[i] == Pulses && !r.states[j].active
    requires forall n :: 0 <= n < j ==> r.steps[n] == Pulses || r.steps[n] == Settles(false)
    ensures i <= k < j && Starts(r, k)
  {
    NeverStopped(r, i);
    if !r.states[i].active {
      PulseOnIdleStarts(r, i);
      k := i;
    } else {
      k := FirstSettle(r, i, j);
      PulseAnsweredIff(r, i, k);
    }
  }

  lemma {:induction false} NeverStopped(r: Trace, i: nat)
    requires Legal(r) && i <= |r.steps| && forall n :: 0 <= n < i ==> r.steps[n] != Stops
    ensures !r.states[i].stopped
  {
    if i > 0 {
      NeverStopped(r, i - 1);
      assert Linked(r, i - 1);
    }
  }

  /** Between a pulse on an active runner and an idle one, an invocation settled. */
  lemma {:induction false} FirstSettle(r: Trace, i: nat, j: nat) returns (k: nat)
    requires Legal(r) && i < j <= |r.steps| && r.steps[i] == Pulses && !r.states[j].active
    requires r.states[i].active && !r.states[i].stopped
    ensures i < k < j && r.steps[k].Settles?
    ensures forall n :: i < n < k ==> !r.steps[n].Settles?
  {
    if exists n :: i < n < j && r.steps[n].Settles? {
      k := i + 1;
      while !r.steps[k].Settles?
        invariant i < k < j && (forall n :: i < n < k ==> !r.steps[n].Settles?)
        decreases j - k
      {
        k := k + 1;
      }
    } else {
      PulseWaits(r, i, j);
      assert false;
    }
  }

  /** A pulse during an invocation that throws is dropped: the runner falls idle after one invocation. */
  lemma PulseIsDropped() returns (r: Trace)
    ensures Legal(r) && r.steps == [Pulses, Pulses, Settles(true)]
    ensures Starts(r, 0) && !Starts(r, 1) && !Starts(r, 2) && !r.states[3].active && r.states[3].inFlight == 0
  {
    var one := Runner(true, false, false, 1, 1);
    r := Trace([IDLE, one, one.(rerun := true), Runner(false, true, false, 0, 1)], [Pulses, Pulses, Settles(true)]);
    assert Linked(r, 0) && Linked(r, 1) && Linked(r, 2);
  }

  lemma {:induction false} StoppedForgets(r: Trace, i: nat)
    requires Legal(r) && i <= |r.steps|
    ensures r.states[i].stopped ==> !r.states[i].rerun
  {
    if i > 0 {
      StoppedForgets(r, i - 1);
      assert Linked(r, i - 1);
    }
  }

  lemma Longer(r: Trace, step: Step) returns (longer: Trace)
    requires Legal(r)
    ensures longer == Trace(r.states + [Next(r.states[|r.steps|], step)], r.steps + [step]) && Legal(longer)
  {
    longer := Trace(r.states + [Next(r.states[|r.steps|], step)], r.steps + [step]);
    forall i | 0 <= i < |longer.steps| ensures Linked(longer, i) {
      if i < |r.steps| {
        assert Linked(r, i);
      }
    }
  }

  // ---------------------------------------------------------------- the runner itself

  /** `trace` is what happened to the runner so far: every call is one step of a legal run. */
  class Coalescer {
    var active: bool
    var rerun: bool
    var stopped: bool
    var inFlight: nat
    var started: nat
    ghost var trace: Trace

    function View(): Runner
      reads this
    {
      Runner(active, rerun, stopped, inFlight, started)
    }

    ghost predicate Valid()
      reads this
    {
      Legal(trace) && trace.states[|trace.steps|] == View()
    }

    constructor ()
      ensures Valid() && trace.steps == []
    {
      active, rerun, stopped, inFlight, started := false, false, false, 0, 0;
      trace := Trace([IDLE], []);
    }

    method Invoke()
      modifies this`rerun, this`inFlight, this`started
      ensures View() == Invoked(old(View()))
    {
      rerun := false;
      inFlight := inFlight + 1;
      started := started + 1;
    }

    /** Unless stopped, the pulse invokes the work at once or is noted; never a second invocation beside one in flight. */
    method Run()
      requires Valid()
      modifies this
      ensures Valid() && trace.steps == old(trace.steps) + [Pulses]
      ensures inFlight <= 1
      ensures !stopped ==> started == old(started) + 1 || (rerun && inFlight == 1)
      ensures started > old(started) <==> !old(active) && !old(stopped)
    {
      ghost var longer := Longer(trace, Pulses);
      OneInFlight(longer, |longer.steps|);
      if !stopped {
        if active {
          rerun := true;
        } else {
          active := true;
          Invoke();
        }
      }
      trace := longer;
    }

    /** The awaited work returned or threw: a noted pulse is answered exactly when it returned; otherwise the runner is idle. */
    method WorkSettled(threw: bool)
      requires Valid() && inFlight > 0
      modifies this
      ensures Valid() && trace.steps == old(trace.steps) + [Settles(threw)]
      ensures inFlight <= 1
      ensures if !threw && old(rerun) then active && !rerun && started == old(started) + 1
              else !active && inFlight == 0 && started == old(started)
    {
      ghost var longer := Longer(trace, Settles(threw));
      OneInFlight(trace, |trace.steps|);
      StoppedForgets(trace, |trace.steps|);
      inFlight := inFlight - 1;
      if !threw && rerun && !stopped {
        Invoke();
      } else {
        active := false;
      }
      trace := longer;
    }

    /** The noted pulse is forgotten, and no invocation follows in any continuation of what happened so far. */
    method StopRunner()
      requires Valid()
      modifies this
      ensures Valid() && trace.steps == old(trace.steps) + [Stops]
      ensures stopped && !rerun && inFlight == old(inFlight)
      ensures forall r: Trace, j {:trigger Legal(r), r.states[j]} ::
                Legal(r) && trace.states <= r.states && |trace.steps| <= j <= |r.steps| ==> r.states[j].started == old(started)
    {
      ghost var longer := Longer(trace, Stops);
      stopped := true;
      rerun := false;
      trace := longer;
      forall r: Trace, j | Legal(r) && trace.states <= r.states && |trace.steps| <= j <= |r.steps|
        ensures r.states[j].started == old(started)
      {
        StoppedForever(r, |trace.steps|, j);
      }
    }
  }
}
