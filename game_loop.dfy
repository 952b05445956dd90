/**
 * The run loop of the engine: guards (initialised, script loaded, Init
 * succeeded), then a fixed-timestep accumulator loop that polls window events
 * and calls the script's Update once per timestep, and calls Render once per
 * outer iteration.
 *
 * Real time is an input sequence of clock deltas (integer microseconds, as
 * sf::Time counts them); window close requests are an input sequence of flags,
 * one per event poll.  The script's entry points are given as the host calls an
 * invocation makes, followed or not by a script-level error.
 */
module GameLoop {
  import opened Resources
  import opened HostApi

  /** sf::seconds(1.f / 15.f): 66666.67 microseconds, truncated to an integer count. */
  const TimePerFrame: nat := 66666

  /** What one invocation of a script entry point does. */
  datatype Body = Body(calls: seq<HostCall>, raises: bool)

  /**
   * A script: its top level, its Init, and the k-th invocation of Update and of
   * Render (counted from the engine's construction).
   */
  datatype Script = Script(top: Body, init: Body, update: nat -> Body, render: nat -> Body)

  datatype Entry = TopLevel | InitEntry | UpdateEntry | RenderEntry

  /** Errors that end `run`: the initialisation guard, or a failed script invocation. */
  datatype RunError = NotInitialized | ScriptFailed(entry: Entry, cause: Error)

  /** The observable calls the loop makes, in order. */
  datatype Event = ScriptLoaded | InitCalled | EventsPolled | UpdateCalled | RenderCalled

  /**
   * The loop's state: the host state scripts act on, the unsimulated time
   * `acc`, how many event polls, Update calls and Render calls happened so far,
   * whether the window is open, and the trace of calls.
   */
  datatype Sim = Sim(host: Host, acc: nat, polls: nat, updates: nat, renders: nat,
                     open: bool, trace: seq<Event>)

  /**
   * How the observed run stands: `Running` when no error ended it (a loop that
   * stopped because the window closed, `!sim.open`, returns normally and is
   * also `Running`), or the error `run` throws.
   */
  datatype Status = Running | Faulted(error: RunError)

  datatype SimResult = SimResult(sim: Sim, status: Status)

  /** Whether the k-th event poll finds a close request. */
  function CloseRequested(closes: seq<bool>, k: nat): (b: bool)
  {
    k < |closes| && closes[k]
  }

  /**
   * A protected call of an entry point: the host calls run until one fails; if
   * none fails the script may still raise.  Host errors surface unchanged.
   */
  function Invoke(h: Host, b: Body): (st: Step)
    ensures st.host == Exec(h, b.calls).host
    ensures st.outcome.Pass? <==> Exec(h, b.calls).outcome.Pass? && !b.raises
  {
    var st := Exec(h, b.calls);
    if st.outcome.Pass? && b.raises then Step(st.host, Fail(ScriptRaised)) else st
  }

  /** Polling the window's events: a close request closes the window. */
  function HandleEvents(s: Sim, closes: seq<bool>): (r: Sim)
    ensures r.polls == s.polls + 1 && r.trace == s.trace + [EventsPolled]
    ensures r.open <==> s.open && !CloseRequested(closes, s.polls)
    ensures r.host == s.host && r.acc == s.acc && r.updates == s.updates && r.renders == s.renders
  {
    s.(open := s.open && !CloseRequested(closes, s.polls), polls := s.polls + 1,
       trace := s.trace + [EventsPolled])
  }

  /** Calling the script's Update; a failure is reported, not caught. */
  function Update(s: Sim, script: Script): (r: SimResult)
    ensures r.sim.updates == s.updates + 1 && r.sim.trace == s.trace + [UpdateCalled]
    ensures r.sim.acc == s.acc && r.sim.polls == s.polls && r.sim.renders == s.renders && r.sim.open == s.open
    ensures r.sim.host == Invoke(s.host, script.update(s.updates)).host
    ensures r.status.Faulted? <==> Invoke(s.host, script.update(s.updates)).outcome.Fail?
    ensures r.status.Faulted? ==> r.status.error.ScriptFailed? && r.status.error.entry == UpdateEntry
  {
    var st := Invoke(s.host, script.update(s.updates));
    var s' := s.(host := st.host, updates := s.updates + 1, trace := s.trace + [UpdateCalled]);
    if st.outcome.Fail? then SimResult(s', Faulted(ScriptFailed(UpdateEntry, st.outcome.error)))
    else SimResult(s', Running)
  }

  /** Calling the script's Render; a failure is reported, not caught. */
  function Render(s: Sim, script: Script): (r: SimResult)
    ensures r.sim.renders == s.renders + 1 && r.sim.trace == s.trace + [RenderCalled]
    ensures r.sim.acc == s.acc && r.sim.polls == s.polls && r.sim.updates == s.updates && r.sim.open == s.open
    ensures r.sim.host == Invoke(s.host, script.render(s.renders)).host
    ensures r.status.Faulted? <==> Invoke(s.host, script.render(s.renders)).outcome.Fail?
    ensures r.status.Faulted? ==> r.status.error.ScriptFailed? && r.status.error.entry == RenderEntry
  {
    var st := Invoke(s.host, script.render(s.renders));
    var s' := s.(host := st.host, renders := s.renders + 1, trace := s.trace + [RenderCalled]);
    if st.outcome.Fail? then SimResult(s', Faulted(ScriptFailed(RenderEntry, st.outcome.error)))
    else SimResult(s', Running)
  }

  /** The inner loop: while a whole timestep is pending, consume it, poll events and update. */
  function Drain(s: Sim, step: nat, closes: seq<bool>, script: Script): (r: SimResult)
    requires step > 0
    ensures r.sim.renders == s.renders && r.sim.updates >= s.updates && r.sim.polls >= s.polls
    ensures r.status.Running? ==> r.sim.acc < step
    decreases s.acc
  {
    if s.acc < step then SimResult(s, Running)
    else
      var u := Update(HandleEvents(s.(acc := s.acc - step), closes), script);
      if u.status.Faulted? then u else Drain(u.sim, step, closes, script)
  }

  /** One outer iteration: add the elapsed time, drain it, render once. */
  function Frame(s: Sim, delta: nat, step: nat, closes: seq<bool>, script: Script): (f: SimResult)
    requires step > 0
    ensures f.sim.updates >= s.updates && f.sim.polls >= s.polls
    ensures f.status.Running? ==> f.sim.renders == s.renders + 1 && f.sim.acc < step
  {
    var d := Drain(s.(acc := s.acc + delta), step, closes, script);
    if d.status.Faulted? then d else Render(d.sim, script)
  }

  /**
   * The outer loop over the clock deltas: iterate while the window is open.
   * When the deltas run out the model stops observing, status Running.
   */
  function Loop(s: Sim, deltas: seq<nat>, step: nat, closes: seq<bool>, script: Script): (r: SimResult)
    requires step > 0
    ensures r.sim.updates >= s.updates && r.sim.renders >= s.renders && r.sim.polls >= s.polls
    ensures r.status.Running? && s.acc < step ==> r.sim.acc < step
    ensures r.status.Running? && r.sim.open ==> r.sim.renders == s.renders + |deltas|
    decreases |deltas|
  {
    if !s.open || deltas == [] then SimResult(s, Running)
    else
      var f := Frame(s, deltas[0], step, closes, script);
      if f.status.Faulted? then f else Loop(f.sim, deltas[1..], step, closes, script)
  }

  /**
   * `run`: refuse to start unless initialised; load the script; open the
   * window; call Init; then loop from an empty accumulator.
   */
  function RunEngine(initialized: bool, s: Sim, script: Script, deltas: seq<nat>,
                     closes: seq<bool>, step: nat): (r: SimResult)
    requires step > 0
    ensures !initialized ==> r == SimResult(s, Faulted(NotInitialized))
    ensures r.status.Running? ==> initialized && r.sim.acc < step
    ensures r.status.Running? && r.sim.open ==> r.sim.renders == s.renders + |deltas|
  {
    if !initialized then SimResult(s, Faulted(NotInitialized))
    else
      var ld := Invoke(s.host, script.top);
      if ld.outcome.Fail? then
        SimResult(s.(host := ld.host, trace := s.trace + [ScriptLoaded]),
            Faulted(ScriptFailed(TopLevel, ld.outcome.error)))
      else
        var it := Invoke(ld.host, script.init);
        var s2 := s.(host := it.host, open := true, trace := s.trace + [ScriptLoaded, InitCalled]);
        if it.outcome.Fail? then SimResult(s2, Faulted(ScriptFailed(InitEntry, it.outcome.error)))
        else Loop(s2.(acc := 0), deltas, step, closes, script)
  }

  /** The sum of the first clock deltas: the real time those frames measured. */
  function Sum(ds: seq<nat>): (t: nat)
  {
    if ds == [] then 0 else ds[0] + Sum(ds[1..])
  }

  // ---------------------------------------------------------------------------
  // Accumulator arithmetic

  /** A positive multiple of `x` is at least `x`. */
  lemma MulAtLeast(x: nat, m: nat)
    requires m >= 1
    ensures x * m >= x
  {
  }

  /** Division with remainder determines the quotient: the unique k with 0 <= a - k*step < step. */
  lemma DivUnique(a: nat, step: nat, k: nat, r: nat)
    requires step > 0 && r < step && a == r + step * k
    ensures k == a / step && r == a % step
  {
    var q, r' := a / step, a % step;
    assert a == step * q + r';
    if k > q {
      assert step * k == step * q + step * (k - q);
      MulAtLeast(step, k - q);
    } else if k < q {
      assert step * q == step * k + step * (q - k);
      MulAtLeast(step, q - k);
    }
  }

  /**
   * If `acc + step * updates` grew by exactly `time` while the accumulator
   * ended below one timestep, the updates made are time / step, the rest time % step.
   */
  lemma Conservation(acc0: nat, acc1: nat, u0: nat, u1: nat, step: nat, time: nat)
    requires step > 0 && acc0 < step && acc1 < step && u0 <= u1
    requires acc1 + step * u1 == acc0 + step * u0 + time
    ensures u1 - u0 == (acc0 + time) / step && acc1 == (acc0 + time) % step
  {
    assert step * u1 == step * u0 + step * (u1 - u0);
    DivUnique(acc0 + time, step, u1 - u0, acc1);
  }

  /** One more timestep taken and one more update made keep `acc + step * updates`. */
  lemma StepConserved(acc1: nat, u1: nat, acc0: nat, u0: nat, step: nat)
    requires acc0 >= step && acc1 + step * u1 == (acc0 - step) + step * (u0 + 1)
    ensures acc1 + step * u1 == acc0 + step * u0
  {
    assert step * (u0 + 1) == step * u0 + step;
  }

  /** With nothing added, a conserved `acc + step * updates` ending below one step is a division. */
  lemma QuotientOfConserved(acc0: nat, acc1: nat, u0: nat, u1: nat, step: nat)
    requires step > 0 && acc1 < step && u0 <= u1
    requires acc1 + step * u1 == acc0 + step * u0
    ensures u1 - u0 == acc0 / step && acc1 == acc0 % step
  {
    assert step * u1 == step * u0 + step * (u1 - u0);
    DivUnique(acc0, step, u1 - u0, acc1);
  }

  /**
   * A drain that did not fail leaves strictly less than one timestep pending;
   * failed or not, every timestep it took off the accumulator was simulated by
   * exactly one event poll and one Update call, and Render was not called.
   */
  lemma {:induction false} DrainAccounting(s: Sim, step: nat, closes: seq<bool>, script: Script)
    requires step > 0
    ensures var r := Drain(s, step, closes, script);
      && r.sim.updates >= s.updates
      && r.sim.acc + step * r.sim.updates == s.acc + step * s.updates
      && r.sim.polls - s.polls == r.sim.updates - s.updates
      && r.sim.renders == s.renders
      && (r.status.Running? ==> r.sim.acc < step)
    decreases s.acc
  {
    if s.acc >= step {
      var u := Update(HandleEvents(s.(acc := s.acc - step), closes), script);
      assert u.sim.acc == s.acc - step && u.sim.updates == s.updates + 1;
      if u.status.Running? {
        DrainAccounting(u.sim, step, closes, script);
        var r := Drain(u.sim, step, closes, script);
        StepConserved(r.sim.acc, r.sim.updates, s.acc, s.updates, step);
      } else {
        StepConserved(u.sim.acc, u.sim.updates, s.acc, s.updates, step);
      }
    }
  }

  /** A drain that did not fail ran Update exactly acc / step times and left acc % step. */
  lemma DrainCount(s: Sim, step: nat, closes: seq<bool>, script: Script)
    requires step > 0
    ensures var r := Drain(s, step, closes, script);
      r.status.Running? ==> r.sim.updates - s.updates == s.acc / step && r.sim.acc == s.acc % step
  {
    DrainAccounting(s, step, closes, script);
    var r := Drain(s, step, closes, script);
    if r.status.Running? {
      QuotientOfConserved(s.acc, r.sim.acc, s.updates, r.sim.updates, step);
    }
  }

  /** A frame that did not fail rendered once and simulated its time as a drain does. */
  lemma FrameAccounting(s: Sim, delta: nat, step: nat, closes: seq<bool>, script: Script)
    requires step > 0
    ensures var f := Frame(s, delta, step, closes, script);
      && f.sim.updates >= s.updates && f.sim.renders >= s.renders
      && (f.status.Running? ==>
            && f.sim.renders == s.renders + 1
            && f.sim.acc < step
            && f.sim.acc + step * f.sim.updates == s.acc + step * s.updates + delta
            && f.sim.polls - s.polls == f.sim.updates - s.updates)
  {
    DrainAccounting(s.(acc := s.acc + delta), step, closes, script);
  }

  /**
   * Over the outer loop: as long as nothing failed, Render ran once per frame,
   * the time of those frames' deltas was simulated in whole timesteps with less
   * than one timestep left over, and the loop only stopped early because the
   * window was closed.
   */
  lemma {:induction false} LoopAccounting(s: Sim, deltas: seq<nat>, step: nat, closes: seq<bool>, script: Script)
    requires step > 0 && s.acc < step
    ensures var r := Loop(s, deltas, step, closes, script); var n := r.sim.renders - s.renders;
      && r.sim.renders >= s.renders && r.sim.updates >= s.updates
      && (r.status.Running? ==>
            && n <= |deltas|
            && r.sim.acc < step
            && r.sim.acc + step * r.sim.updates == s.acc + step * s.updates + Sum(deltas[..n])
            && r.sim.polls - s.polls == r.sim.updates - s.updates
            && (r.sim.open ==> n == |deltas|))
    decreases |deltas|
  {
    if s.open && deltas != [] {
      var f := Frame(s, deltas[0], step, closes, script);
      FrameAccounting(s, deltas[0], step, closes, script);
      if f.status.Running? {
        LoopAccounting(f.sim, deltas[1..], step, closes, script);
        var r := Loop(f.sim, deltas[1..], step, closes, script);
        assert r == Loop(s, deltas, step, closes, script);
        if r.status.Running? {
          var n := r.sim.renders - s.renders;
          assert deltas[..n][1..] == deltas[1..][..n - 1];
          assert Sum(deltas[..n]) == deltas[0] + Sum(deltas[1..][..n - 1]);
        }
      }
    } else {
      assert deltas[..0] == [];
    }
  }

  /**
   * The determinism the accumulator exists for: starting from an idle
   * accumulator, a run that has not failed has called Update exactly
   * floor(S / step) times for the total time S of the frames it rendered, and
   * Render exactly once per frame.
   */
  lemma UpdatesFollowTime(s: Sim, deltas: seq<nat>, step: nat, closes: seq<bool>, script: Script)
    requires step > 0 && s.acc == 0
    ensures var r := Loop(s, deltas, step, closes, script); var n := r.sim.renders - s.renders;
      r.status.Running? ==>
        && 0 <= n <= |deltas|
        && r.sim.updates - s.updates == Sum(deltas[..n]) / step
        && r.sim.acc == Sum(deltas[..n]) % step
  {
    LoopAccounting(s, deltas, step, closes, script);
    var r := Loop(s, deltas, step, closes, script);
    if r.status.Running? {
      var n := r.sim.renders - s.renders;
      Conservation(s.acc, r.sim.acc, s.updates, r.sim.updates, step, Sum(deltas[..n]));
    }
  }

  /**
   * How the clock samples were chunked does not matter: two runs that both
   * consumed all their deltas without closing or failing, with the same total
   * time, made the same number of Update calls.
   */
  lemma ChunkingDoesNotMatter(s: Sim, d1: seq<nat>, d2: seq<nat>, step: nat, closes: seq<bool>, script: Script)
    requires step > 0 && s.acc == 0 && Sum(d1) == Sum(d2)
    ensures var r1 := Loop(s, d1, step, closes, script); var r2 := Loop(s, d2, step, closes, script);
      r1.status.Running? && r1.sim.open && r2.status.Running? && r2.sim.open ==>
        r1.sim.updates == r2.sim.updates && r1.sim.acc == r2.sim.acc
  {
    var r1 := Loop(s, d1, step, closes, script);
    var r2 := Loop(s, d2, step, closes, script);
    LoopAccounting(s, d1, step, closes, script);
    LoopAccounting(s, d2, step, closes, script);
    UpdatesFollowTime(s, d1, step, closes, script);
    UpdatesFollowTime(s, d2, step, closes, script);
    if r1.status.Running? && r1.sim.open && r2.status.Running? && r2.sim.open {
      assert d1[..|d1|] == d1;
      assert d2[..|d2|] == d2;
    }
  }

  // ---------------------------------------------------------------------------
  // Window close handling

  /**
   * The window stays open through a drain exactly when it was open and none of
   * the polls made during the drain found a close request.
   */
  lemma {:induction false} DrainOpen(s: Sim, step: nat, closes: seq<bool>, script: Script)
    requires step > 0
    ensures var r := Drain(s, step, closes, script);
      && s.polls <= r.sim.polls
      && (r.sim.open <==> s.open && forall k :: s.polls <= k < r.sim.polls ==> !CloseRequested(closes, k))
    decreases s.acc
  {
    if s.acc >= step {
      var u := Update(HandleEvents(s.(acc := s.acc - step), closes), script);
      if u.status.Running? {
        DrainOpen(u.sim, step, closes, script);
      }
    }
  }

  /**
   * Closing the window never shortens a drain: the Update calls, the host
   * state, the trace and the outcome of a drain are the same whatever the
   * window does.  A close seen mid-drain lets the remaining updates run.
   */
  lemma {:induction false} DrainIgnoresClose(s: Sim, step: nat, c1: seq<bool>, c2: seq<bool>,
                                             o1: bool, o2: bool, script: Script)
    requires step > 0
    ensures var r1 := Drain(s.(open := o1), step, c1, script);
      var r2 := Drain(s.(open := o2), step, c2, script);
      r1.status == r2.status && r1.sim.(open := true) == r2.sim.(open := true)
    decreases s.acc
  {
    if s.acc >= step {
      var u1 := Update(HandleEvents(s.(open := o1).(acc := s.acc - step), c1), script);
      var u2 := Update(HandleEvents(s.(open := o2).(acc := s.acc - step), c2), script);
      assert u1.status == u2.status;
      assert u1.sim.(open := true) == u2.sim.(open := true);
      if u1.status.Running? {
        var t := u1.sim.(open := true);
        assert u1.sim == t.(open := u1.sim.open);
        assert u2.sim == t.(open := u2.sim.open);
        DrainIgnoresClose(t, step, c1, c2, u1.sim.open, u2.sim.open, script);
      }
    }
  }

  /**
   * A frame whose drain did not fail always renders, even when a poll during
   * the drain closed the window; and the loop exits at the following check.
   */
  lemma CloseStopsAfterRender(s: Sim, deltas: seq<nat>, step: nat, closes: seq<bool>, script: Script)
    requires step > 0 && s.open && deltas != []
    ensures var d := Drain(s.(acc := s.acc + deltas[0]), step, closes, script);
      var f := Frame(s, deltas[0], step, closes, script);
      d.status.Running? ==>
        && f.sim.renders == s.renders + 1
        && f.sim.trace == d.sim.trace + [RenderCalled]
        && (!d.sim.open ==> Loop(s, deltas, step, closes, script) == f)
  {
    DrainAccounting(s.(acc := s.acc + deltas[0]), step, closes, script);
  }

  // ---------------------------------------------------------------------------
  // Failures end the loop

  /** A failed drain ends at the Update call that failed: nothing runs after it. */
  lemma {:induction false} DrainFaultIsLast(s: Sim, step: nat, closes: seq<bool>, script: Script)
    requires step > 0
    ensures var r := Drain(s, step, closes, script);
      r.status.Faulted? ==>
        && r.status.error.ScriptFailed? && r.status.error.entry == UpdateEntry
        && |r.sim.trace| > 0 && r.sim.trace[|r.sim.trace| - 1] == UpdateCalled
    decreases s.acc
  {
    if s.acc >= step {
      var u := Update(HandleEvents(s.(acc := s.acc - step), closes), script);
      if u.status.Running? {
        DrainFaultIsLast(u.sim, step, closes, script);
      }
    }
  }

  /** A run that failed stopped right after the Update or Render call that raised. */
  predicate FaultedAtLastCall(r: SimResult)
  {
    r.status.Faulted? ==>
      && r.status.error.ScriptFailed?
      && |r.sim.trace| > 0
      && ((r.status.error.entry == UpdateEntry && r.sim.trace[|r.sim.trace| - 1] == UpdateCalled)
          || (r.status.error.entry == RenderEntry && r.sim.trace[|r.sim.trace| - 1] == RenderCalled))
  }

  lemma FrameFaultIsLast(s: Sim, delta: nat, step: nat, closes: seq<bool>, script: Script)
    requires step > 0
    ensures FaultedAtLastCall(Frame(s, delta, step, closes, script))
  {
    DrainFaultIsLast(s.(acc := s.acc + delta), step, closes, script);
  }

  lemma {:induction false} LoopFaultIsLast(s: Sim, deltas: seq<nat>, step: nat, closes: seq<bool>, script: Script)
    requires step > 0
    ensures FaultedAtLastCall(Loop(s, deltas, step, closes, script))
    decreases |deltas|
  {
    if s.open && deltas != [] {
      FrameFaultIsLast(s, deltas[0], step, closes, script);
      var f := Frame(s, deltas[0], step, closes, script);
      if f.status.Running? {
        LoopFaultIsLast(f.sim, deltas[1..], step, closes, script);
      }
    }
  }

  // ---------------------------------------------------------------------------
  // Ordering of the calls

  /** Every Update call in `t` comes right after an event poll. */
  ghost predicate PollBeforeUpdate(t: seq<Event>)
  {
    forall j :: 0 <= j < |t| && t[j] == UpdateCalled ==> 0 < j && t[j - 1] == EventsPolled
  }

  /** `t` holds only calls the loop makes: no script load and no Init. */
  ghost predicate LoopEvents(t: seq<Event>)
  {
    forall j :: 0 <= j < |t| ==> t[j] != ScriptLoaded && t[j] != InitCalled
  }

  /** `t` is `t0` extended with loop calls only. */
  ghost predicate LoopExtension(t0: seq<Event>, t: seq<Event>)
  {
    t0 <= t && LoopEvents(t[|t0|..])
  }

  lemma LoopExtensionAppend(t0: seq<Event>, t: seq<Event>, e: seq<Event>)
    requires LoopExtension(t0, t) && LoopEvents(e)
    ensures LoopExtension(t0, t + e)
  {
    assert (t + e)[..|t0|] == t0;
    assert (t + e)[|t0|..] == t[|t0|..] + e;
  }

  lemma LoopExtensionTransitive(t1: seq<Event>, t2: seq<Event>, t3: seq<Event>)
    requires LoopExtension(t1, t2) && LoopExtension(t2, t3)
    ensures LoopExtension(t1, t3)
  {
    assert t3[|t1|..] == t2[|t1|..] + t3[|t2|..];
  }

  /** One step of the drain or of the frame keeps every Update right after a poll. */
  lemma PollBeforeUpdateAppend(t: seq<Event>, e: seq<Event>)
    requires PollBeforeUpdate(t)
    requires e == [EventsPolled, UpdateCalled] || e == [RenderCalled]
    ensures PollBeforeUpdate(t + e)
  {
  }

  lemma {:induction false} DrainOrder(s: Sim, step: nat, closes: seq<bool>, script: Script)
    requires step > 0 && PollBeforeUpdate(s.trace)
    ensures var r := Drain(s, step, closes, script);
      PollBeforeUpdate(r.sim.trace) && LoopExtension(s.trace, r.sim.trace)
    decreases s.acc
  {
    if s.acc >= step {
      var u := Update(HandleEvents(s.(acc := s.acc - step), closes), script);
      assert u.sim.trace == s.trace + [EventsPolled, UpdateCalled];
      PollBeforeUpdateAppend(s.trace, [EventsPolled, UpdateCalled]);
      LoopExtensionAppend(s.trace, s.trace, [EventsPolled, UpdateCalled]);
      if u.status.Running? {
        DrainOrder(u.sim, step, closes, script);
        LoopExtensionTransitive(s.trace, u.sim.trace, Drain(u.sim, step, closes, script).sim.trace);
      }
    } else {
      assert s.trace[|s.trace|..] == [];
    }
  }

  lemma FrameOrder(s: Sim, delta: nat, step: nat, closes: seq<bool>, script: Script)
    requires step > 0 && PollBeforeUpdate(s.trace)
    ensures var f := Frame(s, delta, step, closes, script);
      PollBeforeUpdate(f.sim.trace) && LoopExtension(s.trace, f.sim.trace)
  {
    var d := Drain(s.(acc := s.acc + delta), step, closes, script);
    DrainOrder(s.(acc := s.acc + delta), step, closes, script);
    if d.status.Running? {
      assert Frame(s, delta, step, closes, script).sim.trace == d.sim.trace + [RenderCalled];
      PollBeforeUpdateAppend(d.sim.trace, [RenderCalled]);
      LoopExtensionAppend(s.trace, d.sim.trace, [RenderCalled]);
    }
  }

  lemma {:induction false} LoopOrder(s: Sim, deltas: seq<nat>, step: nat, closes: seq<bool>, script: Script)
    requires step > 0 && PollBeforeUpdate(s.trace)
    ensures var r := Loop(s, deltas, step, closes, script);
      PollBeforeUpdate(r.sim.trace) && LoopExtension(s.trace, r.sim.trace)
    decreases |deltas|
  {
    if s.open && deltas != [] {
      var f := Frame(s, deltas[0], step, closes, script);
      FrameOrder(s, deltas[0], step, closes, script);
      if f.status.Running? {
        LoopOrder(f.sim, deltas[1..], step, closes, script);
        LoopExtensionTransitive(s.trace, f.sim.trace, Loop(f.sim, deltas[1..], step, closes, script).sim.trace);
      }
    } else {
      assert s.trace[|s.trace|..] == [];
    }
  }

  /**
   * The guards of `run` and the place of Init: without `init` nothing happens;
   * a failing script load stops before Init; a failing Init stops before any
   * Update or Render; otherwise Init is called exactly once, after the load and
   * before every later call, and every Update is preceded by an event poll.
   */
  lemma RunGuards(initialized: bool, s: Sim, script: Script, deltas: seq<nat>, closes: seq<bool>, step: nat)
    requires step > 0 && PollBeforeUpdate(s.trace)
    ensures var r := RunEngine(initialized, s, script, deltas, closes, step);
      var ld := Invoke(s.host, script.top);
      && (!initialized ==> r == SimResult(s, Faulted(NotInitialized)))
      && (initialized && ld.outcome.Fail? ==>
            && r.status == Faulted(ScriptFailed(TopLevel, ld.outcome.error))
            && r.sim.trace == s.trace + [ScriptLoaded]
            && r.sim.updates == s.updates && r.sim.renders == s.renders)
      && (initialized && ld.outcome.Pass? && Invoke(ld.host, script.init).outcome.Fail? ==>
            && r.status == Faulted(ScriptFailed(InitEntry, Invoke(ld.host, script.init).outcome.error))
            && r.sim.trace == s.trace + [ScriptLoaded, InitCalled]
            && r.sim.updates == s.updates && r.sim.renders == s.renders)
      && (initialized && ld.outcome.Pass? && Invoke(ld.host, script.init).outcome.Pass? ==>
            && r == Loop(s.(host := Invoke(ld.host, script.init).host, open := true,
                            trace := s.trace + [ScriptLoaded, InitCalled], acc := 0),
                         deltas, step, closes, script)
            && PollBeforeUpdate(r.sim.trace)
            && LoopExtension(s.trace + [ScriptLoaded, InitCalled], r.sim.trace))
  {
    if initialized {
      var ld := Invoke(s.host, script.top);
      var it := Invoke(ld.host, script.init);
      if ld.outcome.Pass? && it.outcome.Pass? {
        var s2 := s.(host := it.host, open := true, trace := s.trace + [ScriptLoaded, InitCalled], acc := 0);
        assert PollBeforeUpdate(s2.trace) by {
          forall j | 0 <= j < |s2.trace| && s2.trace[j] == UpdateCalled
            ensures 0 < j && s2.trace[j - 1] == EventsPolled
          {
            assert j < |s.trace|;
          }
        }
        assert RunEngine(initialized, s, script, deltas, closes, step) == Loop(s2, deltas, step, closes, script);
        LoopOrder(s2, deltas, step, closes, script);
      }
    }
  }

  // ---------------------------------------------------------------------------
  // The registry across a run

  lemma InvokeKeepsRegistry(h: Host, b: Body)
    ensures SpritesReferenceTextures(h.reg) ==> SpritesReferenceTextures(Invoke(h, b).host.reg)
    ensures Grows(h.reg, Invoke(h, b).host.reg)
  {
    ExecKeepsRegistry(h, b.calls);
  }

  lemma {:induction false} DrainKeepsRegistry(s: Sim, step: nat, closes: seq<bool>, script: Script)
    requires step > 0
    ensures var r := Drain(s, step, closes, script);
      && (SpritesReferenceTextures(s.host.reg) ==> SpritesReferenceTextures(r.sim.host.reg))
      && Grows(s.host.reg, r.sim.host.reg)
    decreases s.acc
  {
    if s.acc >= step {
      var s1 := HandleEvents(s.(acc := s.acc - step), closes);
      InvokeKeepsRegistry(s1.host, script.update(s1.updates));
      var u := Update(s1, script);
      if u.status.Running? {
        DrainKeepsRegistry(u.sim, step, closes, script);
        GrowsTransitive(s.host.reg, u.sim.host.reg, Drain(u.sim, step, closes, script).sim.host.reg);
      }
    }
  }

  lemma {:induction false} LoopKeepsRegistry(s: Sim, deltas: seq<nat>, step: nat, closes: seq<bool>, script: Script)
    requires step > 0
    ensures var r := Loop(s, deltas, step, closes, script);
      && (SpritesReferenceTextures(s.host.reg) ==> SpritesReferenceTextures(r.sim.host.reg))
      && Grows(s.host.reg, r.sim.host.reg)
    decreases |deltas|
  {
    if s.open && deltas != [] {
      var s0 := s.(acc := s.acc + deltas[0]);
      DrainKeepsRegistry(s0, step, closes, script);
      var d := Drain(s0, step, closes, script);
      if d.status.Running? {
        InvokeKeepsRegistry(d.sim.host, script.render(d.sim.renders));
        var f := Frame(s, deltas[0], step, closes, script);
        GrowsTransitive(s.host.reg, d.sim.host.reg, f.sim.host.reg);
        if f.status.Running? {
          LoopKeepsRegistry(f.sim, deltas[1..], step, closes, script);
          GrowsTransitive(s.host.reg, f.sim.host.reg, Loop(f.sim, deltas[1..], step, closes, script).sim.host.reg);
        }
      }
    }
  }

  /**
   * However a run ends, every registered sprite's texture is still registered,
   * and nothing registered before the run was removed or replaced.
   */
  lemma RunKeepsRegistry(initialized: bool, s: Sim, script: Script, deltas: seq<nat>, closes: seq<bool>, step: nat)
    requires step > 0
    ensures var r := RunEngine(initialized, s, script, deltas, closes, step);
      && (SpritesReferenceTextures(s.host.reg) ==> SpritesReferenceTextures(r.sim.host.reg))
      && Grows(s.host.reg, r.sim.host.reg)
  {
    if initialized {
      var ld := Invoke(s.host, script.top);
      InvokeKeepsRegistry(s.host, script.top);
      var it := Invoke(ld.host, script.init);
      InvokeKeepsRegistry(ld.host, script.init);
      GrowsTransitive(s.host.reg, ld.host.reg, it.host.reg);
      if ld.outcome.Pass? && it.outcome.Pass? {
        var s2 := s.(host := it.host, open := true, trace := s.trace + [ScriptLoaded, InitCalled], acc := 0);
        LoopKeepsRegistry(s2, deltas, step, closes, script);
        GrowsTransitive(s.host.reg, it.host.reg, Loop(s2, deltas, step, closes, script).sim.host.reg);
      }
    }
  }

  // ---------------------------------------------------------------------------
  // A script that moves a sprite on every Update

  /** Where `m` moves by (dx, dy) take a sprite from `p`. */
  function Shifted(p: Vec2, m: nat, dx: real, dy: real): (q: Vec2)
  {
    Vec2(p.x + m as real * dx, p.y + m as real * dy)
  }

  lemma ShiftedAdd(p: Vec2, a: nat, b: nat, dx: real, dy: real)
    ensures Shifted(Shifted(p, a, dx, dy), b, dx, dy) == Shifted(p, a + b, dx, dy)
  {
    assert (a + b) as real * dx == a as real * dx + b as real * dx;
    assert (a + b) as real * dy == a as real * dy + b as real * dy;
  }

  /** Every Update moves sprite `id` by (dx, dy); every Render clears and presents the window. */
  ghost predicate MovingScript(script: Script, id: string, dx: real, dy: real)
  {
    && (forall k: nat :: script.update(k) == Body([MoveSpriteCall(id, dx, dy)], false))
    && (forall k: nat :: script.render(k) == Body([ClearWindowCall, DisplayOnWindowCall], false))
  }

  /** Clearing and presenting leaves the registries alone and never fails. */
  lemma ClearDisplayKeepsRegistry(h: Host)
    ensures var st := Invoke(h, Body([ClearWindowCall, DisplayOnWindowCall], false));
      st.outcome == Pass && st.host.reg == h.reg
  {
    var calls := [ClearWindowCall, DisplayOnWindowCall];
    assert calls[1..] == [DisplayOnWindowCall];
    assert Exec(ClearWindow(h), [DisplayOnWindowCall]) == Step(DisplayOnWindow(ClearWindow(h)), Pass);
  }

  lemma {:induction false} DrainMoves(s: Sim, step: nat, closes: seq<bool>, script: Script,
                                      id: string, dx: real, dy: real)
    requires step > 0 && MovingScript(script, id, dx, dy) && id in s.host.reg.sprites
    ensures var r := Drain(s, step, closes, script); var sp := s.host.reg.sprites[id];
      && r.status.Running?
      && r.sim.host.reg.sprites.Keys == s.host.reg.sprites.Keys
      && r.sim.host.reg.sprites[id] == sp.(position := Shifted(sp.position, r.sim.updates - s.updates, dx, dy))
    decreases s.acc
  {
    var sp := s.host.reg.sprites[id];
    if s.acc < step {
      assert Shifted(sp.position, 0, dx, dy) == sp.position;
    } else {
      var e := HandleEvents(s.(acc := s.acc - step), closes);
      assert script.update(e.updates) == Body([MoveSpriteCall(id, dx, dy)], false);
      assert Exec(e.host, [MoveSpriteCall(id, dx, dy)]) == MoveSprite(e.host, id, dx, dy);
      var u := Update(e, script);
      assert u.sim.host.reg.sprites[id] == sp.(position := Shifted(sp.position, 1, dx, dy));
      DrainMoves(u.sim, step, closes, script, id, dx, dy);
      var r := Drain(u.sim, step, closes, script);
      ShiftedAdd(sp.position, 1, r.sim.updates - u.sim.updates, dx, dy);
    }
  }

  lemma {:induction false} LoopMoves(s: Sim, deltas: seq<nat>, step: nat, closes: seq<bool>, script: Script,
                                     id: string, dx: real, dy: real)
    requires step > 0 && MovingScript(script, id, dx, dy) && id in s.host.reg.sprites
    ensures var r := Loop(s, deltas, step, closes, script); var sp := s.host.reg.sprites[id];
      && r.status.Running?
      && r.sim.host.reg.sprites.Keys == s.host.reg.sprites.Keys
      && r.sim.host.reg.sprites[id] == sp.(position := Shifted(sp.position, r.sim.updates - s.updates, dx, dy))
    decreases |deltas|
  {
    var sp := s.host.reg.sprites[id];
    if !s.open || deltas == [] {
      assert Shifted(sp.position, 0, dx, dy) == sp.position;
    } else {
      var s1 := s.(acc := s.acc + deltas[0]);
      DrainMoves(s1, step, closes, script, id, dx, dy);
      var d := Drain(s1, step, closes, script);
      assert script.render(d.sim.renders) == Body([ClearWindowCall, DisplayOnWindowCall], false);
      ClearDisplayKeepsRegistry(d.sim.host);
      var f := Render(d.sim, script);
      assert f.status.Running? && f.sim.host.reg == d.sim.host.reg;
      assert f == Frame(s, deltas[0], step, closes, script);
      LoopMoves(f.sim, deltas[1..], step, closes, script, id, dx, dy);
      var r := Loop(f.sim, deltas[1..], step, closes, script);
      ShiftedAdd(sp.position, d.sim.updates - s.updates, r.sim.updates - f.sim.updates, dx, dy);
    }
  }

  /**
   * A whole run of a script whose Init loads texture "t" and creates sprite "s"
   * on it, whose Update moves "s" by (1, 0) and whose Render presents the
   * window: the run never fails, and "s" ends at (u, 0) for the u Update calls
   * made, which is floor(S / timestep) for the time S of the frames rendered.
   */
  lemma RunMovesSprite(s: Sim, tex: Texture, script: Script, deltas: seq<nat>, closes: seq<bool>)
    requires s.host == EmptyHost
    requires script.top == Body([], false)
    requires script.init == Body([LoadTextureCall("t", "x.png", Some(tex)), CreateSpriteCall("s", "t")], false)
    requires MovingScript(script, "s", 1.0, 0.0)
    ensures var r := RunEngine(true, s, script, deltas, closes, TimePerFrame);
      var n := r.sim.renders - s.renders;
      && r.status.Running?
      && "s" in r.sim.host.reg.sprites
      && r.sim.host.reg.sprites["s"].position == Vec2((r.sim.updates - s.updates) as real, 0.0)
      && 0 <= n <= |deltas|
      && r.sim.updates - s.updates == Sum(deltas[..n]) / TimePerFrame
  {
    var init := [LoadTextureCall("t", "x.png", Some(tex)), CreateSpriteCall("s", "t")];
    var h1 := LoadTexture(EmptyHost, "t", "x.png", Some(tex)).host;
    assert init[1..] == [CreateSpriteCall("s", "t")];
    assert Exec(h1, [CreateSpriteCall("s", "t")]) == Exec(CreateSprite(h1, "s", "t").host, []);
    var it := Invoke(EmptyHost, script.init);
    assert it == Step(CreateSprite(h1, "s", "t").host, Pass);
    assert it.host.reg.sprites["s"] == NewSprite("t");
    var s2 := s.(host := it.host, open := true, trace := s.trace + [ScriptLoaded, InitCalled], acc := 0);
    assert RunEngine(true, s, script, deltas, closes, TimePerFrame) == Loop(s2, deltas, TimePerFrame, closes, script);
    LoopMoves(s2, deltas, TimePerFrame, closes, script, "s", 1.0, 0.0);
    UpdatesFollowTime(s2, deltas, TimePerFrame, closes, script);
  }
}
