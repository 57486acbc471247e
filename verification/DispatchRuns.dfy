/** Runs that break the guarantees: each begins in the initial state and takes enabled steps only. */
module DispatchRuns {
  import opened Wrappers
  import opened Dispatch
  import opened DispatchPlaces
  import opened DispatchFrames
  import opened DispatchSteps
  import opened DispatchSafety

  // ------------------------------------------------------------------
  // The idle branch can lose a connection
  // ------------------------------------------------------------------

  /** A pool of one worker, before anything happens. */
  function OneWorker(): State {
    State([], map[], map[], map[], true, [], Top, [Worker(Suspend, None, LoopTop)], [], true, true,
          false, multiset{}, multiset{})
  }

  /** The dispatcher accepts a connection on descriptor fd and arms it. */
  lemma Connects(s: State, fd: Fd, strict: bool) returns (t: State)
    requires Reachable(s, strict) && s.disp.Top? && s.mainRun && s.batch == [] && s.listenArmed
    requires fd > 0 && fd !in s.kernel && fd !in s.connect && |s.workers| > 0
    ensures Reachable(t, strict)
    ensures t == s.(sd := s.sd + [fd], kernel := s.kernel[fd := |s.sd|], connect := s.connect[fd := |s.sd|],
                    interest := s.interest[fd := On(false)])
  {
    hide Reachable;
    var s1 := ReachDispatcher(s, Fetch([Listen(true)]), strict);
    assert forall f :: f in s1.interest ==> Ready(f, 0) !in s1.batch;
    assert s1.interest == s.interest;
    var s2 := ReachDispatcher(s1, Accept(fd), strict);
    var s3 := ReachDispatcher(s2, AddSocket, strict);
    var s4 := ReachDispatcher(s3, Answer(Suspend), strict);
    t := ReachDispatcher(s4, RearmListen, strict);
  }

  lemma ReachDispatcher(s: State, a: DispatcherAction, strict: bool) returns (t: State)
    requires Reachable(s, strict) && EnabledDispatcher(s, a) && (strict ==> Disciplined(s, ByDispatcher(a)))
    ensures Reachable(t, strict) && t == ApplyDispatcher(s, a)
  {
    ReachStep(s, ByDispatcher(a), strict);
    t := ApplyDispatcher(s, a);
  }

  lemma ReachWorker(s: State, i: nat, a: WorkerAction) returns (t: State)
    requires Reachable(s, false) && EnabledWorker(s, i, a)
    ensures Reachable(t, false) && t == ApplyWorker(s, i, a)
  {
    ReachStep(s, ByWorker(i, a), false);
    t := ApplyWorker(s, i, a);
  }

  /** Epoll reports the last connection, and the dispatcher sees worker 0 idle. */
  lemma SeesIdle(s: State, g: Gen) returns (t: State)
    requires Reachable(s, false) && s.disp.Top? && s.mainRun && s.batch == [] && g < |s.sd|
    requires s.sd[g] in s.interest && s.interest[s.sd[g]].On? && s.sd[g] in s.kernel && s.kernel[s.sd[g]] == g
    requires s.sd[g] in s.connect && s.connect[s.sd[g]] == g
    requires |s.workers| == 1 && s.workers[0].stat.Suspend?
    ensures Reachable(t, false)
    ensures t == s.(batch := [Ready(s.sd[g], g)], interest := s.interest[s.sd[g] := Off], disp := Claim(0, g))
  {
    var s1 := ReachDispatcher(s, Fetch([Ready(s.sd[g], g)]), false);
    assert s1.interest == s.interest[s.sd[g] := Off];
    var s2 := ReachDispatcher(s1, Find, false);
    t := ReachDispatcher(s2, Test, false);
  }

  /** Worker 0 times out and finds nothing to do. */
  lemma Idles(s: State) returns (t: State)
    requires Reachable(s, false) && |s.workers| == 1 && s.workers[0] == Worker(Suspend, None, LoopTop) && s.workRun
    requires !DispatcherLocks(s.disp, 0)
    ensures Reachable(t, false) && t == s.(workers := [Worker(Suspend, None, SawIdle)])
  {
    hide Reachable;
    var s1 := ReachWorker(s, 0, Enter);
    var s2 := ReachWorker(s1, 0, Wake);
    var s3 := ReachWorker(s2, 0, LookRun);
    t := ReachWorker(s3, 0, LookIdle);
  }

  lemma Assigns(s: State) returns (t: State)
    requires Reachable(s, false) && s.disp.Claim? && s.disp.i == 0 && |s.workers| == 1
    requires !WorkerLocks(s.workers[0]) && s.batch != []
    ensures Reachable(t, false)
    ensures t == s.(workers := [s.workers[0].(stat := Run, slot := Some(s.disp.sock))], batch := DropLast(s), disp := Top)
  {
    var s1 := ReachDispatcher(s, Lock, false);
    var s2 := ReachDispatcher(s1, Mark, false);
    t := ReachDispatcher(s2, Post, false);
  }

  /** Two connections, on descriptors 5 and 6, armed as `first` and `second` say. */
  function TwoConnections(first: Interest, second: Interest): State {
    OneWorker().(sd := [5, 6], kernel := map[5 := 0, 6 := 1], connect := map[5 := 0, 6 := 1],
                 interest := map[5 := first, 6 := second])
  }

  lemma TwoConnect()
    ensures Reachable(TwoConnections(On(false), On(false)), false)
  {
    var s := OneWorker();
    ReachStart(s, false);
    var s1 := Connects(s, 5, false);
    var s2 := Connects(s1, 6, false);
    assert s2 == TwoConnections(On(false), On(false));
  }

  /** The dispatcher sees worker 0 idle, the worker times out into its idle branch, the dispatcher
      posts connection 0, and the idle branch ends. */
  lemma IdleBranchDropsJob()
    ensures Reachable(TwoConnections(Off, On(false)).(workers := [Worker(Suspend, Some(0), LoopTop)]), false)
  {
    hide Reachable;
    TwoConnect();
    var s := TwoConnections(On(false), On(false));
    var s1 := SeesIdle(s, 0);
    var s2 := Idles(s1);
    var s3 := ReachWorker(s2, 0, BeginIdle);
    assert s3 == TwoConnections(Off, On(false)).(workers := [Worker(Run, None, Idling)], batch := [Ready(5, 0)], disp := Claim(0, 0));
    var s4 := Assigns(s3);
    var s5 := ReachWorker(s4, 0, IdleDone);
    assert s5 == TwoConnections(Off, On(false)).(workers := [Worker(Suspend, Some(0), LoopTop)]);
  }

  /** The next event then overwrites tst_socket: connection 0 is registered but in no place, so it is
      never served and never re-armed. */
  lemma IdleRaceLosesConnection() returns (t: State)
    ensures Reachable(t, false) && !Down(t) && Registered(t, 0) && Live(t, 0)
    ensures forall p: Place :: !In(t, 0, p)
  {
    IdleBranchDropsJob();
    var s := TwoConnections(Off, On(false)).(workers := [Worker(Suspend, Some(0), LoopTop)]);
    var s1 := SeesIdle(s, 1);
    t := Assigns(s1);
  }

  /** The listener hangs up with a connection open: dispatcher and worker end, and the connection stays
      in m_connect, open, while destroy() does nothing. */
  lemma HangupRun() returns (t: State)
    ensures Reachable(t, true) && Abandoned(t)
    ensures Live(t, 0) && Registered(t, 0) && Open(t, 0) && t.closed[0] == 0
    ensures Apply(t, ByShutdown(StopRequest)) == t
  {
    hide Reachable;
    ReachStart(OneWorker(), true);
    var s0 := Connects(OneWorker(), 5, true);
    var s1 := ReachDispatcher(s0, Fetch([Listen(false)]), true);
    var s2 := ReachDispatcher(s1, ListenOther(true), true);
    var s3 := ReachShutdown(s2, StopWork);
    ReachStep(s3, ByWorker(0, Enter), true);
    var s4 := DoEnter(s3, 0);
    var s5 := ReachShutdown(s4, StopOne);
    var s6 := ReachShutdown(s5, StopOne);
    t := ReachShutdown(s6, Join);
  }

  lemma ReachShutdown(s: State, a: ShutdownAction) returns (t: State)
    requires Reachable(s, true) && EnabledShutdown(s, a)
    ensures Reachable(t, true) && t == ApplyShutdown(s, a)
  {
    ReachStep(s, ByShutdown(a), true);
    t := ApplyShutdown(s, a);
  }

  /** A disciplined run is a run. */
  lemma StrictIsRun(s: State)
    requires Reachable(s, true)
    ensures Reachable(s, false)
  {
    var states: seq<State>, actions: seq<Action> :| RunOf(states, actions, true) && states[|actions|] == s;
    forall k | 0 <= k < |actions| ensures Step(states[k], actions[k], states[k + 1], false) {
      assert Step(states[k], actions[k], states[k + 1], true);
    }
    assert RunOf(states, actions, false);
  }

  /** The dispatcher writes tst_run, the worker, which has just timed out, reads it, and reads
      tst_socket before the dispatcher has written that. */
  lemma NullSocketRun() returns (t: State)
    ensures Reachable(t, false) && t.workers == [Worker(Run, None, Crashed)]
  {
    hide Reachable;
    TwoConnect();
    var s1 := SeesIdle(TwoConnections(On(false), On(false)), 0);
    var s2 := ReachWorker(s1, 0, Enter);
    var s3 := ReachWorker(s2, 0, Wake);
    var s4 := ReachDispatcher(s3, Lock, false);
    var s5 := ReachDispatcher(s4, Mark, false);
    var s6 := ReachWorker(s5, 0, LookRun);
    t := ReachWorker(s6, 0, Take);
  }

  /** The worker, which has just timed out, does not see tst_run, the dispatcher posts connection 0,
      the worker does not see tst_suspend either, and resets its state. */
  lemma ResetDropsJob() returns (t: State)
    ensures Reachable(t, false) && t.workers == [Worker(Suspend, Some(0), LoopTop)] && t.batch == []
  {
    hide Reachable;
    TwoConnect();
    var s1 := SeesIdle(TwoConnections(On(false), On(false)), 0);
    var s2 := ReachWorker(s1, 0, Enter);
    var s3 := ReachWorker(s2, 0, Wake);
    var s4 := ReachWorker(s3, 0, LookRun);
    var s5 := Assigns(s4);
    var s6 := ReachWorker(s5, 0, LookIdle);
    var s7 := ReachWorker(s6, 0, LookExit);
    t := ReachWorker(s7, 0, Reset);
  }

  /** Worker 0 starts on the job it was given. */
  lemma Starts(s: State) returns (t: State)
    requires Reachable(s, false) && |s.workers| == 1 && s.workers[0].pc.LoopTop? && s.workRun && s.disp.Top?
    requires s.workers[0].stat.Run? && s.workers[0].slot.Some?
    ensures Reachable(t, false) && t == s.(workers := [Worker(Run, s.workers[0].slot, Working(s.workers[0].slot.value))])
  {
    hide Reachable;
    var s1 := ReachWorker(s, 0, Enter);
    var s2 := ReachWorker(s1, 0, Wake);
    var s3 := ReachWorker(s2, 0, LookRun);
    t := ReachWorker(s3, 0, Take);
  }

  // ------------------------------------------------------------------
  // need_send() and closesocket() called from outside
  // ------------------------------------------------------------------

  lemma ReachOutside(s: State, a: OutsideAction) returns (t: State)
    requires Reachable(s, false) && EnabledOutside(s, a)
    ensures Reachable(t, false) && t == ApplyOutside(s, a)
  {
    ReachStep(s, ByOutsider(a), false);
    t := ApplyOutside(s, a);
  }

  /** need_send() for a connection that is being dispatched: it is armed and in the dispatcher's hands. */
  lemma NeedSendRun() returns (t: State)
    ensures Reachable(t, false) && In(t, 0, Held) && In(t, 0, Armed)
  {
    TwoConnect();
    var s1 := SeesIdle(TwoConnections(On(false), On(false)), 0);
    t := ReachOutside(s1, NeedSend(5));
  }

  /** closesocket() from outside for a connection that is being dispatched: the worker gets a
      TST_SOCKET that has been deleted. */
  lemma OutsideCloseRun() returns (t: State)
    ensures Reachable(t, false) && t.workers == [Worker(Run, Some(0), Working(0))] && 0 in t.freed
  {
    hide Reachable;
    TwoConnect();
    var s1 := SeesIdle(TwoConnections(On(false), On(false)), 0);
    var s2 := ReachOutside(s1, OutsideClose(5));
    assert In(s2, 0, Held) && In(s2, 0, Outside(0));
    var s3 := Assigns(s2);
    var s5 := Starts(s3);
    var s6 := ReachOutside(s5, OutsideStep(0));
    var s7 := ReachOutside(s6, OutsideStep(0));
    t := ReachOutside(s7, OutsideStep(0));
  }

  /** An outside closesocket() is allowed to take an armed connection.  If epoll reports the
      descriptor before it is removed, the look-up fails and the code dereferences end(). */
  lemma ArmedCloseRun() returns (s: State, t: State)
    ensures Reachable(s, true) && Leaving(s, 5) && Enabled(s, ByDispatcher(Fetch([Ready(5, 0)])))
    ensures Reachable(t, false) && t == Apply(Apply(s, ByDispatcher(Fetch([Ready(5, 0)]))), ByDispatcher(Find))
    ensures t.disp.Wild?
  {
    var s0 := OneWorker();
    ReachStart(s0, true);
    var s1 := Connects(s0, 5, true);
    ReachStep(s1, ByOutsider(OutsideClose(5)), true);
    s := ApplyOutside(s1, OutsideClose(5));
    StrictIsRun(s);
    assert Leaves(s.outside[0], 5);
    var s3 := ReachDispatcher(s, Fetch([Ready(5, 0)]), false);
    t := ReachDispatcher(s3, Find, false);
  }

  /** closesocket() for a number without a socket: by the time it closes the descriptor, the number
      has been given to a new connection, which stays in m_connect without one. */
  lemma ReusedCloseRun() returns (t: State)
    ensures Reachable(t, false) && Registered(t, 0) && Live(t, 0) && !Open(t, 0)
  {
    ReachStart(OneWorker(), false);
    var s1 := ReachOutside(OneWorker(), OutsideClose(5));
    var s2 := ReachOutside(s1, OutsideStep(0));
    var s3 := Connects(s2, 5, false);
    t := ReachOutside(s3, OutsideStep(0));
  }

  /** The same with the EPOLL_CTL_DEL: the new connection is open but in no place. */
  lemma ReusedDetachRun() returns (t: State)
    ensures Reachable(t, false) && Registered(t, 0) && Live(t, 0) && Open(t, 0)
    ensures forall p: Place :: !In(t, 0, p)
  {
    ReachStart(OneWorker(), false);
    var s1 := ReachOutside(OneWorker(), OutsideClose(5));
    var s2 := Connects(s1, 5, false);
    t := ReachOutside(s2, OutsideStep(0));
  }
}
