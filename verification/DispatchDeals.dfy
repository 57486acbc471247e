/**
 What the dispatcher does with an event: the whole state after a connection has been accepted or
 refused, an event has been given to the first idle worker or to none, and a socket has been closed.
 */
module DispatchDeals {
  import opened Wrappers
  import opened Dispatch
  import opened DispatchPlaces
  import opened DispatchFrames
  import opened DispatchJobs

  // ------------------------------------------------------------------
  // An event for a connection
  // ------------------------------------------------------------------

  function Tests(n: nat): seq<DispatcherAction> { seq(n, _ => Test) }

  /** No worker in front of i is idle. */
  predicate Busy(s: State, i: nat) {
    i <= |s.workers| && forall j :: 0 <= j < i ==> !s.workers[j].stat.Suspend?
  }

  lemma {:induction false} Scans(s: State, g: Gen, i: nat)
    requires CanFind(s) && Last(s).fd in s.connect && s.connect[Last(s).fd] == g && Busy(s, i)
    ensures RunFrom(s, Dispatched([Find] + Tests(i))) == Some(s.(disp := Scan(i, g)))
  {
    hide RunFrom, Dispatched;
    if i == 0 {
      Nothing(s, 0);
      DispatcherMore(s, [], s, Find, s.(disp := Scan(0, g)), [Find] + Tests(0));
    } else {
      Scans(s, g, i - 1);
      DispatcherMore(s, [Find] + Tests(i - 1), s.(disp := Scan(i - 1, g)), Test, s.(disp := Scan(i, g)), [Find] + Tests(i));
    }
  }

  /** The event at the end of the batch goes to the first idle worker, with the socket it was reported for. */
  lemma GoesToFirstIdle(s: State, i: nat)
    requires Inv(s) && CanFind(s) && Busy(s, i) && i < |s.workers| && s.workers[i].stat.Suspend?
    requires !WorkerLocks(s.workers[i])
    ensures var g := Last(s).gen;
      RunFrom(s, Dispatched([Find] + Tests(i + 1) + [Lock, Mark, Post]))
        == Some(SetWorker(s, i, s.workers[i].(stat := Stat.Run, slot := Some(g))).(batch := DropLast(s)))
  {
    hide RunFrom, Dispatched, Inv;
    Reported(s);
    var g := Last(s).gen;
    Scans(s, g, i);
    var t0 := [Find] + Tests(i + 1);
    DispatcherMore(s, [Find] + Tests(i), s.(disp := Scan(i, g)), Test, s.(disp := Claim(i, g)), t0);
    Posts(s, i, g, t0);
  }

  lemma Posts(s: State, i: nat, g: Gen, ds: seq<DispatcherAction>)
    requires s.disp.Top? && s.batch != [] && i < |s.workers| && !WorkerLocks(s.workers[i])
    requires RunFrom(s, Dispatched(ds)) == Some(s.(disp := Claim(i, g)))
    ensures RunFrom(s, Dispatched(ds + [Lock, Mark, Post]))
      == Some(SetWorker(s, i, s.workers[i].(stat := Stat.Run, slot := Some(g))).(batch := DropLast(s)))
  {
    hide RunFrom, Dispatched;
    var x, y := s.workers[i].(stat := Stat.Run), s.workers[i].(stat := Stat.Run, slot := Some(g));
    Twice(s, i, x, y);
    var u1, u2 := s.(disp := Holding(i, g)), SetWorker(s, i, x).(disp := Marked(i, g));
    var u3 := SetWorker(s, i, y).(batch := DropLast(s));
    DispatcherMore(s, ds, s.(disp := Claim(i, g)), Lock, u1, ds + [Lock]);
    DispatcherMore(s, ds + [Lock], u1, Mark, u2, ds + [Lock, Mark]);
    DispatcherMore(s, ds + [Lock, Mark], u2, Post, u3, ds + [Lock, Mark, Post]);
  }

  /** With no idle worker the event stays where it is, and is tried again. */
  lemma StaysWithoutIdle(s: State)
    requires Inv(s) && CanFind(s) && Busy(s, |s.workers|)
    ensures RunFrom(s, Dispatched([Find] + Tests(|s.workers| + 1))) == Some(s)
  {
    hide RunFrom, Dispatched, Inv;
    Reported(s);
    var n, g := |s.workers|, Last(s).gen;
    Scans(s, g, n);
    DispatcherMore(s, [Find] + Tests(n), s.(disp := Scan(n, g)), Test, s, [Find] + Tests(n + 1));
  }

  lemma Reported(s: State)
    requires Inv(s) && CanFind(s)
    ensures var fd, g := Last(s).fd, Last(s).gen;
      && fd in s.connect && s.connect[fd] == g && fd in s.kernel && s.kernel[fd] == g
      && s.closed[g] == s.freed[g] == 0 && g < |s.sd| && s.sd[g] == fd
  {
    RegisteredIsOpen(s);
    assert Ours(s, s.batch[|s.batch| - 1].gen);
  }

  // ------------------------------------------------------------------
  // closesocket() run by the dispatcher
  // ------------------------------------------------------------------

  /** Before stage p of a call of closesocket(fd) for connection g. */
  function Shutting(s: State, fd: Fd, g: Gen, p: Phase, after: After): State {
    Partly(s, fd, g, p).(disp := Shut(Closing(fd, p, if p.Erase? then None else Some(g)), after))
  }

  const SHUT: seq<DispatcherAction> := [ShutStep, ShutStep, ShutStep, ShutStep]

  lemma ShutTo(s: State, fd: Fd, g: Gen, p: Phase, after: After)
    requires fd in s.connect && s.connect[fd] == g && fd in s.kernel && s.kernel[fd] == g && !p.Done? && !p.Free?
    requires s.batch != [] && !after.AddFresh?
    ensures var u := Shutting(s, fd, g, p, after);
      CanShutStep(u) && DoShutStep(u) == Shutting(s, fd, g, NextPhase(p), after)
  {
    hide CloseStage;
    StageIs(s, Shutting(s, fd, g, p, after), fd, g, p);
  }

  function Ended(s: State, after: After): State
    requires s.batch != [] && !after.AddFresh?
  {
    if after.NextEvent? then s.(batch := DropLast(s), disp := Top) else s.(disp := Rearm)
  }

  lemma ShutEnd(s: State, fd: Fd, g: Gen, after: After)
    requires fd in s.connect && s.connect[fd] == g && fd in s.kernel && s.kernel[fd] == g
    requires s.batch != [] && !after.AddFresh?
    ensures ClosedOff(s, fd, g).batch == s.batch
    ensures var u := Shutting(s, fd, g, Free, after);
      CanShutStep(u) && DoShutStep(u) == Ended(ClosedOff(s, fd, g), after)
  {
    hide CloseStage;
    StageIs(s, Shutting(s, fd, g, Free, after), fd, g, Free);
  }

  lemma ShutsDown(s0: State, ds: seq<DispatcherAction>, s: State, fd: Fd, g: Gen, after: After)
    requires fd in s.connect && s.connect[fd] == g && fd in s.kernel && s.kernel[fd] == g
    requires s.batch != [] && !after.AddFresh?
    requires RunFrom(s0, Dispatched(ds)) == Some(Shutting(s, fd, g, Erase, after))
    ensures RunFrom(s0, Dispatched(ds + SHUT)) == Some(Ended(ClosedOff(s, fd, g), after))
  {
    hide RunFrom, Dispatched, Shutting, DoShutStep, CanShutStep, Ended, ClosedOff;
    ShutTo(s, fd, g, Erase, after);
    ShutTo(s, fd, g, Detach, after);
    ShutTo(s, fd, g, Close, after);
    ShutEnd(s, fd, g, after);
    var d1, d2, d3 := ds + [ShutStep], ds + [ShutStep, ShutStep], ds + [ShutStep, ShutStep, ShutStep];
    DispatcherMore(s0, ds, Shutting(s, fd, g, Erase, after), ShutStep, Shutting(s, fd, g, Detach, after), d1);
    DispatcherMore(s0, d1, Shutting(s, fd, g, Detach, after), ShutStep, Shutting(s, fd, g, Close, after), d2);
    DispatcherMore(s0, d2, Shutting(s, fd, g, Close, after), ShutStep, Shutting(s, fd, g, Free, after), d3);
    DispatcherMore(s0, d3, Shutting(s, fd, g, Free, after), ShutStep, Ended(ClosedOff(s, fd, g), after), ds + SHUT);
  }

  /** A dead connection is closed and deleted, and its event is done with. */
  lemma DeadIsClosed(s: State)
    requires Inv(s) && CanDead(s)
    ensures RunFrom(s, Dispatched([Dead] + SHUT)) == Some(ClosedOff(s, Last(s).fd, Last(s).gen).(batch := DropLast(s)))
  {
    hide RunFrom, Dispatched, Inv;
    Reported(s);
    var fd, g := Last(s).fd, Last(s).gen;
    Nothing(s, 0);
    DispatcherMore(s, [], s, Dead, Shutting(s, fd, g, Erase, NextEvent), [Dead]);
    ShutsDown(s, [Dead], s, fd, g, NextEvent);
  }

  // ------------------------------------------------------------------
  // A new connection
  // ------------------------------------------------------------------

  /** The new connection is in the kernel and in m_connect. */
  function Entered(s: State, fd: Fd): State {
    var g := |s.sd|;
    s.(sd := s.sd + [fd], kernel := s.kernel[fd := g], connect := s.connect[fd := g])
  }

  lemma FreshNumber(s: State, fd: Fd)
    requires Inv(s) && fd !in s.kernel
    ensures fd !in s.connect && fd !in s.interest
  {
  }

  lemma Enters(s: State, fd: Fd)
    requires Inv(s) && CanAccept(s, fd)
    ensures fd !in s.connect && fd !in s.interest
    ensures RunFrom(s, Dispatched([Accept(fd), AddSocket])) == Some(Entered(s, fd).(disp := Added(|s.sd|)))
  {
    hide RunFrom, Dispatched, Inv;
    FreshNumber(s, fd);
    Nothing(s, 0);
    var u, v := DoAccept(s, fd), Entered(s, fd).(disp := Added(|s.sd|));
    DispatcherMore(s, [], s, Accept(fd), u, [Accept(fd)]);
    DispatcherMore(s, [Accept(fd)], u, AddSocket, v, [Accept(fd), AddSocket]);
  }

  /** A client that m_fconnected accepts is armed, for output exactly if the answer was tst_send, and the
      listener is armed again. */
  lemma AcceptedIsArmed(s: State, fd: Fd, next: Stat)
    requires Inv(s) && CanAccept(s, fd) && (next.Suspend? || next.Run? || next.Send?)
    ensures RunFrom(s, Dispatched([Accept(fd), AddSocket, Answer(next), RearmListen]))
      == Some(Entered(s, fd).(interest := s.interest[fd := On(next.Send?)], listenArmed := true, batch := DropLast(s)))
  {
    hide RunFrom, Dispatched, Inv;
    Enters(s, fd);
    var u := Entered(s, fd).(disp := Added(|s.sd|));
    var v := Entered(s, fd).(interest := s.interest[fd := On(next.Send?)], disp := Rearm);
    var w := Entered(s, fd).(interest := s.interest[fd := On(next.Send?)], listenArmed := true, batch := DropLast(s));
    var d2, d3 := [Accept(fd), AddSocket], [Accept(fd), AddSocket, Answer(next)];
    DispatcherMore(s, d2, u, Answer(next), v, d3);
    DispatcherMore(s, d3, v, RearmListen, w, d3 + [RearmListen]);
    assert d3 + [RearmListen] == [Accept(fd), AddSocket, Answer(next), RearmListen];
  }

  /** A client it refuses is closed and deleted at once, and never armed; the listener is armed again. */
  lemma RefusedIsClosed(s: State, fd: Fd, next: Stat)
    requires Inv(s) && CanAccept(s, fd) && !(next.Suspend? || next.Run? || next.Send?)
    ensures var g := |s.sd|;
      RunFrom(s, Dispatched([Accept(fd), AddSocket, Answer(next)] + SHUT + [RearmListen]))
        == Some(s.(sd := s.sd + [fd], listenArmed := true, batch := DropLast(s),
                   closed := s.closed + multiset{g}, freed := s.freed + multiset{g}))
  {
    hide RunFrom, Dispatched, Inv;
    Enters(s, fd);
    var g, e := |s.sd|, Entered(s, fd);
    var d2, d3 := [Accept(fd), AddSocket], [Accept(fd), AddSocket, Answer(next)];
    DispatcherMore(s, d2, e.(disp := Added(g)), Answer(next), Shutting(e, fd, g, Erase, RearmListener), d3);
    ShutsDown(s, d3, e, fd, g, RearmListener);
    Leaves0(s, fd);
    var u := Ended(ClosedOff(e, fd, g), RearmListener);
    DispatcherMore(s, d3 + SHUT, u, RearmListen, DoRearmListen(u), d3 + SHUT + [RearmListen]);
  }

  lemma Leaves0(s: State, fd: Fd)
    requires fd !in s.kernel && fd !in s.connect && fd !in s.interest
    ensures ClosedOff(Entered(s, fd), fd, |s.sd|)
      == s.(sd := s.sd + [fd], closed := s.closed + multiset{|s.sd|}, freed := s.freed + multiset{|s.sd|})
  {
    assert s.connect[fd := |s.sd|] - {fd} == s.connect;
    assert s.kernel[fd := |s.sd|] - {fd} == s.kernel;
    assert s.interest - {fd} == s.interest;
  }

  // ------------------------------------------------------------------
  // Reports, outside calls and the end
  // ------------------------------------------------------------------

  /** Exactly the reported descriptors are disarmed, and the batch is what was reported. */
  lemma ReportDisarms(s: State, events: seq<Event>)
    requires Inv(s) && CanFetch(s, events)
    ensures var t := DoFetch(s, events);
      && t == s.(batch := events, interest := t.interest, listenArmed := t.listenArmed)
      && t.interest.Keys == s.interest.Keys
      && (forall fd :: fd in s.interest ==>
            t.interest[fd] == if exists k :: 0 <= k < |events| && events[k].Ready? && events[k].fd == fd then Off else s.interest[fd])
      && (t.listenArmed <==> s.listenArmed && forall k :: 0 <= k < |events| ==> !events[k].Listen?)
  {
    var t := DoFetch(s, events);
    forall fd | fd in s.interest
      ensures t.interest[fd] == if exists k :: 0 <= k < |events| && events[k].Ready? && events[k].fd == fd then Off else s.interest[fd]
    {
      if k :| 0 <= k < |events| && events[k].Ready? && events[k].fd == fd {
        assert events[k] == Ready(fd, s.kernel[fd]);
      }
    }
    assert forall k :: 0 <= k < |events| && events[k].Listen? ==> events[k] in events;
  }

  /** need_send() asks for output on that descriptor, and changes nothing else. */
  lemma NeedSendAsks(s: State, fd: Fd)
    requires CanNeedSend(s, fd)
    ensures var t := DoNeedSend(s, fd);
      && t == s.(interest := t.interest) && t.interest.Keys == s.interest.Keys && t.interest[fd] == On(true)
      && forall f :: f in s.interest && f != fd ==> t.interest[f] == s.interest[f]
  {
    assert s.interest[fd := On(true)].Keys == s.interest.Keys;
  }

  /** An outside closesocket() of an armed connection closes and deletes it. */
  lemma OutsideCloses(s: State, fd: Fd)
    requires Inv(s) && CanOutsideClose(s, fd) && fd in s.connect
    ensures var g, k := s.connect[fd], |s.outside|;
      RunFrom(s, [ByOutsider(OutsideClose(fd)), ByOutsider(OutsideStep(k)), ByOutsider(OutsideStep(k)), ByOutsider(OutsideStep(k))])
        == Some(ClosedOff(s, fd, g).(outside := s.outside + [Closing(fd, Done, Some(g))]))
  {
    hide RunFrom, Inv, CloseStage;
    InTables(s, fd);
    var g, k := s.connect[fd], |s.outside|;
    var a, b := ByOutsider(OutsideClose(fd)), ByOutsider(OutsideStep(k));
    OutsideStage(s, fd, g, Detach);
    OutsideStage(s, fd, g, Close);
    OutsideStage(s, fd, g, Free);
    StageIs(s, s, fd, g, Erase);
    RunOne(s, a);
    RunMore(s, [a], With(s, fd, g, Detach), b);
    RunMore(s, [a] + [b], With(s, fd, g, Close), b);
    RunMore(s, [a] + [b] + [b], With(s, fd, g, Free), b);
    assert [a] + [b] + [b] + [b] == [a, b, b, b];
  }

  lemma InTables(s: State, fd: Fd)
    requires Inv(s) && fd in s.connect
    ensures fd in s.kernel && s.kernel[fd] == s.connect[fd]
  {
  }

  function With(s: State, fd: Fd, g: Gen, p: Phase): State {
    Partly(s, fd, g, p).(outside := s.outside + [Closing(fd, p, Some(g))])
  }

  lemma OutsideStage(s: State, fd: Fd, g: Gen, p: Phase)
    requires fd in s.connect && s.connect[fd] == g && fd in s.kernel && s.kernel[fd] == g && !p.Done? && !p.Erase?
    ensures CanOutsideStep(With(s, fd, g, p), |s.outside|)
    ensures DoOutsideStep(With(s, fd, g, p), |s.outside|) == With(s, fd, g, NextPhase(p))
  {
    hide CloseStage, Partly;
    var u := With(s, fd, g, p);
    PartlyKeeps(s, fd, g, p);
    PartlyKeeps(s, fd, g, NextPhase(p));
    StageIs(s, u, fd, g, p);
    LastSet(s.outside, Closing(fd, p, Some(g)), Closing(fd, NextPhase(p), Some(g)));
    WithNext(s, fd, g, p);
  }

  lemma LastSet(x: seq<Closing>, a: Closing, b: Closing)
    ensures (x + [a])[|x| := b] == x + [b]
  {
  }

  lemma WithNext(s: State, fd: Fd, g: Gen, p: Phase)
    ensures Partly(s, fd, g, NextPhase(p)).(outside := s.outside + [Closing(fd, NextPhase(p), Some(g))]) == With(s, fd, g, NextPhase(p))
    ensures With(s, fd, g, p).disp == s.disp && With(s, fd, g, p).workers == s.workers
  {
  }

  /** Told to stop, exactly the idle workers are told to exit. */
  function Told(s: State, n: nat): seq<Worker>
    requires n <= |s.workers|
  {
    seq(|s.workers|, j requires 0 <= j < |s.workers| =>
      if j < n && s.workers[j].stat.Suspend? then s.workers[j].(stat := Exit) else s.workers[j])
  }

  function StopOnes(n: nat): seq<Action> { seq(n, _ => ByShutdown(StopOne)) }

  lemma {:induction false} StopTellsIdle(s: State, n: nat)
    requires CanStopWork(s) && n <= |s.workers| && forall j :: 0 <= j < n ==> !WorkerLocks(s.workers[j])
    ensures RunFrom(s, [ByShutdown(StopWork)] + StopOnes(n)) == Some(s.(workRun := false, workers := Told(s, n), disp := Stopping(n)))
  {
    hide RunFrom;
    var a := [ByShutdown(StopWork)];
    if n == 0 {
      RunOne(s, ByShutdown(StopWork));
      assert a + StopOnes(0) == a && Told(s, 0) == s.workers;
    } else {
      StopTellsIdle(s, n - 1);
      var u := s.(workRun := false, workers := Told(s, n - 1), disp := Stopping(n - 1));
      RunMore(s, a + StopOnes(n - 1), u, ByShutdown(StopOne));
      assert a + StopOnes(n - 1) + [ByShutdown(StopOne)] == a + StopOnes(n);
      TellsOne(s, n, u);
    }
  }

  lemma TellsOne(s: State, n: nat, u: State)
    requires 0 < n <= |s.workers| && u == s.(workRun := false, workers := Told(s, n - 1), disp := Stopping(n - 1))
    requires !WorkerLocks(s.workers[n - 1])
    ensures CanStopOne(u) && DoStopOne(u) == s.(workRun := false, workers := Told(s, n), disp := Stopping(n))
  {
    hide Told;
    ToldMore(s, n);
  }

  lemma ToldMore(s: State, n: nat)
    requires 0 < n <= |s.workers|
    ensures var w, x := Told(s, n - 1), s.workers[n - 1];
      && |w| == |s.workers| && w[n - 1] == x
      && Told(s, n) == if x.stat.Suspend? then w[n - 1 := x.(stat := Exit)] else w
  {
  }
}
