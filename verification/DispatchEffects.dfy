/** Which parts of the state a step leaves alone. */
module DispatchEffects {
  import opened Wrappers
  import opened Dispatch

  lemma StageLeaves(s: State, job: Closing)
    requires !job.phase.Done?
    ensures var u := CloseStage(s, job).0;
            && u.workers == s.workers && u.outside == s.outside && u.batch == s.batch && u.disp == s.disp
            && u.mainRun == s.mainRun && u.workRun == s.workRun && u.asked == s.asked
  {
    match job.phase
    case Erase =>
    case Detach =>
    case Close =>
    case Free =>
  }

  lemma OnlyErasing(s: State, job: Closing)
    requires !job.phase.Erase? && !job.phase.Done?
    ensures CloseStage(s, job).0.connect == s.connect
  {
    if job.phase.Detach? {
      assert CloseStage(s, job).0 == s.(interest := s.interest - {job.fd});
    } else if job.phase.Free? {
      assert CloseStage(s, job).0 == s.(freed := CloseStage(s, job).0.freed);
    } else {
      assert CloseStage(s, job).0.connect == s.connect;
    }
  }

  lemma ErasesOne(s: State, fd: Fd)
    ensures CloseStage(s, Closing(fd, Erase, None)).0.connect == s.connect - {fd}
  {
  }

  lemma ShutLeavesWorkers(s: State)
    requires CanShutStep(s)
    ensures DoShutStep(s).workers == s.workers
  {
    hide CloseStage;
    StageLeaves(s, s.disp.job);
    match s.disp.after
    case NextEvent =>
    case RearmListener =>
    case AddFresh(_) =>
  }

  lemma DispatcherLeavesWorkers(s: State, a: DispatcherAction)
    requires EnabledDispatcher(s, a) && !a.Mark? && !a.Post?
    ensures ApplyDispatcher(s, a).workers == s.workers
  {
    hide DoShutStep, FetchOk;
    if a.ShutStep? { ShutLeavesWorkers(s); }
  }

  lemma CloseLeavesOthers(s: State, j: nat, i: nat)
    requires CanCloseStep(s, j) && i != j && i < |s.workers|
    ensures var t := DoCloseStep(s, j); i < |t.workers| && t.workers[i] == s.workers[i]
  {
    hide CloseStage;
    StageLeaves(s, s.workers[j].pc.job);
  }

  lemma SettleLeavesOthers(s: State, j: nat, i: nat)
    requires CanSettle(s, j) && i != j && i < |s.workers|
    ensures var t := DoSettle(s, j); i < |t.workers| && t.workers[i] == s.workers[i]
  {
    if s.workers[j].pc.next.Disconnect? {
      assert |DoSettle(s, j).workers| == |s.workers|;
    } else {
      assert |DoSettle(s, j).workers| == |s.workers|;
    }
  }

  lemma WorkerLeavesOthers(s: State, j: nat, a: WorkerAction, i: nat)
    requires EnabledWorker(s, j, a) && i != j && i < |s.workers|
    ensures var t := ApplyWorker(s, j, a); i < |t.workers| && t.workers[i] == s.workers[i]
  {
    hide DoCloseStep, DoSettle;
    match a
    case CloseStep => CloseLeavesOthers(s, j, i);
    case Settle => SettleLeavesOthers(s, j, i);
    case _ =>
  }

  lemma StopOneLeaves(s: State, i: nat)
    requires CanStopOne(s) && i < |s.workers| && s.workers[i].stat.Run?
    ensures var t := DoStopOne(s); i < |t.workers| && t.workers[i] == s.workers[i]
  {
    var k := s.disp.i;
    if k < |s.workers| && s.workers[k].stat.Suspend? { assert k != i; }
  }

  lemma DestroyLeaves(s: State, fd: Fd)
    requires CanDestroyOne(s, fd)
    ensures DoDestroyOne(s, fd).workers == s.workers
  {
  }

  /** Shutting down touches no worker that is marked running. */
  lemma ShutdownLeavesRunning(s: State, a: ShutdownAction, i: nat)
    requires EnabledShutdown(s, a) && i < |s.workers| && s.workers[i].stat.Run?
    ensures var t := ApplyShutdown(s, a); i < |t.workers| && t.workers[i] == s.workers[i]
  {
    hide DoStopOne, DoDestroyOne;
    match a
    case StopOne => StopOneLeaves(s, i);
    case DestroyOne(fd) => DestroyLeaves(s, fd);
    case _ =>
  }

  // ------------------------------------------------------------------
  // Who sets `asked`
  // ------------------------------------------------------------------

  lemma ShutKeepsAsked(s: State)
    requires CanShutStep(s)
    ensures DoShutStep(s).asked == s.asked
  {
    hide CloseStage;
    StageLeaves(s, s.disp.job);
    match s.disp.after
    case NextEvent =>
    case RearmListener =>
    case AddFresh(_) =>
  }

  lemma FetchKeepsAsked(s: State, events: seq<Event>)
    requires CanFetch(s, events)
    ensures DoFetch(s, events).asked == s.asked
  {
  }

  lemma DispatcherKeepsAsked(s: State, a: DispatcherAction)
    requires EnabledDispatcher(s, a)
    ensures ApplyDispatcher(s, a).asked == s.asked
  {
    hide DoShutStep, DoFetch, FetchOk;
    match a
    case ShutStep => ShutKeepsAsked(s);
    case Fetch(events) => FetchKeepsAsked(s, events);
    case _ =>
  }

  lemma CloseKeepsAsked(s: State, i: nat)
    requires CanCloseStep(s, i)
    ensures DoCloseStep(s, i).asked == s.asked
  {
    hide CloseStage;
    StageLeaves(s, s.workers[i].pc.job);
  }

  lemma WorkerKeepsAsked(s: State, i: nat, a: WorkerAction)
    requires EnabledWorker(s, i, a)
    ensures ApplyWorker(s, i, a).asked == s.asked
  {
    hide DoCloseStep;
    if a.CloseStep? { CloseKeepsAsked(s, i); }
  }

  lemma OutsiderKeepsAsked(s: State, a: OutsideAction)
    requires EnabledOutside(s, a)
    ensures ApplyOutside(s, a).asked == s.asked
  {
    hide CloseStage;
    match a
    case NeedSend(fd) =>
    case OutsideClose(fd) => StageLeaves(s, Closing(fd, Erase, None));
    case OutsideStep(k) => StageLeaves(s, s.outside[k]);
  }

  lemma ShutdownAsks(s: State, a: ShutdownAction)
    requires EnabledShutdown(s, a)
    ensures ApplyShutdown(s, a).asked == (s.asked || (a.StopRequest? && s.mainRun))
  {
    match a
    case StopRequest =>
    case StopWork =>
    case StopOne =>
    case Join =>
    case DestroyOne(fd) =>
    case DestroyEnds =>
  }

  /** A call of destroy() that gets past its test of m_main_run, and nothing else. */
  lemma AskedBy(s: State, a: Action)
    requires Enabled(s, a)
    ensures Apply(s, a).asked == (s.asked || (a == ByShutdown(StopRequest) && s.mainRun))
  {
    hide ApplyDispatcher, ApplyWorker, ApplyOutside, ApplyShutdown;
    match a
    case ByDispatcher(d) => DispatcherKeepsAsked(s, d);
    case ByWorker(i, w) => WorkerKeepsAsked(s, i, w);
    case ByOutsider(o) => OutsiderKeepsAsked(s, o);
    case ByShutdown(x) => ShutdownAsks(s, x);
  }
}
