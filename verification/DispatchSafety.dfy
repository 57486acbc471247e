/**
 The guarantees of the dispatch protocol, over every run, and exactly which outside and
 idle-branch steps break them.
 */
module DispatchSafety {
  import opened Wrappers
  import opened Dispatch
  import opened DispatchEffects
  import opened DispatchPlaces
  import opened DispatchFrames
  import opened DispatchSteps

  // ------------------------------------------------------------------
  // Which steps are safe
  // ------------------------------------------------------------------

  /** The code does not check any of these; all other steps are safe as they are. */
  predicate Disciplined(s: State, a: Action) {
    match a
    // tst_socket is read only if the dispatcher has written it
    case ByWorker(i, Take) => i < |s.workers| && s.workers[i].slot.Some?
    // the idle branch ends, and a state that is none of the known ones is reset, only if no job was
    // posted in the meantime
    case ByWorker(i, IdleDone) => i < |s.workers| && s.workers[i].slot.None?
    case ByWorker(i, Reset) => i < |s.workers| && s.workers[i].slot.None?
    // epoll_wait() reports no descriptor that a closesocket() call has erased and not yet removed
    case ByDispatcher(Fetch(events)) => forall k :: 0 <= k < |events| && events[k].Ready? ==> !Leaving(s, events[k].fd)
    // need_send() only re-arms what is armed
    case ByOutsider(NeedSend(fd)) => fd in s.connect ==> fd in s.interest && s.interest[fd].On?
    // an outside closesocket() takes a registered connection only if it is armed ...
    case ByOutsider(OutsideClose(fd)) => fd in s.connect ==> fd in s.interest && s.interest[fd].On?
    // ... and if it took none, it comes upon no registered and no open descriptor later
    case ByOutsider(OutsideStep(k)) => k < |s.outside| && (s.outside[k].sock.None? ==> EmptyCallOk(s, s.outside[k]))
    case _ => true
  }

  /** The closesocket() call that holds g at place p has closed the descriptor and is about to delete. */
  ghost predicate Freeing(s: State, p: Place) {
    match p
    case Held => s.disp.Shut? && s.disp.job.phase.Free?
    case Owned(i) => i < |s.workers| && s.workers[i].pc.Closes? && s.workers[i].pc.job.phase.Free?
    case Outside(k) => k < |s.outside| && s.outside[k].phase.Free?
    case _ => false
  }

  /** g is in m_connect, but not yet or never to be added to the epoll set. */
  ghost predicate Unanswered(s: State, g: Gen) {
    || s.disp == Added(g)
    || (s.disp.Shut? && s.disp.after.RearmListener? && s.disp.job.phase.Erase? && g < |s.sd| && s.disp.job.fd == s.sd[g])
  }

  /** What the protocol is for, while the pool is up. */
  ghost predicate Safe(s: State) {
    Down(s) ||
    // every connection is in exactly one place
    (&& Placed(s)
     // nobody dereferences end() or a null pointer
     && !s.disp.Wild? && (forall i: nat :: i < |s.workers| ==> !s.workers[i].pc.Crashed?)
     // a worker that was given a socket between two jobs is still marked running
     && (forall i: nat :: i < |s.workers| && Between(s.workers[i].pc) ==>
           s.workers[i].slot.Some? ==> s.workers[i].stat.Run?)
     // a connection loses its descriptor only to the call that is closing it
     && (forall g: Gen, p: Place :: In(s, g, p) && !Freeing(s, p) ==> Open(s, g))
     // from its EPOLL_CTL_ADD to its erase it stays in the epoll set, so that it can be re-armed
     && (forall g: Gen :: Registered(s, g) && !Unanswered(s, g) ==> Ours(s, g))
     // no closesocket() call of the pool comes upon a socket that another call has erased
     && (s.disp.Shut? && s.disp.job.phase.Erase? ==> s.disp.job.fd in s.connect)
     && (forall i: nat :: i < |s.workers| && s.workers[i].pc.Closes? && s.workers[i].pc.job.phase.Erase? ==>
           s.workers[i].pc.job.fd in s.connect))
  }

  lemma InvIsSafe(s: State)
    requires Inv(s)
    ensures Safe(s)
  {
    if !Down(s) {
      RegisteredIsOpen(s);
      forall g: Gen, p: Place | In(s, g, p) && !Freeing(s, p) ensures Open(s, g) {
        HolderHasDescriptor(s, g, p);
      }
      forall g: Gen | Registered(s, g) && !Unanswered(s, g) ensures Ours(s, g) {
        RegisteredIsWatched(s, g);
      }
      forall i: nat | i < |s.workers|
        ensures !s.workers[i].pc.Crashed?
        ensures Between(s.workers[i].pc) && s.workers[i].slot.Some? ==> s.workers[i].stat.Run?
        ensures s.workers[i].pc.Closes? && s.workers[i].pc.job.phase.Erase? ==> s.workers[i].pc.job.fd in s.connect
      {
        assert WorkerOk(s, i);
      }
    }
  }

  lemma HolderHasDescriptor(s: State, g: Gen, p: Place)
    requires Inv(s) && !Down(s) && In(s, g, p) && !Freeing(s, p)
    ensures Open(s, g)
  {
    RegisteredIsOpen(s);
    match p
    case Armed =>
    case Pending(k) =>
    case Held =>
      if s.disp.Shut? && s.disp.job.phase.Erase? { assert Registered(s, g); }
    case Owned(i) =>
      assert WorkerOk(s, i);
      if s.workers[i].pc.Closes? && s.workers[i].pc.job.phase.Erase? { assert Registered(s, g); }
    case Outside(k) => assert OutsideJobOk(s, s.outside[k]);
  }

  /** An outside closer has erased its connection. */
  lemma RegisteredIsNotOutside(s: State, g: Gen, k: nat)
    requires Inv(s) && !Down(s) && Registered(s, g)
    ensures !In(s, g, Outside(k))
  {
    if k < |s.outside| {
      assert OutsideJobOk(s, s.outside[k]);
    }
  }

  lemma RegisteredIsWatched(s: State, g: Gen)
    requires Inv(s) && !Down(s) && Registered(s, g) && !Unanswered(s, g)
    ensures Ours(s, g)
  {
    RegisteredIsOpen(s);
    assert Live(s, g);
    var p: Place :| In(s, g, p);
    if p.Outside? { RegisteredIsNotOutside(s, g, p.k); }
    match p
    case Owned(i) => assert WorkerOk(s, i);
    case _ =>
  }

  // ------------------------------------------------------------------
  // One step
  // ------------------------------------------------------------------

  lemma InitKeeps(s: State)
    requires Init(s)
    ensures Inv(s)
  {
  }

  lemma DispatcherKeeps(s: State, a: DispatcherAction)
    requires Inv(s) && EnabledDispatcher(s, a) && Disciplined(s, ByDispatcher(a))
    ensures Inv(ApplyDispatcher(s, a))
  {
    match a
    case Fetch(events) => FetchKeeps(s, events);
    case Accept(fd) => AcceptKeeps(s, fd);
    case AcceptFails => AcceptFailsKeeps(s);
    case ListenOther(hangup) => ListenOtherKeeps(s, hangup);
    case AddSocket => AddSocketKeeps(s);
    case Answer(next) => AnswerKeeps(s, next);
    case RearmListen => RearmListenKeeps(s);
    case Dead => DeadKeeps(s);
    case ShutStep => ShutStepKeeps(s);
    case Find => FindKeeps(s);
    case Test => TestKeeps(s);
    case Lock => LockKeeps(s);
    case Mark => MarkKeeps(s);
    case Post => PostKeeps(s);
  }

  lemma WorkerKeeps(s: State, i: nat, a: WorkerAction)
    requires Inv(s) && EnabledWorker(s, i, a) && Disciplined(s, ByWorker(i, a))
    ensures Inv(ApplyWorker(s, i, a))
  {
    match a
    case Enter => EnterKeeps(s, i);
    case Wake => WakeKeeps(s, i);
    case LookRun => LookRunKeeps(s, i);
    case Take => TakeKeeps(s, i);
    case LookIdle => LookIdleKeeps(s, i);
    case BeginIdle => BeginIdleKeeps(s, i);
    case LookExit => LookExitKeeps(s, i);
    case Reset => ResetKeeps(s, i);
    case Finish(next) => FinishKeeps(s, i, next);
    case Settle => SettleKeeps(s, i);
    case CloseStep => CloseStepKeeps(s, i);
    case Stamp => StampKeeps(s, i);
    case Clear => ClearKeeps(s, i);
    case IdleDone => IdleDoneKeeps(s, i);
  }

  lemma OutsiderKeeps(s: State, a: OutsideAction)
    requires Inv(s) && EnabledOutside(s, a) && Disciplined(s, ByOutsider(a))
    ensures Inv(ApplyOutside(s, a))
  {
    match a
    case NeedSend(fd) => NeedSendKeeps(s, fd);
    case OutsideClose(fd) =>
      if fd in s.connect { OutsideCloseKeeps(s, fd); } else { EmptyCloseKeeps(s, fd); }
    case OutsideStep(k) =>
      if s.outside[k].sock.Some? { OutsideStepKeeps(s, k); } else { EmptyCallKeeps(s, k); }
  }

  lemma ShutdownKeeps(s: State, a: ShutdownAction)
    requires Inv(s) && EnabledShutdown(s, a)
    ensures Inv(ApplyShutdown(s, a))
  {
    match a
    case StopRequest => StopRequestKeeps(s);
    case StopWork => StopWorkKeeps(s);
    case StopOne => StopOneKeeps(s);
    case Join => JoinKeeps(s);
    case DestroyOne(fd) => DestroyOneKeeps(s, fd);
    case DestroyEnds => DestroyEndsKeeps(s);
  }

  lemma StepKeeps(s: State, a: Action)
    requires Inv(s) && Enabled(s, a) && Disciplined(s, a)
    ensures Inv(Apply(s, a))
  {
    match a
    case ByDispatcher(d) => DispatcherKeeps(s, d);
    case ByWorker(i, w) => WorkerKeeps(s, i, w);
    case ByOutsider(o) => OutsiderKeeps(s, o);
    case ByShutdown(x) => ShutdownKeeps(s, x);
  }

  // ------------------------------------------------------------------
  // The discipline is exact
  // ------------------------------------------------------------------

  /** A report of a descriptor that is being closed is pending while someone still has the connection. */
  lemma FetchBreaks(s: State, events: seq<Event>, k: nat)
    requires Inv(s) && CanFetch(s, events) && k < |events| && events[k].Ready? && Leaving(s, events[k].fd)
    ensures !Safe(DoFetch(s, events))
  {
    var t := DoFetch(s, events);
    var fd, g := events[k].fd, events[k].gen;
    assert In(t, g, Pending(k));
    if i: nat :| i < |s.workers| && s.workers[i].pc.Closes? && Leaves(s.workers[i].pc.job, fd) {
      assert WorkerOk(s, i);
      assert In(t, g, Owned(i));
    } else {
      var j: nat :| j < |s.outside| && Leaves(s.outside[j], fd);
      assert OutsideJobOk(s, s.outside[j]);
      assert In(t, g, Outside(j));
    }
  }

  /** Re-arming a descriptor that is pending, dispatched or being closed puts it in two places. */
  lemma NeedSendBreaks(s: State, fd: Fd)
    requires Inv(s) && CanNeedSend(s, fd) && fd in s.connect && s.interest[fd].Off?
    ensures !Safe(DoNeedSend(s, fd))
  {
    var t := DoNeedSend(s, fd);
    var g := s.connect[fd];
    assert Registered(s, g) && Live(s, g);
    assert In(t, g, Armed);
    var p: Place :| In(s, g, p);
    assert p != Armed;
    assert In(t, g, p);
  }

  /** Erasing a registered connection that is not armed strands whoever holds it. */
  lemma OutsideCloseBreaks(s: State, fd: Fd)
    requires Inv(s) && CanOutsideClose(s, fd) && fd in s.connect
    requires !(fd in s.interest && s.interest[fd].On?)
    ensures !Safe(DoOutsideClose(s, fd))
  {
    var t := DoOutsideClose(s, fd);
    var g := s.connect[fd];
    assert Registered(s, g) && Live(s, g);
    var n := |s.outside|;
    assert t.outside[n] == Closing(fd, Detach, Some(g));
    assert In(t, g, Outside(n));
    var p: Place :| In(s, g, p);
    if p.Outside? { RegisteredIsNotOutside(s, g, p.k); }
    match p
    case Pending(k) => assert In(t, g, p);
    case Held =>
      if !(s.disp.Shut? && s.disp.job.phase.Erase?) { assert In(t, g, p); }
    case Owned(i) =>
      if !(s.workers[i].pc.Closes? && s.workers[i].pc.job.phase.Erase?) { assert In(t, g, p); }
    case Outside(_) =>
    case Armed =>
  }

  /** A call without a socket takes the descriptor, or its entry of the epoll set, from the connection behind it. */
  lemma EmptyCloseBreaks(s: State, k: nat)
    requires Inv(s) && CanOutsideStep(s, k) && !Disciplined(s, ByOutsider(OutsideStep(k)))
    ensures !Safe(DoOutsideStep(s, k))
  {
    if s.outside[k].phase.Detach? {
      var t := DoOutsideStep(s, k);
      var g := s.connect[s.outside[k].fd];
      assert Registered(t, g) && !Unanswered(t, g) && !Ours(t, g);
    } else {
      EmptyCloseTakes(s, k);
    }
  }

  lemma EmptyCloseTakes(s: State, k: nat)
    requires Inv(s) && CanOutsideStep(s, k) && s.outside[k].sock.None?
    requires s.outside[k].phase.Close? && s.outside[k].fd in s.kernel
    ensures !Safe(DoOutsideStep(s, k))
  {
    var t := DoOutsideStep(s, k);
    var fd := s.outside[k].fd;
    var g := s.kernel[fd];
    assert Open(s, g) && Live(s, g);
    var p: Place :| In(s, g, p);
    assert !Open(t, g);
    assert p != Outside(k);
    if p.Armed? {
      assert Live(t, g);
      forall q: Place ensures !In(t, g, q) {
        if q != Armed && In(t, g, q) {
          EmptyCloseMoves(s, t, k, g, q);
        }
      }
    } else {
      assert In(t, g, p);
      assert !Freeing(t, p) by { NotFreeing(s, g, p); }
    }
  }

  lemma EmptyCloseMoves(s: State, t: State, k: nat, g: Gen, q: Place)
    requires k < |s.outside| == |t.outside| && t.outside[k].sock.None? && !t.outside[k].phase.Erase?
    requires t == s.(kernel := t.kernel, interest := t.interest, closed := t.closed,
                     outside := s.outside[k := t.outside[k]])
    requires q != Armed && In(t, g, q)
    ensures In(s, g, q)
  {
  }

  /** The holder of an open connection is not about to delete it. */
  lemma NotFreeing(s: State, g: Gen, p: Place)
    requires Inv(s) && !Down(s) && In(s, g, p) && Open(s, g)
    ensures !Freeing(s, p)
  {
    match p
    case Owned(i) => assert WorkerOk(s, i);
    case Outside(k) => assert OutsideJobOk(s, s.outside[k]);
    case _ =>
  }

  /** Ending the idle branch over a posted job marks the worker idle again: the job is dropped. */
  lemma IdleDoneBreaks(s: State, i: nat)
    requires Inv(s) && CanIdleDone(s, i) && s.workers[i].slot.Some?
    ensures !Safe(DoIdleDone(s, i))
  {
    var t := DoIdleDone(s, i);
    assert t.workers[i].pc.LoopTop? && t.workers[i].slot.Some?;
  }

  /** A worker that read tst_run between the dispatcher's two writes finds no socket. */
  lemma TakeBreaks(s: State, i: nat)
    requires Inv(s) && CanTake(s, i) && s.workers[i].slot.None?
    ensures s.disp.Marked? && s.disp.i == i && !Safe(DoTake(s, i))
  {
    assert WorkerOk(s, i);
    assert DoTake(s, i).workers[i].pc.Crashed?;
  }

  /** A job that was posted between the worker's two tests is dropped. */
  lemma ResetBreaks(s: State, i: nat)
    requires Inv(s) && CanReset(s, i) && s.workers[i].slot.Some?
    ensures !Safe(DoReset(s, i))
  {
    var t := DoReset(s, i);
    assert t.workers[i].pc.LoopTop? && t.workers[i].slot.Some?;
  }

  /** A step from a good state leads to a safe one exactly when it is disciplined. */
  lemma DisciplineIsExact(s: State, a: Action)
    requires Inv(s) && Enabled(s, a)
    ensures Safe(Apply(s, a)) <==> Disciplined(s, a)
  {
    if Disciplined(s, a) {
      StepKeeps(s, a);
      InvIsSafe(Apply(s, a));
    } else {
      match a
      case ByDispatcher(Fetch(events)) =>
        var k: nat :| k < |events| && events[k].Ready? && Leaving(s, events[k].fd);
        FetchBreaks(s, events, k);
      case ByWorker(i, Take) => TakeBreaks(s, i);
      case ByWorker(i, IdleDone) => IdleDoneBreaks(s, i);
      case ByWorker(i, Reset) => ResetBreaks(s, i);
      case ByOutsider(NeedSend(fd)) => NeedSendBreaks(s, fd);
      case ByOutsider(OutsideClose(fd)) => OutsideCloseBreaks(s, fd);
      case ByOutsider(OutsideStep(k)) => EmptyCloseBreaks(s, k);
    }
  }

  // ------------------------------------------------------------------
  // Runs
  // ------------------------------------------------------------------

  ghost predicate Step(s: State, a: Action, t: State, strict: bool) {
    Enabled(s, a) && t == Apply(s, a) && (strict ==> Disciplined(s, a))
  }

  /** states[k] is the state before actions[k]; a strict run is disciplined throughout. */
  ghost predicate RunOf(states: seq<State>, actions: seq<Action>, strict: bool) {
    && |states| == |actions| + 1
    && Init(states[0])
    && forall k :: 0 <= k < |actions| ==> Step(states[k], actions[k], states[k + 1], strict)
  }

  ghost predicate Reachable(s: State, strict: bool) {
    exists states: seq<State>, actions: seq<Action> ::
      RunOf(states, actions, strict) && states[|actions|] == s
  }

  lemma {:induction false} RunKeeps(states: seq<State>, actions: seq<Action>, k: nat)
    requires RunOf(states, actions, true) && k <= |actions|
    ensures Inv(states[k])
  {
    if k == 0 {
      InitKeeps(states[0]);
    } else {
      RunKeeps(states, actions, k - 1);
      assert Step(states[k - 1], actions[k - 1], states[k], true);
      StepKeeps(states[k - 1], actions[k - 1]);
    }
  }

  lemma ReachableKeeps(s: State)
    requires Reachable(s, true)
    ensures Inv(s)
  {
    var states: seq<State>, actions: seq<Action> :| RunOf(states, actions, true) && states[|actions|] == s;
    RunKeeps(states, actions, |actions|);
  }

  lemma ReachStart(s: State, strict: bool)
    requires Init(s)
    ensures Reachable(s, strict)
  {
    assert RunOf([s], [], strict) && [s][0] == s;
  }

  lemma ReachStep(s: State, a: Action, strict: bool)
    requires Reachable(s, strict) && Enabled(s, a) && (strict ==> Disciplined(s, a))
    ensures Reachable(Apply(s, a), strict)
  {
    var states: seq<State>, actions: seq<Action> :| RunOf(states, actions, strict) && states[|actions|] == s;
    var states', actions' := states + [Apply(s, a)], actions + [a];
    forall k | 0 <= k < |actions'| ensures Step(states'[k], actions'[k], states'[k + 1], strict) {
      if k < |actions| { assert Step(states[k], actions[k], states[k + 1], strict); }
    }
    assert RunOf(states', actions', strict) && states'[|actions'|] == Apply(s, a);
  }

  // ------------------------------------------------------------------
  // Main results
  // ------------------------------------------------------------------

  /** In every reachable state of a pool that is up, a connection that was accepted and not yet
      deleted is in exactly one place. */
  lemma OnePlaceEach(s: State, g: Gen)
    requires Reachable(s, true) && !Down(s) && Live(s, g)
    ensures exists p: Place :: In(s, g, p) && forall q: Place :: In(s, g, q) ==> q == p
  {
    ReachableKeeps(s);
    var p: Place :| In(s, g, p);
    assert forall q: Place :: In(s, g, q) ==> q == p;
  }

  /** A pending event still means the connection epoll reported, although descriptors are reused:
      the look-up before a dispatch finds it, and the "not in the map" and "garbage left" branches
      are never taken. */
  lemma EventsNameTheirConnection(s: State)
    requires Reachable(s, true)
    ensures forall k :: 0 <= k < PendingCount(s) && s.batch[k].Ready? && !Down(s) ==>
              var fd, g := s.batch[k].fd, s.batch[k].gen;
              fd in s.connect && s.connect[fd] == g && fd in s.kernel && s.kernel[fd] == g
    ensures Enabled(s, ByDispatcher(Find)) ==> Apply(s, ByDispatcher(Find)).disp == Scan(0, Last(s).gen)
    ensures s.disp.Accepted? ==> s.disp.sock < |s.sd| && s.sd[s.disp.sock] !in s.connect
    ensures !s.disp.Wild? && !(s.disp.Shut? && s.disp.after.AddFresh?)
    ensures forall i :: 0 <= i < |s.workers| ==> !s.workers[i].pc.Crashed?
  {
    ReachableKeeps(s);
    RegisteredIsOpen(s);
    if !Down(s) {
      forall i: nat | i < |s.workers| ensures !s.workers[i].pc.Crashed? { assert WorkerOk(s, i); }
      if Enabled(s, ByDispatcher(Find)) { assert Ours(s, s.batch[|s.batch| - 1].gen); }
    }
  }

  /** A job that was posted to worker i and not yet started. */
  ghost predicate JobWaits(s: State, i: nat, g: Gen) {
    && i < |s.workers| && s.workers[i].slot == Some(g)
    && ((Between(s.workers[i].pc) && s.workers[i].stat.Run?) || s.workers[i].pc.Idling?)
  }

  /** Nobody wipes a posted job: it waits until its worker starts on exactly that socket, or the
      worker ends because the pool is being stopped. */
  lemma PostedJobStays(s: State, a: Action, i: nat, g: Gen)
    requires Inv(s) && Enabled(s, a) && Disciplined(s, a) && JobWaits(s, i, g)
    ensures var t := Apply(s, a);
            || JobWaits(t, i, g)
            || (a == ByWorker(i, Take) && t.workers[i].pc == Working(g))
            || (a == ByWorker(i, Enter) && !s.workRun && t.workers[i] == Worker(Exited, Some(g), Over))
  {
    assert Down(s) || WorkerOk(s, i);
    match a
    case ByDispatcher(d) => DispatcherLeavesJob(s, d, i, g);
    case ByWorker(j, w) => WorkerLeavesJob(s, j, w, i, g);
    case ByOutsider(o) => OutsiderLeavesJob(s, o, i, g);
    case ByShutdown(x) => ShutdownLeavesJob(s, x, i, g);
  }

  lemma OutsiderLeavesJob(s: State, a: OutsideAction, i: nat, g: Gen)
    requires EnabledOutside(s, a) && JobWaits(s, i, g)
    ensures JobWaits(ApplyOutside(s, a), i, g)
  {
    match a
    case NeedSend(fd) =>
    case OutsideClose(fd) =>
    case OutsideStep(k) => StageLeaves(s, s.outside[k]);
  }

  lemma ShutdownLeavesJob(s: State, a: ShutdownAction, i: nat, g: Gen)
    requires EnabledShutdown(s, a) && JobWaits(s, i, g) && s.workers[i].stat.Run?
    ensures JobWaits(ApplyShutdown(s, a), i, g)
  {
    hide ApplyShutdown;
    ShutdownLeavesRunning(s, a, i);
  }

  lemma DispatcherLeavesJob(s: State, a: DispatcherAction, i: nat, g: Gen)
    requires DispatcherOk(s) && EnabledDispatcher(s, a) && JobWaits(s, i, g)
    ensures JobWaits(ApplyDispatcher(s, a), i, g)
  {
    hide HeldEvent, JobOk, Registered, Open, CloseStage;
    if !a.Mark? && !a.Post? { DispatcherLeavesWorkers(s, a); }
  }

  lemma WorkerLeavesJob(s: State, j: nat, a: WorkerAction, i: nat, g: Gen)
    requires Inv(s) && EnabledWorker(s, j, a) && Disciplined(s, ByWorker(j, a)) && JobWaits(s, i, g)
    ensures var t := ApplyWorker(s, j, a);
            || JobWaits(t, i, g)
            || (i == j && a == Take && t.workers[i].pc == Working(g))
            || (i == j && a == Enter && !s.workRun && t.workers[i] == Worker(Exited, Some(g), Over))
  {
    if i != j {
      WorkerLeavesOthers(s, j, a, i);
    }
  }

  lemma PostedJobSurvives(s: State, a: Action, t: State, i: nat, g: Gen)
    requires Inv(s) && Step(s, a, t, true) && JobWaits(s, i, g)
    requires a != ByWorker(i, Take) && (a == ByWorker(i, Enter) ==> s.workRun)
    ensures JobWaits(t, i, g)
  {
    hide Inv, Apply, JobWaits, Enabled, Disciplined;
    PostedJobStays(s, a, i, g);
  }

  /** The same over a run: until worker i takes it, or ends because the pool is being stopped, the
      posted job is still there. */
  lemma {:induction false} PostedJobIsNeverWiped(states: seq<State>, actions: seq<Action>, from: nat, to: nat, i: nat, g: Gen)
    requires RunOf(states, actions, true) && from <= to <= |actions|
    requires JobWaits(states[from], i, g)
    requires forall k :: from <= k < to ==>
               actions[k] != ByWorker(i, Take) && (actions[k] == ByWorker(i, Enter) ==> states[k].workRun)
    ensures JobWaits(states[to], i, g)
  {
    hide Inv, JobWaits, Step;
    if from < to {
      PostedJobIsNeverWiped(states, actions, from, to - 1, i, g);
      RunKeeps(states, actions, to - 1);
      assert Step(states[to - 1], actions[to - 1], states[to], true);
      PostedJobSurvives(states[to - 1], actions[to - 1], states[to], i, g);
    }
  }

  // ------------------------------------------------------------------
  // Who touches a socket
  // ------------------------------------------------------------------

  /** The TST_SOCKET the step dereferences or acts on, and the place of the thread doing it. */
  function Touches(s: State, a: Action): Option<(Gen, Place)>
  {
    match a
    case ByDispatcher(AddSocket) => if s.disp.Accepted? then Some((s.disp.sock, Held)) else None
    case ByDispatcher(Answer(_)) => if s.disp.Added? then Some((s.disp.sock, Held)) else None
    case ByDispatcher(Mark) => if s.disp.Holding? then Some((s.disp.sock, Held)) else None
    case ByDispatcher(ShutStep) =>
      if s.disp.Shut? && !s.disp.job.phase.Erase? && s.disp.job.sock.Some? then Some((s.disp.job.sock.value, Held)) else None
    case ByWorker(i, Take) =>
      if i < |s.workers| && s.workers[i].slot.Some? then Some((s.workers[i].slot.value, Owned(i))) else None
    case ByWorker(i, Finish(_)) =>
      if i < |s.workers| && s.workers[i].pc.Working? then Some((s.workers[i].pc.sock, Owned(i))) else None
    case ByWorker(i, Settle) =>
      if i < |s.workers| && s.workers[i].pc.Ended? then Some((s.workers[i].pc.sock, Owned(i))) else None
    case ByWorker(i, CloseStep) =>
      if i < |s.workers| && s.workers[i].pc.Closes? then Some((s.workers[i].pc.sock, Owned(i))) else None
    case ByOutsider(OutsideStep(k)) =>
      if k < |s.outside| && s.outside[k].sock.Some? then Some((s.outside[k].sock.value, Outside(k))) else None
    case _ => None
  }

  /** A thread touches a socket only while that socket lives and is that thread's alone: in
      particular, after the re-arm the old worker never touches it again, whoever has it next. */
  lemma TouchesOnlyItsOwn(s: State, a: Action)
    requires Reachable(s, true) && Enabled(s, a) && Touches(s, a).Some?
    ensures var (g, p) := Touches(s, a).value;
            Live(s, g) && In(s, g, p) && forall q: Place :: In(s, g, q) ==> q == p
  {
    ReachableKeeps(s);
    var (g, p) := Touches(s, a).value;
    if p.Owned? { assert WorkerOk(s, p.i); }
    assert In(s, g, p);
  }

  // ------------------------------------------------------------------
  // Every connection is closed and deleted exactly once
  // ------------------------------------------------------------------

  lemma NeverTwice(s: State)
    requires Reachable(s, true)
    ensures forall g: Gen :: s.closed[g] <= 1 && s.freed[g] <= s.closed[g]
    ensures s.disp.Finished? ==>
              && s.kernel == map[]
              && forall g: Gen :: s.closed[g] == s.freed[g] == (if g < |s.sd| then 1 else 0)
  {
    ReachableKeeps(s);
    if s.disp.Finished? {
      forall g: Gen | g < |s.sd| ensures s.freed[g] == 1 {
        if Live(s, g) && Registered(s, g) { assert false; }
      }
      assert forall fd :: fd in s.kernel ==> Open(s, s.kernel[fd]);
    }
  }

  // ------------------------------------------------------------------
  // A pool that stopped by itself is never taken down
  // ------------------------------------------------------------------

  /** The dispatcher ended after a hang-up of the listener, and its workers with it. */
  ghost predicate Abandoned(s: State) {
    s.disp.Stranded? && forall i :: 0 <= i < |s.workers| ==> s.workers[i].pc.Over?
  }

  lemma OutsiderStrands(s: State, o: OutsideAction)
    requires OutsideOk(s) && EnabledOutside(s, o) && Abandoned(s)
    ensures var t := ApplyOutside(s, o);
            && Abandoned(t)
            && (forall fd :: fd in s.connect && o != OutsideClose(fd) ==> fd in t.connect && t.connect[fd] == s.connect[fd])
  {
    hide JobOk, CloseStage;
    match o
    case NeedSend(fd) =>
    case OutsideClose(fd) =>
      StageLeaves(s, Closing(fd, Erase, None));
      ErasesOne(s, fd);
    case OutsideStep(k) =>
      assert OutsideJobOk(s, s.outside[k]);
      StageLeaves(s, s.outside[k]);
      OnlyErasing(s, s.outside[k]);
  }

  /** Then destroy() does nothing, nor does any other step but an outside closesocket() take a
      connection out of m_connect: there is no way to the state NeverTwice speaks of. */
  lemma HangupStrands(s: State, a: Action)
    requires OutsideOk(s) && Enabled(s, a) && (Abandoned(s) || (a == ByShutdown(Join) && !s.asked))
    ensures var t := Apply(s, a);
            && Abandoned(t)
            && (forall fd :: fd in s.connect && a != ByOutsider(OutsideClose(fd)) ==>
                  fd in t.connect && t.connect[fd] == s.connect[fd])
            && (a == ByShutdown(StopRequest) && !s.mainRun ==> t == s)
  {
    hide OutsideOk, ApplyWorker, ApplyDispatcher, ApplyOutside;
    match a
    case ByDispatcher(_) =>
    case ByWorker(_, _) =>
    case ByOutsider(o) => OutsiderStrands(s, o);
    case ByShutdown(_) =>
  }

  /** Before step k destroy() was called while m_main_run was still set. */
  ghost predicate DestroyInTime(states: seq<State>, actions: seq<Action>, k: nat)
    requires k <= |actions| < |states|
  {
    exists j :: 0 <= j < k && actions[j] == ByShutdown(StopRequest) && states[j].mainRun
  }

  lemma {:induction false} AskedInTime(states: seq<State>, actions: seq<Action>, k: nat, strict: bool)
    requires RunOf(states, actions, strict) && k <= |actions|
    ensures states[k].asked <==> DestroyInTime(states, actions, k)
  {
    hide Apply, Enabled, Disciplined;
    if k > 0 {
      AskedInTime(states, actions, k - 1, strict);
      assert Step(states[k - 1], actions[k - 1], states[k], strict);
      AskedBy(states[k - 1], actions[k - 1]);
    }
  }

  /** Over every run, disciplined or not: once the threads have ended, m_connect is walked if and only
      if destroy() was called before the dispatcher stopped by itself; otherwise it never is. */
  lemma WalkedExactlyWhen(states: seq<State>, actions: seq<Action>, k: nat, strict: bool)
    requires RunOf(states, actions, strict) && k < |actions| && actions[k] == ByShutdown(Join)
    ensures states[k + 1].disp.Destroying? <==> DestroyInTime(states, actions, k)
    ensures Abandoned(states[k + 1]) <==> !DestroyInTime(states, actions, k)
  {
    AskedInTime(states, actions, k, strict);
    assert Step(states[k], actions[k], states[k + 1], strict);
  }
}
