/** Every step keeps the invariant. */
module DispatchSteps {
  import opened Wrappers
  import opened Dispatch
  import opened DispatchEffects
  import opened DispatchPlaces
  import opened DispatchFrames

  // ------------------------------------------------------------------
  // Dispatcher
  // ------------------------------------------------------------------

  /** Between batches a watched descriptor is registered, or a closesocket() call has just erased it. */
  lemma WatchedIsRegistered(s: State, fd: Fd)
    requires Inv(s) && !Down(s) && s.disp.Top? && s.batch == [] && fd in s.interest && !Leaving(s, fd)
    ensures fd in s.connect && s.connect[fd] == s.kernel[fd]
  {
    var g := s.kernel[fd];
    assert Open(s, g) && Live(s, g);
    forall i: nat | i < |s.workers|
      ensures WorkerOk(s, i) && !(s.workers[i].pc.Closes? && Leaves(s.workers[i].pc.job, fd))
    {
    }
    forall k: nat | k < |s.outside| ensures OutsideJobOk(s, s.outside[k]) && !Leaves(s.outside[k], fd) {
    }
    var p: Place :| In(s, g, p);
  }

  /** Reported descriptors go from the epoll set to the batch; nothing else moves. */
  lemma FetchPlaces(s: State, events: seq<Event>)
    requires Placed(s) && Tables(s) && CanFetch(s, events)
    requires forall k :: 0 <= k < |events| && events[k].Ready? ==> Ours(s, events[k].gen)
    ensures Placed(DoFetch(s, events))
  {
    hide Counts;
    var t := DoFetch(s, events);
    forall g: Gen | Live(t, g) ensures exists p: Place :: In(t, g, p) {
      assert Live(s, g);
      var p: Place :| In(s, g, p);
      if p.Armed? && Ready(s.sd[g], g) in events {
        var k :| 0 <= k < |events| && events[k] == Ready(s.sd[g], g);
        assert In(t, g, Pending(k));
      } else {
        assert In(t, g, p);
      }
    }
    forall g: Gen, p: Place | In(t, g, p) ensures In(s, g, if p.Pending? then Armed else p) {
    }
  }

  lemma FetchKeeps(s: State, events: seq<Event>)
    requires Inv(s) && CanFetch(s, events)
    requires forall k :: 0 <= k < |events| && events[k].Ready? ==> !Leaving(s, events[k].fd)
    ensures Inv(DoFetch(s, events))
  {
    var t := DoFetch(s, events);
    forall k | 0 <= k < |events| && events[k].Ready? ensures Ours(s, events[k].gen) {
      WatchedIsRegistered(s, events[k].fd);
    }
    FetchPlaces(s, events);
    WorkersFrame(s, t, |s.sd|, |s.workers|);
    OutsideFrame(s, t, |s.sd|);
  }

  lemma AcceptTables(s: State, fd: Fd)
    requires Tables(s) && Counts(s) && CanAccept(s, fd)
    ensures Tables(DoAccept(s, fd)) && Counts(DoAccept(s, fd)) && Elsewhere(s, DoAccept(s, fd), |s.sd|)
  {
  }

  lemma AcceptPlaces(s: State, fd: Fd)
    requires Inv(s) && CanAccept(s, fd)
    ensures Placed(DoAccept(s, fd))
  {
    var t := DoAccept(s, fd);
    var n := |s.sd|;
    AcceptTables(s, fd);
    CloserFrame(s, t, n);
    forall p: Place ensures In(t, n, p) <==> p == Held { assert !In(s, n, p); }
    forall g: Gen, p: Place | g != n ensures In(t, g, p) <==> In(s, g, p) {
    }
    PlacedAdd(s, t, n, Held);
  }

  lemma AcceptKeeps(s: State, fd: Fd)
    requires Inv(s) && CanAccept(s, fd)
    ensures Inv(DoAccept(s, fd))
  {
    var t := DoAccept(s, fd);
    AcceptPlaces(s, fd);
    AcceptTables(s, fd);
    WorkersFrame(s, t, |s.sd|, |s.workers|);
    OutsideFrame(s, t, |s.sd|);
  }

  lemma AcceptFailsKeeps(s: State)
    requires Inv(s) && CanAcceptFails(s)
    ensures Inv(DoAcceptFails(s))
  {
    DispatcherFrame(s, DoAcceptFails(s));
    QuietPlaces(s, DoAcceptFails(s));
  }

  lemma ListenOtherKeeps(s: State, hangup: bool)
    requires Inv(s) && CanListenOther(s, hangup)
    ensures Inv(DoListenOther(s, hangup))
  {
    DispatcherFrame(s, DoListenOther(s, hangup));
    QuietPlaces(s, DoListenOther(s, hangup));
  }

  lemma RearmListenKeeps(s: State)
    requires Inv(s) && CanRearmListen(s)
    ensures Inv(DoRearmListen(s))
  {
    DispatcherFrame(s, DoRearmListen(s));
    QuietPlaces(s, DoRearmListen(s));
  }

  lemma DeadKeeps(s: State)
    requires Inv(s) && CanDead(s)
    ensures Inv(DoDead(s))
  {
    DispatcherFrame(s, DoDead(s));
    TakesUp(s, DoDead(s));
  }

  lemma FindKeeps(s: State)
    requires Inv(s) && CanFind(s)
    ensures Inv(DoFind(s))
  {
    DispatcherFrame(s, DoFind(s));
    TakesUp(s, DoFind(s));
  }

  lemma TestKeeps(s: State)
    requires Inv(s) && CanTest(s)
    ensures Inv(DoTest(s))
  {
    if s.disp.i >= |s.workers| {
      ScanEnds(s, DoTest(s));
    } else {
      SeenIdle(s, s.disp.i);
      ScanGoesOn(s, DoTest(s));
    }
  }

  lemma ScanEnds(s: State, t: State)
    requires Inv(s) && s.disp.Scan? && t == s.(disp := Top)
    ensures Inv(t)
  {
    DispatcherFrame(s, t);
    PutsBack(s, t);
  }

  lemma ScanGoesOn(s: State, t: State)
    requires Inv(s) && s.disp.Scan? && t == s.(disp := t.disp) && (t.disp.Scan? || t.disp.Claim?)
    requires t.disp.sock == s.disp.sock
    requires t.disp.Claim? ==> t.disp.i < |s.workers| && Claimable(s.workers[t.disp.i])
    ensures Inv(t)
  {
    DispatcherFrame(s, t);
    QuietPlaces(s, t);
  }

  /** The unlocked test may see a finishing worker between its last two writes, but no other busy one. */
  lemma SeenIdle(s: State, i: nat)
    requires WorkersOk(s) && i < |s.workers|
    ensures s.workers[i].stat.Suspend? ==> Claimable(s.workers[i])
  {
    assert WorkerOk(s, i);
  }

  lemma LockKeeps(s: State)
    requires Inv(s) && CanLock(s)
    ensures Inv(DoLock(s))
  {
    DispatcherFrame(s, DoLock(s));
    QuietPlaces(s, DoLock(s));
  }

  lemma StopWorkKeeps(s: State)
    requires Inv(s) && CanStopWork(s)
    ensures Inv(DoStopWork(s))
  {
    DispatcherFrame(s, DoStopWork(s));
    QuietPlaces(s, DoStopWork(s));
  }

  lemma StopOneKeeps(s: State)
    requires Inv(s) && CanStopOne(s)
    ensures Inv(DoStopOne(s))
  {
    hide Registered, Open, Live, Ours;
    var i := s.disp.i;
    var mid := s.(disp := if i >= |s.workers| then Joining else Stopping(i + 1));
    DispatcherFrame(s, mid);
    QuietPlaces(s, mid);
    if i < |s.workers| {
      MarksExit(mid, DoStopOne(s), i);
    }
  }

  lemma MarksExit(s: State, t: State, i: nat)
    requires Inv(s) && s.disp.Stopping? && i < |s.workers| && !WorkerLocks(s.workers[i])
    requires t == if s.workers[i].stat.Suspend? then SetWorker(s, i, s.workers[i].(stat := Exit)) else s
    ensures Inv(t)
  {
    if t != s {
      assert WorkerOk(s, i);
      WorkerFrame(s, t, i);
      WorkerKeepsPlaces(s, t, i);
    }
  }

  lemma MarkKeeps(s: State)
    requires Inv(s) && CanMark(s)
    ensures Inv(DoMark(s))
  {
    hide Ours;
    var t := DoMark(s);
    var mid := s.(disp := t.disp);
    QuietPlaces(s, mid);
    WorkerKeepsPlaces(mid, t, s.disp.i);
    TablesFrame(s, t);
    forall j: nat | j < |t.workers| ensures WorkerOk(t, j) {
      assert WorkerOk(s, j);
    }
  }

  lemma PostPlaces(s: State)
    requires Placed(s) && DispatcherOk(s) && CanPost(s)
    ensures Placed(DoPost(s))
  {
    var t := DoPost(s);
    var i, m := s.disp.i, s.disp.sock;
    assert In(s, m, Held);
    forall g: Gen, p: Place | g != m ensures In(t, g, p) <==> In(s, g, p) {
    }
    PlacedMove(s, t, m, Held, Owned(i));
  }

  lemma PostKeeps(s: State)
    requires Inv(s) && CanPost(s)
    ensures Inv(DoPost(s))
  {
    var t := DoPost(s);
    PostPlaces(s);
    TablesFrame(s, t);
    assert WorkerOk(s, s.disp.i);
    forall j: nat | j < |t.workers| ensures WorkerOk(t, j) {
      assert WorkerOk(s, j);
    }
  }

  lemma AddSocketTables(s: State)
    requires Inv(s) && CanAddSocket(s)
    ensures Tables(DoAddSocket(s)) && Counts(DoAddSocket(s)) && Elsewhere(s, DoAddSocket(s), s.disp.sock)
  {
    assert In(s, s.disp.sock, Held);
  }

  lemma AddSocketPlaces(s: State)
    requires Inv(s) && CanAddSocket(s)
    ensures Placed(DoAddSocket(s))
  {
    var t := DoAddSocket(s);
    var n := s.disp.sock;
    assert In(s, n, Held);
    AddSocketTables(s);
    CloserFrame(s, t, n);
    forall g: Gen, p: Place ensures In(t, g, p) <==> In(s, g, p) {
      if g == n && p != Held {
        assert !In(s, n, p);
        assert p.Owned? && p.i < |s.workers| ==> WorkerOk(s, p.i);
      }
    }
    PlacedSame(s, t);
  }

  lemma AddSocketKeeps(s: State)
    requires Inv(s) && CanAddSocket(s)
    ensures Inv(DoAddSocket(s))
  {
    var t := DoAddSocket(s);
    var n := s.disp.sock;
    assert In(s, n, Held);
    AddSocketPlaces(s);
    AddSocketTables(s);
    WorkersFrame(s, t, n, |s.workers|);
    OutsideFrame(s, t, n);
  }

  lemma AnswerKeeps(s: State, next: Stat)
    requires Inv(s) && CanAnswer(s, next)
    ensures Inv(DoAnswer(s, next))
  {
    if DoAnswer(s, next).disp.Rearm? {
      ArmsNew(s, next);
    } else {
      Rejects(s, next);
    }
  }

  lemma ArmsNew(s: State, next: Stat)
    requires Inv(s) && CanAnswer(s, next) && DoAnswer(s, next).disp.Rearm?
    ensures Inv(DoAnswer(s, next))
  {
    var t := DoAnswer(s, next);
    var n := s.disp.sock;
    assert In(s, n, Held);
    ArmTables(s, t, n, On(next.Send?));
    ArmsNewPlaces(s, t, n, On(next.Send?));
    WorkersFrame(s, t, n, |s.workers|);
    OutsideFrame(s, t, n);
  }

  lemma ArmsNewPlaces(s: State, t: State, n: Gen, how: Interest)
    requires Placed(s) && Tables(s) && s.disp == Added(n) && Registered(s, n) && s.batch != [] && how.On?
    requires t == s.(interest := s.interest[s.sd[n] := how], disp := Rearm)
    ensures Placed(t)
  {
    RegisteredIsOpen(s);
    assert In(s, n, Held);
    assert In(t, n, Armed);
    forall g: Gen, p: Place | g != n ensures In(t, g, p) <==> In(s, g, p) {
    }
    PlacedMove(s, t, n, Held, Armed);
  }

  lemma Rejects(s: State, next: Stat)
    requires Inv(s) && CanAnswer(s, next) && DoAnswer(s, next).disp.Shut?
    ensures Inv(DoAnswer(s, next))
  {
    hide Counts, Tables;
    var t := DoAnswer(s, next);
    DispatcherFrame(s, t);
    forall g: Gen ensures Holds(t, g) <==> Holds(s, g) {
    }
    QuietPlaces(s, t);
  }

  // ------------------------------------------------------------------
  // closesocket() run by the dispatcher
  // ------------------------------------------------------------------

  /** The connection the dispatcher is closing. */
  ghost function Closed(s: State, job: Closing): Gen
    requires JobOk(s, job) && !job.phase.Done?
  {
    if job.phase.Erase? then s.connect[job.fd] else job.sock.value
  }

  lemma ShutPlaces(s: State, u: State, t: State, next: Closing, m: Gen)
    requires Placed(s) && Tables(s) && s.disp.Shut? && In(s, m, Held) && s.batch != []
    requires Staged(s, u, next, m) && SameTables(u.(outside := t.outside), t)
    requires t.workers == s.workers && t.outside == s.outside
    requires if next.phase.Done? then !Holds(t, m) else t.disp.Shut? && t.disp.job == next
    requires forall g: Gen :: g != m ==> (Holds(t, g) <==> Holds(s, g))
    requires forall g: Gen, k: nat :: In(t, g, Pending(k)) <==> In(s, g, Pending(k))
    ensures Placed(t)
  {
    StagedTables(s, u, t, next, m);
    CloserFrame(s, t, m);
    forall g: Gen, p: Place | g != m && p != Armed ensures In(t, g, p) <==> In(s, g, p) {
      if p.Pending? { assert In(t, g, Pending(p.k)) <==> In(s, g, Pending(p.k)); }
    }
    forall p: Place | p != Held && p != Armed && In(t, m, p) ensures In(s, m, p) {
    }
    StagedPlaces(s, u, t, next, m, Held);
  }

  lemma ShutStepKeeps(s: State)
    requires Inv(s) && CanShutStep(s)
    ensures Inv(DoShutStep(s))
  {
    var job := s.disp.job;
    var m := Closed(s, job);
    assert In(s, m, Held);
    StageTables(s, job, m);
    StageLeaves(s, job);
    var (u, next) := CloseStage(s, job);
    if next.phase.Done? {
      ShutEnds(s, u, next, m, DoShutStep(s));
    } else {
      ShutGoesOn(s, u, next, m, DoShutStep(s));
    }
  }

  lemma ShutGoesOn(s: State, u: State, next: Closing, m: Gen, t: State)
    requires Inv(s) && s.disp.Shut? && In(s, m, Held) && !next.phase.Done?
    requires Staged(s, u, next, m)
    requires u.workers == s.workers && u.outside == s.outside && u.batch == s.batch
    requires u.mainRun == s.mainRun && u.workRun == s.workRun && u.asked == s.asked
    requires t == u.(disp := Shut(next, s.disp.after))
    ensures Inv(t)
  {
    StagedTables(s, u, t, next, m);
    CloserFrame(s, t, m);
    ShutPlaces(s, u, t, next, m);
    PendingFrame(s, t, m);
    WorkersFrame(s, t, m, |s.workers|);
    OutsideFrame(s, t, m);
  }

  lemma ShutEnds(s: State, u: State, next: Closing, m: Gen, t: State)
    requires Inv(s) && s.disp.Shut? && In(s, m, Held) && next.phase.Done?
    requires Staged(s, u, next, m)
    requires u.workers == s.workers && u.outside == s.outside && u.batch == s.batch
    requires u.mainRun == s.mainRun && u.workRun == s.workRun && u.asked == s.asked
    requires t == match s.disp.after
                  case NextEvent => u.(batch := DropLast(s), disp := Top)
                  case _ => u.(disp := Rearm)
    ensures Inv(t)
  {
    hide PendingOk, WorkersOk, OutsideOk, JobOk, Elsewhere, Shrinks;
    StagedTables(s, u, t, next, m);
    ShutPlaces(s, u, t, next, m);
    ShutRest(s, t, m);
  }

  lemma ShutRest(s: State, t: State, m: Gen)
    requires Placed(s) && Tables(s) && PendingOk(s) && DispatcherOk(s) && WorkersOk(s) && OutsideOk(s)
    requires s.disp.Shut? && In(s, m, Held) && Tables(t) && Elsewhere(s, t, m)
    requires (t.disp.Top? && t.batch == DropLast(s)) || (t.disp.Rearm? && t.batch == s.batch)
    requires t.workers == s.workers && t.outside == s.outside
    ensures PendingOk(t) && WorkersOk(t) && OutsideOk(t)
  {
    hide Tables, Elsewhere, Registered, Open, Live, Ours, JobOk;
    PendingFrame(s, t, m);
    WorkersFrame(s, t, m, |s.workers|);
    OutsideFrame(s, t, m);
  }

  // ------------------------------------------------------------------
  // Worker i
  // ------------------------------------------------------------------

  lemma EnterKeeps(s: State, i: nat)
    requires Inv(s) && CanEnter(s, i)
    ensures Inv(DoEnter(s, i))
  {
    assert WorkerOk(s, i);
    WorkerFrame(s, DoEnter(s, i), i);
    WorkerKeepsPlaces(s, DoEnter(s, i), i);
  }

  lemma WakeKeeps(s: State, i: nat)
    requires Inv(s) && CanWake(s, i)
    ensures Inv(DoWake(s, i))
  {
    assert WorkerOk(s, i);
    WorkerFrame(s, DoWake(s, i), i);
    WorkerKeepsPlaces(s, DoWake(s, i), i);
  }

  lemma LookRunKeeps(s: State, i: nat)
    requires Inv(s) && CanLookRun(s, i)
    ensures Inv(DoLookRun(s, i))
  {
    assert WorkerOk(s, i);
    WorkerFrame(s, DoLookRun(s, i), i);
    WorkerKeepsPlaces(s, DoLookRun(s, i), i);
  }

  lemma TakeKeeps(s: State, i: nat)
    requires Inv(s) && CanTake(s, i) && s.workers[i].slot.Some?
    ensures Inv(DoTake(s, i))
  {
    assert WorkerOk(s, i);
    WorkerFrame(s, DoTake(s, i), i);
    WorkerKeepsPlaces(s, DoTake(s, i), i);
  }

  lemma LookIdleKeeps(s: State, i: nat)
    requires Inv(s) && CanLookIdle(s, i)
    ensures Inv(DoLookIdle(s, i))
  {
    assert WorkerOk(s, i);
    WorkerFrame(s, DoLookIdle(s, i), i);
    WorkerKeepsPlaces(s, DoLookIdle(s, i), i);
  }

  lemma BeginIdleKeeps(s: State, i: nat)
    requires Inv(s) && CanBeginIdle(s, i)
    ensures Inv(DoBeginIdle(s, i))
  {
    assert WorkerOk(s, i);
    WorkerFrame(s, DoBeginIdle(s, i), i);
    WorkerKeepsPlaces(s, DoBeginIdle(s, i), i);
  }

  lemma LookExitKeeps(s: State, i: nat)
    requires Inv(s) && CanLookExit(s, i)
    ensures Inv(DoLookExit(s, i))
  {
    assert WorkerOk(s, i);
    WorkerFrame(s, DoLookExit(s, i), i);
    WorkerKeepsPlaces(s, DoLookExit(s, i), i);
  }

  lemma ResetKeeps(s: State, i: nat)
    requires Inv(s) && CanReset(s, i) && s.workers[i].slot.None?
    ensures Inv(DoReset(s, i))
  {
    assert WorkerOk(s, i);
    WorkerFrame(s, DoReset(s, i), i);
    WorkerKeepsPlaces(s, DoReset(s, i), i);
  }

  lemma FinishKeeps(s: State, i: nat, next: Stat)
    requires Inv(s) && CanFinish(s, i, next)
    ensures Inv(DoFinish(s, i, next))
  {
    assert WorkerOk(s, i);
    WorkerFrame(s, DoFinish(s, i, next), i);
    WorkerKeepsPlaces(s, DoFinish(s, i, next), i);
  }

  lemma StampKeeps(s: State, i: nat)
    requires Inv(s) && CanStamp(s, i)
    ensures Inv(DoStamp(s, i))
  {
    assert WorkerOk(s, i);
    WorkerFrame(s, DoStamp(s, i), i);
    WorkerKeepsPlaces(s, DoStamp(s, i), i);
  }

  lemma ClearKeeps(s: State, i: nat)
    requires Inv(s) && CanClear(s, i)
    ensures Inv(DoClear(s, i))
  {
    assert WorkerOk(s, i);
    WorkerFrame(s, DoClear(s, i), i);
    WorkerKeepsPlaces(s, DoClear(s, i), i);
  }

  lemma IdleDoneKeeps(s: State, i: nat)
    requires Inv(s) && CanIdleDone(s, i) && s.workers[i].slot.None?
    ensures Inv(DoIdleDone(s, i))
  {
    assert WorkerOk(s, i);
    WorkerFrame(s, DoIdleDone(s, i), i);
    WorkerKeepsPlaces(s, DoIdleDone(s, i), i);
  }

  lemma SettleKeeps(s: State, i: nat)
    requires Inv(s) && CanSettle(s, i)
    ensures Inv(DoSettle(s, i))
  {
    assert WorkerOk(s, i);
    if s.workers[i].pc.next.Disconnect? {
      WorkerFrame(s, DoSettle(s, i), i);
      WorkerKeepsPlaces(s, DoSettle(s, i), i);
    } else {
      ReleaseKeeps(s, i);
    }
  }

  /** EPOLL_CTL_MOD ends the worker's ownership. */
  lemma ReleaseKeeps(s: State, i: nat)
    requires Inv(s) && CanSettle(s, i) && !s.workers[i].pc.next.Disconnect?
    ensures Inv(DoSettle(s, i))
  {
    hide Counts, Tables, OutsideOk, Elsewhere, Registered, Open, Live;
    var t := DoSettle(s, i);
    var m := s.workers[i].pc.sock;
    assert WorkerOk(s, i);
    assert In(s, m, Owned(i));
    assert Registered(s, m) by { assert Ours(s, m); }
    ArmTables(s, t, m, On(s.workers[i].pc.next.Send?));
    ReleasePlaces(s, t, i, m);
    ReleaseRest(s, t, i, m);
  }

  lemma ReleaseRest(s: State, t: State, i: nat, m: Gen)
    requires Placed(s) && Tables(s) && PendingOk(s) && DispatcherOk(s) && WorkersOk(s) && OutsideOk(s)
    requires i < |s.workers| == |t.workers| && In(s, m, Owned(i)) && Tables(t) && Elsewhere(s, t, m)
    requires s.workers[i].pc.Ended? && t.workers[i] == s.workers[i].(pc := t.workers[i].pc) && t.workers[i].pc.Released?
    requires t == s.(interest := t.interest, workers := s.workers[i := t.workers[i]]) && Shrinks(s, t)
    requires !t.workers[i].pc.next.Run?
    ensures PendingOk(t) && DispatcherOk(t) && WorkersOk(t) && OutsideOk(t)
  {
    hide Tables, Elsewhere, Shrinks, Registered, Open, Live, Ours, JobOk;
    assert WorkerOk(s, i);
    PendingFrame(s, t, m);
    HeldFrame(s, t, m);
    WorkersFrame(s, t, m, i);
    OutsideFrame(s, t, m);
  }

  lemma ReleasePlaces(s: State, t: State, i: nat, m: Gen)
    requires Placed(s) && Tables(s) && i < |s.workers| == |t.workers| && In(s, m, Owned(i)) && Ours(s, m)
    requires s.workers[i].pc.Ended? && t.workers[i].pc.Released?
    requires t == s.(interest := t.interest, workers := s.workers[i := t.workers[i]])
    requires s.sd[m] in t.interest && t.interest[s.sd[m]].On?
    requires t.interest == s.interest[s.sd[m] := t.interest[s.sd[m]]]
    ensures Placed(t)
  {
    RegisteredIsOpen(s);
    assert In(t, m, Armed);
    forall g: Gen, p: Place | g != m ensures In(t, g, p) <==> In(s, g, p) {
    }
    PlacedMove(s, t, m, Owned(i), Armed);
  }

  /** What the worker's own closesocket() changes: its table entries and how far it is. */
  ghost predicate WorkerStage(s: State, u: State, t: State, i: nat, next: Closing, m: Gen) {
    && i < |s.workers| == |t.workers| && s.workers[i].pc.Closes? && Closer(s, s.workers[i].pc.job, m)
    && Staged(s, u, next, m) && SameTables(u.(outside := t.outside), t)
    && t.workers == s.workers[i := t.workers[i]] && t.outside == s.outside
    && t.batch == s.batch && t.disp == s.disp
    && (if next.phase.Done? then t.workers[i].pc.Released? else t.workers[i].pc == Closes(m, next))
  }

  lemma CloseStepOthers(s: State, u: State, t: State, i: nat, next: Closing, m: Gen, g: Gen, p: Place)
    requires Tables(s) && WorkerStage(s, u, t, i, next, m) && g != m && p != Armed
    ensures In(t, g, p) <==> In(s, g, p)
  {
    StagedTables(s, u, t, next, m);
    CloserFrame(s, t, m);
  }

  lemma CloseStepSelf(s: State, u: State, t: State, i: nat, next: Closing, m: Gen, p: Place)
    requires Tables(s) && WorkerStage(s, u, t, i, next, m) && p != Owned(i) && p != Armed && In(t, m, p)
    ensures In(s, m, p)
  {
    StagedTables(s, u, t, next, m);
  }

  lemma CloseStepPlaces(s: State, u: State, t: State, i: nat, next: Closing, m: Gen)
    requires Placed(s) && Tables(s) && In(s, m, Owned(i)) && WorkerStage(s, u, t, i, next, m)
    ensures Placed(t)
  {
    forall g: Gen, p: Place | g != m && p != Armed ensures In(t, g, p) <==> In(s, g, p) {
      CloseStepOthers(s, u, t, i, next, m, g, p);
    }
    forall p: Place | p != Owned(i) && p != Armed && In(t, m, p) ensures In(s, m, p) {
      CloseStepSelf(s, u, t, i, next, m, p);
    }
    StagedPlaces(s, u, t, next, m, Owned(i));
  }

  lemma CloseStepKeeps(s: State, i: nat)
    requires Inv(s) && CanCloseStep(s, i)
    ensures Inv(DoCloseStep(s, i))
  {
    var job := s.workers[i].pc.job;
    var m := s.workers[i].pc.sock;
    assert WorkerOk(s, i);
    assert In(s, m, Owned(i));
    StageTables(s, job, m);
    StageLeaves(s, job);
    var (u, next) := CloseStage(s, job);
    CloseGoesOn(s, u, i, next, m, DoCloseStep(s, i));
  }

  lemma CloseGoesOn(s: State, u: State, i: nat, next: Closing, m: Gen, t: State)
    requires Inv(s) && i < |s.workers| && s.workers[i].pc.Closes? && s.workers[i].pc.sock == m && In(s, m, Owned(i))
    requires Staged(s, u, next, m) && !Down(s)
    requires u.workers == s.workers && u.outside == s.outside && u.batch == s.batch && u.disp == s.disp
    requires u.mainRun == s.mainRun && u.workRun == s.workRun && u.asked == s.asked
    requires t == SetWorker(u, i, s.workers[i].(pc := if next.phase.Done? then Released(Suspend) else Closes(m, next)))
    ensures Inv(t)
  {
    StagedTables(s, u, t, next, m);
    assert WorkerOk(s, i);
    CloseStepPlaces(s, u, t, i, next, m);
    CloseRest(s, t, i, m);
  }

  /** The rest of the invariant does not concern m, so it survives. */
  lemma CloseRest(s: State, t: State, i: nat, m: Gen)
    requires Inv(s) && !Down(s) && Tables(t) && Elsewhere(s, t, m) && Shrinks(s, t)
    requires i < |s.workers| == |t.workers| && In(s, m, Owned(i)) && WorkerLocks(s.workers[i])
    requires t.workers == s.workers[i := t.workers[i]] && WorkerOk(t, i) && s.workers[i].pc.Closes?
    requires t.outside == s.outside && t.batch == s.batch && t.disp == s.disp
    requires t.mainRun == s.mainRun && t.workRun == s.workRun && t.asked == s.asked
    ensures PendingOk(t) && DispatcherOk(t) && WorkersOk(t) && OutsideOk(t)
  {
    WorkersFrame(s, t, m, i);
    OutsideFrame(s, t, m);
    PendingFrame(s, t, m);
    HeldFrame(s, t, m);
  }

  /** What the dispatcher has in hand is another connection, so it is untouched. */
  lemma HeldFrame(s: State, t: State, m: Gen)
    requires Placed(s) && Tables(s) && Tables(t) && Elsewhere(s, t, m) && !In(s, m, Held) && Shrinks(s, t)
    requires DispatcherOk(s) && |t.workers| == |s.workers| && t.batch == s.batch && t.disp == s.disp
    requires t.mainRun == s.mainRun && t.workRun == s.workRun && t.asked == s.asked
    requires (s.disp.Claim? || s.disp.Holding? || s.disp.Marked?) && s.disp.i < |s.workers| ==>
               t.workers[s.disp.i] == s.workers[s.disp.i]
               || (s.disp.Claim? && Claimable(t.workers[s.disp.i]))
    ensures DispatcherOk(t)
  {
    match s.disp
    case Shut(job, _) =>
      var g := Closed(s, job);
      assert In(s, g, Held);
      assert job.phase.Erase? ==> (Watched(t, g) <==> Watched(s, g)) && Registered(s, g) && Registered(t, g);
      JobFrame(s, t, m, job);
    case Accepted(g) =>
      assert In(s, g, Held);
      var fd: Fd := s.sd[g];
      assert fd !in t.connect;
    case Added(g) => assert In(s, g, Held);
    case Scan(_, g) => assert In(s, g, Held);
    case Claim(_, g) => assert In(s, g, Held);
    case Holding(_, g) => assert In(s, g, Held);
    case Marked(_, g) => assert In(s, g, Held);
    case _ =>
  }

  // ------------------------------------------------------------------
  // Outside callers and shutdown
  // ------------------------------------------------------------------

  lemma NeedSendKeeps(s: State, fd: Fd)
    requires Inv(s) && CanNeedSend(s, fd) && (fd in s.connect ==> s.interest[fd].On?)
    ensures Inv(DoNeedSend(s, fd))
  {
    var t := DoNeedSend(s, fd);
    InterestFrame(s, t);
    InterestRest(s, t);
    InterestPlaces(s, t);
    forall k: nat | k < |t.outside| ensures OutsideJobOk(t, t.outside[k]) {
      assert OutsideJobOk(s, s.outside[k]);
    }
  }

  /** The erase of an outside closesocket() takes an armed connection out of m_connect. */
  lemma OutsideTables(s: State, fd: Fd)
    requires Tables(s) && Counts(s) && fd in s.connect && CanOutsideClose(s, fd)
    ensures var t, m := DoOutsideClose(s, fd), s.connect[fd];
            && t == s.(connect := s.connect - {fd}, outside := s.outside + [Closing(fd, Detach, Some(m))])
            && Tables(t) && Counts(t) && Elsewhere(s, t, m) && JobOk(t, Closing(fd, Detach, Some(m)))
            && !In(t, m, Armed) && In(t, m, Outside(|s.outside|))
  {
    var t, m := DoOutsideClose(s, fd), s.connect[fd];
    assert Registered(s, m);
    forall g: Gen | g != m
      ensures (Registered(t, g) <==> Registered(s, g)) && (Open(t, g) <==> Open(s, g)) && (Ours(t, g) <==> Ours(s, g))
    {
    }
  }

  lemma OutsidePlaces(s: State, t: State, m: Gen)
    requires Placed(s) && Tables(s) && Tables(t) && Elsewhere(s, t, m) && In(s, m, Armed) && !In(t, m, Armed)
    requires t == s.(connect := t.connect, outside := t.outside) && Shrinks(s, t)
    requires |t.outside| == |s.outside| + 1 && t.outside[..|s.outside|] == s.outside
    requires t.outside[|s.outside|].phase.Detach? && t.outside[|s.outside|].sock == Some(m)
    ensures Placed(t)
  {
    CloserFrame(s, t, m);
    var to := Outside(|s.outside|);
    forall g: Gen, p: Place | g != m ensures In(t, g, p) <==> In(s, g, p) {
      OutsideOthers(s, t, m, g, p);
    }
    forall p: Place | In(t, m, p) && p != to ensures In(s, m, p) && p != Armed {
      assert p.Outside? ==> p.k < |s.outside| && t.outside[p.k] == s.outside[p.k];
    }
    PlacedMove(s, t, m, Armed, to);
  }

  lemma OutsideOthers(s: State, t: State, m: Gen, g: Gen, p: Place)
    requires Tables(s) && Tables(t) && Elsewhere(s, t, m) && g != m
    requires t == s.(connect := t.connect, outside := t.outside) && Shrinks(s, t)
    requires |t.outside| == |s.outside| + 1 && t.outside[..|s.outside|] == s.outside
    requires t.outside[|s.outside|].phase.Detach? && t.outside[|s.outside|].sock == Some(m)
    ensures In(t, g, p) <==> In(s, g, p)
  {
    CloserFrame(s, t, m);
    assert Ours(t, g) <==> Ours(s, g);
    assert p.Outside? && p.k < |s.outside| ==> t.outside[p.k] == s.outside[p.k];
  }

  lemma OutsideCloseKeeps(s: State, fd: Fd)
    requires Inv(s) && CanOutsideClose(s, fd) && fd in s.connect && fd in s.interest && s.interest[fd].On?
    ensures Inv(DoOutsideClose(s, fd))
  {
    var t := DoOutsideClose(s, fd);
    OutsideTables(s, fd);
    var m := s.connect[fd];
    assert In(s, m, Armed);
    OutsidePlaces(s, t, m);
    WorkersFrame(s, t, m, |s.workers|);
    PendingFrame(s, t, m);
    HeldFrame(s, t, m);
    forall k: nat | k < |t.outside| ensures OutsideJobOk(t, t.outside[k]) {
      if k < |s.outside| {
        assert t.outside[k] == s.outside[k];
        assert !In(s, m, Outside(k)) && OutsideJobOk(s, s.outside[k]);
        if s.outside[k].sock.Some? { JobFrame(s, t, m, s.outside[k]); }
      }
    }
  }

  /** A call that found no socket must find nothing else either; then it does no harm. */
  predicate EmptyCallOk(s: State, job: Closing) {
    && (job.phase.Detach? && job.fd in s.interest ==> job.fd !in s.connect)
    && (job.phase.Close? ==> job.fd !in s.kernel)
  }

  lemma EmptyCallKeeps(s: State, k: nat)
    requires Inv(s) && CanOutsideStep(s, k) && s.outside[k].sock.None? && EmptyCallOk(s, s.outside[k])
    ensures Inv(DoOutsideStep(s, k))
  {
    hide Tables, Counts, Placed, Registered, Open;
    var t := DoOutsideStep(s, k);
    assert OutsideJobOk(s, s.outside[k]);
    var next := t.outside[k];
    assert OnlyInterest(s, t) && t.outside == s.outside[k := next] && next.sock.None? && !next.phase.Erase?;
    EmptyCallRest(s, t, k, next);
  }

  lemma EmptyCallRest(s: State, t: State, k: nat, next: Closing)
    requires Inv(s) && !Down(s) && k < |s.outside| && s.outside[k].sock.None? && next.sock.None? && !next.phase.Erase?
    requires OnlyInterest(s, t) && t.outside == s.outside[k := next]
    requires forall fd :: fd in t.interest ==> t.interest[fd] == s.interest[fd]
    ensures Inv(t)
  {
    assert OutsideJobOk(s, s.outside[k]);
    InterestFrame(s, t);
    InterestRest(s, t);
    InterestPlaces(s, t);
    forall j: nat | j < |t.outside| ensures OutsideJobOk(t, t.outside[j]) {
      assert OutsideJobOk(s, s.outside[j]);
    }
  }

  /** A call for a descriptor that is not in m_connect begins without changing anything. */
  lemma EmptyCloseKeeps(s: State, fd: Fd)
    requires Inv(s) && CanOutsideClose(s, fd) && fd !in s.connect
    ensures Inv(DoOutsideClose(s, fd))
  {
    var t := DoOutsideClose(s, fd);
    assert t == s.(outside := s.outside + [Closing(fd, Detach, None)]);
    InterestFrame(s, t);
    InterestRest(s, t);
    forall g: Gen, k: nat ensures In(t, g, Outside(k)) <==> In(s, g, Outside(k)) {
      assert k < |s.outside| ==> t.outside[k] == s.outside[k];
    }
    InterestPlaces(s, t);
    forall j: nat | j < |t.outside| ensures OutsideJobOk(t, t.outside[j]) {
      if j < |s.outside| {
        assert OutsideJobOk(s, s.outside[j]);
        assert t.outside[j] == s.outside[j];
      }
    }
  }

  lemma OutsideStepKeeps(s: State, k: nat)
    requires Inv(s) && CanOutsideStep(s, k) && s.outside[k].sock.Some?
    ensures Inv(DoOutsideStep(s, k))
  {
    var job := s.outside[k];
    assert OutsideJobOk(s, job);
    var m := job.sock.value;
    assert In(s, m, Outside(k));
    StageTables(s, job, m);
    StageLeaves(s, job);
    var (u, next) := CloseStage(s, job);
    OutsideGoesOn(s, u, k, next, m, DoOutsideStep(s, k));
  }

  ghost predicate OutsideStage(s: State, u: State, t: State, k: nat, next: Closing, m: Gen) {
    && k < |s.outside| && Staged(s, u, next, m) && !next.phase.Erase? && Closer(s, s.outside[k], m)
    && SameTables(u.(outside := t.outside), t)
    && t == u.(workers := s.workers, batch := s.batch, disp := s.disp, mainRun := s.mainRun,
               workRun := s.workRun, asked := s.asked, outside := s.outside[k := next])
  }

  lemma OutsideStepOthers(s: State, u: State, t: State, k: nat, next: Closing, m: Gen, g: Gen, p: Place)
    requires Tables(s) && OutsideStage(s, u, t, k, next, m) && g != m && p != Armed
    ensures In(t, g, p) <==> In(s, g, p)
  {
    StagedTables(s, u, t, next, m);
    CloserFrame(s, t, m);
  }

  lemma OutsideGoesOn(s: State, u: State, k: nat, next: Closing, m: Gen, t: State)
    requires Inv(s) && !Down(s) && OutsideStage(s, u, t, k, next, m) && In(s, m, Outside(k))
    ensures Inv(t)
  {
    StagedTables(s, u, t, next, m);
    OutsideStepPlaces(s, u, k, next, m, t);
    WorkersFrame(s, t, m, |s.workers|);
    PendingFrame(s, t, m);
    HeldFrame(s, t, m);
    OutsideRest(s, t, k, m);
  }

  lemma OutsideStepPlaces(s: State, u: State, k: nat, next: Closing, m: Gen, t: State)
    requires Placed(s) && Tables(s) && OutsideStage(s, u, t, k, next, m) && In(s, m, Outside(k))
    ensures Placed(t)
  {
    forall g: Gen, p: Place | g != m && p != Armed ensures In(t, g, p) <==> In(s, g, p) {
      OutsideStepOthers(s, u, t, k, next, m, g, p);
    }
    StagedPlaces(s, u, t, next, m, Outside(k));
  }

  lemma OutsideRest(s: State, t: State, k: nat, m: Gen)
    requires Placed(s) && Tables(s) && OutsideOk(s) && Tables(t) && Elsewhere(s, t, m)
    requires k < |s.outside| == |t.outside| && In(s, m, Outside(k))
    requires t.outside == s.outside[k := t.outside[k]] && OutsideJobOk(t, t.outside[k])
    ensures OutsideOk(t)
  {
    forall j: nat | j < |t.outside| ensures OutsideJobOk(t, t.outside[j]) {
      if j != k {
        assert !In(s, m, Outside(j)) && OutsideJobOk(s, s.outside[j]);
        if s.outside[j].sock.Some? { JobFrame(s, t, m, s.outside[j]); }
      }
    }
  }

  lemma StopRequestKeeps(s: State)
    requires Inv(s) && CanStopRequest(s)
    ensures Inv(DoStopRequest(s))
  {
    var t := DoStopRequest(s);
    if Down(s) {
      assert forall g: Gen :: Live(t, g) ==> Live(s, g);
      assert forall g: Gen :: Registered(s, g) ==> Registered(t, g);
      assert forall g: Gen :: Open(s, g) <==> Open(t, g);
    } else {
      QuietPlaces(s, t);
      TablesFrame(s, t);
      forall j: nat | j < |t.workers| ensures WorkerOk(t, j) {
        assert WorkerOk(s, j);
      }
    }
  }

  lemma JoinKeeps(s: State)
    requires Inv(s) && CanJoin(s)
    ensures Inv(DoJoin(s))
  {
    if s.asked {
      JoinedKeeps(s);
    } else {
      DispatcherFrame(s, DoJoin(s));
      QuietPlaces(s, DoJoin(s));
    }
  }

  /** With every worker gone, whatever still lives is in m_connect. */
  lemma JoinedKeeps(s: State)
    requires Inv(s) && CanJoin(s) && s.asked
    ensures Inv(DoJoin(s))
  {
    var t := DoJoin(s);
    RegisteredIsOpen(s);
    TablesFrame(s, t);
    forall g: Gen | Live(t, g) ensures Registered(t, g) {
      assert Live(s, g);
      var p: Place :| In(s, g, p);
      if p.Owned? { assert WorkerOk(s, p.i); }
      assert Registered(s, g);
    }
  }

  lemma DestroyOneKeeps(s: State, fd: Fd)
    requires Inv(s) && CanDestroyOne(s, fd)
    ensures Inv(DoDestroyOne(s, fd))
  {
    var t := DoDestroyOne(s, fd);
    forall g: Gen | Live(t, g) ensures Registered(t, g) {
      assert Live(s, g);
    }
  }

  lemma DestroyEndsKeeps(s: State)
    requires Inv(s) && CanDestroyEnds(s)
    ensures Inv(DoDestroyEnds(s))
  {
    var t := DoDestroyEnds(s);
    assert forall g: Gen :: Live(t, g) ==> Live(s, g);
    assert forall g: Gen :: Registered(s, g) ==> Registered(t, g);
    assert forall g: Gen :: Open(s, g) <==> Open(t, g);
  }
}
