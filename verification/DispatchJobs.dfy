/**
 What the protocol does, not only what it avoids: the whole state after a connection has been
 accepted, dispatched, served, closed or kept, and after the pool is told to stop.
 */
module DispatchJobs {
  import opened Wrappers
  import opened Dispatch
  import opened DispatchPlaces
  import opened DispatchFrames

  /** The state after the actions, if each was possible. */
  function RunFrom(s: State, actions: seq<Action>): (t: Option<State>)
    decreases |actions|
  {
    if actions == [] then Some(s)
    else if Enabled(s, actions[0]) then RunFrom(Apply(s, actions[0]), actions[1..])
    else None
  }

  lemma {:induction false} RunBoth(s: State, x: seq<Action>, y: seq<Action>, t: State)
    requires RunFrom(s, x) == Some(t)
    ensures RunFrom(s, x + y) == RunFrom(t, y)
    decreases |x|
  {
    hide Enabled, Apply;
    if x == [] {
      assert x + y == y;
    } else {
      assert (x + y)[1..] == x[1..] + y;
      RunBoth(Apply(s, x[0]), x[1..], y, t);
    }
  }

  lemma RunOne(s: State, a: Action)
    requires Enabled(s, a)
    ensures RunFrom(s, [a]) == Some(Apply(s, a))
  {
    hide Enabled, Apply;
    assert [a][1..] == [];
  }

  /** One more step at the end. */
  lemma RunMore(s: State, x: seq<Action>, t: State, a: Action)
    requires RunFrom(s, x) == Some(t) && Enabled(t, a)
    ensures RunFrom(s, x + [a]) == Some(Apply(t, a))
  {
    hide Enabled, Apply, RunFrom;
    RunBoth(s, x, [a], t);
    RunOne(t, a);
  }

  function Worked(i: nat, ws: seq<WorkerAction>): seq<Action> {
    seq(|ws|, k requires 0 <= k < |ws| => ByWorker(i, ws[k]))
  }

  function Dispatched(ds: seq<DispatcherAction>): seq<Action> {
    seq(|ds|, k requires 0 <= k < |ds| => ByDispatcher(ds[k]))
  }

  lemma WorkerMore(s: State, i: nat, ws: seq<WorkerAction>, t: State, w: WorkerAction, u: State, all: seq<WorkerAction>)
    requires RunFrom(s, Worked(i, ws)) == Some(t) && EnabledWorker(t, i, w) && u == ApplyWorker(t, i, w) && all == ws + [w]
    ensures RunFrom(s, Worked(i, all)) == Some(u)
  {
    hide EnabledWorker, ApplyWorker, RunFrom;
    RunMore(s, Worked(i, ws), t, ByWorker(i, w));
    assert Worked(i, ws + [w]) == Worked(i, ws) + [ByWorker(i, w)];
  }

  lemma DispatcherMore(s: State, ds: seq<DispatcherAction>, t: State, d: DispatcherAction, u: State, all: seq<DispatcherAction>)
    requires RunFrom(s, Dispatched(ds)) == Some(t) && EnabledDispatcher(t, d) && u == ApplyDispatcher(t, d) && all == ds + [d]
    ensures RunFrom(s, Dispatched(all)) == Some(u)
  {
    hide EnabledDispatcher, ApplyDispatcher, RunFrom;
    RunMore(s, Dispatched(ds), t, ByDispatcher(d));
    assert Dispatched(ds + [d]) == Dispatched(ds) + [ByDispatcher(d)];
  }

  lemma Nothing(s: State, i: nat)
    ensures RunFrom(s, Worked(i, [])) == Some(s) && RunFrom(s, Dispatched([])) == Some(s)
  {
    assert Worked(i, []) == [] && Dispatched([]) == [];
  }

  // ------------------------------------------------------------------
  // closesocket()
  // ------------------------------------------------------------------

  /** Connection g, on descriptor fd, is closed and deleted, and nothing else is changed. */
  function ClosedOff(s: State, fd: Fd, g: Gen): State {
    s.(connect := s.connect - {fd}, interest := s.interest - {fd}, kernel := s.kernel - {fd},
       closed := s.closed + multiset{g}, freed := s.freed + multiset{g})
  }

  /** What the stages of a closesocket() call have changed so far. */
  function Partly(s: State, fd: Fd, g: Gen, next: Phase): State {
    match next
    case Erase => s
    case Detach => s.(connect := s.connect - {fd})
    case Close => s.(connect := s.connect - {fd}, interest := s.interest - {fd})
    case Free =>
      s.(connect := s.connect - {fd}, interest := s.interest - {fd}, kernel := s.kernel - {fd}, closed := s.closed + multiset{g})
    case Done => ClosedOff(s, fd, g)
  }

  function NextPhase(p: Phase): Phase {
    match p
    case Erase => Detach
    case Detach => Close
    case Close => Free
    case Free => Done
    case Done => Done
  }

  /** A stage on a state that agrees with Partly in the tables. */
  lemma StageIs(s: State, u: State, fd: Fd, g: Gen, p: Phase)
    requires fd in s.connect && s.connect[fd] == g && fd in s.kernel && s.kernel[fd] == g && !p.Done?
    requires u == Partly(s, fd, g, p).(disp := u.disp, workers := u.workers, outside := u.outside)
    ensures var job := Closing(fd, p, if p.Erase? then None else Some(g));
      CloseStage(u, job) == (Partly(s, fd, g, NextPhase(p)).(disp := u.disp, workers := u.workers, outside := u.outside),
                             Closing(fd, NextPhase(p), Some(g)))
  {
    match p
    case Erase =>
    case Detach =>
    case Close => assert s.interest - {fd} - {fd} == s.interest - {fd};
    case Free =>
  }

  lemma PartlyKeeps(s: State, fd: Fd, g: Gen, p: Phase)
    ensures var u := Partly(s, fd, g, p); u.disp == s.disp && u.workers == s.workers && u.outside == s.outside
  {
  }

  // ------------------------------------------------------------------
  // A worker finishes a job
  // ------------------------------------------------------------------

  lemma HasDescriptor(s: State, i: nat)
    requires Inv(s) && !Down(s) && i < |s.workers| && s.workers[i].pc.Working?
    ensures var g := s.workers[i].pc.sock;
      && Ours(s, g) && s.connect[s.sd[g]] == g && s.sd[g] in s.kernel && s.kernel[s.sd[g]] == g
      && s.closed[g] == 0 && s.freed[g] == 0
  {
    assert WorkerOk(s, i);
    RegisteredIsOpen(s);
  }

  lemma Twice(s: State, i: nat, w: Worker, x: Worker)
    requires i < |s.workers|
    ensures SetWorker(SetWorker(s, i, w), i, x) == SetWorker(s, i, x)
  {
    assert s.workers[i := w][i := x] == s.workers[i := x];
  }

  /** Worker i, which ended a job on g with tst_disconnect, before stage p of its closesocket() call. */
  function Mid(s: State, i: nat, g: Gen, p: Phase): State
    requires i < |s.workers| && g < |s.sd|
  {
    var pc := if p.Done? then Released(Suspend) else Closes(g, Closing(s.sd[g], p, if p.Erase? then None else Some(g)));
    SetWorker(Partly(s, s.sd[g], g, p), i, s.workers[i].(pc := pc))
  }

  lemma MidStep(s: State, i: nat, g: Gen, p: Phase)
    requires i < |s.workers| && g < |s.sd| && !p.Done?
    requires s.sd[g] in s.connect && s.connect[s.sd[g]] == g && s.sd[g] in s.kernel && s.kernel[s.sd[g]] == g
    ensures CanCloseStep(Mid(s, i, g, p), i) && DoCloseStep(Mid(s, i, g, p), i) == Mid(s, i, g, NextPhase(p))
  {
    hide CloseStage, Partly;
    PartlyKeeps(s, s.sd[g], g, p);
    PartlyKeeps(s, s.sd[g], g, NextPhase(p));
    var u, v := Mid(s, i, g, p), Partly(s, s.sd[g], g, NextPhase(p));
    StageIs(s, u, s.sd[g], g, p);
    Twice(v, i, u.workers[i], Mid(s, i, g, NextPhase(p)).workers[i]);
    assert v.(workers := u.workers) == SetWorker(v, i, u.workers[i]);
  }

  const CLOSING: seq<WorkerAction> := [Finish(Disconnect), Settle, CloseStep, CloseStep, CloseStep, CloseStep, Stamp, Clear]

  /**
   tst_disconnect: the connection is closed and deleted, once, and the worker is idle again;
   nothing else has changed.
   */
  lemma DisconnectCloses(s: State, i: nat)
    requires Inv(s) && !Down(s) && CanFinish(s, i, Disconnect)
    ensures var g := s.workers[i].pc.sock;
      && g < |s.sd|
      && var t := SetWorker(ClosedOff(s, s.sd[g], g), i, Worker(Suspend, None, LoopTop));
         RunFrom(s, Worked(i, CLOSING)) == Some(t) && !Registered(t, g) && t.closed[g] == t.freed[g] == 1
  {
    hide Inv, RunFrom, Worked, SetWorker, Mid;
    HasDescriptor(s, i);
    var g := s.workers[i].pc.sock;
    assert Ours(s, g) && Registered(s, g);
    StartsClosing(s, i, g);
    ClosesDown(s, i, g);
    EndsClosing(s, i, g);
    ClosedOnce(s, i, g);
  }

  lemma ClosedOnce(s: State, i: nat, g: Gen)
    requires i < |s.workers| && g < |s.sd| && s.closed[g] == s.freed[g] == 0
    ensures var t := SetWorker(ClosedOff(s, s.sd[g], g), i, Worker(Suspend, None, LoopTop));
      !Registered(t, g) && t.closed[g] == t.freed[g] == 1
  {
  }

  lemma StartsClosing(s: State, i: nat, g: Gen)
    requires CanFinish(s, i, Disconnect) && g == s.workers[i].pc.sock < |s.sd|
    ensures RunFrom(s, Worked(i, [Finish(Disconnect), Settle])) == Some(Mid(s, i, g, Erase))
  {
    hide RunFrom, Worked;
    var w := s.workers[i];
    var u := SetWorker(s, i, w.(pc := Ended(g, Disconnect)));
    Nothing(s, i);
    Twice(s, i, u.workers[i], Mid(s, i, g, Erase).workers[i]);
    WorkerMore(s, i, [], s, Finish(Disconnect), u, [Finish(Disconnect)]);
    WorkerMore(s, i, [Finish(Disconnect)], u, Settle, Mid(s, i, g, Erase), [Finish(Disconnect), Settle]);
  }

  lemma ClosesDown(s: State, i: nat, g: Gen)
    requires i < |s.workers| && g < |s.sd|
    requires s.sd[g] in s.connect && s.connect[s.sd[g]] == g && s.sd[g] in s.kernel && s.kernel[s.sd[g]] == g
    requires RunFrom(s, Worked(i, [Finish(Disconnect), Settle])) == Some(Mid(s, i, g, Erase))
    ensures RunFrom(s, Worked(i, [Finish(Disconnect), Settle, CloseStep, CloseStep, CloseStep, CloseStep])) == Some(Mid(s, i, g, Done))
  {
    hide RunFrom, Worked, Mid, DoCloseStep, CanCloseStep;
    MidStep(s, i, g, Erase);
    MidStep(s, i, g, Detach);
    MidStep(s, i, g, Close);
    MidStep(s, i, g, Free);
    var w2 := [Finish(Disconnect), Settle];
    var w3, w4 := w2 + [CloseStep], w2 + [CloseStep, CloseStep];
    var w5, w6 := w4 + [CloseStep], w4 + [CloseStep, CloseStep];
    WorkerMore(s, i, w2, Mid(s, i, g, Erase), CloseStep, Mid(s, i, g, Detach), w3);
    WorkerMore(s, i, w3, Mid(s, i, g, Detach), CloseStep, Mid(s, i, g, Close), w4);
    WorkerMore(s, i, w4, Mid(s, i, g, Close), CloseStep, Mid(s, i, g, Free), w5);
    WorkerMore(s, i, w5, Mid(s, i, g, Free), CloseStep, Mid(s, i, g, Done), w6);
    assert w6 == [Finish(Disconnect), Settle, CloseStep, CloseStep, CloseStep, CloseStep];
  }

  lemma MidDone(s: State, i: nat, g: Gen)
    requires i < |s.workers| && g < |s.sd|
    ensures var t := ClosedOff(s, s.sd[g], g);
      t.workers == s.workers && Mid(s, i, g, Done) == SetWorker(t, i, s.workers[i].(pc := Released(Suspend)))
  {
  }

  lemma EndsClosing(s: State, i: nat, g: Gen)
    requires i < |s.workers| && g < |s.sd|
    requires RunFrom(s, Worked(i, [Finish(Disconnect), Settle, CloseStep, CloseStep, CloseStep, CloseStep])) == Some(Mid(s, i, g, Done))
    ensures RunFrom(s, Worked(i, CLOSING)) == Some(SetWorker(ClosedOff(s, s.sd[g], g), i, Worker(Suspend, None, LoopTop)))
  {
    hide RunFrom, Worked, Mid, ClosedOff;
    var w6 := [Finish(Disconnect), Settle, CloseStep, CloseStep, CloseStep, CloseStep];
    MidDone(s, i, g);
    GivesUp(s, i, w6, ClosedOff(s, s.sd[g], g), s.workers[i].(pc := Released(Suspend)), Suspend);
    assert w6 + [Stamp, Clear] == CLOSING;
  }

  /** The last two writes of the finish sequence. */
  lemma GivesUp(s: State, i: nat, ws: seq<WorkerAction>, base: State, w: Worker, next: Stat)
    requires i < |base.workers| && w.pc == Released(next) && RunFrom(s, Worked(i, ws)) == Some(SetWorker(base, i, w))
    ensures RunFrom(s, Worked(i, ws + [Stamp, Clear])) == Some(SetWorker(base, i, Worker(next, None, LoopTop)))
  {
    hide RunFrom, Worked;
    var x, y := w.(stat := next, pc := Stamped), Worker(next, None, LoopTop);
    Twice(base, i, w, x);
    Twice(base, i, x, y);
    WorkerMore(s, i, ws, SetWorker(base, i, w), Stamp, SetWorker(base, i, x), ws + [Stamp]);
    WorkerMore(s, i, ws + [Stamp], SetWorker(base, i, x), Clear, SetWorker(base, i, y), ws + [Stamp, Clear]);
  }

  /**
   Any other answer keeps the connection and arms it again, for output exactly if the answer was
   tst_send; nothing else has changed.
   */
  lemma OthersKeep(s: State, i: nat, next: Stat)
    requires Inv(s) && !Down(s) && CanFinish(s, i, next) && !next.Disconnect?
    ensures var g := s.workers[i].pc.sock;
      && g < |s.sd|
      && var t := SetWorker(s.(interest := s.interest[s.sd[g] := On(next.Send?)]), i,
                            Worker(if next.Send? then Suspend else next, None, LoopTop));
         RunFrom(s, Worked(i, [Finish(next), Settle, Stamp, Clear])) == Some(t) && In(t, g, Armed)
  {
    hide Inv, RunFrom, Worked;
    HasDescriptor(s, i);
    var g := s.workers[i].pc.sock;
    assert Ours(s, g) && Registered(s, g);
    Rearms(s, i, g, next);
    var base := s.(interest := s.interest[s.sd[g] := On(next.Send?)]);
    var last := if next.Send? then Suspend else next;
    GivesUp(s, i, [Finish(next), Settle], base, s.workers[i].(pc := Released(last)), last);
    assert [Finish(next), Settle] + [Stamp, Clear] == [Finish(next), Settle, Stamp, Clear];
  }

  lemma Rearms(s: State, i: nat, g: Gen, next: Stat)
    requires CanFinish(s, i, next) && !next.Disconnect? && g == s.workers[i].pc.sock < |s.sd| && s.sd[g] in s.interest
    ensures RunFrom(s, Worked(i, [Finish(next), Settle]))
      == Some(SetWorker(s.(interest := s.interest[s.sd[g] := On(next.Send?)]), i,
                        s.workers[i].(pc := Released(if next.Send? then Suspend else next))))
  {
    hide RunFrom, Worked;
    var base := s.(interest := s.interest[s.sd[g] := On(next.Send?)]);
    var w := s.workers[i].(pc := Ended(g, next));
    var x := s.workers[i].(pc := Released(if next.Send? then Suspend else next));
    Nothing(s, i);
    Twice(base, i, w, x);
    WorkerMore(s, i, [], s, Finish(next), SetWorker(s, i, w), [Finish(next)]);
    WorkerMore(s, i, [Finish(next)], SetWorker(s, i, w), Settle, SetWorker(base, i, x), [Finish(next), Settle]);
  }

  // ------------------------------------------------------------------
  // A worker between jobs
  // ------------------------------------------------------------------

  /** A posted job is started, on exactly the socket that was posted. */
  lemma TakesJob(s: State, i: nat, g: Gen)
    requires i < |s.workers| && s.workers[i] == Worker(Stat.Run, Some(g), LoopTop) && s.workRun && !DispatcherLocks(s.disp, i)
    ensures RunFrom(s, Worked(i, [Enter, Wake, LookRun, Take])) == Some(SetWorker(s, i, Worker(Stat.Run, Some(g), Working(g))))
  {
    hide RunFrom, Worked;
    var w := s.workers[i];
    Gets(s, i, w);
    Twice(s, i, w.(pc := Awake), w.(pc := Chosen));
    Twice(s, i, w.(pc := Chosen), w.(pc := Working(g)));
    var all := [Enter, Wake, LookRun];
    WorkerMore(s, i, [Enter, Wake], SetWorker(s, i, w.(pc := Awake)), LookRun, SetWorker(s, i, w.(pc := Chosen)), all);
    WorkerMore(s, i, all, SetWorker(s, i, w.(pc := Chosen)), Take, SetWorker(s, i, w.(pc := Working(g))), all + [Take]);
    assert all + [Take] == [Enter, Wake, LookRun, Take];
  }

  lemma Gets(s: State, i: nat, w: Worker)
    requires i < |s.workers| && w == s.workers[i] && w.pc.LoopTop? && s.workRun && !DispatcherLocks(s.disp, i)
    ensures RunFrom(s, Worked(i, [Enter, Wake])) == Some(SetWorker(s, i, w.(pc := Awake)))
  {
    hide RunFrom, Worked;
    Nothing(s, i);
    Twice(s, i, w.(pc := Waiting), w.(pc := Awake));
    WorkerMore(s, i, [], s, Enter, SetWorker(s, i, w.(pc := Waiting)), [Enter]);
    WorkerMore(s, i, [Enter], SetWorker(s, i, w.(pc := Waiting)), Wake, SetWorker(s, i, w.(pc := Awake)), [Enter, Wake]);
  }

  lemma FindsNoJob(s: State, i: nat, w: Worker)
    requires i < |s.workers| && w == s.workers[i] && w.pc.LoopTop? && !w.stat.Run? && s.workRun && !DispatcherLocks(s.disp, i)
    ensures RunFrom(s, Worked(i, [Enter, Wake, LookRun, LookIdle]))
      == Some(SetWorker(s, i, w.(pc := if w.stat.Suspend? then SawIdle else NotIdle)))
  {
    hide RunFrom, Worked;
    var x, y, z := w.(pc := Awake), w.(pc := NotRun), w.(pc := if w.stat.Suspend? then SawIdle else NotIdle);
    Gets(s, i, w);
    Twice(s, i, x, y);
    Twice(s, i, y, z);
    var all := [Enter, Wake, LookRun];
    WorkerMore(s, i, [Enter, Wake], SetWorker(s, i, x), LookRun, SetWorker(s, i, y), all);
    WorkerMore(s, i, all, SetWorker(s, i, y), LookIdle, SetWorker(s, i, z), all + [LookIdle]);
    assert all + [LookIdle] == [Enter, Wake, LookRun, LookIdle];
  }

  const IDLING: seq<WorkerAction> := [Enter, Wake, LookRun, LookIdle, BeginIdle, IdleDone]

  /** With nothing to do a worker runs through its idle branch and is as before. */
  lemma IdleChangesNothing(s: State, i: nat)
    requires i < |s.workers| && s.workers[i] == Worker(Suspend, None, LoopTop) && s.workRun && !DispatcherLocks(s.disp, i)
    ensures RunFrom(s, Worked(i, IDLING)) == Some(s)
  {
    hide RunFrom, Worked;
    var w := s.workers[i];
    var x, y := w.(pc := SawIdle), w.(stat := Stat.Run, pc := Idling);
    FindsNoJob(s, i, w);
    Twice(s, i, x, y);
    Twice(s, i, y, w);
    assert s.workers[i := w] == s.workers;
    var all := [Enter, Wake, LookRun, LookIdle];
    WorkerMore(s, i, all, SetWorker(s, i, x), BeginIdle, SetWorker(s, i, y), all + [BeginIdle]);
    WorkerMore(s, i, all + [BeginIdle], SetWorker(s, i, y), IdleDone, s, all + [BeginIdle] + [IdleDone]);
    assert all + [BeginIdle] + [IdleDone] == IDLING;
  }

  /** Told to exit, it ends. */
  lemma ToldToExitEnds(s: State, i: nat)
    requires i < |s.workers| && s.workers[i] == Worker(Exit, None, LoopTop) && s.workRun && !DispatcherLocks(s.disp, i)
    ensures RunFrom(s, Worked(i, [Enter, Wake, LookRun, LookIdle, LookExit])) == Some(SetWorker(s, i, Worker(Exited, None, Over)))
  {
    hide RunFrom, Worked;
    var w := s.workers[i];
    var x, y := w.(pc := NotIdle), Worker(Exited, None, Over);
    FindsNoJob(s, i, w);
    Twice(s, i, x, y);
    var all := [Enter, Wake, LookRun, LookIdle];
    WorkerMore(s, i, all, SetWorker(s, i, x), LookExit, SetWorker(s, i, y), all + [LookExit]);
    assert all + [LookExit] == [Enter, Wake, LookRun, LookIdle, LookExit];
  }

  /** In any other state it becomes idle again. */
  lemma OtherStatesReset(s: State, i: nat)
    requires i < |s.workers| && s.workers[i].pc.LoopTop? && s.workRun && !DispatcherLocks(s.disp, i)
    requires !s.workers[i].stat.Run? && !s.workers[i].stat.Suspend? && !s.workers[i].stat.Exit?
    ensures RunFrom(s, Worked(i, [Enter, Wake, LookRun, LookIdle, LookExit, Reset]))
      == Some(SetWorker(s, i, s.workers[i].(stat := Suspend)))
  {
    hide RunFrom, Worked;
    var w := s.workers[i];
    var x, y, z := w.(pc := NotIdle), w.(pc := Resets), w.(stat := Suspend);
    FindsNoJob(s, i, w);
    Twice(s, i, x, y);
    Twice(s, i, y, z);
    var all, more := [Enter, Wake, LookRun, LookIdle], [Enter, Wake, LookRun, LookIdle, LookExit];
    WorkerMore(s, i, all, SetWorker(s, i, x), LookExit, SetWorker(s, i, y), more);
    WorkerMore(s, i, more, SetWorker(s, i, y), Reset, SetWorker(s, i, z), more + [Reset]);
    assert more + [Reset] == [Enter, Wake, LookRun, LookIdle, LookExit, Reset];
  }

  /** Once the pool is stopped, a worker ends at its loop test. */
  lemma StoppedWorkerEnds(s: State, i: nat)
    requires i < |s.workers| && s.workers[i].pc.LoopTop? && !s.workRun
    ensures RunFrom(s, Worked(i, [Enter])) == Some(SetWorker(s, i, s.workers[i].(stat := Exited, pc := Over)))
  {
    hide RunFrom, Worked;
    Nothing(s, i);
    WorkerMore(s, i, [], s, Enter, SetWorker(s, i, s.workers[i].(stat := Exited, pc := Over)), [Enter]);
  }
}
