/**
 The connection-dispatch protocol of the thread pool (tst/tst.cpp): one dispatcher
 thread, a fixed set of worker threads, outside callers, and the kernel.

 The model is a step system.  A step is one access to shared state, or one group of
 accesses made under one mutex.  The unlocked tests of dispatcher and worker, the
 locked assignment, the locked finish sequence and the stages of closesocket() are
 separate steps, so every interleaving of them is a run.
 */
module Dispatch {
  import opened Wrappers

  type Fd = int

  /** A TST_SOCKET object, numbered in order of accept(): descriptor numbers are
      reused by the kernel, generations never are. */
  type Gen = nat

  datatype Stat = Suspend | Run | Send | Reconnected | Disconnect | Exit | Exited

  /** One entry of the epoll set: disarmed after a one-shot event, or armed, with or without EPOLLOUT. */
  datatype Interest = Off | On(out: bool)

  /** An event as epoll reported it.  `gen` is the connection that was behind `fd` at
      that moment; the code only sees `fd`. */
  datatype Event = Listen(readable: bool) | Ready(fd: Fd, gen: Gen)

  /** The stages of closesocket(): erase from m_connect, EPOLL_CTL_DEL, close(), delete. */
  datatype Phase = Erase | Detach | Close | Free | Done
  datatype Closing = Closing(fd: Fd, phase: Phase, sock: Option<Gen>)

  /** What the dispatcher does once a closesocket() call of its own returns. */
  datatype After = NextEvent | RearmListener | AddFresh(sock: Gen)

  datatype DispatcherPc =
    | Top                                // head of the dispatch loop
    | Accepted(sock: Gen)               // accept() returned and the TST_SOCKET is built
    | Added(sock: Gen)                  // in m_connect, m_fconnected about to answer
    | Rearm                              // about to re-arm the listening socket
    | Shut(job: Closing, after: After)   // inside closesocket()
    | Scan(i: nat, sock: Gen)            // about to read worker i's thread_stat without its lock
    | Claim(i: nat, sock: Gen)           // saw worker i idle, about to lock its mutex
    | Holding(i: nat, sock: Gen)         // holds worker i's mutex
    | Marked(i: nat, sock: Gen)          // holds it and has written thread_stat
    | Stopping(i: nat)                   // telling idle workers to exit
    | Joining                            // waiting for the workers
    | Destroying                         // destroy() walks m_connect
    | Stranded                           // the thread ended by itself; destroy() will return at once
    | Finished
    | Wild                               // dereferenced m_connect.end()

  datatype WorkerPc =
    | LoopTop                            // about to test m_work_run
    | Waiting                            // in pthread_cond_timedwait
    | Awake                              // has given its mutex back, about to test for tst_run
    | Chosen                             // saw tst_run, about to read tst_socket
    | NotRun                             // did not, about to test for tst_suspend
    | SawIdle                            // saw tst_suspend, about to write tst_run
    | NotIdle                            // did not, about to test for tst_exit
    | Resets                             // saw none of them, about to write tst_suspend
    | Working(sock: Gen)                 // transfers data and runs tst_func
    | Ended(sock: Gen, next: Stat)       // holds its mutex, about to close or re-arm
    | Closes(sock: Gen, job: Closing)    // holds its mutex, inside closesocket()
    | Released(next: Stat)               // holds its mutex; the socket is closed or re-armed
    | Stamped                            // holds its mutex; thread_stat written, tst_socket not yet cleared
    | Idling                             // in the idle branch
    | Over                               // thread ended
    | Crashed                            // dereferenced a NULL tst_socket

  datatype Worker = Worker(stat: Stat, slot: Option<Gen>, pc: WorkerPc)

  datatype State = State(
    sd: seq<Fd>,                 // sd[g]: the descriptor in TST_SOCKET g
    kernel: map<Fd, Gen>,        // open descriptors
    connect: map<Fd, Gen>,       // m_connect
    interest: map<Fd, Interest>, // the epoll set
    listenArmed: bool,
    batch: seq<Event>,           // m_events[0..nCheckCount)
    disp: DispatcherPc,
    workers: seq<Worker>,
    outside: seq<Closing>,       // closesocket() calls made by other threads
    mainRun: bool,
    workRun: bool,
    asked: bool,                 // destroy() got past its test of m_main_run
    closed: multiset<Gen>,       // every close() of a connection, ever
    freed: multiset<Gen>)        // every delete of a TST_SOCKET, ever

  datatype DispatcherAction =
    | Fetch(events: seq<Event>)
    | Accept(fd: Fd)
    | AcceptFails
    | ListenOther(hangup: bool)
    | AddSocket
    | Answer(next: Stat)
    | RearmListen
    | Dead
    | ShutStep
    | Find
    | Test
    | Lock
    | Mark
    | Post

  datatype WorkerAction =
    | Enter
    | Wake
    | LookRun
    | Take
    | LookIdle
    | BeginIdle
    | LookExit
    | Reset
    | Finish(next: Stat)
    | Settle
    | CloseStep
    | Stamp
    | Clear
    | IdleDone

  datatype OutsideAction =
    | NeedSend(fd: Fd)
    | OutsideClose(fd: Fd)
    | OutsideStep(k: nat)

  datatype ShutdownAction =
    | StopRequest
    | StopWork
    | StopOne
    | Join
    | DestroyOne(fd: Fd)
    | DestroyEnds

  datatype Action =
    | ByDispatcher(d: DispatcherAction)
    | ByWorker(i: nat, w: WorkerAction)
    | ByOutsider(o: OutsideAction)
    | ByShutdown(x: ShutdownAction)

  // ------------------------------------------------------------------
  // Pieces of the steps
  // ------------------------------------------------------------------

  /** The dispatcher is working on the last event of the batch: nCheckCount still counts it. */
  predicate Processing(pc: DispatcherPc) {
    pc.Accepted? || pc.Added? || pc.Rearm? || pc.Shut? || pc.Scan? || pc.Claim? || pc.Holding? || pc.Marked?
  }

  predicate DispatcherLocks(pc: DispatcherPc, i: nat) {
    (pc.Holding? || pc.Marked?) && pc.i == i
  }

  predicate WorkerLocks(w: Worker) {
    w.pc.Ended? || w.pc.Closes? || w.pc.Released? || w.pc.Stamped?
  }

  function Last(s: State): Event
    requires |s.batch| > 0
  {
    s.batch[|s.batch| - 1]
  }

  function DropLast(s: State): seq<Event>
    requires |s.batch| > 0
  {
    s.batch[..|s.batch| - 1]
  }

  function SetWorker(s: State, i: nat, w: Worker): State
    requires i < |s.workers|
  {
    s.(workers := s.workers[i := w])
  }

  /** One stage of closesocket(job.fd). */
  function CloseStage(s: State, job: Closing): (State, Closing)
    requires !job.phase.Done?
  {
    match job.phase
    case Erase =>
      if job.fd in s.connect
      then (s.(connect := s.connect - {job.fd}), Closing(job.fd, Detach, Some(s.connect[job.fd])))
      else (s, Closing(job.fd, Detach, None))
    case Detach =>
      (s.(interest := s.interest - {job.fd}), job.(phase := Close))
    case Close =>
      (if job.fd in s.kernel
       then s.(kernel := s.kernel - {job.fd}, interest := s.interest - {job.fd},
               closed := s.closed + multiset{s.kernel[job.fd]})
       else s,
       job.(phase := Free))
    case Free =>
      (if job.sock.Some? then s.(freed := s.freed + multiset{job.sock.value}) else s, job.(phase := Done))
  }

  /** epoll_wait may report any armed descriptors, each once, at most one per worker. */
  predicate FetchOk(s: State, events: seq<Event>) {
    && |events| <= |s.workers|
    && (forall k :: 0 <= k < |events| ==>
          match events[k]
          case Listen(_) => s.listenArmed
          case Ready(fd, gen) => fd in s.interest && s.interest[fd].On? && fd in s.kernel && s.kernel[fd] == gen)
    && (forall j, k :: 0 <= j < k < |events| ==>
          events[j] != events[k] && !(events[j].Listen? && events[k].Listen?))
  }

  predicate CanFetch(s: State, events: seq<Event>) {
    s.disp.Top? && s.mainRun && s.batch == [] && FetchOk(s, events)
  }

  function DoFetch(s: State, events: seq<Event>): State
    requires CanFetch(s, events)
  {
    s.(batch := events,
       listenArmed := s.listenArmed && Listen(true) !in events && Listen(false) !in events,
       interest := map fd | fd in s.interest ::
         if fd in s.kernel && Ready(fd, s.kernel[fd]) in events then Off else s.interest[fd])
  }

  predicate CanAccept(s: State, fd: Fd) {
    s.disp.Top? && s.mainRun && s.batch != [] && Last(s) == Listen(true) && fd > 0 && fd !in s.kernel
  }

  function DoAccept(s: State, fd: Fd): State
    requires CanAccept(s, fd)
  {
    s.(sd := s.sd + [fd], kernel := s.kernel[fd := |s.sd|], disp := Accepted(|s.sd|))
  }

  predicate CanAcceptFails(s: State) {
    s.disp.Top? && s.mainRun && s.batch != [] && Last(s) == Listen(true)
  }

  function DoAcceptFails(s: State): State
    requires CanAcceptFails(s)
  {
    s.(batch := DropLast(s))
  }

  predicate CanListenOther(s: State, hangup: bool) {
    s.disp.Top? && s.mainRun && s.batch != [] && Last(s) == Listen(false)
  }

  function DoListenOther(s: State, hangup: bool): State
    requires CanListenOther(s, hangup)
  {
    s.(batch := DropLast(s), mainRun := s.mainRun && !hangup)
  }

  predicate CanAddSocket(s: State) {
    s.disp.Accepted? && s.disp.sock < |s.sd|
  }

  function DoAddSocket(s: State): State
    requires CanAddSocket(s)
  {
    var g := s.disp.sock;
    if s.sd[g] in s.connect
    then s.(disp := Shut(Closing(s.sd[g], Erase, None), AddFresh(g)))
    else s.(connect := s.connect[s.sd[g] := g], disp := Added(g))
  }

  predicate CanAnswer(s: State, next: Stat) {
    s.disp.Added? && s.disp.sock < |s.sd|
  }

  function DoAnswer(s: State, next: Stat): State
    requires CanAnswer(s, next)
  {
    var g := s.disp.sock;
    if next.Suspend? || next.Run? || next.Send?
    then s.(interest := s.interest[s.sd[g] := On(next.Send?)], disp := Rearm)
    else s.(disp := Shut(Closing(s.sd[g], Erase, None), RearmListener))
  }

  predicate CanRearmListen(s: State) {
    s.disp.Rearm? && s.batch != []
  }

  function DoRearmListen(s: State): State
    requires CanRearmListen(s)
  {
    s.(listenArmed := true, batch := DropLast(s), disp := Top)
  }

  predicate CanDead(s: State) {
    s.disp.Top? && s.mainRun && s.batch != [] && Last(s).Ready?
  }

  function DoDead(s: State): State
    requires CanDead(s)
  {
    s.(disp := Shut(Closing(Last(s).fd, Erase, None), NextEvent))
  }

  predicate CanShutStep(s: State) {
    && s.disp.Shut? && !s.disp.job.phase.Done? && s.batch != []
    && (s.disp.after.AddFresh? ==> s.disp.after.sock < |s.sd|)
  }

  function DoShutStep(s: State): State
    requires CanShutStep(s)
  {
    var (t, job) := CloseStage(s, s.disp.job);
    if !job.phase.Done? then t.(disp := Shut(job, s.disp.after))
    else (match s.disp.after
          case NextEvent => t.(batch := DropLast(s), disp := Top)
          case RearmListener => t.(disp := Rearm)
          case AddFresh(g) => t.(connect := t.connect[t.sd[g] := g], disp := Added(g)))
  }

  predicate CanFind(s: State) {
    s.disp.Top? && s.mainRun && s.batch != [] && Last(s).Ready?
  }

  function DoFind(s: State): State
    requires CanFind(s)
  {
    if Last(s).fd in s.connect then s.(disp := Scan(0, s.connect[Last(s).fd])) else s.(disp := Wild)
  }

  predicate CanTest(s: State) {
    s.disp.Scan?
  }

  function DoTest(s: State): State
    requires CanTest(s)
  {
    var i, g := s.disp.i, s.disp.sock;
    if i >= |s.workers| then s.(disp := Top)
    else if s.workers[i].stat.Suspend? then s.(disp := Claim(i, g))
    else s.(disp := Scan(i + 1, g))
  }

  predicate CanLock(s: State) {
    s.disp.Claim? && s.disp.i < |s.workers| && !WorkerLocks(s.workers[s.disp.i])
  }

  function DoLock(s: State): State
    requires CanLock(s)
  {
    s.(disp := Holding(s.disp.i, s.disp.sock))
  }

  predicate CanMark(s: State) {
    s.disp.Holding? && s.disp.i < |s.workers|
  }

  function DoMark(s: State): State
    requires CanMark(s)
  {
    SetWorker(s, s.disp.i, s.workers[s.disp.i].(stat := Run)).(disp := Marked(s.disp.i, s.disp.sock))
  }

  predicate CanPost(s: State) {
    s.disp.Marked? && s.disp.i < |s.workers| && s.batch != []
  }

  function DoPost(s: State): State
    requires CanPost(s)
  {
    SetWorker(s, s.disp.i, s.workers[s.disp.i].(slot := Some(s.disp.sock))).(batch := DropLast(s), disp := Top)
  }

  predicate CanStopWork(s: State) {
    s.disp.Top? && !s.mainRun
  }

  function DoStopWork(s: State): State
    requires CanStopWork(s)
  {
    s.(workRun := false, disp := Stopping(0))
  }

  predicate CanStopOne(s: State) {
    s.disp.Stopping? && (s.disp.i < |s.workers| ==> !WorkerLocks(s.workers[s.disp.i]))
  }

  function DoStopOne(s: State): State
    requires CanStopOne(s)
  {
    var i := s.disp.i;
    if i >= |s.workers| then s.(disp := Joining)
    else if s.workers[i].stat.Suspend?
    then SetWorker(s, i, s.workers[i].(stat := Exit)).(disp := Stopping(i + 1))
    else s.(disp := Stopping(i + 1))
  }

  predicate CanJoin(s: State) {
    && s.disp.Joining?
    && (forall i :: 0 <= i < |s.workers| ==> s.workers[i].pc.Over?)
    && (forall k :: 0 <= k < |s.outside| ==> s.outside[k].phase.Done?)
  }

  function DoJoin(s: State): State
    requires CanJoin(s)
  {
    s.(disp := if s.asked then Destroying else Stranded)
  }

  predicate CanDestroyOne(s: State, fd: Fd) {
    s.disp.Destroying? && fd in s.connect
  }

  function DoDestroyOne(s: State, fd: Fd): State
    requires CanDestroyOne(s, fd)
  {
    s.(connect := s.connect - {fd}, interest := s.interest - {fd}, kernel := s.kernel - {fd},
       closed := if fd in s.kernel then s.closed + multiset{s.kernel[fd]} else s.closed,
       freed := s.freed + multiset{s.connect[fd]})
  }

  predicate CanDestroyEnds(s: State) {
    s.disp.Destroying? && s.connect == map[]
  }

  function DoDestroyEnds(s: State): State
    requires CanDestroyEnds(s)
  {
    s.(disp := Finished)
  }

  predicate CanEnter(s: State, i: nat) {
    i < |s.workers| && s.workers[i].pc.LoopTop?
  }

  function DoEnter(s: State, i: nat): State
    requires CanEnter(s, i)
  {
    SetWorker(s, i, if s.workRun then s.workers[i].(pc := Waiting)
                    else s.workers[i].(pc := Over, stat := Exited))
  }

  predicate CanWake(s: State, i: nat) {
    i < |s.workers| && s.workers[i].pc.Waiting? && !DispatcherLocks(s.disp, i)
  }

  function DoWake(s: State, i: nat): State
    requires CanWake(s, i)
  {
    SetWorker(s, i, s.workers[i].(pc := Awake))
  }

  predicate CanLookRun(s: State, i: nat) {
    i < |s.workers| && s.workers[i].pc.Awake?
  }

  /** From here to the end of the idle branch thread_stat and tst_socket are accessed without the mutex. */
  function DoLookRun(s: State, i: nat): State
    requires CanLookRun(s, i)
  {
    SetWorker(s, i, s.workers[i].(pc := if s.workers[i].stat.Run? then Chosen else NotRun))
  }

  predicate CanTake(s: State, i: nat) {
    i < |s.workers| && s.workers[i].pc.Chosen?
  }

  function DoTake(s: State, i: nat): State
    requires CanTake(s, i)
  {
    var w := s.workers[i];
    SetWorker(s, i, w.(pc := if w.slot.Some? then Working(w.slot.value) else Crashed))
  }

  predicate CanLookIdle(s: State, i: nat) {
    i < |s.workers| && s.workers[i].pc.NotRun?
  }

  function DoLookIdle(s: State, i: nat): State
    requires CanLookIdle(s, i)
  {
    SetWorker(s, i, s.workers[i].(pc := if s.workers[i].stat.Suspend? then SawIdle else NotIdle))
  }

  predicate CanBeginIdle(s: State, i: nat) {
    i < |s.workers| && s.workers[i].pc.SawIdle?
  }

  function DoBeginIdle(s: State, i: nat): State
    requires CanBeginIdle(s, i)
  {
    SetWorker(s, i, s.workers[i].(stat := Run, pc := Idling))
  }

  predicate CanLookExit(s: State, i: nat) {
    i < |s.workers| && s.workers[i].pc.NotIdle?
  }

  function DoLookExit(s: State, i: nat): State
    requires CanLookExit(s, i)
  {
    SetWorker(s, i, if s.workers[i].stat.Exit? then s.workers[i].(stat := Exited, pc := Over) else s.workers[i].(pc := Resets))
  }

  predicate CanReset(s: State, i: nat) {
    i < |s.workers| && s.workers[i].pc.Resets? && !DispatcherLocks(s.disp, i)
  }

  function DoReset(s: State, i: nat): State
    requires CanReset(s, i)
  {
    SetWorker(s, i, s.workers[i].(stat := Suspend, pc := LoopTop))
  }

  predicate CanFinish(s: State, i: nat, next: Stat) {
    i < |s.workers| && s.workers[i].pc.Working? && !DispatcherLocks(s.disp, i) && !next.Run?
  }

  function DoFinish(s: State, i: nat, next: Stat): State
    requires CanFinish(s, i, next)
  {
    SetWorker(s, i, s.workers[i].(pc := Ended(s.workers[i].pc.sock, next)))
  }

  predicate CanSettle(s: State, i: nat) {
    i < |s.workers| && s.workers[i].pc.Ended? && s.workers[i].pc.sock < |s.sd|
  }

  function DoSettle(s: State, i: nat): State
    requires CanSettle(s, i)
  {
    var w := s.workers[i];
    var g := w.pc.sock;
    if w.pc.next.Disconnect?
    then SetWorker(s, i, w.(pc := Closes(g, Closing(s.sd[g], Erase, None))))
    else
      var t := if s.sd[g] in s.interest then s.(interest := s.interest[s.sd[g] := On(w.pc.next.Send?)]) else s;
      SetWorker(t, i, w.(pc := Released(if w.pc.next.Send? then Suspend else w.pc.next)))
  }

  predicate CanCloseStep(s: State, i: nat) {
    i < |s.workers| && s.workers[i].pc.Closes? && !s.workers[i].pc.job.phase.Done?
  }

  function DoCloseStep(s: State, i: nat): State
    requires CanCloseStep(s, i)
  {
    var w := s.workers[i];
    var (t, job) := CloseStage(s, w.pc.job);
    SetWorker(t, i, w.(pc := if job.phase.Done? then Released(Suspend) else Closes(w.pc.sock, job)))
  }

  predicate CanStamp(s: State, i: nat) {
    i < |s.workers| && s.workers[i].pc.Released?
  }

  function DoStamp(s: State, i: nat): State
    requires CanStamp(s, i)
  {
    SetWorker(s, i, s.workers[i].(stat := s.workers[i].pc.next, pc := Stamped))
  }

  predicate CanClear(s: State, i: nat) {
    i < |s.workers| && s.workers[i].pc.Stamped?
  }

  function DoClear(s: State, i: nat): State
    requires CanClear(s, i)
  {
    SetWorker(s, i, s.workers[i].(slot := None, pc := LoopTop))
  }

  predicate CanIdleDone(s: State, i: nat) {
    i < |s.workers| && s.workers[i].pc.Idling? && !DispatcherLocks(s.disp, i)
  }

  function DoIdleDone(s: State, i: nat): State
    requires CanIdleDone(s, i)
  {
    SetWorker(s, i, s.workers[i].(stat := Suspend, pc := LoopTop))
  }

  predicate CanNeedSend(s: State, fd: Fd) {
    s.mainRun && fd in s.interest
  }

  function DoNeedSend(s: State, fd: Fd): State
    requires CanNeedSend(s, fd)
  {
    s.(interest := s.interest[fd := On(true)])
  }

  predicate CanOutsideClose(s: State, fd: Fd) {
    !s.disp.Destroying? && !s.disp.Finished?
  }

  function DoOutsideClose(s: State, fd: Fd): State
    requires CanOutsideClose(s, fd)
  {
    var (t, job) := CloseStage(s, Closing(fd, Erase, None));
    t.(outside := s.outside + [job])
  }

  predicate CanOutsideStep(s: State, k: nat) {
    k < |s.outside| && !s.outside[k].phase.Done?
  }

  function DoOutsideStep(s: State, k: nat): State
    requires CanOutsideStep(s, k)
  {
    var (t, job) := CloseStage(s, s.outside[k]);
    t.(outside := s.outside[k := job])
  }

  predicate CanStopRequest(s: State) {
    true
  }

  function DoStopRequest(s: State): State
    requires CanStopRequest(s)
  {
    if s.mainRun then s.(mainRun := false, asked := true) else s
  }

  predicate EnabledDispatcher(s: State, a: DispatcherAction) {
    match a
    case Fetch(events) => CanFetch(s, events)
    case Accept(fd) => CanAccept(s, fd)
    case AcceptFails => CanAcceptFails(s)
    case ListenOther(hangup) => CanListenOther(s, hangup)
    case AddSocket => CanAddSocket(s)
    case Answer(next) => CanAnswer(s, next)
    case RearmListen => CanRearmListen(s)
    case Dead => CanDead(s)
    case ShutStep => CanShutStep(s)
    case Find => CanFind(s)
    case Test => CanTest(s)
    case Lock => CanLock(s)
    case Mark => CanMark(s)
    case Post => CanPost(s)
  }

  function ApplyDispatcher(s: State, a: DispatcherAction): State
    requires EnabledDispatcher(s, a)
  {
    match a
    case Fetch(events) => DoFetch(s, events)
    case Accept(fd) => DoAccept(s, fd)
    case AcceptFails => DoAcceptFails(s)
    case ListenOther(hangup) => DoListenOther(s, hangup)
    case AddSocket => DoAddSocket(s)
    case Answer(next) => DoAnswer(s, next)
    case RearmListen => DoRearmListen(s)
    case Dead => DoDead(s)
    case ShutStep => DoShutStep(s)
    case Find => DoFind(s)
    case Test => DoTest(s)
    case Lock => DoLock(s)
    case Mark => DoMark(s)
    case Post => DoPost(s)
  }

  predicate EnabledWorker(s: State, i: nat, a: WorkerAction) {
    match a
    case Enter => CanEnter(s, i)
    case Wake => CanWake(s, i)
    case LookRun => CanLookRun(s, i)
    case Take => CanTake(s, i)
    case LookIdle => CanLookIdle(s, i)
    case BeginIdle => CanBeginIdle(s, i)
    case LookExit => CanLookExit(s, i)
    case Reset => CanReset(s, i)
    case Finish(next) => CanFinish(s, i, next)
    case Settle => CanSettle(s, i)
    case CloseStep => CanCloseStep(s, i)
    case Stamp => CanStamp(s, i)
    case Clear => CanClear(s, i)
    case IdleDone => CanIdleDone(s, i)
  }

  function ApplyWorker(s: State, i: nat, a: WorkerAction): State
    requires EnabledWorker(s, i, a)
  {
    match a
    case Enter => DoEnter(s, i)
    case Wake => DoWake(s, i)
    case LookRun => DoLookRun(s, i)
    case Take => DoTake(s, i)
    case LookIdle => DoLookIdle(s, i)
    case BeginIdle => DoBeginIdle(s, i)
    case LookExit => DoLookExit(s, i)
    case Reset => DoReset(s, i)
    case Finish(next) => DoFinish(s, i, next)
    case Settle => DoSettle(s, i)
    case CloseStep => DoCloseStep(s, i)
    case Stamp => DoStamp(s, i)
    case Clear => DoClear(s, i)
    case IdleDone => DoIdleDone(s, i)
  }

  predicate EnabledOutside(s: State, a: OutsideAction) {
    match a
    case NeedSend(fd) => CanNeedSend(s, fd)
    case OutsideClose(fd) => CanOutsideClose(s, fd)
    case OutsideStep(k) => CanOutsideStep(s, k)
  }

  function ApplyOutside(s: State, a: OutsideAction): State
    requires EnabledOutside(s, a)
  {
    match a
    case NeedSend(fd) => DoNeedSend(s, fd)
    case OutsideClose(fd) => DoOutsideClose(s, fd)
    case OutsideStep(k) => DoOutsideStep(s, k)
  }

  predicate EnabledShutdown(s: State, a: ShutdownAction) {
    match a
    case StopRequest => CanStopRequest(s)
    case StopWork => CanStopWork(s)
    case StopOne => CanStopOne(s)
    case Join => CanJoin(s)
    case DestroyOne(fd) => CanDestroyOne(s, fd)
    case DestroyEnds => CanDestroyEnds(s)
  }

  function ApplyShutdown(s: State, a: ShutdownAction): State
    requires EnabledShutdown(s, a)
  {
    match a
    case StopRequest => DoStopRequest(s)
    case StopWork => DoStopWork(s)
    case StopOne => DoStopOne(s)
    case Join => DoJoin(s)
    case DestroyOne(fd) => DoDestroyOne(s, fd)
    case DestroyEnds => DoDestroyEnds(s)
  }

  predicate Enabled(s: State, a: Action) {
    match a
    case ByDispatcher(d) => EnabledDispatcher(s, d)
    case ByWorker(i, w) => EnabledWorker(s, i, w)
    case ByOutsider(o) => EnabledOutside(s, o)
    case ByShutdown(x) => EnabledShutdown(s, x)
  }

  function Apply(s: State, a: Action): State
    requires Enabled(s, a)
  {
    match a
    case ByDispatcher(d) => ApplyDispatcher(s, d)
    case ByWorker(i, w) => ApplyWorker(s, i, w)
    case ByOutsider(o) => ApplyOutside(s, o)
    case ByShutdown(x) => ApplyShutdown(s, x)
  }

  predicate Init(s: State) {
    && s.sd == [] && s.kernel == map[] && s.connect == map[] && s.interest == map[]
    && s.listenArmed && s.batch == [] && s.disp == Top && s.outside == []
    && s.mainRun && s.workRun && !s.asked && s.closed == multiset{} && s.freed == multiset{}
    && (forall i :: 0 <= i < |s.workers| ==> s.workers[i] == Worker(Suspend, None, LoopTop))
  }
}
