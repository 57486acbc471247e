/**
 Where a connection can be, and the invariant that every connection is in exactly one
 such place.
 */
module DispatchPlaces {
  import opened Wrappers
  import opened Dispatch

  datatype Place = Armed | Pending(k: nat) | Held | Owned(i: nat) | Outside(k: nat)

  /** g's descriptor is open and still belongs to g. */
  ghost predicate Open(s: State, g: Gen) {
    g < |s.sd| && s.sd[g] in s.kernel && s.kernel[s.sd[g]] == g
  }

  /** g is in m_connect. */
  ghost predicate Registered(s: State, g: Gen) {
    g < |s.sd| && s.sd[g] in s.connect && s.connect[s.sd[g]] == g
  }

  /** g can be re-armed: EPOLL_CTL_MOD will find its descriptor. */
  ghost predicate Ours(s: State, g: Gen) {
    Registered(s, g) && s.sd[g] in s.interest
  }

  /** g was accepted and its TST_SOCKET is not deleted. */
  ghost predicate Live(s: State, g: Gen) {
    g < |s.sd| && g !in s.freed
  }

  /** The call `job` of closesocket() has g in hand. */
  ghost predicate Closer(s: State, job: Closing, g: Gen) {
    if job.phase.Erase? then job.fd in s.connect && s.connect[job.fd] == g
    else !job.phase.Done? && job.sock == Some(g)
  }

  /** A worker or an outside caller is in closesocket(fd), between its erase and its EPOLL_CTL_DEL:
      the descriptor is out of m_connect but still in the epoll set. */
  predicate Leaving(s: State, fd: Fd) {
    || (exists i :: 0 <= i < |s.workers| && s.workers[i].pc.Closes? && Leaves(s.workers[i].pc.job, fd))
    || (exists k :: 0 <= k < |s.outside| && Leaves(s.outside[k], fd))
  }

  predicate Leaves(job: Closing, fd: Fd) {
    job.phase.Detach? && job.sock.Some? && job.fd == fd
  }

  function PendingCount(s: State): nat {
    if Processing(s.disp) && s.batch != [] then |s.batch| - 1 else |s.batch|
  }

  ghost predicate Holds(s: State, g: Gen) {
    match s.disp
    case Accepted(h) => g == h
    case Added(h) => g == h
    case Shut(job, _) => Closer(s, job, g)
    case Scan(_, _) => s.batch != [] && Last(s).Ready? && Last(s).gen == g
    case Claim(_, _) => s.batch != [] && Last(s).Ready? && Last(s).gen == g
    case Holding(_, _) => s.batch != [] && Last(s).Ready? && Last(s).gen == g
    case Marked(_, _) => s.batch != [] && Last(s).Ready? && Last(s).gen == g
    case _ => false
  }

  /** Logical ownership: it starts when tst_socket is assigned and ends at the re-arm (or
      the delete), although tst_socket still points at g until the worker clears it. */
  ghost predicate Owns(s: State, w: Worker, g: Gen) {
    match w.pc
    case Working(h) => h == g
    case Ended(h, _) => h == g
    case Closes(_, job) => Closer(s, job, g)
    case Released(_) => false
    case Stamped => false
    case Crashed => false
    case _ => w.slot == Some(g)
  }

  ghost predicate In(s: State, g: Gen, p: Place) {
    match p
    case Armed => Ours(s, g) && s.interest[s.sd[g]].On?
    case Pending(k) => k < PendingCount(s) && s.batch[k].Ready? && s.batch[k].gen == g
    case Held => Holds(s, g)
    case Owned(i) => i < |s.workers| && Owns(s, s.workers[i], g)
    case Outside(k) => k < |s.outside| && Closer(s, s.outside[k], g)
  }

  ghost predicate Placed(s: State) {
    && (forall g: Gen, p: Place :: In(s, g, p) ==> Live(s, g))
    && (forall g: Gen :: Live(s, g) ==> exists p: Place :: In(s, g, p))
    && (forall g: Gen, p: Place, q: Place :: In(s, g, p) && In(s, g, q) ==> p == q)
  }

  // ------------------------------------------------------------------
  // The rest of the invariant
  // ------------------------------------------------------------------

  ghost predicate Tables(s: State) {
    && (forall fd :: fd in s.kernel ==> s.kernel[fd] < |s.sd| && s.sd[s.kernel[fd]] == fd)
    && (forall fd :: fd in s.connect ==>
          && s.connect[fd] < |s.sd| && s.sd[s.connect[fd]] == fd && s.connect[fd] !in s.freed
          && fd in s.kernel && s.kernel[fd] == s.connect[fd])
    && (forall fd :: fd in s.interest ==> fd in s.kernel)
  }

  /** A descriptor is open until its one close(); a socket is deleted at most once, after that. */
  ghost predicate Counts(s: State) {
    forall g: Gen ::
      && s.closed[g] == (if g < |s.sd| && !Open(s, g) then 1 else 0)
      && s.freed[g] <= s.closed[g]
  }

  /** A closesocket() call past its erase holds the socket it erased, and that one only. */
  ghost predicate JobOk(s: State, job: Closing) {
    && (job.phase.Erase? ==> job.fd in s.connect)
    && (!job.phase.Erase? && !job.phase.Done? ==>
          && job.sock.Some? && job.sock.value < |s.sd| && s.sd[job.sock.value] == job.fd
          && !Registered(s, job.sock.value)
          && (Open(s, job.sock.value) <==> !job.phase.Free?)
          && (job.phase.Close? ==> job.fd !in s.interest))
  }

  ghost predicate PendingOk(s: State) {
    forall k :: 0 <= k < PendingCount(s) && s.batch[k].Ready? ==>
      && Ours(s, s.batch[k].gen) && s.sd[s.batch[k].gen] == s.batch[k].fd
  }

  ghost predicate HeldEvent(s: State, sock: Gen) {
    s.batch != [] && Ours(s, sock) && Last(s) == Ready(s.sd[sock], sock)
  }

  ghost predicate DispatcherOk(s: State) {
    && (Processing(s.disp) ==> s.batch != [])
    && (!s.workRun ==> s.disp.Stopping? || s.disp.Joining? || s.disp.Stranded?)
    && (s.disp.Stopping? || s.disp.Joining? || s.disp.Stranded? ==> !s.mainRun)
    && (s.asked ==> !s.mainRun && !s.disp.Stranded?)
    && match s.disp
       case Accepted(g) =>
         Open(s, g) && s.sd[g] !in s.connect && s.sd[g] !in s.interest && Last(s).Listen?
       case Added(g) => Registered(s, g) && s.sd[g] !in s.interest && Last(s).Listen?
       case Rearm => Last(s).Listen?
       case Shut(job, after) =>
         && JobOk(s, job) && !job.phase.Done? && !after.AddFresh? && (after.RearmListener? ==> Last(s).Listen?)
         && (job.phase.Erase? ==> (job.fd in s.interest <==> after.NextEvent?))
       case Scan(_, g) => HeldEvent(s, g)
       case Claim(i, g) => HeldEvent(s, g) && i < |s.workers| && Claimable(s.workers[i])
       case Holding(i, g) => HeldEvent(s, g) && i < |s.workers| && Takes(s.workers[i])
       case Marked(i, g) =>
         HeldEvent(s, g) && i < |s.workers| && Takes(s.workers[i]) && s.workers[i].stat.Run?
       case Wild => false
       case _ => true
  }

  /** On the way from one job to the next. */
  predicate Between(pc: WorkerPc) {
    || pc.LoopTop? || pc.Waiting? || pc.Awake? || pc.Chosen?
    || pc.NotRun? || pc.SawIdle? || pc.NotIdle? || pc.Resets?
  }

  /** A job can be posted. */
  ghost predicate Takes(w: Worker) {
    w.slot == None && (Between(w.pc) || w.pc.Idling? || w.pc.Over?)
  }

  /** What the unlocked idle test guarantees: free, or about to be once it gives up its mutex. */
  ghost predicate Claimable(w: Worker) {
    Takes(w) || w.pc.Stamped?
  }

  ghost predicate WorkerOk(s: State, i: nat)
    requires i < |s.workers|
  {
    var w := s.workers[i];
    match w.pc
    case LoopTop => Posted(s, i)
    case Waiting => Posted(s, i)
    case Awake => Posted(s, i)
    case Chosen => Posted(s, i) && w.stat.Run?
    case NotRun => Posted(s, i)
    case SawIdle => Posted(s, i)
    case NotIdle => Posted(s, i)
    case Resets => Posted(s, i)
    case Idling => w.stat.Run? && (w.slot.Some? ==> Ours(s, w.slot.value))
    case Over => !w.stat.Suspend? && (w.slot.Some? ==> Ours(s, w.slot.value))
    case Working(g) => w.stat.Run? && w.slot == Some(g) && Ours(s, g)
    case Ended(g, next) => w.stat.Run? && w.slot == Some(g) && Ours(s, g) && !next.Run?
    case Closes(g, job) =>
      && w.stat.Run? && w.slot == Some(g) && g < |s.sd|
      && JobOk(s, job) && !job.phase.Done? && Closer(s, job, g) && (job.phase.Erase? ==> Ours(s, g))
    case Released(next) => w.stat.Run? && !next.Run?
    case Stamped => !w.stat.Run?
    case Crashed => false
  }

  /** A worker between jobs is marked running exactly when it has been given a socket. */
  ghost predicate Posted(s: State, i: nat)
    requires i < |s.workers|
  {
    var w := s.workers[i];
    && (w.slot.Some? ==> w.stat.Run? && Ours(s, w.slot.value))
    && (w.stat.Run? ==> w.slot.Some? || (s.disp.Marked? && s.disp.i == i))
  }

  ghost predicate WorkersOk(s: State) {
    && (forall i: nat :: i < |s.workers| ==> WorkerOk(s, i))
    && (forall i: nat :: i < |s.workers| && WorkerLocks(s.workers[i]) ==> !DispatcherLocks(s.disp, i))
  }

  /** An outside closesocket() call found its socket in m_connect, or found none. */
  ghost predicate OutsideJobOk(s: State, job: Closing) {
    !job.phase.Erase? && (job.sock.Some? ==> JobOk(s, job))
  }

  ghost predicate OutsideOk(s: State) {
    forall k: nat :: k < |s.outside| ==> OutsideJobOk(s, s.outside[k])
  }

  ghost predicate Down(s: State) {
    s.disp.Destroying? || s.disp.Finished?
  }

  /** The inductive invariant.  While destroy() tears down, only m_connect matters. */
  ghost predicate Inv(s: State) {
    && Tables(s) && Counts(s)
    && if Down(s)
       then
         && !s.mainRun && s.asked
         && (forall g: Gen :: Live(s, g) ==> Registered(s, g))
         && (forall i: nat :: i < |s.workers| ==> s.workers[i].pc.Over?)
         && (forall k: nat :: k < |s.outside| ==> s.outside[k].phase.Done?)
         && (s.disp.Finished? ==> s.connect == map[])
       else
         Placed(s) && PendingOk(s) && DispatcherOk(s) && WorkersOk(s) && OutsideOk(s)
  }
}
