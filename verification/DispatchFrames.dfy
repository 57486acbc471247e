/**
 Frame lemmas: what a step leaves alone when it touches at most one connection and at
 most one worker.
 */
module DispatchFrames {
  import opened Wrappers
  import opened Dispatch
  import opened DispatchEffects
  import opened DispatchPlaces

  // ------------------------------------------------------------------
  // Tables, workers and outside calls
  // ------------------------------------------------------------------

  lemma RegisteredIsOpen(s: State)
    requires Tables(s)
    ensures forall g: Gen :: Registered(s, g) ==> Open(s, g) && Live(s, g)
  {
    forall g: Gen | g < |s.sd| ensures Registered(s, g) ==> Open(s, g) && Live(s, g) {
      var fd: Fd := s.sd[g];
    }
  }

  /** g's descriptor is in the epoll set, whether or not g is still in m_connect. */
  ghost predicate Watched(s: State, g: Gen) {
    Open(s, g) && s.sd[g] in s.interest
  }

  /** A step from s to t touches the table entries of no connection but m. */
  ghost predicate Elsewhere(s: State, t: State, m: Gen) {
    && s.sd <= t.sd
    && (forall g: Gen :: g != m ==> (Registered(t, g) <==> Registered(s, g)))
    && (forall g: Gen :: g != m ==> (Open(t, g) <==> Open(s, g)))
    && (forall g: Gen :: g != m ==> (Ours(t, g) <==> Ours(s, g)))
    && (forall g: Gen :: g != m ==> (Watched(t, g) <==> Watched(s, g)))
  }

  lemma CloserFrame(s: State, t: State, m: Gen)
    requires Tables(s) && Tables(t) && Elsewhere(s, t, m)
    ensures forall job: Closing, g: Gen :: g != m ==> (Closer(t, job, g) <==> Closer(s, job, g))
  {
    forall job: Closing, g: Gen | g != m ensures Closer(t, job, g) <==> Closer(s, job, g) {
      assert job.fd in s.connect && s.connect[job.fd] == g ==> Registered(s, g);
      assert job.fd in t.connect && t.connect[job.fd] == g ==> Registered(t, g);
      assert Registered(t, g) <==> Registered(s, g);
    }
  }

  lemma JobFrame(s: State, t: State, m: Gen, job: Closing)
    requires Tables(s) && Tables(t) && Elsewhere(s, t, m)
    requires JobOk(s, job) && !Closer(s, job, m)
    ensures JobOk(t, job)
  {
    if job.phase.Erase? {
      assert Registered(s, s.connect[job.fd]);
      assert Registered(t, s.connect[job.fd]);
    } else if job.phase.Close? {
      assert Watched(t, job.sock.value) <==> Watched(s, job.sock.value);
    }
  }

  /** Workers other than `except` keep their part of the invariant if none of them owns m. */
  lemma WorkersFrame(s: State, t: State, m: Gen, except: nat)
    requires Tables(s) && Tables(t) && Elsewhere(s, t, m)
    requires WorkersOk(s) && |t.workers| == |s.workers|
    requires forall i: nat :: i < |s.workers| && i != except ==>
      && t.workers[i] == s.workers[i] && !In(s, m, Owned(i))
      && (s.disp.Marked? && s.disp.i == i ==> t.disp == s.disp)
    ensures forall i: nat :: i < |t.workers| && i != except ==> WorkerOk(t, i)
  {
    forall i: nat | i < |t.workers| && i != except ensures WorkerOk(t, i) {
      var w := s.workers[i];
      assert WorkerOk(s, i) && !In(s, m, Owned(i));
      if w.pc.Closes? {
        JobFrame(s, t, m, w.pc.job);
        CloserFrame(s, t, m);
        assert w.pc.sock != m;
      }
    }
  }

  lemma PendingFrame(s: State, t: State, m: Gen)
    requires Tables(s) && Tables(t) && Elsewhere(s, t, m) && PendingOk(s)
    requires PendingCount(t) == PendingCount(s)
    requires forall k :: 0 <= k < PendingCount(s) ==> t.batch[k] == s.batch[k] && !In(s, m, Pending(k))
    ensures PendingOk(t)
  {
    forall k | 0 <= k < PendingCount(t) && t.batch[k].Ready?
      ensures Ours(t, t.batch[k].gen) && t.sd[t.batch[k].gen] == t.batch[k].fd
    {
      assert !In(s, m, Pending(k));
    }
  }

  /** Arming m's descriptor touches only m's entry of the epoll set. */
  lemma ArmTables(s: State, t: State, m: Gen, how: Interest)
    requires Tables(s) && Counts(s) && Registered(s, m)
    requires t == s.(interest := s.interest[s.sd[m] := how], disp := t.disp, workers := t.workers)
    ensures Tables(t) && Counts(t) && Elsewhere(s, t, m) && Ours(t, m)
  {
    RegisteredIsOpen(s);
    forall g: Gen
      ensures (Registered(t, g) <==> Registered(s, g)) && (Open(t, g) <==> Open(s, g))
      ensures g != m ==> (Ours(t, g) <==> Ours(s, g))
    {
    }
  }

  lemma OutsideFrame(s: State, t: State, m: Gen)
    requires Tables(s) && Tables(t) && Elsewhere(s, t, m) && t.outside == s.outside && OutsideOk(s)
    requires forall k: nat :: k < |s.outside| ==> !In(s, m, Outside(k))
    ensures OutsideOk(t)
  {
    forall k: nat | k < |t.outside| ensures OutsideJobOk(t, t.outside[k]) {
      assert !In(s, m, Outside(k)) && OutsideJobOk(s, s.outside[k]);
      if s.outside[k].sock.Some? { JobFrame(s, t, m, s.outside[k]); }
    }
  }

  ghost predicate SameTables(s: State, t: State) {
    && t.sd == s.sd && t.kernel == s.kernel && t.connect == s.connect && t.interest == s.interest
    && t.closed == s.closed && t.freed == s.freed && t.outside == s.outside
  }

  lemma TablesFrame(s: State, t: State)
    requires SameTables(s, t) && Tables(s) && Counts(s) && OutsideOk(s)
    ensures Tables(t) && Counts(t) && OutsideOk(t)
    ensures forall g: Gen :: Ours(t, g) <==> Ours(s, g)
    ensures forall g: Gen :: Registered(t, g) <==> Registered(s, g)
    ensures forall job: Closing :: JobOk(s, job) ==> JobOk(t, job)
    ensures forall job: Closing, g: Gen :: Closer(s, job, g) <==> Closer(t, job, g)
  {
    forall k: nat | k < |t.outside| ensures OutsideJobOk(t, t.outside[k]) {
      assert OutsideJobOk(s, s.outside[k]);
    }
  }

  /** A step of the dispatcher's program counter and batch only. */
  lemma DispatcherFrame(s: State, t: State)
    requires SameTables(s, t) && Tables(s) && Counts(s) && OutsideOk(s) && WorkersOk(s)
    requires t.workers == s.workers && !s.disp.Marked?
    requires (t.disp.Holding? || t.disp.Marked?) && t.disp.i < |s.workers| ==> !WorkerLocks(s.workers[t.disp.i])
    ensures Tables(t) && Counts(t) && OutsideOk(t) && WorkersOk(t)
    ensures forall g: Gen :: Ours(t, g) <==> Ours(s, g)
  {
    TablesFrame(s, t);
    forall i: nat | i < |t.workers| ensures WorkerOk(t, i) {
      assert WorkerOk(s, i);
    }
  }

  /** A change of the epoll set alone that takes out no registered descriptor. */
  ghost predicate OnlyInterest(s: State, t: State) {
    && t == s.(interest := t.interest, outside := t.outside)
    && (forall fd :: fd in t.interest ==> fd in s.interest)
    && (forall fd :: fd in s.connect && fd in s.interest ==> fd in t.interest)
  }

  lemma InterestFrame(s: State, t: State)
    requires OnlyInterest(s, t) && Tables(s) && Counts(s)
    ensures Tables(t) && Counts(t)
    ensures forall g: Gen :: (Ours(t, g) <==> Ours(s, g)) && (Registered(t, g) <==> Registered(s, g))
    ensures forall g: Gen :: (Open(t, g) <==> Open(s, g)) && (Live(t, g) <==> Live(s, g))
    ensures forall job: Closing :: JobOk(s, job) ==> JobOk(t, job)
    ensures forall job: Closing, g: Gen :: Closer(s, job, g) <==> Closer(t, job, g)
  {
    forall g: Gen ensures (Ours(t, g) <==> Ours(s, g)) && (Registered(t, g) <==> Registered(s, g)) {
      if g < |s.sd| {
        var fd: Fd := s.sd[g];
        assert (fd in t.interest <==> fd in s.interest) || fd !in s.connect;
      }
    }
  }

  /** Everything but the places and the outside calls survives it. */
  lemma InterestRest(s: State, t: State)
    requires OnlyInterest(s, t) && Tables(s) && Counts(s) && PendingOk(s) && DispatcherOk(s) && WorkersOk(s)
    ensures PendingOk(t) && DispatcherOk(t) && WorkersOk(t)
  {
    hide Tables, Counts, Registered, Open, Live, JobOk, Ours;
    InterestFrame(s, t);
    forall i: nat | i < |t.workers| ensures WorkerOk(t, i) {
      assert WorkerOk(s, i);
    }
    DispatcherInterest(s, t);
  }

  lemma DispatcherInterest(s: State, t: State)
    requires OnlyInterest(s, t) && Tables(s) && Counts(s) && DispatcherOk(s)
    ensures DispatcherOk(t)
  {
    InterestFrame(s, t);
    if s.disp.Shut? && s.disp.job.phase.Erase? { assert s.disp.job.fd in s.connect; }
    if s.disp.Accepted? || s.disp.Added? {
      var fd: Fd := s.sd[s.disp.sock];
      assert fd !in t.interest;
    }
  }

  /** No connection is armed or disarmed by it, and no call comes or goes. */
  lemma InterestPlaces(s: State, t: State)
    requires OnlyInterest(s, t) && Tables(s) && Counts(s) && Placed(s)
    requires forall fd :: fd in s.connect && fd in s.interest ==> (t.interest[fd].On? <==> s.interest[fd].On?)
    requires forall g: Gen, k: nat :: In(t, g, Outside(k)) <==> In(s, g, Outside(k))
    ensures Placed(t)
  {
    InterestFrame(s, t);
    forall g: Gen, p: Place ensures In(t, g, p) <==> In(s, g, p) {
      if p.Outside? { assert In(t, g, Outside(p.k)) <==> In(s, g, Outside(p.k)); }
      if g < |s.sd| {
        var fd: Fd := s.sd[g];
        assert fd in s.connect && fd in s.interest ==> (t.interest[fd].On? <==> s.interest[fd].On?);
      }
    }
    PlacedSame(s, t);
  }

  // ------------------------------------------------------------------
  // How Placed survives a step: nothing moves, one connection moves, one leaves, one comes
  // ------------------------------------------------------------------

  lemma PlacedSame(s: State, t: State)
    requires Placed(s)
    requires forall g: Gen :: Live(s, g) <==> Live(t, g)
    requires forall g: Gen, p: Place :: In(s, g, p) <==> In(t, g, p)
    ensures Placed(t)
  {
    forall g: Gen | Live(t, g) ensures exists p: Place :: In(t, g, p) {
      assert Live(s, g);
      var p: Place :| In(s, g, p);
      assert In(t, g, p);
    }
  }

  lemma PlacedMove(s: State, t: State, m: Gen, from: Place, to: Place)
    requires Placed(s) && In(s, m, from) && In(t, m, to)
    requires forall g: Gen :: Live(s, g) <==> Live(t, g)
    requires forall p: Place :: In(t, m, p) && p != to ==> In(s, m, p) && p != from
    requires forall g: Gen, p: Place :: g != m ==> (In(s, g, p) <==> In(t, g, p))
    ensures Placed(t)
  {
    forall g: Gen | Live(t, g) ensures exists p: Place :: In(t, g, p) {
      if g != m {
        assert Live(s, g);
        var p: Place :| In(s, g, p);
        assert In(t, g, p);
      }
    }
    forall g: Gen, p: Place, q: Place | In(t, g, p) && In(t, g, q) ensures p == q {
      if g != m { assert In(s, g, p) && In(s, g, q); }
    }
  }

  lemma PlacedRemove(s: State, t: State, m: Gen)
    requires Placed(s)
    requires forall g: Gen :: Live(t, g) <==> Live(s, g) && g != m
    requires forall g: Gen, p: Place :: In(t, g, p) <==> In(s, g, p) && g != m
    ensures Placed(t)
  {
    forall g: Gen | Live(t, g) ensures exists p: Place :: In(t, g, p) {
      assert Live(s, g);
      var p: Place :| In(s, g, p);
      assert In(t, g, p);
    }
  }

  lemma PlacedAdd(s: State, t: State, n: Gen, at: Place)
    requires Placed(s) && Live(t, n)
    requires forall g: Gen :: g != n ==> (Live(t, g) <==> Live(s, g))
    requires forall g: Gen, p: Place :: g != n ==> (In(t, g, p) <==> In(s, g, p))
    requires forall p: Place :: In(t, n, p) <==> p == at
    ensures Placed(t)
  {
    forall g: Gen | Live(t, g) ensures exists p: Place :: In(t, g, p) {
      if g == n {
        assert In(t, n, at);
      } else {
        assert Live(s, g);
        var p: Place :| In(s, g, p);
        assert In(t, g, p);
      }
    }
    forall g: Gen, p: Place, q: Place | In(t, g, p) && In(t, g, q) ensures p == q {
      if g != n { assert In(s, g, p) && In(s, g, q); }
    }
  }

  /** A dispatcher step that neither takes up nor drops a connection. */
  lemma QuietPlaces(s: State, t: State)
    requires SameTables(s, t) && Placed(s) && t.workers == s.workers
    requires forall g: Gen :: Holds(t, g) <==> Holds(s, g)
    requires forall g: Gen, k: nat :: In(t, g, Pending(k)) <==> In(s, g, Pending(k))
    ensures Placed(t)
  {
    forall g: Gen, p: Place ensures In(t, g, p) <==> In(s, g, p) {
      if p.Pending? { assert In(t, g, Pending(p.k)) <==> In(s, g, Pending(p.k)); }
    }
    PlacedSame(s, t);
  }

  /** The dispatcher starts on the last event of the batch. */
  lemma TakesUp(s: State, t: State)
    requires SameTables(s, t) && Placed(s) && t.workers == s.workers && t.batch == s.batch
    requires s.disp.Top? && s.batch != [] && Last(s).Ready? && Processing(t.disp)
    requires forall g: Gen :: Holds(t, g) <==> g == Last(s).gen
    ensures Placed(t)
  {
    var m, from := Last(s).gen, Pending(|s.batch| - 1);
    assert In(s, m, from);
    forall g: Gen, p: Place | g != m ensures In(t, g, p) <==> In(s, g, p) {
    }
    PlacedMove(s, t, m, from, Held);
  }

  /** No worker was idle: the event stays pending. */
  lemma PutsBack(s: State, t: State)
    requires SameTables(s, t) && Placed(s) && t.workers == s.workers && t.batch == s.batch
    requires s.disp.Scan? && t.disp.Top? && s.batch != [] && Last(s).Ready?
    ensures Placed(t)
  {
    var m, to := Last(s).gen, Pending(|s.batch| - 1);
    assert In(s, m, Held);
    forall g: Gen, p: Place | g != m ensures In(t, g, p) <==> In(s, g, p) {
    }
    PlacedMove(s, t, m, Held, to);
  }

  // ------------------------------------------------------------------
  // Steps of worker i that leave the tables alone
  // ------------------------------------------------------------------

  /** Only worker i changes, and the dispatcher may rely on it as before. */
  ghost predicate OnlyWorker(s: State, t: State, i: nat) {
    && SameTables(s, t) && i < |s.workers| == |t.workers|
    && t == s.(workers := s.workers[i := t.workers[i]])
  }

  lemma WorkerFrame(s: State, t: State, i: nat)
    requires OnlyWorker(s, t, i) && Tables(s) && Counts(s) && OutsideOk(s) && WorkersOk(s) && PendingOk(s)
    requires DispatcherOk(s) && WorkerOk(t, i)
    requires s.disp.Claim? && s.disp.i == i ==> Claimable(t.workers[i])
    requires DispatcherLocks(s.disp, i) ==> Takes(t.workers[i])
    requires s.disp.Marked? && s.disp.i == i ==> t.workers[i].stat.Run?
    ensures Tables(t) && Counts(t) && OutsideOk(t) && WorkersOk(t) && PendingOk(t) && DispatcherOk(t)
  {
    hide Counts, Tables;
    TablesFrame(s, t);
    forall j: nat | j < |t.workers| ensures WorkerOk(t, j) {
      assert WorkerOk(s, j);
    }
  }

  lemma WorkerKeepsPlaces(s: State, t: State, i: nat)
    requires OnlyWorker(s, t, i) && Placed(s)
    requires forall g: Gen :: Owns(t, t.workers[i], g) <==> Owns(s, s.workers[i], g)
    ensures Placed(t)
  {
    forall g: Gen, p: Place ensures In(t, g, p) <==> In(s, g, p) {
    }
    PlacedSame(s, t);
  }

  // ------------------------------------------------------------------
  // closesocket()
  // ------------------------------------------------------------------

  ghost predicate Shrinks(s: State, t: State) {
    && (forall fd :: fd in t.connect ==> fd in s.connect && s.connect[fd] == t.connect[fd])
    && t.interest.Keys <= s.interest.Keys
  }

  /** What one stage of closing m does: it touches m's entries only, and hands the call on to the next stage. */
  ghost predicate Staged(s: State, t: State, next: Closing, m: Gen) {
    && Tables(t) && Counts(t) && Elsewhere(s, t, m) && JobOk(t, next) && !next.phase.Erase?
    && (if next.phase.Done? then !Live(t, m) else Closer(t, next, m) && Live(t, m))
    && !In(t, m, Armed) && Shrinks(s, t)
    && (forall g: Gen :: g != m ==> (Live(t, g) <==> Live(s, g)) && (In(t, g, Armed) <==> In(s, g, Armed)))
  }

  lemma EraseTables(s: State, job: Closing, m: Gen)
    requires Tables(s) && Counts(s) && job.phase.Erase? && Closer(s, job, m) && Live(s, m)
    ensures Staged(s, CloseStage(s, job).0, CloseStage(s, job).1, m)
  {
    assert Registered(s, m);
    assert forall g: Gen :: g != m ==> (Registered(CloseStage(s, job).0, g) <==> Registered(s, g));
  }

  lemma DetachTables(s: State, job: Closing, m: Gen)
    requires Tables(s) && Counts(s) && job.phase.Detach? && JobOk(s, job) && Closer(s, job, m) && Live(s, m)
    ensures Staged(s, CloseStage(s, job).0, CloseStage(s, job).1, m)
  {
    DetachOpens(s, job.fd, m);
  }

  /** EPOLL_CTL_DEL for the descriptor of m leaves the other connections armed. */
  lemma DetachOpens(s: State, fd: Fd, m: Gen)
    requires Tables(s) && m < |s.sd| && s.sd[m] == fd && Open(s, m)
    ensures var t := s.(interest := s.interest - {fd});
            && (forall g: Gen :: (Registered(t, g) <==> Registered(s, g)) && (Open(t, g) <==> Open(s, g)))
            && (forall g: Gen :: g != m && Open(s, g) ==> s.sd[g] != fd)
            && Tables(t)
  {
  }

  /** close() frees the descriptor of m: every other connection keeps its own. */
  lemma CloseOpens(s: State, fd: Fd, m: Gen)
    requires Tables(s) && Open(s, m) && s.sd[m] == fd && !Registered(s, m)
    ensures var t := s.(kernel := s.kernel - {fd}, interest := s.interest - {fd},
                        closed := s.closed + multiset{s.kernel[fd]});
            && !Open(t, m) && (forall g: Gen :: g != m ==> (Open(t, g) <==> Open(s, g)))
            && (forall g: Gen :: Registered(t, g) <==> Registered(s, g))
            && (forall g: Gen :: g != m && Open(s, g) ==> s.sd[g] != fd)
            && Tables(t)
  {
  }

  lemma CloseTables(s: State, job: Closing, m: Gen)
    requires Tables(s) && Counts(s) && job.phase.Close? && JobOk(s, job) && Closer(s, job, m) && Live(s, m)
    ensures Staged(s, CloseStage(s, job).0, CloseStage(s, job).1, m)
  {
    CloseOpens(s, job.fd, m);
  }

  /** delete touches no table. */
  lemma FreeOpens(s: State, m: Gen)
    requires Tables(s) && Counts(s) && !Registered(s, m) && Live(s, m) && !Open(s, m)
    ensures var t := s.(freed := s.freed + multiset{m});
            && (forall g: Gen :: Registered(t, g) <==> Registered(s, g))
            && (forall g: Gen :: Open(t, g) <==> Open(s, g))
            && (forall g: Gen :: Ours(t, g) <==> Ours(s, g))
            && Counts(t)
  {
    var t := s.(freed := s.freed + multiset{m});
    assert s.freed[m] == 0 && s.closed[m] == 1;
  }

  lemma FreeTables(s: State, job: Closing, m: Gen)
    requires Tables(s) && Counts(s) && job.phase.Free? && JobOk(s, job) && Closer(s, job, m) && Live(s, m)
    ensures Staged(s, CloseStage(s, job).0, CloseStage(s, job).1, m)
  {
    FreeOpens(s, m);
    assert forall fd :: fd in s.connect ==> Registered(s, s.connect[fd]);
  }

  lemma StageTables(s: State, job: Closing, m: Gen)
    requires Tables(s) && Counts(s) && JobOk(s, job) && Closer(s, job, m)
    requires Live(s, m) && !job.phase.Done?
    ensures Staged(s, CloseStage(s, job).0, CloseStage(s, job).1, m)
  {
    match job.phase
    case Erase => EraseTables(s, job, m);
    case Detach => DetachTables(s, job, m);
    case Close => CloseTables(s, job, m);
    case Free => FreeTables(s, job, m);
  }

  /** After a stage, t differs from the table part u in who runs the call and how far it is. */
  lemma StagedTables(s: State, u: State, t: State, next: Closing, m: Gen)
    requires Staged(s, u, next, m) && SameTables(u.(outside := t.outside), t)
    ensures Tables(t) && Counts(t) && Elsewhere(s, t, m) && JobOk(t, next)
    ensures if next.phase.Done? then !Live(t, m) else Closer(t, next, m) && Live(t, m)
    ensures !In(t, m, Armed) && Shrinks(s, t)
    ensures forall g: Gen :: g != m ==> (Live(t, g) <==> Live(s, g)) && (In(t, g, Armed) <==> In(s, g, Armed))
  {
    forall g: Gen ensures (In(t, g, Armed) <==> In(u, g, Armed)) && (Live(t, g) <==> Live(u, g))
      ensures (Registered(t, g) <==> Registered(u, g)) && (Open(t, g) <==> Open(u, g)) && (Ours(t, g) <==> Ours(u, g))
    {
    }
  }

  /** The same for the places, whoever runs the closesocket() call. */
  lemma StagedPlaces(s: State, u: State, t: State, next: Closing, m: Gen, at: Place)
    requires Placed(s) && In(s, m, at) && at != Armed
    requires Staged(s, u, next, m) && SameTables(u.(outside := t.outside), t)
    requires next.phase.Done? <==> !In(t, m, at)
    requires forall p: Place :: p != at && p != Armed && In(t, m, p) ==> In(s, m, p)
    requires forall g: Gen, p: Place :: g != m && p != Armed ==> (In(t, g, p) <==> In(s, g, p))
    ensures Placed(t)
  {
    StagedTables(s, u, t, next, m);
    if next.phase.Done? {
      forall p: Place ensures !In(t, m, p) {
      }
      PlacedRemove(s, t, m);
    } else {
      PlacedMove(s, t, m, at, at);
    }
  }
}
