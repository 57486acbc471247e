/**
 Matching AMI responses to callers (amiproc/amiproc.cpp and amiproc.h): any number of threads in
 ami_sync and ami_async, and the one handler ami_event, over two mutexes, a condition variable,
 the pending pointer pResp and the counter actionid, as a step system.
 */
module AmiProtocol {
  import opened Wrappers

  datatype Mode = NoAction | Request | Response

  /** Where a call of ami_sync is. */
  datatype Pc =
    | Entering // before ami_lock
    | InAmi    // holds mutexAMI
    | Counted  // resp_lock has counted it, mutexResp not yet taken
    | Locked   // holds both
    | Waiting  // in pthread_cond_timedwait
    | Woken(rc: int) // holds both again; rc is 0 or the result to report
    | Finished // has given mutexResp back
    | Ended

  /** What an AMI_RESPONSE says: mode, result, and the ActionID of the text it holds. */
  datatype Record = Record(mode: Mode, result: int, held: Option<nat>)

  /** `outcome` is the record as ami_sync returned it; `completions` counts the handler's. */
  datatype Call = Call(pc: Pc, id: nat, record: Record, completions: nat, outcome: Option<Record>)

  datatype AmiOwner = Sync(call: nat) | Async
  datatype RespOwner = Caller(call: nat) | Handler

  /** A response: its ActionID, and whether it says Success. */
  datatype Answer = Answer(id: nat, success: bool)

  /** Where ami_event is with a message that starts with "Response:".  Up to the lock it reads and
      writes the shared fields without one. */
  datatype HandlerPc =
    | Free
    | SawPending(answer: Answer) // pResp was not null
    | SawCount(answer: Answer)   // resp_waitcount was not 0
    | SawMode(answer: Answer)    // and the record pResp pointed to had been requested
    | Queued(answer: Answer)     // resp_lock has counted it, mutexResp not yet taken
    | Handling(answer: Answer)   // holds mutexResp
    | Dropping                   // one of the two was not so: about to clear pResp

  datatype State = State(
    ami: Option<AmiOwner>,   // mutexAMI
    resp: Option<RespOwner>, // mutexResp
    pResp: Option<nat>,
    waitcount: int,          // resp_waitcount
    actionid: nat,
    calls: seq<Call>,
    handler: HandlerPc)

  const Init: State := State(None, None, None, 0, 0, [], Free)

  function NewCall(): Call { Call(Entering, 0, Record(NoAction, 0, None), 0, None) }

  function Move(s: State, c: nat, pc: Pc): State
    requires c < |s.calls|
  {
    s.(calls := s.calls[c := s.calls[c].(pc := pc)])
  }

  predicate At(s: State, c: nat, pc: Pc) {
    c < |s.calls| && s.calls[c].pc == pc
  }

  // ------------------------------------------------------------------
  // ami_sync
  // ------------------------------------------------------------------

  function DoBegin(s: State): State { s.(calls := s.calls + [NewCall()]) }

  predicate CanTakeAmi(s: State, c: nat) { At(s, c, Entering) && s.ami.None? }
  function DoTakeAmi(s: State, c: nat): State
    requires CanTakeAmi(s, c)
  {
    Move(s, c, InAmi).(ami := Some(Sync(c)))
  }

  /** resp_waitcount++ comes before the lock. */
  predicate CanCount(s: State, c: nat) { At(s, c, InAmi) }
  function DoCount(s: State, c: nat): State
    requires CanCount(s, c)
  {
    Move(s, c, Counted).(waitcount := s.waitcount + 1)
  }

  predicate CanTakeResp(s: State, c: nat) { At(s, c, Counted) && s.resp.None? }
  function DoTakeResp(s: State, c: nat): State
    requires CanTakeResp(s, c)
  {
    Move(s, c, Locked).(resp := Some(Caller(c)))
  }

  /** The action is numbered, pResp set, the action sent; waiting gives mutexResp back. */
  predicate CanAsk(s: State, c: nat) { At(s, c, Locked) }
  function DoAsk(s: State, c: nat): State
    requires CanAsk(s, c)
  {
    var id := s.actionid + 1;
    var call := s.calls[c].(pc := Waiting, id := id, record := s.calls[c].record.(mode := Request));
    s.(calls := s.calls[c := call], actionid := id, pResp := Some(c), resp := None)
  }

  /** A signal, a spurious wake-up (rc 0), a time-out (rc -8) or an error (its number). */
  predicate CanWake(s: State, c: nat, rc: int) { At(s, c, Waiting) && s.resp.None? && (rc >= 0 || rc == -8) }
  function DoWake(s: State, c: nat, rc: int): State
    requires CanWake(s, c, rc)
  {
    Move(s, c, Woken(rc)).(resp := Some(Caller(c)))
  }

  /** pResp stays as it is, also after a time-out. */
  predicate CanFinish(s: State, c: nat) { c < |s.calls| && s.calls[c].pc.Woken? }
  function DoFinish(s: State, c: nat): State
    requires CanFinish(s, c)
  {
    var call := s.calls[c];
    var record := if call.pc.rc == 0 then call.record else call.record.(result := call.pc.rc);
    s.(calls := s.calls[c := call.(pc := Finished, record := record)], waitcount := s.waitcount - 1, resp := None)
  }

  predicate CanReturn(s: State, c: nat) { At(s, c, Finished) }
  function DoReturn(s: State, c: nat): State
    requires CanReturn(s, c)
  {
    s.(calls := s.calls[c := s.calls[c].(pc := Ended, outcome := Some(s.calls[c].record))], ami := None)
  }

  // ------------------------------------------------------------------
  // ami_async
  // ------------------------------------------------------------------

  predicate CanAsyncLock(s: State) { s.ami.None? }
  function DoAsyncLock(s: State): State
    requires CanAsyncLock(s)
  {
    s.(ami := Some(Async))
  }

  predicate CanAsyncSend(s: State) { s.ami == Some(Async) }
  function DoAsyncSend(s: State): State
    requires CanAsyncSend(s)
  {
    s.(ami := None, actionid := s.actionid + 1)
  }

  // ------------------------------------------------------------------
  // ami_event, for a message that starts with "Response:"
  // ------------------------------------------------------------------

  /** With pResp null a response is passed on as an event. */
  predicate CanArrive(s: State) { s.handler.Free? && s.pResp.Some? }
  function DoArrive(s: State, a: Answer): State
    requires CanArrive(s)
  {
    s.(handler := SawPending(a))
  }

  predicate CanLookCount(s: State) { s.handler.SawPending? }
  function DoLookCount(s: State): State
    requires CanLookCount(s)
  {
    s.(handler := if s.waitcount != 0 then SawCount(s.handler.answer) else Dropping)
  }

  predicate CanLookMode(s: State) { s.handler.SawCount? && s.pResp.Some? && s.pResp.value < |s.calls| }
  function DoLookMode(s: State): State
    requires CanLookMode(s)
  {
    s.(handler := if s.calls[s.pResp.value].record.mode == Request then SawMode(s.handler.answer) else Dropping)
  }

  predicate CanQueue(s: State) { s.handler.SawMode? }
  function DoQueue(s: State): State
    requires CanQueue(s)
  {
    s.(handler := Queued(s.handler.answer), waitcount := s.waitcount + 1)
  }

  predicate CanLock(s: State) { s.handler.Queued? && s.resp.None? }
  function DoLock(s: State): State
    requires CanLock(s)
  {
    s.(handler := Handling(s.handler.answer), resp := Some(Handler))
  }

  predicate CanDrop(s: State) { s.handler.Dropping? }
  function DoDrop(s: State): State
    requires CanDrop(s)
  {
    s.(handler := Free, pResp := None)
  }

  predicate CanHandle(s: State) { s.handler.Handling? && s.pResp.Some? && s.pResp.value < |s.calls| }

  /** The response is copied into the record in any case; a stale one changes nothing else. */
  function Handled(s: State, call: Call, a: Answer): Call {
    var record := call.record.(held := Some(a.id));
    if a.id < s.actionid then call.(record := record)
    else call.(
      record := record.(mode := Response, result := if a.id > s.actionid then -2 else if a.success then 0 else -1),
      completions := call.completions + 1)
  }

  function DoHandle(s: State): State
    requires CanHandle(s)
  {
    var a, p := s.handler.answer, s.pResp.value;
    s.(calls := s.calls[p := Handled(s, s.calls[p], a)],
       pResp := if a.id < s.actionid then s.pResp else None,
       waitcount := s.waitcount - 1, resp := None, handler := Free)
  }

  datatype Action =
    | Begin | TakeAmi(c: nat) | Count(c: nat) | TakeResp(c: nat) | Ask(c: nat)
    | Wake(c: nat, rc: int) | Finish(c: nat) | Return(c: nat)
    | AsyncLock | AsyncSend
    | Arrive(answer: Answer) | LookCount | LookMode | Queue | Lock | Handle | Drop

  predicate Can(s: State, a: Action) {
    match a
    case Begin => true
    case TakeAmi(c) => CanTakeAmi(s, c)
    case Count(c) => CanCount(s, c)
    case TakeResp(c) => CanTakeResp(s, c)
    case Ask(c) => CanAsk(s, c)
    case Wake(c, rc) => CanWake(s, c, rc)
    case Finish(c) => CanFinish(s, c)
    case Return(c) => CanReturn(s, c)
    case AsyncLock => CanAsyncLock(s)
    case AsyncSend => CanAsyncSend(s)
    case Arrive(_) => CanArrive(s)
    case LookCount => CanLookCount(s)
    case LookMode => CanLookMode(s)
    case Queue => CanQueue(s)
    case Lock => CanLock(s)
    case Handle => CanHandle(s)
    case Drop => CanDrop(s)
  }

  function Do(s: State, a: Action): State
    requires Can(s, a)
  {
    match a
    case Begin => DoBegin(s)
    case TakeAmi(c) => DoTakeAmi(s, c)
    case Count(c) => DoCount(s, c)
    case TakeResp(c) => DoTakeResp(s, c)
    case Ask(c) => DoAsk(s, c)
    case Wake(c, rc) => DoWake(s, c, rc)
    case Finish(c) => DoFinish(s, c)
    case Return(c) => DoReturn(s, c)
    case AsyncLock => DoAsyncLock(s)
    case AsyncSend => DoAsyncSend(s)
    case Arrive(answer) => DoArrive(s, answer)
    case LookCount => DoLookCount(s)
    case LookMode => DoLookMode(s)
    case Queue => DoQueue(s)
    case Lock => DoLock(s)
    case Handle => DoHandle(s)
    case Drop => DoDrop(s)
  }

  // ------------------------------------------------------------------
  // The invariant
  // ------------------------------------------------------------------

  /** Holds mutexAMI. */
  predicate Inside(pc: Pc) { pc != Entering && pc != Ended }

  /** Is counted by resp_waitcount. */
  predicate IsCounted(pc: Pc) { pc in {Counted, Locked, Waiting} || pc.Woken? }

  predicate HoldsResp(pc: Pc) { pc == Locked || pc.Woken? }

  predicate Counting(s: State) {
    s.ami.Some? && s.ami.value.Sync? && s.ami.value.call < |s.calls| && IsCounted(s.calls[s.ami.value.call].pc)
  }

  /** A successful or failed answer is the answer to the call's own action. */
  predicate Answered(r: Record, id: nat) {
    r.mode == Response && r.result in {0, -1} ==> r.held == Some(id)
  }

  predicate CallOk(s: State, c: nat)
    requires c < |s.calls|
  {
    var call := s.calls[c];
    && (Inside(call.pc) <==> s.ami == Some(Sync(c)))
    && (HoldsResp(call.pc) <==> s.resp == Some(Caller(c)))
    && (call.pc in {Entering, InAmi, Counted, Locked} ==> call.record == Record(NoAction, 0, None) && call.completions == 0)
    && (call.pc in {Waiting, Finished} || call.pc.Woken? ==> call.id == s.actionid)
    && (call.pc.Woken? ==> call.pc.rc >= 0 || call.pc.rc == -8)
    && (call.pc in {Waiting, Finished} || call.pc.Woken? ==> s.pResp == Some(c) || s.pResp.None?)
    && (call.completions == if call.record.mode == Response then 1 else 0)
    && (call.pc != Ended ==> Answered(call.record, call.id) && call.outcome.None?)
    && (call.outcome.Some? ==> Answered(call.outcome.value, call.id))
  }

  /** pResp names a call that asked and has not been answered; it may have ended. */
  predicate PendingOk(s: State) {
    s.pResp.Some? ==>
      && s.pResp.value < |s.calls|
      && (var call := s.calls[s.pResp.value]; call.record.mode == Request && call.pc !in {Entering, InAmi, Counted, Locked})
  }

  /** Only the handler clears pResp, so it stays set while the handler is at work. */
  predicate HandlerOk(s: State) {
    && (s.handler.Handling? <==> s.resp == Some(Handler))
    && (!s.handler.Free? ==> s.pResp.Some?)
    && (s.handler.Handling? ==> s.pResp.value < |s.calls| && s.calls[s.pResp.value].pc in {Waiting, Finished, Ended})
  }

  predicate OwnersOk(s: State) {
    && (s.ami.Some? && s.ami.value.Sync? ==> s.ami.value.call < |s.calls|)
    && (s.resp.Some? && s.resp.value.Caller? ==> s.resp.value.call < |s.calls|)
    && s.waitcount == (if Counting(s) then 1 else 0) + (if s.handler.Queued? || s.handler.Handling? then 1 else 0)
  }

  ghost predicate Inv(s: State) {
    OwnersOk(s) && PendingOk(s) && HandlerOk(s) && forall c: nat :: c < |s.calls| ==> CallOk(s, c)
  }

  lemma BeginKeeps(s: State)
    requires Inv(s)
    ensures Inv(DoBegin(s))
  {
    var t := DoBegin(s);
    forall c: nat | c < |s.calls| ensures CallOk(t, c) { assert CallOk(s, c); }
  }

  lemma TakeAmiKeeps(s: State, c: nat)
    requires Inv(s) && CanTakeAmi(s, c)
    ensures Inv(DoTakeAmi(s, c))
  {
    var t := DoTakeAmi(s, c);
    forall d: nat | d < |s.calls| ensures CallOk(t, d) { assert CallOk(s, d); }
  }

  lemma CountKeeps(s: State, c: nat)
    requires Inv(s) && CanCount(s, c)
    ensures Inv(DoCount(s, c))
  {
    var t := DoCount(s, c);
    assert CallOk(s, c);
    forall d: nat | d < |s.calls| ensures CallOk(t, d) { assert CallOk(s, d); }
  }

  lemma TakeRespKeeps(s: State, c: nat)
    requires Inv(s) && CanTakeResp(s, c)
    ensures Inv(DoTakeResp(s, c))
  {
    var t := DoTakeResp(s, c);
    assert CallOk(s, c);
    forall d: nat | d < |s.calls| ensures CallOk(t, d) { assert CallOk(s, d); }
  }

  lemma AskKeeps(s: State, c: nat)
    requires Inv(s) && CanAsk(s, c)
    ensures Inv(DoAsk(s, c))
  {
    var t := DoAsk(s, c);
    assert CallOk(s, c);
    forall d: nat | d < |s.calls| ensures CallOk(t, d) { assert CallOk(s, d); }
  }

  lemma WakeKeeps(s: State, c: nat, rc: int)
    requires Inv(s) && CanWake(s, c, rc)
    ensures Inv(DoWake(s, c, rc))
  {
    var t := DoWake(s, c, rc);
    assert CallOk(s, c);
    forall d: nat | d < |s.calls| ensures CallOk(t, d) { assert CallOk(s, d); }
  }

  lemma FinishKeeps(s: State, c: nat)
    requires Inv(s) && CanFinish(s, c)
    ensures Inv(DoFinish(s, c))
  {
    var t := DoFinish(s, c);
    assert CallOk(s, c);
    forall d: nat | d < |s.calls| ensures CallOk(t, d) { assert CallOk(s, d); }
  }

  lemma ReturnKeeps(s: State, c: nat)
    requires Inv(s) && CanReturn(s, c)
    ensures Inv(DoReturn(s, c))
  {
    var t := DoReturn(s, c);
    assert CallOk(s, c);
    forall d: nat | d < |s.calls| ensures CallOk(t, d) { assert CallOk(s, d); }
  }

  lemma AsyncLockKeeps(s: State)
    requires Inv(s) && CanAsyncLock(s)
    ensures Inv(DoAsyncLock(s))
  {
    var t := DoAsyncLock(s);
    forall d: nat | d < |s.calls| ensures CallOk(t, d) { assert CallOk(s, d); }
  }

  lemma AsyncSendKeeps(s: State)
    requires Inv(s) && CanAsyncSend(s)
    ensures Inv(DoAsyncSend(s))
  {
    var t := DoAsyncSend(s);
    forall d: nat | d < |s.calls| ensures CallOk(t, d) { assert CallOk(s, d); }
  }

  lemma ArriveKeeps(s: State, a: Answer)
    requires Inv(s) && CanArrive(s)
    ensures Inv(DoArrive(s, a))
  {
    var t := DoArrive(s, a);
    forall d: nat | d < |s.calls| ensures CallOk(t, d) { assert CallOk(s, d); }
  }

  lemma LookCountKeeps(s: State)
    requires Inv(s) && CanLookCount(s)
    ensures Inv(DoLookCount(s))
  {
    var t := DoLookCount(s);
    forall d: nat | d < |s.calls| ensures CallOk(t, d) { assert CallOk(s, d); }
  }

  lemma LookModeKeeps(s: State)
    requires Inv(s) && CanLookMode(s)
    ensures Inv(DoLookMode(s))
  {
    var t := DoLookMode(s);
    forall d: nat | d < |s.calls| ensures CallOk(t, d) { assert CallOk(s, d); }
  }

  lemma QueueKeeps(s: State)
    requires Inv(s) && CanQueue(s)
    ensures Inv(DoQueue(s))
  {
    var t := DoQueue(s);
    forall d: nat | d < |s.calls| ensures CallOk(t, d) { assert CallOk(s, d); }
  }

  lemma LockKeeps(s: State)
    requires Inv(s) && CanLock(s)
    ensures Inv(DoLock(s))
  {
    var t := DoLock(s);
    assert CallOk(s, s.pResp.value);
    forall d: nat | d < |s.calls| ensures CallOk(t, d) { assert CallOk(s, d); }
  }

  lemma DropKeeps(s: State)
    requires Inv(s) && CanDrop(s)
    ensures Inv(DoDrop(s))
  {
    var t := DoDrop(s);
    forall d: nat | d < |s.calls| ensures CallOk(t, d) { assert CallOk(s, d); }
  }

  lemma HandleKeeps(s: State)
    requires Inv(s) && CanHandle(s)
    ensures Inv(DoHandle(s))
  {
    var t := DoHandle(s);
    assert CallOk(s, s.pResp.value);
    forall d: nat | d < |s.calls| ensures CallOk(t, d) { assert CallOk(s, d); }
  }

  lemma StepKeeps(s: State, a: Action)
    requires Inv(s) && Can(s, a)
    ensures Inv(Do(s, a))
  {
    match a
    case Begin => BeginKeeps(s);
    case TakeAmi(c) => TakeAmiKeeps(s, c);
    case Count(c) => CountKeeps(s, c);
    case TakeResp(c) => TakeRespKeeps(s, c);
    case Ask(c) => AskKeeps(s, c);
    case Wake(c, rc) => WakeKeeps(s, c, rc);
    case Finish(c) => FinishKeeps(s, c);
    case Return(c) => ReturnKeeps(s, c);
    case AsyncLock => AsyncLockKeeps(s);
    case AsyncSend => AsyncSendKeeps(s);
    case Arrive(answer) => ArriveKeeps(s, answer);
    case LookCount => LookCountKeeps(s);
    case LookMode => LookModeKeeps(s);
    case Queue => QueueKeeps(s);
    case Lock => LockKeeps(s);
    case Handle => HandleKeeps(s);
    case Drop => DropKeeps(s);
  }
}
