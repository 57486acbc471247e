/**
 What the AMI matching guarantees over whole runs, and the window in which a response still
 changes the record of a call that has already returned.
 */
module AmiRuns {
  import opened Wrappers
  import opened AmiProtocol

  /** The state after the actions, if each was possible. */
  function Run(s: State, actions: seq<Action>): (t: Option<State>)
    decreases |actions|
  {
    if actions == [] then Some(s)
    else if Can(s, actions[0]) then Run(Do(s, actions[0]), actions[1..])
    else None
  }

  lemma RunAt(s: State, actions: seq<Action>, k: nat)
    requires k < |actions| && Can(s, actions[k])
    ensures Run(s, actions[k..]) == Run(Do(s, actions[k]), actions[k + 1..])
  {
    assert actions[k..][1..] == actions[k + 1..];
  }

  lemma RunToEnd(s: State, actions: seq<Action>)
    ensures Run(s, actions[|actions|..]) == Some(s) && actions[0..] == actions
  {
  }

  lemma {:induction false} RunKeeps(s: State, actions: seq<Action>)
    requires Inv(s) && Run(s, actions).Some?
    ensures Inv(Run(s, actions).value)
    decreases |actions|
  {
    if actions != [] {
      StepKeeps(s, actions[0]);
      RunKeeps(Do(s, actions[0]), actions[1..]);
    }
  }

  lemma ReachableInv(actions: seq<Action>)
    requires Run(Init, actions).Some?
    ensures Inv(Run(Init, actions).value)
  {
    RunKeeps(Init, actions);
  }

  /**
   In every interleaving with time-outs and stale, late or future responses: a call that returns
   with mode Response and result 0 or -1 returns the response to its own action.
   */
  lemma ReturnsItsOwnResponse(actions: seq<Action>, c: nat)
    requires Run(Init, actions).Some? && c < |Run(Init, actions).value.calls|
    ensures var call := Run(Init, actions).value.calls[c]; call.outcome.Some? ==> Answered(call.outcome.value, call.id)
  {
    ReachableInv(actions);
    assert CallOk(Run(Init, actions).value, c);
  }

  /** No call is completed twice, and mode Response means that it was completed. */
  lemma CompletedAtMostOnce(actions: seq<Action>, c: nat)
    requires Run(Init, actions).Some? && c < |Run(Init, actions).value.calls|
    ensures var call := Run(Init, actions).value.calls[c]; call.completions <= 1 && (call.completions == 1 <==> call.record.mode == Response)
  {
    ReachableInv(actions);
    assert CallOk(Run(Init, actions).value, c);
  }

  /** Call c has the record r for good: it waits, is on its way back, or has returned it. */
  predicate HasAnswer(s: State, c: nat, id: nat, r: Record) {
    && c < |s.calls| && s.calls[c].id == id && s.calls[c].record == r && s.pResp != Some(c)
    && s.calls[c].pc in {Waiting, Woken(0), Finished, Ended}
    && (s.calls[c].pc == Ended ==> s.calls[c].outcome == Some(r))
  }

  lemma AnswerStays(s: State, a: Action, c: nat, id: nat, r: Record)
    requires HasAnswer(s, c, id, r) && Can(s, a) && (a.Wake? && a.c == c ==> a.rc == 0)
    ensures HasAnswer(Do(s, a), c, id, r)
  {
  }

  lemma {:induction false} AnswerStaysInRun(s: State, actions: seq<Action>, c: nat, id: nat, r: Record)
    requires HasAnswer(s, c, id, r) && Run(s, actions).Some?
    requires forall k :: 0 <= k < |actions| && actions[k].Wake? && actions[k].c == c ==> actions[k].rc == 0
    ensures HasAnswer(Run(s, actions).value, c, id, r)
    decreases |actions|
  {
    hide HasAnswer, Do, Can;
    if actions != [] {
      AnswerStays(s, actions[0], c, id, r);
      assert forall k :: 0 <= k < |actions| - 1 ==> actions[1..][k] == actions[k + 1];
      AnswerStaysInRun(Do(s, actions[0]), actions[1..], c, id, r);
    }
  }

  /**
   Once the matching response has been handled, whatever happens in whatever order, it is what
   the waiting call returns, unless its wait ends with a time-out or an error nevertheless.
   */
  lemma MatchingResponseIsReturned(s: State, c: nat, actions: seq<Action>)
    requires Inv(s) && At(s, c, Waiting) && s.pResp == Some(c) && s.handler.Handling? && s.handler.answer.id == s.calls[c].id
    requires Run(DoHandle(s), actions).Some?
    requires forall k :: 0 <= k < |actions| && actions[k].Wake? && actions[k].c == c ==> actions[k].rc == 0
    ensures var t, r := Run(DoHandle(s), actions).value, Record(Response, if s.handler.answer.success then 0 else -1, Some(s.calls[c].id));
      c < |t.calls| && t.calls[c].record == r && (t.calls[c].pc == Ended ==> t.calls[c].outcome == Some(r))
  {
    hide Run;
    assert CallOk(s, c);
    AnswerStaysInRun(DoHandle(s), actions, c, s.calls[c].id, DoHandle(s).calls[c].record);
  }

  /** Nothing keeps it from returning at once. */
  lemma MatchingResponseGetsThrough(s: State, c: nat)
    requires Inv(s) && At(s, c, Waiting) && s.pResp == Some(c) && s.handler.Handling? && s.handler.answer.id == s.calls[c].id
    ensures var t := Run(s, [Handle, Wake(c, 0), Finish(c), Return(c)]);
      && t.Some? && c < |t.value.calls|
      && t.value.calls[c].outcome == Some(Record(Response, if s.handler.answer.success then 0 else -1, Some(s.calls[c].id)))
      && t.value.pResp.None? && t.value.ami.None?
  {
    hide Run;
    assert CallOk(s, c);
    var w := [Handle, Wake(c, 0), Finish(c), Return(c)];
    var s1 := DoHandle(s);
    var s2 := DoWake(s1, c, 0);
    var s3 := DoFinish(s2, c);
    var s4 := DoReturn(s3, c);
    RunAt(s, w, 0);
    RunAt(s1, w, 1);
    RunAt(s2, w, 2);
    RunAt(s3, w, 3);
    RunToEnd(s4, w);
  }

  /** A stale response, to an earlier action, leaves a waiting call waiting. */
  lemma StaleResponseIsPassedOver(s: State, c: nat)
    requires Inv(s) && At(s, c, Waiting) && s.pResp == Some(c) && s.handler.Handling? && s.handler.answer.id < s.calls[c].id
    ensures CanHandle(s) && At(DoHandle(s), c, Waiting) && DoHandle(s).pResp == Some(c)
    ensures DoHandle(s).calls[c].record.mode == Request && DoHandle(s).calls[c].completions == 0
  {
    assert CallOk(s, c);
  }

  /** A response to an action that was not sent yet ends the wait with -2. */
  lemma FutureResponseIsRefused(s: State, c: nat)
    requires Inv(s) && At(s, c, Waiting) && s.pResp == Some(c) && s.handler.Handling? && s.handler.answer.id > s.calls[c].id
    ensures CanHandle(s) && DoHandle(s).pResp.None? && DoHandle(s).resp.None? && DoHandle(s).handler.Free?
    ensures DoHandle(s).calls[c].record == Record(Response, -2, Some(s.handler.answer.id))
  {
    assert CallOk(s, c);
  }

  /**
   What the wait came to is what the call reports: a time-out or an error replaces the result,
   a wake-up leaves what the handler put there.  Both locks are free afterwards and pResp is as before.
   */
  lemma WaitIsReported(s: State, c: nat, rc: int)
    requires CanWake(s, c, rc)
    ensures var t := Run(s, [Wake(c, rc), Finish(c), Return(c)]);
      && t.Some? && c < |t.value.calls| && At(t.value, c, Ended)
      && t.value.calls[c].outcome == Some(if rc == 0 then s.calls[c].record else s.calls[c].record.(result := rc))
      && t.value.ami.None? && t.value.resp.None? && t.value.pResp == s.pResp && t.value.waitcount == s.waitcount - 1
  {
    hide Run;
    var w := [Wake(c, rc), Finish(c), Return(c)];
    var s1 := DoWake(s, c, rc);
    var s2 := DoFinish(s1, c);
    RunAt(s, w, 0);
    RunAt(s1, w, 1);
    RunAt(s2, w, 2);
    RunToEnd(DoReturn(s2, c), w);
  }

  /** Has not asked yet. */
  predicate NotAsked(pc: Pc) { pc in {Entering, InAmi, Counted, Locked} }

  /** A call is numbered when it asks, and numbers are not used twice. */
  predicate Numbered(s: State) {
    && (forall c :: 0 <= c < |s.calls| ==> s.calls[c].id <= s.actionid && (s.calls[c].id == 0 <==> NotAsked(s.calls[c].pc)))
    && (forall c, d :: 0 <= c < d < |s.calls| && s.calls[c].id > 0 ==> s.calls[c].id != s.calls[d].id)
  }

  lemma NumberedAsBefore(s: State, t: State)
    requires Numbered(s) && |t.calls| == |s.calls| && s.actionid <= t.actionid
    requires forall c :: 0 <= c < |s.calls| ==> t.calls[c].id == s.calls[c].id && NotAsked(t.calls[c].pc) == NotAsked(s.calls[c].pc)
    ensures Numbered(t)
  {
  }

  lemma NumberedStep(s: State, a: Action)
    requires Numbered(s) && Can(s, a)
    ensures Numbered(Do(s, a))
  {
    if a.Begin? {
      assert Numbered(DoBegin(s));
    } else if a.Ask? {
      assert Numbered(DoAsk(s, a.c));
    } else {
      hide Numbered;
      NumberedAsBefore(s, Do(s, a));
    }
  }

  lemma {:induction false} NumberedRun(s: State, actions: seq<Action>)
    requires Numbered(s) && Run(s, actions).Some?
    ensures Numbered(Run(s, actions).value)
    decreases |actions|
  {
    hide Numbered, Do, Can;
    if actions != [] {
      NumberedStep(s, actions[0]);
      NumberedRun(Do(s, actions[0]), actions[1..]);
    }
  }

  /** No two calls have asked with the same ActionID. */
  lemma {:induction false} ActionIdsDiffer(actions: seq<Action>)
    requires Run(Init, actions).Some?
    ensures Numbered(Run(Init, actions).value)
  {
    NumberedRun(Init, actions);
  }

  // ------------------------------------------------------------------
  // Calls that have returned
  // ------------------------------------------------------------------

  /** pResp still points to the record of a call that has returned. */
  predicate Dangling(s: State) {
    s.pResp.Some? && s.pResp.value < |s.calls| && s.calls[s.pResp.value].pc == Ended
  }

  /** Only a call that never got its response, timed out or spuriously woken, is left dangling. */
  lemma DanglingWasNotAnswered(actions: seq<Action>)
    requires Run(Init, actions).Some? && Dangling(Run(Init, actions).value)
    ensures var s := Run(Init, actions).value; s.calls[s.pResp.value].completions == 0
  {
    var s := Run(Init, actions).value;
    ReachableInv(actions);
    assert CallOk(s, s.pResp.value);
  }

  /**
   The handler takes a response for it exactly if it looks at resp_waitcount while another caller
   has counted itself in resp_lock but has not yet set pResp; at any other time it clears pResp.
   */
  lemma LateWindow(actions: seq<Action>)
    requires Run(Init, actions).Some?
    requires var s := Run(Init, actions).value; Dangling(s) && CanLookCount(s)
    ensures var s := Run(Init, actions).value;
      && (DoLookCount(s).handler.SawCount? <==> exists c: nat :: c < |s.calls| && s.calls[c].pc in {Counted, Locked})
      && (DoLookCount(s).handler.Dropping? <==> !DoLookCount(s).handler.SawCount?)
  {
    var s := Run(Init, actions).value;
    ReachableInv(actions);
    var p := s.pResp.value;
    assert CallOk(s, p);
    if Counting(s) {
      var c := s.ami.value.call;
      assert CallOk(s, c);
      assert c < |s.calls| && s.calls[c].pc in {Counted, Locked};
    }
    if c: nat :| c < |s.calls| && s.calls[c].pc in {Counted, Locked} {
      assert CallOk(s, c);
    }
  }

  /**
   Clearing pResp is not protected either: a call that has asked since the handler looked waits for
   a response nobody will hand it, whatever happens afterwards.
   */
  lemma DropForgets(before: seq<Action>, c: nat, after: seq<Action>)
    requires Run(Init, before).Some? && CanDrop(Run(Init, before).value) && At(Run(Init, before).value, c, Waiting)
    requires Run(DoDrop(Run(Init, before).value), after).Some?
    requires forall k :: 0 <= k < |after| && after[k].Wake? && after[k].c == c ==> after[k].rc == 0
    ensures var s, t := Run(Init, before).value, Run(DoDrop(Run(Init, before).value), after).value;
      && s.pResp == Some(c) && c < |t.calls|
      && t.calls[c].record == s.calls[c].record && t.calls[c].record.mode == Request && t.calls[c].completions == 0
  {
    hide Run;
    var s := Run(Init, before).value;
    ReachableInv(before);
    assert CallOk(s, c);
    AnswerStaysInRun(DoDrop(s), after, c, s.calls[c].id, s.calls[c].record);
    StepKeeps(s, Drop);
    RunKeeps(DoDrop(s), after);
    assert CallOk(Run(DoDrop(s), after).value, c);
  }

  /** The record of every call, also after it returned, holds its own response. */
  predicate RecordsRight(s: State) {
    forall c :: 0 <= c < |s.calls| ==> Answered(s.calls[c].record, s.calls[c].id)
  }

  /**
   Handling a response keeps all records right exactly when it does not answer the latest action
   while pResp belongs to an older one.
   */
  lemma RecordsStayRightExactlyWhen(actions: seq<Action>)
    requires Run(Init, actions).Some? && CanHandle(Run(Init, actions).value) && RecordsRight(Run(Init, actions).value)
    ensures var s := Run(Init, actions).value;
      RecordsRight(DoHandle(s)) <==> !(s.handler.answer.id == s.actionid && s.calls[s.pResp.value].id != s.actionid)
  {
    var s := Run(Init, actions).value;
    ReachableInv(actions);
    var p, t := s.pResp.value, DoHandle(s);
    assert CallOk(s, p);
    assert t.calls[p] == Handled(s, s.calls[p], s.handler.answer);
    assert forall c :: 0 <= c < |s.calls| && c != p ==> t.calls[c] == s.calls[c];
  }

  /** No other step touches a record's agreement with its id. */
  lemma OnlyHandlingTouchesRecords(actions: seq<Action>, a: Action)
    requires Run(Init, actions).Some? && Can(Run(Init, actions).value, a) && a != Handle
    requires RecordsRight(Run(Init, actions).value)
    ensures RecordsRight(Do(Run(Init, actions).value, a))
  {
    var s := Run(Init, actions).value;
    ReachableInv(actions);
    StepKeeps(s, a);
    var t := Do(s, a);
    forall c: nat | c < |t.calls| ensures Answered(t.calls[c].record, t.calls[c].id) {
      assert CallOk(t, c);
      if t.calls[c].pc == Ended { assert CallOk(s, c); }
    }
  }

  lemma {:induction false} RunAppend(s: State, before: seq<Action>, after: seq<Action>)
    requires Run(s, before).Some?
    ensures Run(s, before + after) == Run(Run(s, before).value, after)
    decreases |before|
  {
    if before == [] {
      assert before + after == after;
    } else {
      assert (before + after)[1..] == before[1..] + after;
      RunAppend(Do(s, before[0]), before[1..], after);
    }
  }

  /** One call of ami_sync that times out, alone. */
  const TIMED_OUT: seq<Action> := [Begin, TakeAmi(0), Count(0), TakeResp(0), Ask(0), Wake(0, -8), Finish(0), Return(0)]

  /** It leaves pResp on its record. */
  const DANGLING: State :=
    State(None, None, Some(0), 0, 1, [Call(Ended, 1, Record(Request, -8, None), 0, Some(Record(Request, -8, None)))], Free)

  lemma {:induction false} TimeOutDangles()
    ensures Run(Init, TIMED_OUT) == Some(DANGLING)
  {
    hide Run;
    var w := TIMED_OUT;
    var s1 := DoBegin(Init);
    var s2 := DoTakeAmi(s1, 0);
    var s3 := DoCount(s2, 0);
    var s4 := DoTakeResp(s3, 0);
    var s5 := DoAsk(s4, 0);
    var s6 := DoWake(s5, 0, -8);
    var s7 := DoFinish(s6, 0);
    RunAt(Init, w, 0);
    RunAt(s1, w, 1);
    RunAt(s2, w, 2);
    RunAt(s3, w, 3);
    RunAt(s4, w, 4);
    RunAt(s5, w, 5);
    RunAt(s6, w, 6);
    RunAt(s7, w, 7);
    RunToEnd(DoReturn(s7, 0), w);
    assert DoReturn(s7, 0).calls == DANGLING.calls;
  }

  /** The handler's way to a record it finds waited for. */
  const TAKE: seq<Action> := [LookCount, LookMode, Queue, Lock, Handle]

  lemma Takes(s: State, a: Answer)
    requires s.handler == SawPending(a) && s.resp.None? && s.waitcount != 0
    requires s.pResp.Some? && s.pResp.value < |s.calls| && s.calls[s.pResp.value].record.mode == Request
    ensures var p := s.pResp.value;
      Run(s, TAKE) == Some(s.(calls := s.calls[p := Handled(s, s.calls[p], a)], handler := Free,
                              pResp := if a.id < s.actionid then s.pResp else None))
  {
    hide Run;
    var w := TAKE;
    var s1 := s.(handler := SawCount(a));
    var s2 := s.(handler := SawMode(a));
    var s3 := s.(handler := Queued(a), waitcount := s.waitcount + 1);
    var s4 := s3.(handler := Handling(a), resp := Some(Handler));
    assert CanLookCount(s) && DoLookCount(s) == s1;
    assert CanLookMode(s1) && DoLookMode(s1) == s2;
    assert CanQueue(s2) && DoQueue(s2) == s3;
    assert CanLock(s3) && DoLock(s3) == s4;
    RunAt(s, w, 0);
    RunAt(s1, w, 1);
    RunAt(s2, w, 2);
    RunAt(s3, w, 3);
    RunAt(s4, w, 4);
    RunToEnd(DoHandle(s4), w);
    assert Handled(s4, s.calls[s.pResp.value], a) == Handled(s, s.calls[s.pResp.value], a);
  }

  /** Its response, coming while the next call is in the window, completes it after it returned -8. */
  lemma {:induction false} LateCompletion()
    ensures var t := Run(Init, TIMED_OUT + [Begin, TakeAmi(1), Count(1), Arrive(Answer(1, true))] + TAKE);
      && t.Some? && |t.value.calls| == 2
      && t.value.calls[0].outcome == Some(Record(Request, -8, None))
      && t.value.calls[0].record == Record(Response, 0, Some(1))
  {
    hide Run;
    TimeOutDangles();
    var w := [Begin, TakeAmi(1), Count(1), Arrive(Answer(1, true))];
    RunAppend(Init, TIMED_OUT, w);
    var s1 := DoBegin(DANGLING);
    var s2 := DoTakeAmi(s1, 1);
    var s3 := DoCount(s2, 1);
    RunAt(DANGLING, w, 0);
    RunAt(s1, w, 1);
    RunAt(s2, w, 2);
    RunAt(s3, w, 3);
    RunToEnd(DoArrive(s3, Answer(1, true)), w);
    RunAppend(Init, TIMED_OUT + w, TAKE);
    Takes(DoArrive(s3, Answer(1, true)), Answer(1, true));
  }

  /** Without any other call: the handler has made its tests when the call times out. */
  lemma {:induction false} LateCompletionAlone()
    ensures var t := Run(Init, [Begin, TakeAmi(0), Count(0), TakeResp(0), Ask(0), Arrive(Answer(1, true)), LookCount, LookMode,
                                Wake(0, -8), Finish(0), Return(0), Queue, Lock, Handle]);
      && t.Some? && |t.value.calls| == 1
      && t.value.calls[0].outcome == Some(Record(Request, -8, None))
      && t.value.calls[0].record == Record(Response, 0, Some(1))
  {
    hide Run;
    var w := [Begin, TakeAmi(0), Count(0), TakeResp(0), Ask(0), Arrive(Answer(1, true)), LookCount, LookMode,
              Wake(0, -8), Finish(0), Return(0), Queue, Lock, Handle];
    var s1 := DoBegin(Init);
    var s2 := DoTakeAmi(s1, 0);
    var s3 := DoCount(s2, 0);
    var s4 := DoTakeResp(s3, 0);
    var s5 := DoAsk(s4, 0);
    var s6 := DoArrive(s5, Answer(1, true));
    var s7 := DoLookCount(s6);
    var s8 := DoLookMode(s7);
    var s9 := DoWake(s8, 0, -8);
    var s10 := DoFinish(s9, 0);
    var s11 := DoReturn(s10, 0);
    var s12 := DoQueue(s11);
    var s13 := DoLock(s12);
    RunAt(Init, w, 0);
    RunAt(s1, w, 1);
    RunAt(s2, w, 2);
    RunAt(s3, w, 3);
    RunAt(s4, w, 4);
    RunAt(s5, w, 5);
    RunAt(s6, w, 6);
    RunAt(s7, w, 7);
    RunAt(s8, w, 8);
    RunAt(s9, w, 9);
    RunAt(s10, w, 10);
    RunAt(s11, w, 11);
    RunAt(s12, w, 12);
    RunAt(s13, w, 13);
    RunToEnd(DoHandle(s13), w);
  }

  /** The late response to a call that timed out makes the handler forget the next one. */
  lemma {:induction false} LateResponseForgetsNext()
    ensures var t := Run(Init, TIMED_OUT + [Arrive(Answer(1, true)), LookCount, Begin, TakeAmi(1), Count(1), TakeResp(1), Ask(1), Drop]);
      t.Some? && At(t.value, 1, Waiting) && t.value.pResp.None? && t.value.handler.Free?
  {
    hide Run;
    TimeOutDangles();
    var w := [Arrive(Answer(1, true)), LookCount, Begin, TakeAmi(1), Count(1), TakeResp(1), Ask(1), Drop];
    RunAppend(Init, TIMED_OUT, w);
    var s1 := DoArrive(DANGLING, Answer(1, true));
    var s2 := DoLookCount(s1);
    var s3 := DoBegin(s2);
    var s4 := DoTakeAmi(s3, 1);
    var s5 := DoCount(s4, 1);
    var s6 := DoTakeResp(s5, 1);
    var s7 := DoAsk(s6, 1);
    RunAt(DANGLING, w, 0);
    RunAt(s1, w, 1);
    RunAt(s2, w, 2);
    RunAt(s3, w, 3);
    RunAt(s4, w, 4);
    RunAt(s5, w, 5);
    RunAt(s6, w, 6);
    RunAt(s7, w, 7);
    RunToEnd(DoDrop(s7), w);
  }

  /** With an ami_async in between, the record even ends up with another action's response. */
  lemma {:induction false} LateCompletionWithAnotherResponse()
    ensures var t := Run(Init, TIMED_OUT + [AsyncLock, AsyncSend, Begin, TakeAmi(1), Count(1), Arrive(Answer(2, true))] + TAKE);
      && t.Some? && |t.value.calls| == 2
      && t.value.calls[0].id == 1 && t.value.calls[0].record == Record(Response, 0, Some(2))
  {
    hide Run;
    TimeOutDangles();
    var w := [AsyncLock, AsyncSend, Begin, TakeAmi(1), Count(1), Arrive(Answer(2, true))];
    RunAppend(Init, TIMED_OUT, w);
    var s1 := DoAsyncLock(DANGLING);
    var s2 := DoAsyncSend(s1);
    var s3 := DoBegin(s2);
    var s4 := DoTakeAmi(s3, 1);
    var s5 := DoCount(s4, 1);
    RunAt(DANGLING, w, 0);
    RunAt(s1, w, 1);
    RunAt(s2, w, 2);
    RunAt(s3, w, 3);
    RunAt(s4, w, 4);
    RunAt(s5, w, 5);
    RunToEnd(DoArrive(s5, Answer(2, true)), w);
    RunAppend(Init, TIMED_OUT + w, TAKE);
    Takes(DoArrive(s5, Answer(2, true)), Answer(2, true));
  }
}
