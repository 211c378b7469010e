/** The shake handshake of the split MessageBuilder (builder.js) as a state
    machine over the builder's shake fields: shakeStatus, shakeTask (a
    Deferred), waitingShakePromise and shakeTimer, plus the connect callbacks
    fork has handed to the transport and that have not come back yet.
    Timers, connect callbacks and the peer's reply arrive as events. */
module Shake {
  import opened Common
  import opened FrameCodec

  datatype ShakeStatus = ShakeStart | ShakePending | ShakeSuccess | ShakeFailure

  /** What waitingShakePromise (or fork's result) holds: the promise of the
      shake task the epoch-th task-creating fork made, or a promise that is
      already resolved (Promise.resolve()). */
  datatype ShakePromise = TaskPromise(epoch: nat) | AlreadyResolved

  datatype ShakeState = ShakeState(
    status: ShakeStatus,
    task: Option<Settle<Message>>,   // shakeTask; None while it is null
    epoch: nat,                      // how many shake tasks fork has created
    waiting: Option<ShakePromise>,   // waitingShakePromise; None while it is null
    timerArmed: bool,                // shakeTimer holds a timer that has not fired
    connects: nat)                   // fork's connect callbacks still outstanding

  /** A builder fresh from its constructor. */
  const Initial := ShakeState(ShakeStart, None, 0, None, false, 0)

  /** What every reachable shake state satisfies: a task exists exactly when
      fork has created one, a shake in progress, a live timer or an
      outstanding connect callback all belong to a task, and a task promise
      in waitingShakePromise is always the current task's. */
  predicate Inv(s: ShakeState)
  {
    && (s.task.Some? <==> s.epoch > 0)
    && (s.status == ShakePending || s.timerArmed || s.connects > 0 ==> s.task.Some?)
    && (s.waiting.Some? && s.waiting.value.TaskPromise? ==> s.waiting.value.epoch == s.epoch)
  }

  /** Deferred.resolve / reject: only the first settlement of a task counts. */
  function SettleTask(s: ShakeState, v: Settle<Message>): ShakeState
  {
    if s.task == Some(Pending) then s.(task := Some(v)) else s
  }

  /** Reject the shake task with a MessageError and mark the shake failed. */
  function Fail(s: ShakeState, code: ErrorCode): ShakeState
  {
    SettleTask(s, Rejected(MessageError(code))).(status := ShakeFailure)
  }

  /** _initiateShakeProtocol: arm the timer, mark the shake pending and send
      the shake frame (the frame itself is the caller's concern). */
  function Initiate(s: ShakeState): ShakeState
  {
    s.(timerArmed := true, status := ShakePending)
  }

  /** fork: the new state, the promise handed back (None for null), and
      whether a shake frame goes out. */
  function ForkSpec(s: ShakeState, hasTransport: bool, probe: Option<bool>)
    : (r: (ShakeState, Option<ShakePromise>, bool))
    ensures s.status == ShakePending ==> r == (s, s.waiting, false)
    ensures s.status != ShakePending ==>
      (r.1 == Some(AlreadyResolved) <==> s.status == ShakeSuccess && hasTransport && probe == Some(true))
    ensures r.1 == Some(AlreadyResolved) ==> r.0 == s && !r.2
    ensures s.status != ShakePending && r.1 != Some(AlreadyResolved) ==>
      && r.1 == r.0.waiting == Some(TaskPromise(s.epoch + 1)) && r.0.epoch == s.epoch + 1
      && (r.0.task == Some(Pending) <==> hasTransport)
      && (r.2 <==> hasTransport && probe != Some(false))
      && (r.0.status == ShakePending <==> r.2)
      && r.0.connects == s.connects + (if hasTransport && probe == Some(false) then 1 else 0)
      && r.0.timerArmed == r.2
  {
    if s.status == ShakePending then (s, s.waiting, false)
    else if s.status == ShakeSuccess && hasTransport && probe == Some(true) then (s, Some(AlreadyResolved), false)
    else
      var e := s.epoch + 1;
      var created := s.(task := Some(Pending), epoch := e, waiting := Some(TaskPromise(e)),
                        status := ShakeStart, timerArmed := false);
      if !hasTransport then (Fail(created, InternalError), Some(TaskPromise(e)), false)
      else if probe == Some(false) then (created.(connects := s.connects + 1), Some(TaskPromise(e)), false)
      else (Initiate(created), Some(TaskPromise(e)), true)
  }

  /** The callback fork passes to transport.connect: a failure rejects the
      current task with BLE_CLOSE, a success starts the shake. The flag says
      whether a shake frame goes out. */
  function ConnectSpec(s: ShakeState, ok: bool): (ShakeState, bool)
  {
    if s.connects == 0 then (s, false)
    else
      var s1 := s.(connects := s.connects - 1);
      if ok then (Initiate(s1), true) else (Fail(s1, BleClose), false)
  }

  /** The shake timer firing: a shake still pending fails with SHAKE_TIME_OUT. */
  function TimerSpec(s: ShakeState): ShakeState
  {
    if !s.timerArmed then s
    else
      var s1 := s.(timerArmed := false);
      if s1.status == ShakePending then Fail(s1, ShakeTimeOut) else s1
  }

  /** The peer's Shake frame: a pending shake is resolved with it, succeeds,
      and its timer is cleared. */
  function ReplySpec(s: ShakeState, reply: Message): ShakeState
  {
    if s.task.Some? && s.status == ShakePending then
      SettleTask(s.(timerArmed := false), Resolved(reply)).(status := ShakeSuccess)
    else s
  }

  /** A transport error or disconnect: a pending shake fails with BLE_CLOSE. */
  function LinkLostSpec(s: ShakeState): ShakeState
  {
    if s.task.Some? && s.status == ShakePending then Fail(s, BleClose) else s
  }

  /** disConnect: back to start, waitingShakePromise dropped. */
  function DisconnectSpec(s: ShakeState): ShakeState
  {
    s.(status := ShakeStart, waiting := None)
  }

  /** The success callback of listen: the shake counts as done. */
  function ListenSpec(s: ShakeState): ShakeState
  {
    s.(status := ShakeSuccess, waiting := Some(AlreadyResolved))
  }

  /** The gate request and call pass through: on the device, a shake that
      has not succeeded is forked unless one is already in flight; otherwise
      an already resolved promise. */
  function EnsureShakeSpec(isDevice: bool, s: ShakeState, hasTransport: bool, probe: Option<bool>)
    : (r: (ShakeState, Option<ShakePromise>, bool))
    ensures !isDevice || s.status == ShakeSuccess ==> r == (s, Some(AlreadyResolved), false)
    ensures isDevice && s.status != ShakeSuccess ==> r == ForkSpec(s, hasTransport, probe)
  {
    if isDevice && s.status != ShakeSuccess then
      if s.waiting.None? || s.status == ShakeStart || s.status == ShakeFailure then ForkSpec(s, hasTransport, probe)
      else (s, s.waiting, false)
    else (s, Some(AlreadyResolved), false)
  }

  datatype ShakeEvent =
    | Fork(hasTransport: bool, probe: Option<bool>)
    | ConnectResult(ok: bool)
    | TimerFired
    | PeerShake(reply: Message)
    | LinkLost
    | Disconnect
    | ListenConnected

  function Step(s: ShakeState, ev: ShakeEvent): ShakeState
  {
    match ev
    case Fork(h, p) => ForkSpec(s, h, p).0
    case ConnectResult(ok) => ConnectSpec(s, ok).0
    case TimerFired => TimerSpec(s)
    case PeerShake(m) => ReplySpec(s, m)
    case LinkLost => LinkLostSpec(s)
    case Disconnect => DisconnectSpec(s)
    case ListenConnected => ListenSpec(s)
  }

  /** The shake state after a sequence of events, oldest first. */
  function RunShake(s: ShakeState, evs: seq<ShakeEvent>): ShakeState
  {
    if evs == [] then s else Step(RunShake(s, evs[..|evs| - 1]), evs[|evs| - 1])
  }

  lemma StepKeepsInv(s: ShakeState, ev: ShakeEvent)
    requires Inv(s)
    ensures Inv(Step(s, ev))
  {
  }

  /** Every state reachable from the initial one satisfies Inv. */
  lemma {:induction false} RunKeepsInv(s: ShakeState, evs: seq<ShakeEvent>)
    requires Inv(s)
    ensures Inv(RunShake(s, evs))
  {
    if evs != [] {
      RunKeepsInv(s, evs[..|evs| - 1]);
      StepKeepsInv(RunShake(s, evs[..|evs| - 1]), evs[|evs| - 1]);
    }
  }

  /** A settled shake task never changes again: until a later fork creates
      a new task (raising the epoch), the shake task keeps its value. */
  lemma {:induction false} SettledTaskStays(s: ShakeState, evs: seq<ShakeEvent>)
    requires Inv(s) && s.task.Some? && !s.task.value.Pending?
    ensures RunShake(s, evs).epoch >= s.epoch
    ensures RunShake(s, evs).epoch == s.epoch ==> RunShake(s, evs).task == s.task
  {
    if evs != [] {
      SettledTaskStays(s, evs[..|evs| - 1]);
    }
  }

  /** Only the peer's Shake reply or listen's callback makes a shake succeed. */
  lemma {:induction false} SuccessNeedsReply(s: ShakeState, evs: seq<ShakeEvent>)
    requires s.status != ShakeSuccess
    requires forall i :: 0 <= i < |evs| ==> !evs[i].PeerShake? && !evs[i].ListenConnected?
    ensures RunShake(s, evs).status != ShakeSuccess
  {
    if evs != [] {
      SuccessNeedsReply(s, evs[..|evs| - 1]);
    }
  }

  /** A reply that resolves a pending shake resolves it with that reply and
      disarms the timer, so a timer firing afterwards changes nothing. */
  lemma ReplyBeatsTimer(s: ShakeState, reply: Message)
    requires Inv(s) && s.status == ShakePending && s.task == Some(Pending)
    ensures ReplySpec(s, reply).task == Some(Resolved(reply))
    ensures ReplySpec(s, reply).status == ShakeSuccess
    ensures TimerSpec(ReplySpec(s, reply)) == ReplySpec(s, reply)
  {
  }

  /** disConnect while fork's connect callback is outstanding: when the
      connect then succeeds the shake is pending with waitingShakePromise
      null, and every later fork hands back null until the shake ends. */
  lemma NullPromiseAfterDisconnect()
    ensures var s := RunShake(Initial, [Fork(true, Some(false)), Disconnect, ConnectResult(true)]);
      && s.status == ShakePending && s.task == Some(Pending)
      && ForkSpec(s, true, Some(true)).1 == None
  {
    var s1 := RunShake(Initial, [Fork(true, Some(false))]);
    RunSnoc(Initial, [], Fork(true, Some(false)));
    RunSnoc(Initial, [Fork(true, Some(false))], Disconnect);
    RunSnoc(Initial, [Fork(true, Some(false)), Disconnect], ConnectResult(true));
    assert s1.connects == 1 && s1.task == Some(Pending);
  }

  /** Two forks waiting on the link, the first connect attempt failing and
      the second succeeding: the shake is pending again but its task was
      already rejected, so anyone joining it gets BLE_CLOSE. */
  lemma PendingWithRejectedTask()
    ensures var s := RunShake(Initial, [Fork(true, Some(false)), Fork(true, Some(false)),
                                        ConnectResult(false), ConnectResult(true)]);
      && s.status == ShakePending && s.task == Some(Rejected(MessageError(BleClose)))
      && ForkSpec(s, true, Some(true)).1 == Some(TaskPromise(2))
  {
    var f := Fork(true, Some(false));
    RunSnoc(Initial, [], f);
    RunSnoc(Initial, [f], f);
    RunSnoc(Initial, [f, f], ConnectResult(false));
    RunSnoc(Initial, [f, f, ConnectResult(false)], ConnectResult(true));
    var s1 := RunShake(Initial, [f]);
    assert s1.connects == 1 && s1.status == ShakeStart;
    var s2 := RunShake(Initial, [f, f]);
    assert s2.connects == 2 && s2.task == Some(Pending) && s2.epoch == 2;
    assert [f, f] + [ConnectResult(false)] == [f, f, ConnectResult(false)];
    assert [f, f, ConnectResult(false)] + [ConnectResult(true)] == [f, f, ConnectResult(false), ConnectResult(true)];
    var s3 := RunShake(Initial, [f, f, ConnectResult(false)]);
    assert s3.connects == 1 && s3.task == Some(Rejected(MessageError(BleClose)));
  }

  lemma RunSnoc(s: ShakeState, evs: seq<ShakeEvent>, ev: ShakeEvent)
    ensures RunShake(s, evs + [ev]) == Step(RunShake(s, evs), ev)
  {
    assert (evs + [ev])[..|evs|] == evs;
  }
}
