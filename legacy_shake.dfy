/** The shake handshake of the single-file MessageBuilder (message.js): the
    same fields as the split version's (shakeStatus, shakeTask,
    waitingShakePromise, shakeTimer) with different rules. fork arms the timer
    before it looks at the link and does not disarm it when the link is
    down; the timer, a link-down notification and a peer reply act whatever
    the status is; the shake task resolves with no value. */
module LegacyShake {
  import opened Common
  import Shake

  type ShakeStatus = Shake.ShakeStatus
  type ShakePromise = Shake.ShakePromise

  datatype HandshakeState = HandshakeState(
    status: ShakeStatus,
    task: Option<Settle<()>>,        // shakeTask; None while it is null
    epoch: nat,                      // how many shake tasks fork has created
    waiting: Option<ShakePromise>,   // waitingShakePromise; None while it is null
    timerArmed: bool)                // shakeTimer holds a timer that has not fired

  /** A builder fresh from its constructor. */
  const Initial := HandshakeState(Shake.ShakeStart, None, 0, None, false)

  /** What every reachable state satisfies: a task exists exactly when fork
      has created one, a pending shake or a live timer belongs to a task,
      and a task promise in waitingShakePromise is the current task's. */
  predicate Inv(s: HandshakeState)
  {
    && (s.task.Some? <==> s.epoch > 0)
    && (s.status == Shake.ShakePending || s.timerArmed ==> s.task.Some?)
    && (s.waiting.Some? && s.waiting.value.TaskPromise? ==> s.waiting.value.epoch == s.epoch)
  }

  /** Deferred.resolve / reject: only the first settlement counts. */
  function SettleTask(s: HandshakeState, v: Settle<()>): HandshakeState
  {
    if s.task == Some(Pending) then s.(task := Some(v)) else s
  }

  /** Reject the shake task with a MessageError and mark the shake failed. */
  function Reject(s: HandshakeState, code: ErrorCode): HandshakeState
  {
    SettleTask(s, Rejected(MessageError(code))).(status := Shake.ShakeFailure)
  }

  /** fork: the new state, the promise handed back, and whether a shake
      frame goes out. A pending shake is joined; otherwise a new task is
      created and its timer armed, and then a device whose link is down
      rejects the shake task with BLE_CLOSE (leaving the timer armed) while
      everything else marks the shake pending and sends the shake. */
  function ForkSpec(s: HandshakeState, bleDown: bool): (r: (HandshakeState, Option<ShakePromise>, bool))
    requires Inv(s)
    ensures Inv(r.0)
    ensures s.status == Shake.ShakePending ==> r == (s, s.waiting, false)
    ensures s.status != Shake.ShakePending ==>
      && r.1 == r.0.waiting == Some(Shake.TaskPromise(s.epoch + 1)) && r.0.epoch == s.epoch + 1
      && r.0.timerArmed
      && (r.2 <==> !bleDown)
      && r.0.task == Some(if bleDown then Rejected(MessageError(BleClose)) else Pending)
      && r.0.status == (if bleDown then Shake.ShakeFailure else Shake.ShakePending)
  {
    if s.status == Shake.ShakePending then (s, s.waiting, false)
    else
      var e := s.epoch + 1;
      var created := s.(task := Some(Pending), epoch := e, waiting := Some(Shake.TaskPromise(e)),
                        status := Shake.ShakeStart, timerArmed := true);
      if bleDown then (Reject(created, BleClose), Some(Shake.TaskPromise(e)), false)
      else (created.(status := Shake.ShakePending), Some(Shake.TaskPromise(e)), true)
  }

  /** The shake timer firing: the current task is rejected with
      SHAKE_TIME_OUT and the shake marked failed, whatever its status. */
  function TimerSpec(s: HandshakeState): (r: HandshakeState)
    requires Inv(s)
    ensures Inv(r)
    ensures !s.timerArmed ==> r == s
    ensures s.timerArmed ==> !r.timerArmed && r.status == Shake.ShakeFailure && r.task.Some? && !r.task.value.Pending?
  {
    if !s.timerArmed then s else Reject(s.(timerArmed := false), ShakeTimeOut)
  }

  /** The peer's Shake frame: the timer is cleared, then the shake task is
      resolved and the shake marked successful, whatever its status; with no
      task yet, resolve is called on null and throws a TypeError. */
  function ReplySpec(s: HandshakeState): (r: (HandshakeState, Outcome))
    requires Inv(s)
    ensures Inv(r.0) && !r.0.timerArmed
    ensures r.1.Fail? <==> s.task.None?
    ensures r.1.Fail? ==> r.1.error == TypeError && r.0 == s.(timerArmed := false)
    ensures r.1.Pass? ==> r.0.status == Shake.ShakeSuccess
    ensures s.task == Some(Pending) ==> r.0.task == Some(Resolved(()))
  {
    var cleared := s.(timerArmed := false);
    if s.task.None? then (cleared, Fail(TypeError))
    else (SettleTask(cleared, Resolved(())).(status := Shake.ShakeSuccess), Pass)
  }

  /** The BLE status listener reporting the link down: with a task, it is
      rejected with BLE_CLOSE and the shake marked failed, even after a
      successful shake. */
  function LinkDownSpec(s: HandshakeState): (r: HandshakeState)
    requires Inv(s)
    ensures Inv(r)
    ensures s.task.Some? ==> r.status == Shake.ShakeFailure && r.task.Some? && !r.task.value.Pending?
    ensures s.task.None? ==> r == s
  {
    if s.task.Some? then Reject(s, BleClose) else s
  }

  /** listen: waitingShakePromise becomes an already resolved promise; the
      status is left alone. */
  function ListenSpec(s: HandshakeState): (r: HandshakeState)
    requires Inv(s)
    ensures Inv(r) && r.waiting == Some(Shake.AlreadyResolved) && r.status == s.status
  {
    s.(waiting := Some(Shake.AlreadyResolved))
  }

  datatype ShakeEvent =
    | Fork(bleDown: bool)
    | TimerFired
    | PeerShake
    | LinkDown
    | ListenCalled

  function Step(s: HandshakeState, ev: ShakeEvent): (r: HandshakeState)
    requires Inv(s)
    ensures Inv(r)
  {
    match ev
    case Fork(down) => ForkSpec(s, down).0
    case TimerFired => TimerSpec(s)
    case PeerShake => ReplySpec(s).0
    case LinkDown => LinkDownSpec(s)
    case ListenCalled => ListenSpec(s)
  }

  /** The state after a sequence of events, oldest first. */
  function RunShake(s: HandshakeState, evs: seq<ShakeEvent>): (r: HandshakeState)
    requires Inv(s)
    ensures Inv(r)
  {
    if evs == [] then s else Step(RunShake(s, evs[..|evs| - 1]), evs[|evs| - 1])
  }

  lemma RunSnoc(s: HandshakeState, evs: seq<ShakeEvent>, ev: ShakeEvent)
    requires Inv(s)
    ensures RunShake(s, evs + [ev]) == Step(RunShake(s, evs), ev)
  {
    assert (evs + [ev])[..|evs|] == evs;
  }

  /** A settled shake task never changes again: until a later fork creates
      a new task (raising the epoch), the shake task keeps its value. */
  lemma {:induction false} SettledTaskStays(s: HandshakeState, evs: seq<ShakeEvent>)
    requires Inv(s) && s.task.Some? && !s.task.value.Pending?
    ensures RunShake(s, evs).epoch >= s.epoch
    ensures RunShake(s, evs).epoch == s.epoch ==> RunShake(s, evs).task == s.task
  {
    if evs != [] {
      SettledTaskStays(s, evs[..|evs| - 1]);
    }
  }

  /** No shake hangs: while no new fork happens, a task whose timer is
      armed is settled once the timer fires, whatever came in between. */
  lemma {:induction false} ArmedTimerSettles(s: HandshakeState, evs: seq<ShakeEvent>)
    requires Inv(s) && s.timerArmed
    requires forall i :: 0 <= i < |evs| ==> !evs[i].Fork?
    ensures var r := RunShake(s, evs + [TimerFired]);
      r.epoch == s.epoch && r.task.Some? && !r.task.value.Pending?
  {
    RunSnoc(s, evs, TimerFired);
    var t := RunShake(s, evs);
    NoForkKeepsEpoch(s, evs);
    if !t.timerArmed {
      DisarmedIsSettled(s, evs);
    }
  }

  lemma {:induction false} NoForkKeepsEpoch(s: HandshakeState, evs: seq<ShakeEvent>)
    requires Inv(s)
    requires forall i :: 0 <= i < |evs| ==> !evs[i].Fork?
    ensures RunShake(s, evs).epoch == s.epoch
  {
    if evs != [] {
      NoForkKeepsEpoch(s, evs[..|evs| - 1]);
    }
  }

  /** Without a fork, the armed timer is only disarmed by an event that
      settles the shake task (a reply) or by its own firing. */
  lemma {:induction false} DisarmedIsSettled(s: HandshakeState, evs: seq<ShakeEvent>)
    requires Inv(s) && s.timerArmed
    requires forall i :: 0 <= i < |evs| ==> !evs[i].Fork?
    ensures var r := RunShake(s, evs);
      !r.timerArmed ==> r.task.Some? && !r.task.value.Pending?
  {
    if evs != [] {
      var pre := evs[..|evs| - 1];
      DisarmedIsSettled(s, pre);
      var t := RunShake(s, pre);
      if !t.timerArmed {
        SettledTaskStays(t, [evs[|evs| - 1]]);
        NoForkKeepsEpoch(t, [evs[|evs| - 1]]);
        RunSnoc(t, [], evs[|evs| - 1]);
      }
    }
  }

  /** A reply after the shake timed out: the shake task stays rejected with
      SHAKE_TIME_OUT, yet the status says the shake succeeded. */
  lemma LateReplyAfterTimeout()
    ensures var s := RunShake(Initial, [Fork(false), TimerFired, PeerShake]);
      && s.status == Shake.ShakeSuccess && s.task == Some(Rejected(MessageError(ShakeTimeOut)))
  {
    RunSnoc(Initial, [], Fork(false));
    RunSnoc(Initial, [Fork(false)], TimerFired);
    RunSnoc(Initial, [Fork(false), TimerFired], PeerShake);
  }

  /** A fork while the link is down: the shake task is rejected with BLE_CLOSE
      but its timer stays armed, and when it fires it leaves the rejection
      as it was. */
  lemma BleDownForkKeepsTimer(s: HandshakeState)
    requires Inv(s) && s.status != Shake.ShakePending
    ensures var f := ForkSpec(s, true).0;
      && f.timerArmed && f.task == Some(Rejected(MessageError(BleClose)))
      && TimerSpec(f).task == f.task && TimerSpec(f).status == Shake.ShakeFailure
  {
  }

  /** Where the versions differ after a successful shake: a link-down
      notification marks the single-file shake failed, while the split
      version's transport loss leaves a successful shake alone. */
  lemma LinkDownAfterSuccess(s: HandshakeState, t: Shake.ShakeState)
    requires Inv(s) && s.task.Some? && s.status == Shake.ShakeSuccess
    requires t.status == Shake.ShakeSuccess
    ensures LinkDownSpec(s).status == Shake.ShakeFailure
    ensures Shake.LinkLostSpec(t) == t
  {
  }
}
