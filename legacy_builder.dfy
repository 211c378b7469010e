/** The MessageBuilder of the single-file version (message.js): its shake
    fields, its request handlers, its sessions and the entry points that
    change them. Each method is proved against the value-level specification
    of LegacyShake, LegacyRequests, LegacyInbound or LegacyPlans; the frames
    it sends are those of LegacyWire. Timers and promises are explicit
    events and settle states, and what the EventBus emits is recorded in
    `emitted`. */
module LegacyBuilder {
  import opened Common
  import opened Constants
  import opened FrameCodec
  import opened ChunkCodec
  import opened Link
  import opened AppValues
  import opened Util
  import opened LegacyWire
  import opened LegacyReassembly
  import opened LegacyRequests
  import opened LegacyInbound
  import opened LegacyPlans
  import opened LegacyShake
  import Shake
  import Builder
  import Fragmenter
  import Inbound

  type Started = Builder.Started

  /** What the receive path of a builder reads and changes: its shake
      fields, its side port, its open sessions, its request handlers and
      the events it has emitted. */
  datatype Observed = Observed(shake: HandshakeState, sidePort: u16, sessions: LegacyView, handlers: Handlers,
                               emitted: seq<Emission>)

  predicate ObservedOk(o: Observed)
  {
    LegacyShake.Inv(o.shake) && LegacyRequests.Inv(o.handlers)
  }

  /** transact's link checks as seen from a builder whose side port is
      sidePort: only the device checks either. */
  function LinkOf(isDevice: bool, connected: bool, sidePort: u16): LinkState
  {
    LinkState(BleDown(isDevice, connected), isDevice && sidePort == 0)
  }

  /** onMessage once readPayload has succeeded. */
  function Received(o: Observed, p: Payload, link: LinkState, codec: Codec): (r: (Observed, Outcome))
    requires ObservedOk(o)
    ensures ObservedOk(r.0)
    ensures r.0.shake == o.shake && r.0.sidePort == o.sidePort
    ensures r.0.sessions - {Inbound.ChunkKey(p)} == o.sessions - {Inbound.ChunkKey(p)}
  {
    var step := Receive(o.sessions, o.handlers, p, link, codec);
    (o.(sessions := step.0, handlers := step.1, emitted := o.emitted + step.2), step.3)
  }

  /** onMessage: a buffer too short for the chunk header throws out of
      readPayload and changes nothing; any other chunk is received. */
  function MessageSpec(o: Observed, connected: bool, isDevice: bool, bin: Bytes, codec: Codec)
    : (r: (Observed, Outcome))
    requires ObservedOk(o)
    ensures ObservedOk(r.0)
    ensures r.0.shake == o.shake && r.0.sidePort == o.sidePort
    ensures |r.0.emitted| >= |o.emitted| && r.0.emitted[..|o.emitted|] == o.emitted
    ensures |bin| < HM_MESSAGE_PROTO_HEADER ==> r == (o, Fail(RangeError))
    ensures |bin| >= HM_MESSAGE_PROTO_HEADER ==>
      r == Received(o, DecodeChunk(bin).value, LinkOf(isDevice, connected, o.sidePort), codec)
  {
    var decoded := DecodeChunk(bin);
    if decoded.Err? then (o, Fail(decoded.error))
    else Received(o, decoded.value, LinkOf(isDevice, connected, o.sidePort), codec)
  }

  /** One listener of a 'message' event: onMessage with the event's buffer. */
  function Listener(connected: bool, isDevice: bool, bin: Bytes, codec: Codec): Observed -> (Observed, Outcome)
  {
    o => if ObservedOk(o) then MessageSpec(o, connected, isDevice, bin, codec) else (o, Pass)
  }

  /** What a listener may do to the builder: keep its invariants, leave the
      shake and the side port alone, and only add to what was emitted. */
  predicate Keeps(o: Observed, r: (Observed, Outcome))
  {
    && ObservedOk(r.0) && r.0.shake == o.shake && r.0.sidePort == o.sidePort
    && |r.0.emitted| >= |o.emitted| && r.0.emitted[..|o.emitted|] == o.emitted
  }

  /** An event heard by n listeners in the order they were installed: each
      acts on what the one before it left, and an exception ends the event,
      skipping the listeners after it. */
  function Emit(step: Observed -> (Observed, Outcome), o: Observed, n: nat): (Observed, Outcome)
    decreases n
  {
    if n == 0 then (o, Pass)
    else
      var before := Emit(step, o, n - 1);
      if before.1.Fail? then before else step(before.0)
  }

  /** Listeners that each keep the builder's invariants keep them together. */
  lemma {:induction false} EmitKeeps(step: Observed -> (Observed, Outcome), o: Observed, n: nat)
    requires ObservedOk(o)
    requires forall x :: ObservedOk(x) ==> Keeps(x, step(x))
    ensures Keeps(o, Emit(step, o, n))
  {
    if n > 0 {
      EmitKeeps(step, o, n - 1);
      var before := Emit(step, o, n - 1);
      if before.1.Pass? {
        var after := step(before.0);
        assert Keeps(before.0, after);
        KeepsChain(o, before, after);
        assert Emit(step, o, n) == after;
      } else {
        assert Emit(step, o, n) == before;
      }
    }
  }

  lemma KeepsChain(o: Observed, mid: (Observed, Outcome), r: (Observed, Outcome))
    requires Keeps(o, mid) && Keeps(mid.0, r)
    ensures Keeps(o, r)
  {
    assert r.0.emitted[..|o.emitted|] == r.0.emitted[..|mid.0.emitted|][..|o.emitted|];
  }

  /** Once a listener has thrown, the listeners after it change nothing. */
  lemma {:induction false} EmitStops(step: Observed -> (Observed, Outcome), o: Observed, k: nat, n: nat)
    requires k <= n && Emit(step, o, k).1.Fail?
    ensures Emit(step, o, n) == Emit(step, o, k)
  {
    if k < n {
      EmitStops(step, o, k, n - 1);
    }
  }

  /** Every onMessage keeps the builder's invariants. */
  lemma ListenerKeeps(connected: bool, isDevice: bool, bin: Bytes, codec: Codec)
    ensures forall x :: ObservedOk(x) ==> Keeps(x, Listener(connected, isDevice, bin, codec)(x))
  {
    forall x | ObservedOk(x)
      ensures Keeps(x, Listener(connected, isDevice, bin, codec)(x))
    {
      assert Listener(connected, isDevice, bin, codec)(x) == MessageSpec(x, connected, isDevice, bin, codec);
    }
  }

  /** A 'message' event carrying bin, heard by the given number of
      listeners that each call onMessage with it. */
  function Heard(o: Observed, connected: bool, isDevice: bool, bin: Bytes, codec: Codec, listeners: nat)
    : (r: (Observed, Outcome))
    requires ObservedOk(o)
    ensures Keeps(o, r)
    ensures listeners == 0 ==> r == (o, Pass)
  {
    ListenerKeeps(connected, isDevice, bin, codec);
    EmitKeeps(Listener(connected, isDevice, bin, codec), o, listeners);
    Emit(Listener(connected, isDevice, bin, codec), o, listeners)
  }

  /** onFragmentData over values. A buffer too short for a frame header
      throws out of readBin; any other is handled by FrameSpec. */
  function FragmentSpec(o: Observed, connected: bool, isDevice: bool, listeners: nat, bin: Bytes, codec: Codec)
    : (r: (Observed, Outcome))
    requires ObservedOk(o)
    ensures ObservedOk(r.0)
    ensures |bin| < MESSAGE_HEADER ==> r == (o, Fail(RangeError))
    ensures |bin| >= MESSAGE_HEADER ==> r == FrameSpec(o, connected, isDevice, listeners, DecodeFrame(bin).value, codec)
  {
    var frame := DecodeFrame(bin);
    if frame.Err? then (o, Fail(frame.error))
    else FrameSpec(o, connected, isDevice, listeners, frame.value, codec)
  }

  /** What onFragmentData does with a frame it has read. App frames are
      dispatched by type: a Shake reply sets the side port, is announced,
      and resolves the shake task (throwing when fork never made one); a
      Data frame's payload goes to onMessage once through each 'message'
      listener connect installed (none before connect or after disConnect,
      two after connect is called twice); a Log
      frame is passed on; a Close frame forgets the side port. Runtime
      frames, unknown flags and unknown types change nothing. */
  function FrameSpec(o: Observed, connected: bool, isDevice: bool, listeners: nat, m: Message, codec: Codec)
    : (r: (Observed, Outcome))
    requires ObservedOk(o) && !m.payload.Absent?
    ensures ObservedOk(r.0)
    ensures r.0.shake != o.shake || r.0.sidePort != o.sidePort ==>
      m.flag == FLAG_APP && m.msgType in {TYPE_SHAKE, TYPE_CLOSE}
    ensures r.0.sessions != o.sessions || r.0.handlers != o.handlers ==>
      listeners > 0 && m.flag == FLAG_APP && m.msgType in {TYPE_DATA, TYPE_DATA_WITH_SYSTEM_TOOL}
    ensures r.1.Fail? ==> m.flag == FLAG_APP && m.msgType in {TYPE_SHAKE, TYPE_DATA, TYPE_DATA_WITH_SYSTEM_TOOL}
    ensures |r.0.emitted| >= |o.emitted| && r.0.emitted[..|o.emitted|] == o.emitted
  {
    if m.flag == FLAG_APP && m.msgType == TYPE_SHAKE then ShakeFrameSpec(o, m)
    else if m.flag == FLAG_APP && (m.msgType == TYPE_DATA || m.msgType == TYPE_DATA_WITH_SYSTEM_TOOL) then
      Heard(o, connected, isDevice, m.payload.bytes, codec, listeners)
    else if m.flag == FLAG_APP && m.msgType == TYPE_LOG then
      (o.(emitted := o.emitted + [Inbound.LogEmitted(m.payload)]), Pass)
    else if m.flag == FLAG_APP && m.msgType == TYPE_CLOSE then
      (o.(sidePort := 0), Pass)
    else (o, Pass)
  }

  /** The Shake case: the side port is taken and the reply announced
      before the shake task is resolved. */
  function ShakeFrameSpec(o: Observed, m: Message): (r: (Observed, Outcome))
    requires ObservedOk(o)
    ensures ObservedOk(r.0)
    ensures r.0.sidePort == m.port2 && r.0.emitted == o.emitted + [Inbound.ShakeReplied(m)]
    ensures r.0.sessions == o.sessions && r.0.handlers == o.handlers
    ensures (r.0.shake, r.1) == ReplySpec(o.shake)
  {
    var reply := ReplySpec(o.shake);
    (o.(shake := reply.0, sidePort := m.port2, emitted := o.emitted + [Inbound.ShakeReplied(m)]), reply.1)
  }

  /** How response ends for each shape of value: a value without a length
      throws before any id is drawn, a value with no bytes to copy sends
      nothing and succeeds, a non-empty binary value that is not a Buffer
      passes the first link check and throws at the copy, and anything else
      is sent like any other data. */
  function ResponseOutcome(shape: BufShape, isDevice: bool, connected: bool, answers: nat -> bool, from: nat,
                           traceId: nat, spanId: nat): (r: Outcome)
    ensures shape.NoBytes? ==> r == Pass
    ensures shape.LengthThrows? ==> r == Fail(TypeError)
    ensures shape.CopyFails? ==> r.Fail? && (r.error == MessageError(BleClose) <==> BleDown(isDevice, connected))
    ensures shape.Sendable? ==> r == LegacyVerdict(isDevice, connected, answers, from, traceId, spanId, |shape.bytes|)
  {
    match shape
    case LengthThrows => Fail(TypeError)
    case NoBytes => Pass
    case CopyFails => if BleDown(isDevice, connected) then Fail(MessageError(BleClose)) else Fail(TypeError)
    case Sendable(bytes) => LegacyVerdict(isDevice, connected, answers, from, traceId, spanId, |bytes|)
  }

  class LegacyMessageBuilder {
    const isDevice: bool
    const cfg: Config
    const radio: Radio
    const ids: IdGen
    const sessionMgr: SessionMgr
    var shakeStatus: Shake.ShakeStatus
    var shakeTask: Option<Settle<()>>
    var shakeEpoch: nat
    var waitingShakePromise: Option<Shake.ShakePromise>
    var shakeTimerArmed: bool
    /** handlers, and every request made with its promise and timer. */
    var handlers: Handlers
    /** How many 'message' listeners connect has installed since the last
        disConnect. */
    var messageListeners: nat
    /** How many peer socket listeners listen has installed; nothing
        removes them. */
    var peerListeners: nat
    /** Every event emitted so far, oldest first. */
    var emitted: seq<Emission>

    function Handshake(): HandshakeState
      reads this
    {
      HandshakeState(shakeStatus, shakeTask, shakeEpoch, waitingShakePromise, shakeTimerArmed)
    }

    function Sessions(): LegacyView
      reads sessionMgr, sessionMgr.sessions.Values
    {
      sessionMgr.View()
    }

    /** The link as transact sees it now. */
    function Link(): LinkState
      reads radio, cfg
    {
      LinkOf(isDevice, radio.connected, cfg.appSidePort)
    }

    /** Everything the receive path reads or changes. */
    function Observe(): Observed
      reads this, cfg, sessionMgr, sessionMgr.sessions.Values
    {
      Observed(Handshake(), cfg.appSidePort, Sessions(), handlers, emitted)
    }

    /** The shake or close frame with the current configuration. */
    function ControlFrame(msgType: u16): Bytes
      reads cfg
    {
      EncodeFrame(Builder.ControlMessage(msgType, cfg.appId, cfg.appDevicePort, cfg.appSidePort))
    }

    ghost predicate Valid()
      reads this, ids, sessionMgr, sessionMgr.sessions.Values
    {
      LegacyShake.Inv(Handshake()) && LegacyRequests.Inv(handlers) && sessionMgr.Valid() && ids.Valid()
    }

    constructor (isDevice: bool, cfg: Config, radio: Radio, ids: IdGen)
      requires ids.Valid()
      ensures Valid() && fresh(sessionMgr)
      ensures this.isDevice == isDevice && this.cfg == cfg && this.radio == radio && this.ids == ids
      ensures Handshake() == LegacyShake.Initial && Sessions() == map[] && handlers == NoHandlers
      ensures messageListeners == 0 && peerListeners == 0 && emitted == []
    {
      this.isDevice := isDevice;
      this.cfg := cfg;
      this.radio := radio;
      this.ids := ids;
      sessionMgr := new SessionMgr();
      shakeStatus := Shake.ShakeStart;
      shakeTask := None;
      shakeEpoch := 0;
      waitingShakePromise := None;
      shakeTimerArmed := false;
      handlers := NoHandlers;
      messageListeners := 0;
      peerListeners := 0;
      emitted := [];
    }

    /** shakeTask.reject: a task already settled stays as it is. */
    method RejectShake(code: ErrorCode)
      modifies this`shakeTask
      ensures shakeTask == SettleTask(old(Handshake()), Rejected(MessageError(code))).task
    {
      if shakeTask == Some(Pending) {
        shakeTask := Some(Rejected(MessageError(code)));
      }
    }

    /** sendShake / sendClose: buildBin of a one-byte control frame, then
        sendMsg, which throws on the device when ble.send refuses. */
    method SendControl(msgType: u16) returns (r: Outcome)
      modifies radio`sent, radio`calls
      ensures r == if isDevice && !radio.answers(old(radio.calls)) then Fail(SendRefused) else Pass
      ensures radio.sent == if r.Pass? then old(radio.sent) + [ControlFrame(msgType)] else old(radio.sent)
      ensures radio.calls == old(radio.calls) + (if isDevice then 1 else 0)
    {
      var m := Builder.ControlMessage(msgType, cfg.appId, cfg.appDevicePort, cfg.appSidePort);
      var bin := BuildBin(m);
      assert m.(payload := Buf(m.payload.bytes)) == m;
      r := SendMsg(radio, isDevice, bin.value);
    }

    /** fork: join a pending shake, or create a new shake task, arm its
        timer, and then either reject it at once (the device's link is
        down) or mark it pending and send the shake frame; a refused send
        throws out of fork after the state has changed. */
    method Fork() returns (r: Result<Option<Shake.ShakePromise>>)
      requires LegacyShake.Inv(Handshake())
      modifies this`shakeEpoch, this`shakeTask, this`waitingShakePromise, this`shakeStatus, this`shakeTimerArmed, radio`sent,
               radio`calls
      ensures LegacyShake.Inv(Handshake())
      ensures var s := ForkSpec(old(Handshake()), BleDown(isDevice, radio.connected));
        var refused := s.2 && isDevice && !radio.answers(old(radio.calls));
        && Handshake() == s.0
        && (refused ==> r == Err(SendRefused) && radio.sent == old(radio.sent))
        && (!refused ==>
              r == Ok(s.1) && radio.sent == old(radio.sent) + (if s.2 then [ControlFrame(TYPE_SHAKE)] else []))
        && radio.calls == old(radio.calls) + (if s.2 && isDevice then 1 else 0)
      ensures handlers == old(handlers) && messageListeners == old(messageListeners) && peerListeners == old(peerListeners) && emitted == old(emitted)
    {
      var promise, send := ForkState(BleDown(isDevice, radio.connected));
      if send {
        var sent := SendControl(TYPE_SHAKE);
        if sent.Fail? {
          return Err(sent.error);
        }
      }
      r := Ok(promise);
    }

    /** The handshake half of fork: join a pending shake, or create the
        task and arm its timer, then either reject it at once (a device
        whose link is down) or mark the shake pending and ask for the shake
        frame to be sent. */
    method ForkState(bleDown: bool) returns (promise: Option<Shake.ShakePromise>, send: bool)
      requires LegacyShake.Inv(Handshake())
      modifies this`shakeEpoch, this`shakeTask, this`waitingShakePromise, this`shakeStatus, this`shakeTimerArmed
      ensures (Handshake(), promise, send) == ForkSpec(old(Handshake()), bleDown)
    {
      if shakeStatus == Shake.ShakePending {
        return waitingShakePromise, false;
      }
      shakeEpoch := shakeEpoch + 1;
      shakeTask := Some(Pending);
      waitingShakePromise := Some(Shake.TaskPromise(shakeEpoch));
      shakeStatus := Shake.ShakeStart;
      // clearShakeTimer, then a new setTimeout
      shakeTimerArmed := true;
      if bleDown {
        RejectShake(BleClose);
        shakeStatus := Shake.ShakeFailure;
        return waitingShakePromise, false;
      }
      shakeStatus := Shake.ShakePending;
      promise, send := waitingShakePromise, true;
    }

    /** The BLE status listener the constructor installs, with the link
        state connectStatus reports: going down rejects the shake task. */
    method OnBleStatus(up: bool)
      requires LegacyShake.Inv(Handshake())
      modifies this, radio`connected
      ensures LegacyShake.Inv(Handshake())
      ensures radio.connected == up
      ensures Handshake() == if up then old(Handshake()) else LinkDownSpec(old(Handshake()))
      ensures handlers == old(handlers) && messageListeners == old(messageListeners) && peerListeners == old(peerListeners) && emitted == old(emitted)
    {
      radio.SetConnected(up);
      if !up && shakeTask.Some? {
        RejectShake(BleClose);
        shakeStatus := Shake.ShakeFailure;
      }
    }

    /** The callback of the shake timer. */
    method OnShakeTimer()
      requires LegacyShake.Inv(Handshake())
      modifies this
      ensures LegacyShake.Inv(Handshake())
      ensures Handshake() == TimerSpec(old(Handshake()))
      ensures handlers == old(handlers) && messageListeners == old(messageListeners) && peerListeners == old(peerListeners) && emitted == old(emitted)
    {
      if !shakeTimerArmed {
        return;
      }
      shakeTimerArmed := false;
      shakeStatus := Shake.ShakeFailure;
      RejectShake(ShakeTimeOut);
    }

    /** connect: install one more 'message' listener, beside any earlier
        connect installed (the fragment callback is OnFragmentData). */
    method Connect()
      modifies this`messageListeners
      ensures messageListeners == old(messageListeners) + 1
    {
      messageListeners := messageListeners + 1;
    }

    /** disConnect: send the close frame; once it is sent, remove every
        'message' listener and every request handler. A refused send throws
        before either. The peer socket listeners listen installed stay. */
    method DisConnect() returns (r: Outcome)
      requires LegacyRequests.Inv(handlers)
      modifies this, radio`sent, radio`calls
      ensures LegacyRequests.Inv(handlers)
      ensures r == if isDevice && !radio.answers(old(radio.calls)) then Fail(SendRefused) else Pass
      ensures radio.calls == old(radio.calls) + (if isDevice then 1 else 0)
      ensures r.Fail? ==>
        radio.sent == old(radio.sent) && messageListeners == old(messageListeners) && handlers == old(handlers)
      ensures r.Pass? ==>
        && radio.sent == old(radio.sent) + [ControlFrame(TYPE_CLOSE)]
        && messageListeners == 0 && handlers == ClearAll(old(handlers))
      ensures Handshake() == old(Handshake()) && emitted == old(emitted) && peerListeners == old(peerListeners)
    {
      r := SendControl(TYPE_CLOSE);
      if r.Fail? {
        return;
      }
      messageListeners := 0;
      handlers := ClearAll(handlers);
    }

    /** listen: take the side port from the app, install one more peer
        socket listener when the messaging module is present (each calls
        onMessage, see OnPeerMessage) and count the shake as done. */
    method Listen(port2: u16, messaging: bool)
      requires LegacyShake.Inv(Handshake())
      modifies this, cfg
      ensures LegacyShake.Inv(Handshake())
      ensures cfg.appSidePort == port2 && Handshake() == ListenSpec(old(Handshake()))
      ensures peerListeners == old(peerListeners) + (if messaging then 1 else 0)
      ensures handlers == old(handlers) && messageListeners == old(messageListeners) && emitted == old(emitted)
    {
      cfg.SetSidePort(port2);
      if messaging {
        peerListeners := peerListeners + 1;
      }
      waitingShakePromise := Some(Shake.AlreadyResolved);
    }

    /** A buffer from the peer socket: every listener listen installed calls
        onMessage with it. */
    method OnPeerMessage(bin: Bytes, codec: Codec) returns (r: Outcome)
      requires LegacyShake.Inv(Handshake()) && LegacyRequests.Inv(handlers) && sessionMgr.Valid()
      modifies this`handlers, this`emitted, sessionMgr, sessionMgr.sessions.Values
      ensures LegacyRequests.Inv(handlers) && sessionMgr.Valid()
      ensures (Observe(), r) == Heard(old(Observe()), radio.connected, isDevice, bin, codec, peerListeners)
    {
      r := HearAll(bin, codec, peerListeners);
    }

    /** An event carrying bin, heard by n listeners that each call
        onMessage; the first exception ends the event. */
    method HearAll(bin: Bytes, codec: Codec, n: nat) returns (r: Outcome)
      requires LegacyShake.Inv(Handshake()) && LegacyRequests.Inv(handlers) && sessionMgr.Valid()
      modifies this`handlers, this`emitted, sessionMgr, sessionMgr.sessions.Values
      ensures LegacyRequests.Inv(handlers) && sessionMgr.Valid()
      ensures (Observe(), r) == Heard(old(Observe()), radio.connected, isDevice, bin, codec, n)
    {
      ghost var o0 := Observe();
      var i := 0;
      r := Pass;
      while i < n && r.Pass?
        invariant 0 <= i <= n
        invariant LegacyShake.Inv(Handshake()) && LegacyRequests.Inv(handlers) && sessionMgr.Valid()
        invariant (Observe(), r) == Heard(o0, radio.connected, isDevice, bin, codec, i)
        invariant forall x :: x in sessionMgr.sessions.Values ==> x in old(sessionMgr.sessions.Values) || fresh(x)
      {
        r := HearNext(bin, codec, o0, i);
        i := i + 1;
      }
      if r.Fail? {
        EmitStops(Listener(radio.connected, isDevice, bin, codec), o0, i, n);
      }
    }

    /** The listener after the first i, when none of those threw. */
    method HearNext(bin: Bytes, codec: Codec, ghost o0: Observed, ghost i: nat) returns (r: Outcome)
      requires LegacyShake.Inv(Handshake()) && LegacyRequests.Inv(handlers) && sessionMgr.Valid() && ObservedOk(o0)
      requires (Observe(), Pass) == Heard(o0, radio.connected, isDevice, bin, codec, i)
      modifies this`handlers, this`emitted, sessionMgr, sessionMgr.sessions.Values
      ensures LegacyRequests.Inv(handlers) && sessionMgr.Valid()
      ensures forall x :: x in sessionMgr.sessions.Values ==> x in old(sessionMgr.sessions.Values) || fresh(x)
      ensures (Observe(), r) == Heard(o0, radio.connected, isDevice, bin, codec, i + 1)
    {
      r := OnMessage(bin, codec);
    }

    /** onFragmentData, the device's BLE callback. */
    method OnFragmentData(bin: Bytes, codec: Codec) returns (r: Outcome)
      requires Valid()
      modifies this, cfg, sessionMgr, sessionMgr.sessions.Values
      ensures Valid()
      ensures (Observe(), r) == FragmentSpec(old(Observe()), radio.connected, isDevice, messageListeners, bin, codec)
      ensures messageListeners == old(messageListeners) && peerListeners == old(peerListeners)
    {
      var frame := DeserializeMessage(bin);
      if frame.Err? {
        return Fail(frame.error);
      }
      r := OnFrame(frame.value, codec);
    }

    /** onFragmentData once readBin has succeeded. */
    method OnFrame(m: Message, codec: Codec) returns (r: Outcome)
      requires Valid() && !m.payload.Absent?
      modifies this, cfg, sessionMgr, sessionMgr.sessions.Values
      ensures Valid()
      ensures (Observe(), r) == FrameSpec(old(Observe()), radio.connected, isDevice, messageListeners, m, codec)
      ensures messageListeners == old(messageListeners) && peerListeners == old(peerListeners)
    {
      if m.flag == FLAG_APP && m.msgType == TYPE_SHAKE {
        r := OnShakeFrame(m);
      } else if m.flag == FLAG_APP && (m.msgType == TYPE_DATA || m.msgType == TYPE_DATA_WITH_SYSTEM_TOOL) {
        r := OnDataFrame(m, codec);
      } else if m.flag == FLAG_APP && (m.msgType == TYPE_LOG || m.msgType == TYPE_CLOSE) {
        r := OnLogOrClose(m, codec);
      } else {
        r := Pass;
      }
    }

    /** The Shake case of onFragmentData. */
    method OnShakeFrame(m: Message) returns (r: Outcome)
      requires LegacyShake.Inv(Handshake()) && LegacyRequests.Inv(handlers) && sessionMgr.Valid()
      modifies this`shakeTask, this`shakeStatus, this`shakeTimerArmed, this`emitted, cfg
      ensures LegacyShake.Inv(Handshake()) && sessionMgr.Valid()
      ensures (Observe(), r) == ShakeFrameSpec(old(Observe()), m)
    {
      cfg.SetSidePort(m.port2);
      emitted := emitted + [Inbound.ShakeReplied(m)];
      r := AcceptShake();
      sessionMgr.ViewUnchanged();
    }

    /** The handshake half of the Shake case: clearShakeTimer, then
        shakeTask.resolve and the success status. */
    method AcceptShake() returns (r: Outcome)
      requires LegacyShake.Inv(Handshake())
      modifies this`shakeTask, this`shakeStatus, this`shakeTimerArmed
      ensures (Handshake(), r) == ReplySpec(old(Handshake()))
    {
      shakeTimerArmed := false;
      if shakeTask.None? {
        // shakeTask.resolve on null
        return Fail(TypeError);
      }
      if shakeTask == Some(Pending) {
        shakeTask := Some(Resolved(()));
      }
      shakeStatus := Shake.ShakeSuccess;
      r := Pass;
    }

    /** The Data and DataWithSystemTool cases of onFragmentData: the
        'message' event, heard by every listener connect installed. */
    method OnDataFrame(m: Message, codec: Codec) returns (r: Outcome)
      requires LegacyShake.Inv(Handshake()) && LegacyRequests.Inv(handlers) && sessionMgr.Valid()
      requires m.flag == FLAG_APP && m.msgType in {TYPE_DATA, TYPE_DATA_WITH_SYSTEM_TOOL} && !m.payload.Absent?
      modifies this`handlers, this`emitted, sessionMgr, sessionMgr.sessions.Values
      ensures LegacyRequests.Inv(handlers) && sessionMgr.Valid()
      ensures (Observe(), r) == FrameSpec(old(Observe()), radio.connected, isDevice, messageListeners, m, codec)
    {
      r := HearAll(m.payload.bytes, codec, messageListeners);
    }

    /** The Log and Close cases of onFragmentData. */
    method OnLogOrClose(m: Message, codec: Codec) returns (r: Outcome)
      requires LegacyShake.Inv(Handshake()) && LegacyRequests.Inv(handlers) && sessionMgr.Valid()
      requires m.flag == FLAG_APP && m.msgType in {TYPE_LOG, TYPE_CLOSE} && !m.payload.Absent?
      modifies this`emitted, cfg
      ensures sessionMgr.Valid()
      ensures (Observe(), r) == FrameSpec(old(Observe()), radio.connected, isDevice, messageListeners, m, codec)
    {
      if m.msgType == TYPE_LOG {
        emitted := emitted + [Inbound.LogEmitted(m.payload)];
      } else {
        cfg.SetSidePort(0);
      }
      sessionMgr.ViewUnchanged();
      r := Pass;
    }

    /** onMessage: readPayload, then the chunk's session. */
    method OnMessage(bin: Bytes, codec: Codec) returns (r: Outcome)
      requires LegacyShake.Inv(Handshake()) && LegacyRequests.Inv(handlers) && sessionMgr.Valid()
      modifies this`handlers, this`emitted, sessionMgr, sessionMgr.sessions.Values
      ensures LegacyRequests.Inv(handlers) && sessionMgr.Valid()
      ensures (Observe(), r) == MessageSpec(old(Observe()), radio.connected, isDevice, bin, codec)
      ensures forall x :: x in sessionMgr.sessions.Values ==> x in old(sessionMgr.sessions.Values) || fresh(x)
    {
      var decoded := DeserializePayload(bin);
      if decoded.Err? {
        sessionMgr.ViewUnchanged();
        return Fail(decoded.error);
      }
      r := OnPayload(decoded.value, codec);
    }

    /** getById or newSession, then addChunk and the listeners' reaction. */
    method OnPayload(p: Payload, codec: Codec) returns (r: Outcome)
      requires LegacyRequests.Inv(handlers) && sessionMgr.Valid()
      modifies this`handlers, this`emitted, sessionMgr, sessionMgr.sessions.Values
      ensures LegacyRequests.Inv(handlers) && sessionMgr.Valid()
      ensures var x := Receive(old(Sessions()), old(handlers), p, Link(), codec);
        Sessions() == x.0 && handlers == x.1 && emitted == old(emitted) + x.2 && r == x.3
      ensures forall x :: x in sessionMgr.sessions.Values ==> x in old(sessionMgr.sessions.Values) || fresh(x)
    {
      ghost var v := Sessions();
      ghost var h := handlers;
      var s := FindSession(p);
      ghost var grown := sessionMgr.sessions;
      ghost var st := s.State();
      ghost var step := AddChunkSpec(st, p);
      r := AddAndHandle(s, p, codec);
      ReactOverwrite(v, h, KeyOf(s), step.0, step.1, Link(), codec, st);
      forall x | x in sessionMgr.sessions.Values
        ensures x in old(sessionMgr.sessions.Values) || fresh(x)
      {
        var k :| k in sessionMgr.sessions && sessionMgr.sessions[k] == x;
        assert k in grown && grown[k] == x;
      }
    }

    /** The session of a chunk: the open one under its key, or a new one. */
    method FindSession(p: Payload) returns (s: Session)
      requires sessionMgr.Valid()
      modifies sessionMgr
      ensures sessionMgr.Valid()
      ensures KeyOf(s) == Inbound.ChunkKey(p) && KeyOf(s) in sessionMgr.sessions && sessionMgr.sessions[KeyOf(s)] == s
      ensures s.State() == if KeyOf(s) in old(Sessions()) then old(Sessions())[KeyOf(s)] else Fresh
      ensures Sessions() == old(Sessions())[KeyOf(s) := s.State()]
      ensures KeyOf(s) in old(Sessions()) ==> s in old(sessionMgr.sessions.Values)
      ensures KeyOf(s) !in old(Sessions()) ==> fresh(s)
      ensures sessionMgr.sessions == old(sessionMgr.sessions)[KeyOf(s) := s]
    {
      var found := sessionMgr.GetById(p.traceId, p.payloadType);
      if found == null {
        s := sessionMgr.NewSession(p.traceId, p.payloadType);
      } else {
        s := found;
        assert sessionMgr.sessions == old(sessionMgr.sessions)[KeyOf(s) := s];
        assert old(Sessions())[KeyOf(s)] == s.State();
        assert Sessions() == old(Sessions())[KeyOf(s) := s.State()];
      }
    }

    /** session.addChunk, followed by the listeners' reaction. */
    method AddAndHandle(s: Session, p: Payload, codec: Codec) returns (r: Outcome)
      requires LegacyRequests.Inv(handlers) && sessionMgr.Valid()
      requires KeyOf(s) in sessionMgr.sessions && sessionMgr.sessions[KeyOf(s)] == s
      modifies this`handlers, this`emitted, sessionMgr, s
      ensures LegacyRequests.Inv(handlers) && sessionMgr.Valid()
      ensures var step := AddChunkSpec(old(s.State()), p);
        var x := React(old(Sessions()), old(handlers), KeyOf(s), step.0, step.1, Link(), codec);
        Sessions() == x.0 && handlers == x.1 && emitted == old(emitted) + x.2 && r == x.3
      ensures sessionMgr.sessions == old(sessionMgr.sessions) || sessionMgr.sessions == old(sessionMgr.sessions) - {KeyOf(s)}
    {
      ghost var v := Sessions();
      label before:
      var ev := s.AddChunk(p);
      sessionMgr.ViewOfChanged@before(s);
      ReactOverwrite(v, handlers, KeyOf(s), s.State(), ev, Link(), codec, s.State());
      r := HandleSessionEvent(s, ev, codec);
    }

    /** The 'data' and 'error' listeners onMessage installs on a session,
        acting on what addChunk reported. */
    method HandleSessionEvent(s: Session, ev: SessionEvent, codec: Codec) returns (r: Outcome)
      requires LegacyRequests.Inv(handlers) && sessionMgr.Valid()
      requires KeyOf(s) in sessionMgr.sessions && sessionMgr.sessions[KeyOf(s)] == s
      modifies this`handlers, this`emitted, sessionMgr, s
      ensures LegacyRequests.Inv(handlers) && sessionMgr.Valid()
      ensures var x := React(old(Sessions()), old(handlers), KeyOf(s), old(s.State()), ev, Link(), codec);
        Sessions() == x.0 && handlers == x.1 && emitted == old(emitted) + x.2 && r == x.3
      ensures sessionMgr.sessions == old(sessionMgr.sessions) || sessionMgr.sessions == old(sessionMgr.sessions) - {KeyOf(s)}
    {
      ghost var v := Sessions();
      ghost var key := KeyOf(s);
      assert v[key] == s.State();
      if ev.ErrorEvent? {
        sessionMgr.Destroy(s);
        emitted := emitted + [Inbound.ErrorEmitted(ev.error)];
        return Pass;
      }
      if ev.DataEvent? && ev.data.opCode == FINISHED {
        r := Finish(s, ev.data, codec);
      } else {
        assert v[key := s.State()] == v;
        r := Pass;
      }
    }

    /** A Finished message: deliver it, emit it as 'data' and destroy its
        session; an exception from the delivery skips both. */
    method Finish(s: Session, d: Payload, codec: Codec) returns (r: Outcome)
      requires LegacyRequests.Inv(handlers) && sessionMgr.Valid()
      requires KeyOf(s) in sessionMgr.sessions && sessionMgr.sessions[KeyOf(s)] == s
      modifies this`handlers, this`emitted, sessionMgr, s
      ensures LegacyRequests.Inv(handlers) && sessionMgr.Valid()
      ensures var dl := Deliver(old(handlers), d, Link(), codec);
        && handlers == dl.0 && r == dl.2
        && (r.Fail? ==> Sessions() == old(Sessions()) && emitted == old(emitted) + dl.1)
        && (r.Pass? ==> Sessions() == old(Sessions()) - {KeyOf(s)}
                        && emitted == old(emitted) + dl.1 + [Inbound.DataEmitted(d)])
      ensures sessionMgr.sessions == old(sessionMgr.sessions) || sessionMgr.sessions == old(sessionMgr.sessions) - {KeyOf(s)}
    {
      r := DeliverMsg(d, codec);
      sessionMgr.ViewUnchanged();
      if r.Fail? {
        return;
      }
      emitted := emitted + [Inbound.DataEmitted(d)];
      ghost var before := sessionMgr.View();
      assert before == old(Sessions());
      sessionMgr.Destroy(s);
      assert Sessions() == before - {KeyOf(s)};
    }

    /** The 'data' listener for a Finished message, up to the 'data'
        event: 'request' with its response callback, 'response' (which runs
        onResponse), or 'call'. */
    method DeliverMsg(d: Payload, codec: Codec) returns (r: Outcome)
      requires LegacyRequests.Inv(handlers)
      modifies this`handlers, this`emitted
      ensures LegacyRequests.Inv(handlers)
      ensures var dl := Deliver(old(handlers), d, Link(), codec);
        handlers == dl.0 && emitted == old(emitted) + dl.1 && r == dl.2
    {
      r := Pass;
      if d.payloadType == PAYLOAD_REQUEST {
        emitted := emitted + [Inbound.RequestEmitted(d)];
      } else if d.payloadType == PAYLOAD_RESPONSE {
        r := OnResponse(d, codec);
      } else if d.payloadType == PAYLOAD_NOTIFY {
        emitted := emitted + [Inbound.CallEmitted(d)];
      }
    }

    /** onResponse: the handler registered under the response's traceId,
        if any, runs transact and resolves its request. */
    method OnResponse(d: Payload, codec: Codec) returns (r: Outcome)
      requires LegacyRequests.Inv(handlers)
      modifies this`handlers
      ensures LegacyRequests.Inv(handlers)
      ensures (handlers, r) == LegacyRequests.OnResponse(old(handlers), d, Link().bleDown, Link().sideClosed, codec)
    {
      if d.traceId !in handlers.live {
        return Pass;
      }
      var reply := Transact(d, Link().bleDown, Link().sideClosed, codec);
      if reply.Err? {
        return Fail(reply.error);
      }
      handlers := LegacyRequests.Settle(handlers, d.traceId, Resolved(reply.value));
      r := Pass;
    }

    /** request, up to waitingShakePromise: a device whose link is down is
        refused with BLE_CLOSE; otherwise the request waits on the shake
        promise (then on null throws a TypeError). */
    method Request() returns (start: Started)
      ensures BleDown(isDevice, radio.connected) ==> start == Builder.Refused(MessageError(BleClose))
      ensures !BleDown(isDevice, radio.connected) ==>
        && (waitingShakePromise.None? ==> start == Builder.Refused(TypeError))
        && (waitingShakePromise.Some? ==> start == Builder.AfterShake(waitingShakePromise.value))
    {
      if BleDown(isDevice, radio.connected) {
        return Builder.Refused(MessageError(BleClose));
      }
      start := Builder.Gate(waitingShakePromise);
    }

    /** requestTask, once the shake promise has resolved: both link checks,
        a new traceId, the handler registered, then the plan and the send;
        only a send that returned attaches the clean-up. A plan or a send
        that throws leaves the handler registered. */
    method RequestProceed(data: AppData, opts: LegacyOptions, codec: Codec, fx: Foreign, clock: nat)
      returns (r: Result<nat>)
      requires Valid()
      modifies this`handlers, ids, radio`sent, radio`calls
      ensures Valid()
      ensures Link().bleDown ==> r == Err(MessageError(BleClose))
      ensures !Link().bleDown && Link().sideClosed ==> r == Err(MessageError(AppClose))
      ensures Link().bleDown || Link().sideClosed ==>
        handlers == old(handlers) && ids.nextTrace == old(ids.nextTrace) && ids.nextSpan == old(ids.nextSpan)
        && radio.sent == old(radio.sent) && radio.calls == old(radio.calls)
      ensures !Link().bleDown && !Link().sideClosed ==>
        var id := old(ids.nextTrace);
        var plan := RequestPlan(data, opts, codec, fx);
        && ids.nextTrace == id + 1
        && (plan.Err? ==>
              && r == Err(TypeError) && handlers == Register(old(handlers), id)
              && ids.nextSpan == old(ids.nextSpan) && radio.sent == old(radio.sent)
              && radio.calls == old(radio.calls))
        && (plan.Ok? ==>
              var p := plan.value;
              var verdict := LegacyVerdict(isDevice, radio.connected, radio.answers, old(radio.calls), id,
                                           old(ids.nextSpan), |p.bytes|);
              var delivered := Delivered(Planned(isDevice, DataRoute(cfg), id, old(ids.nextSpan), PAYLOAD_REQUEST,
                                                 p.contentType, p.dataType, p.bytes, clock),
                                         verdict, AcceptedRun(radio.answers, old(radio.calls),
                                                              Fragmenter.ChunkCount(|p.bytes|)));
              && ids.nextSpan == old(ids.nextSpan) + 1
              && radio.sent == old(radio.sent) + delivered
              && radio.calls == old(radio.calls) + NativeCalls(isDevice, verdict, |delivered|)
              && (verdict.Fail? ==> r == Err(verdict.error) && handlers == Register(old(handlers), id))
              && (verdict.Pass? ==> r == Ok(id) && handlers == Attach(Register(old(handlers), id), id)))
    {
      if Link().bleDown {
        return Err(MessageError(BleClose));
      }
      if Link().sideClosed {
        return Err(MessageError(AppClose));
      }
      var requestId := ids.GenTraceId();
      handlers := Register(handlers, requestId);
      var plan := RequestPlan(data, opts, codec, fx);
      if plan.Err? {
        return Err(plan.error);
      }
      var p := plan.value;
      var sent := LegacyWire.SendHmProtocol(radio, isDevice, cfg, ids, requestId, p.bytes, PAYLOAD_REQUEST,
                                            p.contentType, p.dataType, clock);
      if sent.Fail? {
        return Err(sent.error);
      }
      handlers := Attach(handlers, requestId);
      r := Ok(requestId);
    }

    /** The request timer firing. */
    method OnRequestTimer(id: nat)
      requires LegacyRequests.Inv(handlers)
      modifies this`handlers
      ensures LegacyRequests.Inv(handlers) && handlers == TimerFires(old(handlers), id)
    {
      handlers := TimerFires(handlers, id);
    }

    /** response: the value is sent under the request's traceId (a fresh
        one when it is 0) as a Response with the caller's content type, by
        data type: TEXT through str2buf, JSON through json2buf, anything else
        the value itself, announced as BIN. */
    method Response(requestId: nat, contentType: byte, dataType: byte, data: AppData, codec: Codec, fx: Foreign,
                    clock: nat)
      returns (r: Outcome)
      requires ids.Valid()
      modifies ids, radio`sent, radio`calls
      ensures ids.Valid()
      ensures var shape := ResponseShape(dataType, data, codec, fx);
        var traceId := if requestId != 0 then requestId else old(ids.nextTrace);
        var delivered := if shape.0.Sendable? then
                           Delivered(Planned(isDevice, DataRoute(cfg), traceId, old(ids.nextSpan), PAYLOAD_RESPONSE,
                                             contentType, shape.1, shape.0.bytes, clock),
                                     r, AcceptedRun(radio.answers, old(radio.calls),
                                                    Fragmenter.ChunkCount(|shape.0.bytes|)))
                         else [];
        && ids.nextTrace == old(ids.nextTrace) + (if requestId == 0 then 1 else 0)
        && ids.nextSpan == old(ids.nextSpan) + (if shape.0.LengthThrows? then 0 else 1)
        && r == ResponseOutcome(shape.0, isDevice, radio.connected, radio.answers, old(radio.calls), traceId,
                                old(ids.nextSpan))
        && radio.sent == old(radio.sent) + delivered
        && radio.calls == old(radio.calls) + NativeCalls(isDevice, r, |delivered|)
    {
      var shape := ResponseShape(dataType, data, codec, fx);
      match shape.0
      case LengthThrows =>
        if requestId == 0 {
          var _ := ids.GenTraceId();
        }
        r := Fail(TypeError);
      case NoBytes =>
        r := LegacyWire.SendHmProtocol(radio, isDevice, cfg, ids, requestId, [], PAYLOAD_RESPONSE, contentType,
                                       shape.1, clock);
      case CopyFails =>
        if requestId == 0 {
          var _ := ids.GenTraceId();
        }
        var _ := ids.GenSpanId();
        r := if BleDown(isDevice, radio.connected) then Fail(MessageError(BleClose)) else Fail(TypeError);
      case Sendable(bytes) =>
        r := LegacyWire.SendHmProtocol(radio, isDevice, cfg, ids, requestId, bytes, PAYLOAD_RESPONSE, contentType,
                                       shape.1, clock);
    }

    /** The response callback handed out with a 'request' event: the
        request's content type, and the caller's data type through
        getDataType (which throws on a non-string) or else the request's. */
    method RespondTo(request: Payload, data: AppData, dataType: Option<TypeArg>, codec: Codec, fx: Foreign,
                     clock: nat)
      returns (r: Outcome)
      requires ids.Valid()
      modifies ids, radio`sent, radio`calls
      ensures ids.Valid()
      ensures var dt := if dataType.None? then Ok(request.dataType) else LegacyGetDataType(dataType.value);
        && (dt.Err? ==>
              r == Fail(TypeError) && ids.nextTrace == old(ids.nextTrace) && ids.nextSpan == old(ids.nextSpan)
              && radio.sent == old(radio.sent) && radio.calls == old(radio.calls))
        && (dt.Ok? ==>
              var shape := ResponseShape(dt.value, data, codec, fx);
              var traceId := if request.traceId != 0 then request.traceId else old(ids.nextTrace);
              var delivered := if shape.0.Sendable? then
                                 Delivered(Planned(isDevice, DataRoute(cfg), traceId, old(ids.nextSpan),
                                                   PAYLOAD_RESPONSE, request.contentType, shape.1, shape.0.bytes,
                                                   clock),
                                           r, AcceptedRun(radio.answers, old(radio.calls),
                                                          Fragmenter.ChunkCount(|shape.0.bytes|)))
                               else [];
              && r == ResponseOutcome(shape.0, isDevice, radio.connected, radio.answers, old(radio.calls), traceId,
                                      old(ids.nextSpan))
              && radio.sent == old(radio.sent) + delivered
              && radio.calls == old(radio.calls) + NativeCalls(isDevice, r, |delivered|))
    {
      var dt := if dataType.None? then Ok(request.dataType) else LegacyGetDataType(dataType.value);
      if dt.Err? {
        return Fail(TypeError);
      }
      r := Response(request.traceId, request.contentType, dt.value, data, codec, fx, clock);
    }

    /** call, up to waitingShakePromise: no link check (then on null throws
        a TypeError). */
    method Call() returns (start: Started)
      ensures waitingShakePromise.None? ==> start == Builder.Refused(TypeError)
      ensures waitingShakePromise.Some? ==> start == Builder.AfterShake(waitingShakePromise.value)
    {
      start := Builder.Gate(waitingShakePromise);
    }

    /** call once the shake promise has resolved: the value goes out as a
        Notify with dataType EMPTY under a fresh traceId. */
    method CallProceed(data: AppData, codec: Codec, clock: nat) returns (r: Outcome)
      requires ids.Valid()
      modifies ids, radio`sent, radio`calls
      ensures ids.Valid()
      ensures var plan := CallPlan(data, codec);
        var delivered := Delivered(Planned(isDevice, DataRoute(cfg), old(ids.nextTrace), old(ids.nextSpan),
                                           PAYLOAD_NOTIFY, plan.0, EMPTY, plan.1, clock),
                                   r, AcceptedRun(radio.answers, old(radio.calls), Fragmenter.ChunkCount(|plan.1|)));
        && ids.nextTrace == old(ids.nextTrace) + 1 && ids.nextSpan == old(ids.nextSpan) + 1
        && r == LegacyVerdict(isDevice, radio.connected, radio.answers, old(radio.calls), old(ids.nextTrace),
                              old(ids.nextSpan), |plan.1|)
        && radio.sent == old(radio.sent) + delivered
        && radio.calls == old(radio.calls) + NativeCalls(isDevice, r, |delivered|)
    {
      var plan := CallPlan(data, codec);
      r := LegacyWire.SendHmProtocol(radio, isDevice, cfg, ids, 0, plan.1, PAYLOAD_NOTIFY, plan.0, EMPTY, clock);
    }
  }

  /** Reacting to a session's event and reacting to it after the session's
      entry was brought up to date agree. */
  lemma ReactOverwrite(v: LegacyView, h: Handlers, key: SessionKey, st: LegacyState, ev: SessionEvent,
                       link: LinkState, codec: Codec, was: LegacyState)
    requires LegacyRequests.Inv(h)
    ensures React(v[key := was], h, key, st, ev, link, codec) == React(v, h, key, st, ev, link, codec)
  {
    assert v[key := was][key := st] == v[key := st];
    assert v[key := was] - {key} == v - {key};
  }

  /** A Data frame the peer's device sent, carrying record o: the device's
      fragment callback hands exactly that record to its session, when
      connect has installed the 'message' listener. */
  lemma DataFrameReachesSession(o: Observed, connected: bool, route: Fragmenter.Route, out: Outgoing, clock: nat,
                                codec: Codec)
    requires ObservedOk(o) && Fits(out) && route.messageType == TYPE_DATA
    ensures FragmentSpec(o, connected, true, 1, WireOf(true, route, out, clock), codec)
         == Received(o, Stamped(out, clock), LinkOf(true, connected, o.sidePort), codec)
  {
    WireOfRoundTrip(true, route, out, clock);
    var m := DecodeFrame(WireOf(true, route, out, clock)).value;
    assert |m.payload.bytes| >= HM_MESSAGE_PROTO_HEADER;
  }

  /** A bare chunk the side receives from its peer socket: onMessage hands
      exactly the record written to its session. */
  lemma SideChunkReachesSession(o: Observed, connected: bool, route: Fragmenter.Route, out: Outgoing, clock: nat,
                                codec: Codec)
    requires ObservedOk(o) && Fits(out)
    ensures MessageSpec(o, connected, false, WireOf(false, route, out, clock), codec)
         == Received(o, Stamped(out, clock), LinkOf(false, connected, o.sidePort), codec)
  {
    WireOfRoundTrip(false, route, out, clock);
  }

  /** e, n times over. */
  function Times(e: seq<Emission>, n: nat): (r: seq<Emission>)
    ensures |r| == n * |e|
  {
    if n == 0 then [] else Times(e, n - 1) + e
  }

  /** A step that appends e to what it is given, from every state it can
      reach that way, appends e once per call when run n times. */
  lemma {:induction false} EmitRepeats(step: Observed -> (Observed, Outcome), o: Observed, e: seq<Emission>, n: nat)
    requires forall k :: 0 <= k < n ==>
      step(o.(emitted := o.emitted + Times(e, k))) == (o.(emitted := o.emitted + Times(e, k + 1)), Pass)
    ensures Emit(step, o, n) == (o.(emitted := o.emitted + Times(e, n)), Pass)
    decreases n
  {
    if n == 0 {
      assert o.(emitted := o.emitted + []) == o;
    } else {
      EmitRepeats(step, o, e, n - 1);
    }
  }

  /** A message that fits one chunk, heard by n listeners while no session
      is open under its key: each listener reassembles and delivers it on
      its own, so 'request' or 'call' and 'data' are emitted n times and no
      session is left open. Two connect calls without a disConnect in
      between make every such message arrive twice. */
  lemma EachListenerDelivers(o: Observed, connected: bool, isDevice: bool,
                             sh: Fragmenter.SendHeader, data: Bytes, bin: Bytes, codec: Codec, n: nat)
    requires ObservedOk(o) && 0 < |data| <= Fragmenter.CHUNK_DATA && sh.payloadType != PAYLOAD_RESPONSE
    requires Reassembly.SessionKey(sh.traceId, sh.payloadType) !in o.sessions
    requires DecodeChunk(bin) == Ok(Fragmenter.Fragments(sh, data)[0])
    ensures var d := Inbound.Assembled(sh, data);
      Heard(o, connected, isDevice, bin, codec, n)
        == (o.(emitted := o.emitted + Times(Inbound.Dispatch(d) + [Inbound.DataEmitted(d)], n)), Pass)
  {
    var d := Inbound.Assembled(sh, data);
    var e := Inbound.Dispatch(d) + [Inbound.DataEmitted(d)];
    var listener := Listener(connected, isDevice, bin, codec);
    forall k | 0 <= k < n
      ensures listener(o.(emitted := o.emitted + Times(e, k))) == (o.(emitted := o.emitted + Times(e, k + 1)), Pass)
    {
      ListenerDeliversAgain(o, connected, isDevice, sh, data, bin, codec, k);
    }
    EmitRepeats(listener, o, e, n);
  }

  /** The (k+1)-th listener finds the state the first k left and delivers
      the message once more. */
  lemma ListenerDeliversAgain(o: Observed, connected: bool, isDevice: bool,
                              sh: Fragmenter.SendHeader, data: Bytes, bin: Bytes, codec: Codec, k: nat)
    requires ObservedOk(o) && 0 < |data| <= Fragmenter.CHUNK_DATA && sh.payloadType != PAYLOAD_RESPONSE
    requires Reassembly.SessionKey(sh.traceId, sh.payloadType) !in o.sessions
    requires DecodeChunk(bin) == Ok(Fragmenter.Fragments(sh, data)[0])
    ensures var d := Inbound.Assembled(sh, data);
      var e := Inbound.Dispatch(d) + [Inbound.DataEmitted(d)];
      Listener(connected, isDevice, bin, codec)(o.(emitted := o.emitted + Times(e, k)))
        == (o.(emitted := o.emitted + Times(e, k + 1)), Pass)
  {
    var d := Inbound.Assembled(sh, data);
    var e := Inbound.Dispatch(d) + [Inbound.DataEmitted(d)];
    var before := o.(emitted := o.emitted + Times(e, k));
    OneListenerDelivers(before, connected, isDevice, sh, data, bin, codec);
    assert Listener(connected, isDevice, bin, codec)(before) == MessageSpec(before, connected, isDevice, bin, codec);
    assert before.emitted + e == o.emitted + Times(e, k + 1);
  }

  /** One listener's onMessage with a message that fits one chunk and has
      no open session: it is delivered and its session closed again. */
  lemma OneListenerDelivers(o: Observed, connected: bool, isDevice: bool, sh: Fragmenter.SendHeader, data: Bytes,
                            bin: Bytes, codec: Codec)
    requires ObservedOk(o) && 0 < |data| <= Fragmenter.CHUNK_DATA && sh.payloadType != PAYLOAD_RESPONSE
    requires Reassembly.SessionKey(sh.traceId, sh.payloadType) !in o.sessions
    requires DecodeChunk(bin) == Ok(Fragmenter.Fragments(sh, data)[0])
    ensures var d := Inbound.Assembled(sh, data);
      MessageSpec(o, connected, isDevice, bin, codec)
        == (o.(emitted := o.emitted + (Inbound.Dispatch(d) + [Inbound.DataEmitted(d)])), Pass)
  {
    var d := Inbound.Assembled(sh, data);
    var f := Fragmenter.Fragments(sh, data);
    var link := LinkOf(isDevice, connected, o.sidePort);
    Fragmenter.ChunkCountBounds(|data|);
    assert |f| == 1 && f == [f[0]];
    DeliverSend(sh, data, f, o.sessions, o.handlers, link, codec);
    var step := Receive(o.sessions, o.handlers, f[0], link, codec);
    assert ReceiveAll(o.sessions, o.handlers, f, link, codec) == (step.0, step.1, [] + step.2) by {
      assert f[..0] == [];
    }
    var dl := Deliver(o.handlers, d, link, codec);
    assert dl == (o.handlers, Inbound.Dispatch(d), Pass);
    assert step.0 == o.sessions && step.1 == o.handlers && step.2 == Inbound.Dispatch(d) + [Inbound.DataEmitted(d)];
    assert step.3 == Pass;
    assert MessageSpec(o, connected, isDevice, bin, codec) == Received(o, f[0], link, codec);
  }

  /** The peer's answer to a shake: the side port it names is taken, the
      reply is announced, and the shake succeeds, resolving a pending task;
      with no task the call throws after taking the port. */
  lemma ShakeReplyTakesPort(o: Observed, connected: bool, isDevice: bool, listeners: nat,
                            appId: u32, devicePort: u16, sidePort: u16, codec: Codec)
    requires ObservedOk(o)
    ensures var r := FragmentSpec(o, connected, isDevice, listeners,
                                  EncodeFrame(Builder.ControlMessage(TYPE_SHAKE, appId, devicePort, sidePort)), codec);
      && r.0.sidePort == sidePort && !r.0.shake.timerArmed
      && r.0.sessions == o.sessions && r.0.handlers == o.handlers
      && |r.0.emitted| == |o.emitted| + 1 && r.0.emitted[|o.emitted|].ShakeReplied?
      && (o.shake.task.Some? <==> r.1.Pass?)
      && (r.1.Pass? ==> r.0.shake.status == Shake.ShakeSuccess)
      && (o.shake.task == Some(Pending) ==> r.0.shake.task == Some(Resolved(())))
  {
    Builder.ControlFrameRoundTrip(TYPE_SHAKE, appId, devicePort, sidePort);
  }

  /** The handler leak: a request whose plan or send threw keeps its
      handler through every later response and timer, until disConnect. */
  lemma {:induction false} FailedRequestKeepsHandler(h: Handlers, id: nat, evs: seq<Event>, codec: Codec)
    requires LegacyRequests.Inv(h)
    requires forall i :: 0 <= i < |evs| ==> !evs[i].Cleared?
    ensures id in Run(Register(h, id), evs, codec).live
  {
    UnattachedHandlerStays(Register(h, id), evs, codec, id);
  }
}
