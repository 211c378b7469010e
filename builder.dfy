/** MessageBuilder of the split version (builder.js): the shake handshake,
    the dispatch of incoming frames, the transport's error and disconnect
    handlers, and the request / response / call entry points. The transport
    adapters, timers and promises are outside the model: timers, connect
    callbacks and transport events arrive as method calls, and a promise is
    represented by its settlement. */
module Builder {
  import opened Common
  import opened Constants
  import opened FrameCodec
  import opened ChunkCodec
  import opened Link
  import opened AppValues
  import Util
  import Fragmenter
  import opened Reassembly
  import opened Requests
  import opened Shake
  import opened Inbound

  /** buildShakeMessage / buildCloseMessage: an App frame from the device
      port to the side port whose one payload byte is the low byte of the
      application id (Buffer.from keeps the low 8 bits). */
  function ControlMessage(msgType: u16, appId: u32, devicePort: u16, sidePort: u16): (m: Message)
    ensures m.payload == Buf([appId % 0x100])
  {
    Message(FLAG_APP, VERSION_1, msgType, devicePort, sidePort, appId, 0, Buf([appId % 0x100]))
  }

  /** The bytes the peer receives for a shake or close frame decode back to
      its type, both ports and the application id. */
  lemma ControlFrameRoundTrip(msgType: u16, appId: u32, devicePort: u16, sidePort: u16)
    ensures var m := DecodeFrame(EncodeFrame(ControlMessage(msgType, appId, devicePort, sidePort)));
      && m.Ok? && m.value.flag == FLAG_APP && m.value.msgType == msgType
      && m.value.port1 == devicePort && m.value.port2 == sidePort && m.value.appId == appId
      && m.value.payload == Buf([appId % 0x100])
  {
    FrameRoundTrip(ControlMessage(msgType, appId, devicePort, sidePort));
  }

  /** The dataType a responder hands to the response callback: nothing, a
      type name, or an op code. */
  datatype TypeHint = NoHint | Named(name: string) | Code(op: byte)

  /** The response callback's contentType: a name goes through getDataType,
      anything else is passed on as it is. */
  function HintContentType(hint: TypeHint): (r: Option<byte>)
    ensures r.None? <==> hint.NoHint?
    ensures hint.Named? ==> r == Some(Util.GetDataType(Util.Str(hint.name)))
    ensures hint.Code? ==> r == Some(hint.op)
  {
    match hint
    case NoHint => None
    case Named(name) => Some(Util.GetDataType(Util.Str(name)))
    case Code(op) => Some(op)
  }

  /** response's classification, checked in its order: Buffer, string, plain
      object, null or undefined. It agrees with request's and call's. */
  function ClassifyResponse(d: AppData, codec: Codec): (r: Option<(byte, Bytes)>)
    ensures r == Classify(d, codec)
  {
    if d.BufferVal? then Some((BIN, d.bytes))
    else if d.StrVal? then Some((TEXT, codec.str2buf(d.s)))
    else if IsPlainObject(d) then Some((JSON, codec.json2buf(d)))
    else if d.NullVal? || d.UndefinedVal? then Some((EMPTY, []))
    else None
  }

  /** The content type response writes: the caller's when given, otherwise
      the classification's. */
  function ResponseContentType(contentType: Option<byte>, classified: byte): (r: byte)
    ensures contentType.Some? ==> r == contentType.value
    ensures contentType.None? ==> r == classified
  {
    if contentType.Some? then contentType.value else classified
  }

  /** The catch of request and call: a MessageError passes through, any other
      error becomes a MessageError with its own code, or INTERNAL_ERROR when
      it has none. */
  function Wrap(e: Error): (r: Error)
    ensures r.MessageError?
    ensures e.MessageError? ==> r == e
    ensures !e.MessageError? ==> r.code == (if e.RangeError? then ForeignCode else InternalError)
  {
    if e.MessageError? then e
    else if e.RangeError? then MessageError(ForeignCode)
    else MessageError(InternalError)
  }

  /** How request and call start: refused outright, or waiting on a shake
      promise before the send. */
  datatype Started = Refused(error: Error) | AfterShake(promise: ShakePromise)

  /** then() on the gate's promise; a null promise throws a TypeError. */
  function Gate(promise: Option<ShakePromise>): (r: Started)
    ensures promise.None? <==> r == Refused(TypeError)
    ensures promise.Some? ==> r == AfterShake(promise.value)
  {
    if promise.None? then Refused(TypeError) else AfterShake(promise.value)
  }

  /** What the receive path of a builder reads and changes: its shake state,
      the side port of its configuration, its open sessions, its request
      table and the events it has emitted. */
  datatype Observed = Observed(shake: ShakeState, sidePort: u16, sessions: SessionsView, table: Table,
                               emitted: seq<Emission>)

  /** The Data case of onRawMessage over values: a payload that does not
      decode is reported as DESERIALIZATION_ERROR, any other is received. */
  function DataSpec(o: Observed, m: Message, codec: Codec): (r: Observed)
    requires ViewOk(o.sessions)
    ensures ViewOk(r.sessions) && r.shake == o.shake && r.sidePort == o.sidePort
    ensures |o.emitted| <= |r.emitted| <= |o.emitted| + 2 && r.emitted[..|o.emitted|] == o.emitted
  {
    var decoded := if m.payload.Absent? then Err(TypeError) else DecodeChunk(m.payload.bytes);
    if decoded.Err? then o.(emitted := o.emitted + [ErrorEmitted(MessageError(DeserializationError))])
    else ReceivedSpec(o, decoded.value, codec)
  }

  /** onHmProtoPayload over values. */
  function ReceivedSpec(o: Observed, p: Payload, codec: Codec): (r: Observed)
    requires ViewOk(o.sessions)
    ensures ViewOk(r.sessions) && r.shake == o.shake && r.sidePort == o.sidePort
    ensures |o.emitted| <= |r.emitted| <= |o.emitted| + 2 && r.emitted[..|o.emitted|] == o.emitted
  {
    var step := Receive(o.sessions, o.table, p, codec);
    o.(sessions := step.0, table := step.1, emitted := o.emitted + step.2)
  }

  /** onRawMessage over values. App frames are dispatched by type: a Shake
      reply sets the side port and resolves a pending shake, a Data frame's
      payload is decoded and received, a Close frame forgets the side port,
      a Log frame is passed on; Runtime frames, unknown flags and unknown
      types change nothing. */
  function RawSpec(o: Observed, m: Message, codec: Codec): (r: Observed)
    requires ViewOk(o.sessions)
    ensures ViewOk(r.sessions)
    ensures m.flag != FLAG_APP ==> r == o
    ensures r.shake != o.shake ==> m.flag == FLAG_APP && m.msgType == TYPE_SHAKE
    ensures r.sidePort != o.sidePort ==> m.flag == FLAG_APP && m.msgType in {TYPE_SHAKE, TYPE_CLOSE}
    ensures r.sessions != o.sessions || r.table != o.table ==>
      m.flag == FLAG_APP && m.msgType in {TYPE_DATA, TYPE_DATA_WITH_SYSTEM_TOOL}
    ensures |o.emitted| <= |r.emitted| <= |o.emitted| + 2 && r.emitted[..|o.emitted|] == o.emitted
  {
    if m.flag != FLAG_APP then o
    else if m.msgType == TYPE_SHAKE then
      o.(shake := ReplySpec(o.shake, m), sidePort := m.port2, emitted := o.emitted + [ShakeReplied(m)])
    else if m.msgType == TYPE_DATA || m.msgType == TYPE_DATA_WITH_SYSTEM_TOOL then DataSpec(o, m, codec)
    else if m.msgType == TYPE_CLOSE then o.(sidePort := 0, emitted := o.emitted + [AppClosed(m)])
    else if m.msgType == TYPE_LOG then o.(emitted := o.emitted + [LogEmitted(m.payload)])
    else o
  }

  class MessageBuilder {
    const isDevice: bool
    const config: Config
    const transport: Transport?
    const ids: Util.IdGen
    const sessionMgr: SessionManager
    const requestHandler: RequestHandler
    var shakeStatus: ShakeStatus
    var shakeTask: Option<Settle<Message>>
    var shakeEpoch: nat
    var waitingShakePromise: Option<ShakePromise>
    var timerArmed: bool
    var connects: nat
    /** Every event emitted so far, oldest first. */
    var emitted: seq<Emission>

    function Handshake(): ShakeState
      reads this
    {
      ShakeState(shakeStatus, shakeTask, shakeEpoch, waitingShakePromise, timerArmed, connects)
    }

    /** The open sessions, as size and state per key. */
    function Sessions(): SessionsView
      requires sessionMgr.Valid()
      reads sessionMgr, sessionMgr.sessions.Values
    {
      sessionMgr.View()
    }

    /** Everything the receive path reads or changes. */
    function Observe(): Observed
      requires sessionMgr.Valid()
      reads this, config, sessionMgr, sessionMgr.sessions.Values, requestHandler
    {
      Observed(Handshake(), config.appSidePort, Sessions(), requestHandler.State(), emitted)
    }

    /** The frame a shake sends with the current configuration. */
    function ShakeFrame(): Bytes
      reads config
    {
      EncodeFrame(ControlMessage(TYPE_SHAKE, config.appId, config.appDevicePort, config.appSidePort))
    }

    /** The invariants of the objects the builder owns. */
    ghost predicate PartsValid()
      reads ids, sessionMgr, sessionMgr.sessions.Values, requestHandler, requestHandler.ids
    {
      sessionMgr.Valid() && requestHandler.ids == ids && requestHandler.Valid()
    }

    /** The shake invariant; a builder without a transport never waits on
        a connect callback. */
    ghost predicate ShakeValid()
      reads this
    {
      Shake.Inv(Handshake()) && (transport == null ==> connects == 0)
    }

    ghost predicate Valid()
      reads this, ids, sessionMgr, sessionMgr.sessions.Values, requestHandler, requestHandler.ids
    {
      ShakeValid() && PartsValid()
    }

    constructor (isDevice: bool, config: Config, transport: Transport?, ids: Util.IdGen)
      requires ids.Valid()
      ensures Valid() && fresh(sessionMgr) && fresh(requestHandler)
      ensures this.isDevice == isDevice && this.config == config && this.transport == transport
      ensures this.ids == ids
      ensures Handshake() == Initial && Sessions() == map[] && emitted == []
      ensures requestHandler.State() == Table(map[], map[])
    {
      this.isDevice := isDevice;
      this.config := config;
      this.transport := transport;
      this.ids := ids;
      sessionMgr := new SessionManager();
      requestHandler := new RequestHandler(ids);
      shakeStatus := ShakeStart;
      shakeTask := None;
      shakeEpoch := 0;
      waitingShakePromise := None;
      timerArmed := false;
      connects := 0;
      emitted := [];
    }

    method ClearShakeTimer()
      modifies this`timerArmed
      ensures !timerArmed
    {
      timerArmed := false;
    }

    /** shakeTask.reject: a task already settled stays as it is. */
    method RejectShake(code: ErrorCode)
      modifies this`shakeTask
      ensures shakeTask == SettleTask(old(Handshake()), Rejected(MessageError(code))).task
    {
      if shakeTask == Some(Pending) {
        shakeTask := Some(Rejected(MessageError(code)));
      }
    }

    /** sendShake: send the shake frame; with no transport, a pending shake
        fails with INTERNAL_ERROR. */
    method SendShake()
      modifies this, transport
      ensures transport != null ==>
        transport.sent == old(transport.sent) + [ShakeFrame()] && transport.probe == old(transport.probe)
        && Handshake() == old(Handshake())
      ensures transport == null ==>
        Handshake() == if old(shakeTask).Some? && old(shakeStatus) == ShakePending
                   then Shake.Fail(old(Handshake()), InternalError) else old(Handshake())
      ensures emitted == old(emitted)
    {
      var serialized := SerializeMessage(Some(ControlMessage(TYPE_SHAKE, config.appId, config.appDevicePort,
                                                             config.appSidePort)));
      if transport != null {
        transport.Send(serialized.value);
      } else if shakeTask.Some? && shakeStatus == ShakePending {
        RejectShake(InternalError);
        shakeStatus := ShakeFailure;
      }
    }

    /** _initiateShakeProtocol. */
    method InitiateShake()
      requires transport != null
      modifies this, transport
      ensures Handshake() == Initiate(old(Handshake()))
      ensures transport.sent == old(transport.sent) + [ShakeFrame()] && transport.probe == old(transport.probe)
      ensures emitted == old(emitted)
    {
      timerArmed := true;
      shakeStatus := ShakePending;
      SendShake();
    }

    /** fork: join a shake in progress, skip a shake that succeeded on a
        connected link, or start a new shake task (connecting first when the
        transport reports the link down). */
    method Fork() returns (promise: Option<ShakePromise>)
      requires ShakeValid()
      modifies this, transport
      ensures ShakeValid()
      ensures var r := ForkSpec(old(Handshake()), transport != null, if transport != null then old(transport.probe) else None);
        && Handshake() == r.0 && promise == r.1
        && (transport != null ==>
              transport.sent == old(transport.sent) + (if r.2 then [ShakeFrame()] else []))
      ensures transport != null ==> transport.probe == old(transport.probe)
      ensures emitted == old(emitted)
    {
      if shakeStatus == ShakePending {
        return waitingShakePromise;
      }
      if shakeStatus == ShakeSuccess && transport != null && transport.probe == Some(true) {
        return Some(AlreadyResolved);
      }
      shakeEpoch := shakeEpoch + 1;
      shakeTask := Some(Pending);
      waitingShakePromise := Some(TaskPromise(shakeEpoch));
      shakeStatus := ShakeStart;
      ClearShakeTimer();
      if transport == null {
        RejectShake(InternalError);
        shakeStatus := ShakeFailure;
        return waitingShakePromise;
      }
      if transport.probe == Some(false) {
        // transport.connect(callback); the callback arrives as OnConnectResult
        connects := connects + 1;
      } else {
        InitiateShake();
      }
      promise := waitingShakePromise;
    }

    /** The callback fork handed to transport.connect. */
    method OnConnectResult(ok: bool)
      requires ShakeValid()
      modifies this, transport
      ensures ShakeValid()
      ensures var r := ConnectSpec(old(Handshake()), ok);
        && Handshake() == r.0
        && (transport != null ==>
              transport.sent == old(transport.sent) + (if r.1 then [ShakeFrame()] else []))
      ensures transport != null ==> transport.probe == old(transport.probe)
      ensures emitted == old(emitted)
    {
      if connects == 0 {
        return;
      }
      connects := connects - 1;
      if !ok {
        RejectShake(BleClose);
        shakeStatus := ShakeFailure;
      } else {
        InitiateShake();
      }
    }

    /** The callback of the shake timer. */
    method OnShakeTimer()
      requires ShakeValid()
      modifies this
      ensures ShakeValid()
      ensures Handshake() == TimerSpec(old(Handshake()))
      ensures emitted == old(emitted)
    {
      if !timerArmed {
        return;
      }
      timerArmed := false;
      if shakeStatus == ShakePending {
        shakeStatus := ShakeFailure;
        RejectShake(ShakeTimeOut);
      }
    }

    /** listen, up to the transport's connect: on the side, the side port is
        taken from the running app (`appPort2` is its port2, None when there
        is no app); with no transport the callback receives INTERNAL_ERROR.
        Otherwise the connect's success callback is OnListenConnected. The
        side port is taken before, and whatever, the transport answers, so
        every later shake frame carries it. */
    method Listen(appPort2: Option<u16>) returns (err: Option<Error>)
      modifies config
      ensures config.appSidePort == (if !isDevice && appPort2.Some? then appPort2.value else old(config.appSidePort))
      ensures err == (if transport == null then Some(MessageError(InternalError)) else None)
      ensures !isDevice && appPort2.Some? ==>
        var m := DecodeFrame(ShakeFrame());
        m.Ok? && m.value.port2 == appPort2.value && m.value.port1 == config.appDevicePort
      ensures Handshake() == old(Handshake()) && emitted == old(emitted)
    {
      if !isDevice && appPort2.Some? {
        config.SetSidePort(appPort2.value);
        ControlFrameRoundTrip(TYPE_SHAKE, config.appId, config.appDevicePort, config.appSidePort);
      }
      if transport == null {
        return Some(MessageError(InternalError));
      }
      err := None;
    }

    /** The success callback of listen: the shake counts as done. */
    method OnListenConnected()
      requires ShakeValid()
      modifies this
      ensures ShakeValid()
      ensures Handshake() == ListenSpec(old(Handshake()))
      ensures emitted == old(emitted)
    {
      waitingShakePromise := Some(AlreadyResolved);
      shakeStatus := ShakeSuccess;
    }

    /** disConnect: send the close frame, then return to the start state. */
    method DisConnect()
      requires ShakeValid()
      modifies this, transport
      ensures ShakeValid()
      ensures Handshake() == DisconnectSpec(old(Handshake()))
      ensures transport != null ==>
        transport.sent == old(transport.sent)
          + [EncodeFrame(ControlMessage(TYPE_CLOSE, config.appId, config.appDevicePort, config.appSidePort))]
        && transport.probe == old(transport.probe)
      ensures emitted == old(emitted)
    {
      var serialized := SerializeMessage(Some(ControlMessage(TYPE_CLOSE, config.appId, config.appDevicePort,
                                                             config.appSidePort)));
      if transport != null {
        transport.Send(serialized.value);
      }
      shakeStatus := ShakeStart;
      waitingShakePromise := None;
    }

    /** The transport's 'error' handler: re-emit the error, fail a pending
        shake and every open request with BLE_CLOSE. */
    method OnTransportError(code: Option<ErrorCode>)
      requires Valid()
      modifies this`emitted, this`shakeTask, this`shakeStatus, requestHandler
      ensures Valid()
      ensures emitted == old(emitted)
        + [ErrorEmitted(MessageError(if code.Some? then code.value else InternalError))]
      ensures Handshake() == LinkLostSpec(old(Handshake()))
      ensures requestHandler.State() == FailAll(old(requestHandler.State()), MessageError(BleClose))
    {
      emitted := emitted + [ErrorEmitted(MessageError(if code.Some? then code.value else InternalError))];
      LoseLink();
      requestHandler.HandleError(MessageError(BleClose));
    }

    /** What both handlers do to the shake: a pending one is rejected with
        BLE_CLOSE and marked failed. */
    method LoseLink()
      requires ShakeValid()
      modifies this`shakeTask, this`shakeStatus
      ensures ShakeValid()
      ensures Handshake() == LinkLostSpec(old(Handshake()))
    {
      if shakeTask.Some? && shakeStatus == ShakePending {
        RejectShake(BleClose);
        shakeStatus := ShakeFailure;
      }
    }

    /** The transport's 'disconnect' handler: forget the side port, fail a
        pending shake and every open request with BLE_CLOSE, and report the
        link down. */
    method OnTransportDisconnect()
      requires Valid()
      modifies this`shakeTask, this`shakeStatus, this`emitted, config, requestHandler
      ensures Valid()
      ensures config.appSidePort == 0
      ensures Handshake() == LinkLostSpec(old(Handshake()))
      ensures requestHandler.State() == FailAll(old(requestHandler.State()), MessageError(BleClose))
      ensures emitted == old(emitted) + [BleStatusChanged(false)]
    {
      config.SetSidePort(0);
      LoseLink();
      requestHandler.HandleError(MessageError(BleClose));
      emitted := emitted + [BleStatusChanged(false)];
    }

    /** The transport's 'connect' handler. */
    method OnTransportConnect()
      modifies this`emitted
      ensures emitted == old(emitted) + [BleStatusChanged(true)]
    {
      emitted := emitted + [BleStatusChanged(true)];
    }

    /** onRawMessage. */
    method OnRawMessage(m: Message, codec: Codec)
      requires Valid()
      modifies this, config, sessionMgr, sessionMgr.sessions.Values, requestHandler
      ensures Valid()
      ensures Observe() == RawSpec(old(Observe()), m, codec)
    {
      if m.flag != FLAG_APP {
        return;
      }
      if m.msgType == TYPE_SHAKE {
        OnShakeFrame(m, codec);
      } else if m.msgType == TYPE_DATA || m.msgType == TYPE_DATA_WITH_SYSTEM_TOOL {
        OnDataFrame(m, codec);
      } else if m.msgType == TYPE_CLOSE {
        OnCloseFrame(m, codec);
      } else if m.msgType == TYPE_LOG {
        OnLogFrame(m);
      }
    }

    /** The Log case of onRawMessage: the payload is passed on. */
    method OnLogFrame(m: Message)
      requires sessionMgr.Valid()
      modifies this`emitted
      ensures Observe() == old(Observe()).(emitted := old(emitted) + [LogEmitted(m.payload)])
    {
      emitted := emitted + [LogEmitted(m.payload)];
    }

    /** The Shake case of onRawMessage: learn the side port, announce the
        reply, and resolve a pending shake with it. */
    method OnShakeFrame(m: Message, codec: Codec)
      requires ShakeValid() && sessionMgr.Valid() && m.flag == FLAG_APP && m.msgType == TYPE_SHAKE
      modifies this, config
      ensures ShakeValid()
      ensures Observe() == RawSpec(old(Observe()), m, codec)
    {
      config.SetSidePort(m.port2);
      emitted := emitted + [ShakeReplied(m)];
      if shakeTask.Some? && shakeStatus == ShakePending {
        ClearShakeTimer();
        if shakeTask == Some(Pending) {
          shakeTask := Some(Resolved(m));
        }
        shakeStatus := ShakeSuccess;
      }
      sessionMgr.ViewUnchanged();
    }

    /** The Close case of onRawMessage: forget the side port and announce
        the peer's close. */
    method OnCloseFrame(m: Message, codec: Codec)
      requires sessionMgr.Valid() && m.flag == FLAG_APP && m.msgType == TYPE_CLOSE
      modifies config, this`emitted
      ensures Observe() == RawSpec(old(Observe()), m, codec)
    {
      config.SetSidePort(0);
      emitted := emitted + [AppClosed(m)];
      sessionMgr.ViewUnchanged();
    }

    /** The Data case of onRawMessage: a payload that does not decode is
        reported as DESERIALIZATION_ERROR, any other goes to
        onHmProtoPayload. */
    method OnDataFrame(m: Message, codec: Codec)
      requires PartsValid() && m.flag == FLAG_APP && m.msgType in {TYPE_DATA, TYPE_DATA_WITH_SYSTEM_TOOL}
      modifies sessionMgr, sessionMgr.sessions.Values, requestHandler, this`emitted
      ensures PartsValid()
      ensures Observe() == DataSpec(old(Observe()), m, codec)
    {
      if m.payload.Absent? {
        // Buffer.from(undefined) throws
        ReportUndecodable();
        return;
      }
      var decoded := DeserializePayload(m.payload.bytes);
      if decoded.Err? {
        ReportUndecodable();
      } else {
        OnHmProtoPayload(decoded.value, codec);
      }
    }

    /** The DESERIALIZATION_ERROR of a payload that does not decode. */
    method ReportUndecodable()
      requires PartsValid()
      modifies this`emitted
      ensures PartsValid()
      ensures Observe() == old(Observe()).(emitted := old(emitted) + [ErrorEmitted(MessageError(DeserializationError))])
    {
      emitted := emitted + [ErrorEmitted(MessageError(DeserializationError))];
    }

    /** onHmProtoPayload. */
    method OnHmProtoPayload(p: Payload, codec: Codec)
      requires PartsValid()
      modifies sessionMgr, sessionMgr.sessions.Values, requestHandler, this`emitted
      ensures PartsValid()
      ensures Observe() == ReceivedSpec(old(Observe()), p, codec)
    {
      ghost var v := Sessions();
      ghost var tb := requestHandler.State();
      var s := FindSession(p);
      if s == null {
        return;
      }
      ghost var st := s.State();
      ghost var step := AddChunkSpec(s.size, st, p);
      assert Receive(v, tb, p, codec) == React(v, tb, ChunkKey(p), s.size, step.0, step.1, codec);
      AddAndHandle(s, p, codec);
      ReactOverwrite(v, tb, ChunkKey(p), s.size, step.0, step.1, codec, (s.size, st));
    }

    /** The session for a chunk: the open one under its key, a new one sized
        by its totalLength, or none for a Continued chunk other than the
        first when no session is open. */
    method FindSession(p: Payload) returns (s: Session?)
      requires sessionMgr.Valid()
      modifies sessionMgr
      ensures sessionMgr.Valid()
      ensures s == null <==> Discarded(old(Sessions()), p)
      ensures s == null ==> Sessions() == old(Sessions())
      ensures s != null ==>
        && KeyOf(s) == ChunkKey(p) && ChunkKey(p) in sessionMgr.sessions && sessionMgr.sessions[ChunkKey(p)] == s
        && Sessions() == old(Sessions())[ChunkKey(p) := (s.size, s.State())]
        && (ChunkKey(p) in old(Sessions()) ==> s in old(sessionMgr.sessions.Values) && old(Sessions())[ChunkKey(p)] == (s.size, s.State()))
        && (ChunkKey(p) !in old(Sessions()) ==> fresh(s) && s.size == p.totalLength && s.State() == Empty)
    {
      s := sessionMgr.GetById(p.traceId, p.payloadType);
      if s == null {
        if p.opCode == CONTINUED && p.seqId != 0 {
          return;
        }
        s := sessionMgr.NewSession(p.traceId, p.payloadType, p.totalLength);
      } else {
        assert old(Sessions())[ChunkKey(p)] == (s.size, s.State());
      }
    }

    /** session.addChunk, followed by the handlers the builder installed. */
    method AddAndHandle(s: Session, p: Payload, codec: Codec)
      requires PartsValid() && KeyOf(s) in sessionMgr.sessions && sessionMgr.sessions[KeyOf(s)] == s
      modifies sessionMgr, s, requestHandler, this`emitted
      ensures PartsValid()
      ensures var step := AddChunkSpec(s.size, old(s.State()), p);
        var r := React(old(Sessions()), old(requestHandler.State()), KeyOf(s), s.size, step.0, step.1, codec);
        Sessions() == r.0 && requestHandler.State() == r.1 && emitted == old(emitted) + r.2
    {
      ghost var v := Sessions();
      ghost var tb := requestHandler.State();
      label added:
      var ev := s.AddChunk(p);
      sessionMgr.ViewOfChanged@added(s);
      ReactOverwrite(v, tb, KeyOf(s), s.size, s.State(), ev, codec, (s.size, s.State()));
      HandleSessionEvent(s, ev, codec);
    }

    /** The 'data' and 'error' handlers the builder installs on a session,
        acting on what addChunk emitted. */
    method HandleSessionEvent(s: Session, ev: SessionEvent, codec: Codec)
      requires PartsValid() && KeyOf(s) in sessionMgr.sessions && sessionMgr.sessions[KeyOf(s)] == s
      modifies sessionMgr, s, requestHandler, this`emitted
      ensures PartsValid()
      ensures var r := React(old(Sessions()), old(requestHandler.State()), KeyOf(s), s.size, old(s.State()), ev, codec);
        Sessions() == r.0 && requestHandler.State() == r.1 && emitted == old(emitted) + r.2
    {
      ghost var v := Sessions();
      ghost var tb := requestHandler.State();
      ghost var key := KeyOf(s);
      ghost var r := React(v, tb, key, s.size, s.State(), ev, codec);
      if ev.ErrorEvent? {
        assert r == (v - {key}, tb, [ErrorEmitted(ev.error)]);
        Abort(s, ev.error);
      } else if ev.DataEvent? && ev.data.opCode == FINISHED {
        var d := ev.data;
        assert r == (v - {key}, if d.payloadType == PAYLOAD_RESPONSE then Answer(tb, d, codec) else tb,
                     Dispatch(d) + [DataEmitted(d)]);
        Finish(s, d, codec);
      } else {
        assert v[key] == (s.size, s.State());
        assert r == (v[key := (s.size, s.State())], tb, []);
        assert v[key := (s.size, s.State())] == v;
      }
    }

    /** The session's 'error' handler: destroy the session, then emit the error. */
    method Abort(s: Session, e: Error)
      requires PartsValid()
      modifies sessionMgr, s, this`emitted
      ensures PartsValid()
      ensures Sessions() == old(Sessions()) - {KeyOf(s)}
      ensures unchanged(requestHandler) && unchanged(requestHandler.ids)
      ensures emitted == old(emitted) + [ErrorEmitted(e)]
    {
      CloseSession(s);
      emitted := emitted + [ErrorEmitted(e)];
    }

    /** A Finished message: the session's 'data' handler delivers it, then
        the session is destroyed. */
    method Finish(s: Session, d: Payload, codec: Codec)
      requires PartsValid() && KeyOf(s) in sessionMgr.sessions && sessionMgr.sessions[KeyOf(s)] == s
      modifies sessionMgr, s, requestHandler, this`emitted
      ensures PartsValid()
      ensures Sessions() == old(Sessions()) - {KeyOf(s)}
      ensures requestHandler.State() == if d.payloadType == PAYLOAD_RESPONSE then Answer(old(requestHandler.State()), d, codec)
                                        else old(requestHandler.State())
      ensures emitted == old(emitted) + Dispatch(d) + [DataEmitted(d)]
    {
      label entry:
      Deliver(d, codec);
      sessionMgr.ViewUnchanged@entry();
      CloseSession(s);
    }

    /** sessionMgr.destroy(session), as seen by the builder. */
    method CloseSession(s: Session)
      requires PartsValid()
      modifies sessionMgr, s
      ensures PartsValid()
      ensures Sessions() == old(Sessions()) - {KeyOf(s)}
    {
      sessionMgr.Destroy(s);
    }

    /** The session's 'data' handler for a Finished message: dispatch it by
        payload type, then emit it as 'data'. */
    method Deliver(d: Payload, codec: Codec)
      requires requestHandler.Valid()
      modifies requestHandler, this`emitted
      ensures requestHandler.Valid()
      ensures requestHandler.State() == if d.payloadType == PAYLOAD_RESPONSE then Answer(old(requestHandler.State()), d, codec)
                                        else old(requestHandler.State())
      ensures emitted == old(emitted) + Dispatch(d) + [DataEmitted(d)]
    {
      if d.payloadType == PAYLOAD_REQUEST {
        emitted := emitted + [RequestEmitted(d)];
      } else if d.payloadType == PAYLOAD_RESPONSE {
        requestHandler.OnResponse(d, codec);
      } else if d.payloadType == PAYLOAD_NOTIFY {
        emitted := emitted + [CallEmitted(d)];
      }
      emitted := emitted + [DataEmitted(d)];
    }

    /** The gate request and call pass through before sending. */
    method EnsureShake() returns (promise: Option<ShakePromise>)
      requires ShakeValid()
      modifies this, transport
      ensures ShakeValid()
      ensures var r := EnsureShakeSpec(isDevice, old(Handshake()), transport != null,
                                       if transport != null then old(transport.probe) else None);
        && Handshake() == r.0 && promise == r.1
        && (transport != null ==>
              transport.sent == old(transport.sent) + (if r.2 then [ShakeFrame()] else []))
      ensures transport != null ==> transport.probe == old(transport.probe)
      ensures emitted == old(emitted)
    {
      if isDevice && shakeStatus != ShakeSuccess {
        if waitingShakePromise.None? || shakeStatus == ShakeStart || shakeStatus == ShakeFailure {
          promise := Fork();
        } else {
          promise := waitingShakePromise;
        }
      } else {
        promise := Some(AlreadyResolved);
      }
    }

    /** request, up to the shake gate: the rest runs once the gate's
        promise resolves (RequestProceed). */
    method Request() returns (start: Started)
      requires ShakeValid()
      modifies this, transport
      ensures ShakeValid()
      ensures var r := EnsureShakeSpec(isDevice, old(Handshake()), transport != null,
                                       if transport != null then old(transport.probe) else None);
        && Handshake() == r.0 && start == Gate(r.1)
        && (transport != null ==>
              transport.sent == old(transport.sent) + (if r.2 then [ShakeFrame()] else []))
      ensures transport != null ==> transport.probe == old(transport.probe)
      ensures emitted == old(emitted)
    {
      var promise := EnsureShake();
      start := Gate(promise);
    }

    /** request after the shake gate resolved: the transport must be ready,
        then the request handler classifies, registers and sends. The
        request's outcome is its entry in the request table. */
    method RequestProceed(data: AppData, opts: RequestOptions, codec: Codec, clock: nat)
      returns (r: Result<nat>)
      requires PartsValid()
      modifies ids, requestHandler, transport
      ensures PartsValid()
      ensures var ready := Fragmenter.TransportReady(transport);
        && (r.Err? <==> ready.Fail?)
        && (r.Err? ==> r.error == ready.error && ids.nextTrace == old(ids.nextTrace)
                       && ids.nextSpan == old(ids.nextSpan)
                       && requestHandler.State() == old(requestHandler.State()))
      ensures r.Ok? ==>
        && r.value == old(ids.nextTrace) && ids.nextTrace == old(ids.nextTrace) + 1
        && r.value !in old(requestHandler.promises) && r.value in requestHandler.promises
        && (forall k :: k != r.value ==> (k in requestHandler.requests <==> k in old(requestHandler.requests)))
      ensures r.Ok? && Classify(data, codec).None? ==>
        requestHandler.promises[r.value] == Rejected(MessageError(InternalError)) && ids.nextSpan == old(ids.nextSpan)
      ensures r.Ok? && Classify(data, codec).Some? ==> ids.nextSpan == old(ids.nextSpan) + 1
      ensures r.Ok? && Classify(data, codec).Some? ==>
        var c := Classify(data, codec).value;
        Fragmenter.FitsHeader(r.value, old(ids.nextSpan), |c.1|) ==>
          && requestHandler.promises[r.value] == Pending
          && requestHandler.requests[r.value] == TimerDelay(opts)
          && transport.sent == old(transport.sent) + Fragmenter.WireFrames(
               Fragmenter.Route(config.appId, config.appDevicePort, config.appSidePort, TYPE_DATA),
               Fragmenter.Fragments(Fragmenter.SendHeader(r.value, old(ids.nextSpan), PAYLOAD_REQUEST, c.0,
                                                          ResponseDataType(opts, c.0), clock), c.1), clock)
      ensures r.Ok? && Classify(data, codec).Some? ==>
        var c := Classify(data, codec).value;
        !Fragmenter.FitsHeader(r.value, old(ids.nextSpan), |c.1|) ==>
          && requestHandler.State() == SettleEntry(old(requestHandler.State()), r.value, Rejected(RangeError))
          && transport.sent == old(transport.sent)
      ensures transport != null ==> transport.probe == old(transport.probe)
    {
      var ready := Fragmenter.TransportReady(transport);
      if ready.Fail? {
        return Err(ready.error);
      }
      var requestId := requestHandler.Request(data, opts, transport, config, codec, clock);
      r := Ok(requestId);
    }

    /** call, up to the shake gate: a value of no supported kind is refused
        with INTERNAL_ERROR before any shake. */
    method Call(data: AppData, codec: Codec) returns (start: Started)
      requires ShakeValid()
      modifies this, transport
      ensures ShakeValid()
      ensures Classify(data, codec).None? ==>
        && start == Refused(MessageError(InternalError)) && Handshake() == old(Handshake())
        && (transport != null ==> transport.sent == old(transport.sent))
      ensures Classify(data, codec).Some? ==>
        var r := EnsureShakeSpec(isDevice, old(Handshake()), transport != null,
                                 if transport != null then old(transport.probe) else None);
        && Handshake() == r.0 && start == Gate(r.1)
        && (transport != null ==>
              transport.sent == old(transport.sent) + (if r.2 then [ShakeFrame()] else []))
      ensures transport != null ==> transport.probe == old(transport.probe)
      ensures emitted == old(emitted)
    {
      var classified := Classify(data, codec);
      if classified.None? {
        return Refused(MessageError(InternalError));
      }
      var promise := EnsureShake();
      start := Gate(promise);
    }

    /** call after the shake gate resolved: the transport must be ready,
        then the classified bytes go out as a Notify under a fresh traceId.
        The traceId is drawn only once the transport is ready. */
    method CallProceed(contentType: byte, bytes: Bytes, clock: nat) returns (r: Outcome)
      requires PartsValid()
      modifies ids, transport
      ensures PartsValid()
      ensures var ready := Fragmenter.TransportReady(transport);
        && (ready.Fail? ==> r == ready && ids.nextTrace == old(ids.nextTrace) && ids.nextSpan == old(ids.nextSpan))
        && (ready.Pass? ==>
              && ids.nextTrace == old(ids.nextTrace) + 1 && ids.nextSpan == old(ids.nextSpan) + 1
              && r == WrapOutcome(Fragmenter.SendVerdict(true, old(transport.probe), old(ids.nextTrace),
                                                         old(ids.nextSpan), |bytes|))
              && (r.Pass? ==>
                    transport.sent == old(transport.sent) + Fragmenter.WireFrames(
                      Fragmenter.Route(config.appId, config.appDevicePort, config.appSidePort, TYPE_DATA),
                      Fragmenter.Fragments(Fragmenter.SendHeader(old(ids.nextTrace), old(ids.nextSpan),
                                                                 PAYLOAD_NOTIFY, contentType, EMPTY, clock), bytes),
                      clock)))
      ensures transport != null ==> transport.probe == old(transport.probe)
    {
      var ready := Fragmenter.TransportReady(transport);
      if ready.Fail? {
        return ready;
      }
      var sent := Fragmenter.SendHmProtocol(transport, config, ids, None, bytes, PAYLOAD_NOTIFY, contentType,
                                            EMPTY, TYPE_DATA, clock);
      r := WrapOutcome(sent);
    }

    /** response: send data back under the request's traceId as a Response,
        with the caller's content type or the classification's, and always
        with dataType EMPTY. A missing requestId or a value of no supported
        kind is refused with INTERNAL_ERROR before anything is sent; a
        failed send is passed on as thrown. */
    method Response(requestId: Option<nat>, contentType: Option<byte>, data: AppData, codec: Codec, clock: nat)
      returns (r: Outcome)
      requires PartsValid()
      modifies ids, transport
      ensures PartsValid()
      ensures requestId.None? || Classify(data, codec).None? ==>
        && r == Fail(MessageError(InternalError))
        && ids.nextSpan == old(ids.nextSpan) && (transport != null ==> transport.sent == old(transport.sent))
      ensures requestId.Some? && Classify(data, codec).Some? ==>
        var c := Classify(data, codec).value;
        && ids.nextSpan == old(ids.nextSpan) + 1
        && r == Fragmenter.SendVerdict(transport != null, if transport != null then old(transport.probe) else None,
                                       requestId.value, old(ids.nextSpan), |c.1|)
        && (r.Pass? ==>
              transport.sent == old(transport.sent) + Fragmenter.WireFrames(
                Fragmenter.Route(config.appId, config.appDevicePort, config.appSidePort, TYPE_DATA),
                Fragmenter.Fragments(Fragmenter.SendHeader(requestId.value, old(ids.nextSpan), PAYLOAD_RESPONSE,
                                                           ResponseContentType(contentType, c.0), EMPTY, clock),
                                     c.1), clock))
      ensures ids.nextTrace == old(ids.nextTrace)
      ensures transport != null ==> transport.probe == old(transport.probe)
    {
      if requestId.None? {
        return Fail(MessageError(InternalError));
      }
      var classified := ClassifyResponse(data, codec);
      if classified.None? {
        return Fail(MessageError(InternalError));
      }
      var c := classified.value;
      r := Fragmenter.SendHmProtocol(transport, config, ids, requestId, c.1, PAYLOAD_RESPONSE,
                                     ResponseContentType(contentType, c.0), EMPTY, TYPE_DATA, clock);
    }

    /** The response callback handed out with a 'request' event. */
    method RespondTo(request: Payload, data: AppData, hint: TypeHint, codec: Codec, clock: nat)
      returns (r: Outcome)
      requires PartsValid()
      modifies ids, transport
      ensures PartsValid()
      ensures Classify(data, codec).None? ==> r == Fail(MessageError(InternalError)) && ids.nextSpan == old(ids.nextSpan)
      ensures Classify(data, codec).Some? ==>
        var c := Classify(data, codec).value;
        && ids.nextSpan == old(ids.nextSpan) + 1
        && r == Fragmenter.SendVerdict(transport != null, if transport != null then old(transport.probe) else None,
                                       request.traceId, old(ids.nextSpan), |c.1|)
        && (r.Pass? ==>
              transport.sent == old(transport.sent) + Fragmenter.WireFrames(
                Fragmenter.Route(config.appId, config.appDevicePort, config.appSidePort, TYPE_DATA),
                Fragmenter.Fragments(Fragmenter.SendHeader(request.traceId, old(ids.nextSpan), PAYLOAD_RESPONSE,
                                                           ResponseContentType(HintContentType(hint), c.0),
                                                           EMPTY, clock), c.1), clock))
      ensures ids.nextTrace == old(ids.nextTrace)
    {
      r := Response(Some(request.traceId), HintContentType(hint), data, codec, clock);
    }
  }

  /** The catch of call applied to an outcome. */
  function WrapOutcome(o: Outcome): (r: Outcome)
    ensures r.Pass? <==> o.Pass?
    ensures r.Fail? ==> r.error == Wrap(o.error) && r.error.MessageError?
  {
    if o.Pass? then Pass else Fail(Wrap(o.error))
  }

  /** The promise request hands back: the request table's promise, with a
      rejection passed through the catch. */
  function Surfaced(s: Settle<Reply>): (r: Settle<Reply>)
    ensures r.Pending? <==> s.Pending?
    ensures s.Resolved? ==> r == s
    ensures s.Rejected? ==> r == Rejected(Wrap(s.error)) && r.error.MessageError?
  {
    if s.Rejected? then Rejected(Wrap(s.error)) else s
  }

  /** Handling the event of an open session and handling it after its entry
      was brought up to date agree. */
  lemma ReactOverwrite(v: SessionsView, tb: Table, key: SessionKey, size: u32, st: SessionState,
                       ev: SessionEvent, codec: Codec, was: (u32, SessionState))
    requires ViewOk(v) && Consistent(st) && Consistent(was.1)
    ensures ViewOk(v[key := was])
    ensures React(v[key := was], tb, key, size, st, ev, codec) == React(v, tb, key, size, st, ev, codec)
  {
    UpdateTwice(v, key, was, (size, st));
    assert v[key := was] - {key} == v - {key};
  }

  /** Since response always announces dataType EMPTY, a requester whose
      request is still open resolves it with undefined once the response's
      chunks have all arrived, in any order, whatever data the responder
      sent. */
  lemma {:induction false} ResponseResolvesUndefined(h: Fragmenter.SendHeader, data: Bytes, perm: seq<Payload>,
                                                     v: SessionsView, tb: Table, codec: Codec)
    requires |data| < 0x1_0000_0000 && ViewOk(v)
    requires h.payloadType == PAYLOAD_RESPONSE && h.dataType == EMPTY
    requires multiset(perm) == multiset(Fragmenter.Fragments(h, data))
    requires SessionKey(h.traceId, h.payloadType) !in v
    requires perm != [] && (perm[0].opCode == FINISHED || perm[0].seqId == 0)
    requires h.traceId in tb.requests
    ensures var r := ReceiveAll(v, tb, perm, codec);
      && r.0 == v && h.traceId !in r.1.requests
      && h.traceId in r.1.promises && r.1.promises[h.traceId] == Resolved(Undefined)
  {
    DeliverSend(h, data, perm, v, tb, codec);
    var d := Assembled(h, data);
    assert DecodeReply(d.dataType, Fragment(d), codec) == Resolved(Undefined);
    assert Answer(tb, d, codec) == SettleEntry(tb, h.traceId, Resolved(Undefined));
  }
}
