// The drivetrain: ODrive CANSimple codec, mock and SocketCAN backends, the vCAN emulator, and why they agree.

/** Frames of the ODrive CANSimple protocol; float32 payloads are carried as 32-bit patterns. */
module OdriveCan {
  import opened Wrappers
  import opened PxxCan

  datatype MessageData = Message(id: Word16, length: nat, data: seq<Byte>)

  type Message = m: MessageData | |m.data| == 8 witness Message(0, 0, [0, 0, 0, 0, 0, 0, 0, 0])

  const SET_AXIS_STATE: Byte := 0x07
  const GET_ENCODER_ESTIMATES: Byte := 0x09
  const SET_INPUT_VEL: Byte := 0x0D
  const AXIS_IDLE: Word32 := 1
  const AXIS_CLOSED_LOOP: Word32 := 8
  const ESTIMATES := 64

  /** Node in the upper six of eleven bits, command in the lower five. */
  function ArbitrationId(node: Byte, command: Byte): Word16 {
    node * 32 + command % 32
  }

  function IdNode(id: nat): nat { id / 32 % 64 }

  function IdCommand(id: nat): nat { id % 32 }

  /** Packing is a bijection between 64 nodes x 32 commands and the eleven-bit identifiers. */
  lemma IdPackingIsBijective(node: Byte, command: Byte, id: Word16)
    ensures node < 64 && command < 32 ==>
              ArbitrationId(node, command) < 2048 &&
              IdNode(ArbitrationId(node, command)) == node && IdCommand(ArbitrationId(node, command)) == command
    ensures id < 2048 ==> IdNode(id) < 64 && IdCommand(id) < 32 && ArbitrationId(IdNode(id), IdCommand(id)) == id
  {
  }

  function AxisStateFrame(node: Byte, state: Word32): Message {
    Message(ArbitrationId(node, SET_AXIS_STATE), 4, Le(state, 4) + ZEROS[..4])
  }

  function VelocityFrame(node: Byte, bits: Word32): Message {
    Message(ArbitrationId(node, SET_INPUT_VEL), 8, Le(bits, 4) + ZEROS[..4])
  }

  function EstimateFrame(node: Byte, positionBits: Word32, velocityBits: Word32): Message {
    Message(ArbitrationId(node, GET_ENCODER_ESTIMATES), 8, Le(positionBits, 4) + Le(velocityBits, 4))
  }

  method MakeAxisStateFrame(node: Byte, state: Word32) returns (m: Message)
    ensures m == AxisStateFrame(node, state)
  {
    var data := new Byte[8](_ => 0);
    PutLe(data, 0, state, 4);
    assert data[4..] == ZEROS[..4];
    assert data[..] == data[0..4] + data[4..];
    m := Message(ArbitrationId(node, SET_AXIS_STATE), 4, data[..]);
  }

  method MakeInputVelocityFrame(node: Byte, bits: Word32) returns (m: Message)
    ensures m == VelocityFrame(node, bits)
  {
    var data := new Byte[8](_ => 0);
    PutLe(data, 0, bits, 4);
    assert data[4..] == ZEROS[..4];
    assert data[..] == data[0..4] + data[4..];
    m := Message(ArbitrationId(node, SET_INPUT_VEL), 8, data[..]);
  }

  /** Both halves of the payload, gathered byte by byte in one loop. */
  method ParseEncoderEstimate(m: Message) returns (estimate: Option<(Word32, Word32)>)
    ensures estimate == if m.length < 8 then None else Some((WordOf(m.data[0..4]), WordOf(m.data[4..8])))
  {
    if m.length < 8 {
      return None;
    }
    var position, velocity := 0, 0;
    for i := 0 to 4
      invariant position == LeValue(m.data[0..i]) && velocity == LeValue(m.data[4..4 + i])
    {
      LeValueSnoc(m.data[0..i], m.data[i]);
      LeValueSnoc(m.data[4..4 + i], m.data[4 + i]);
      assert m.data[0..i] + [m.data[i]] == m.data[0..i + 1];
      assert m.data[4..4 + i] + [m.data[4 + i]] == m.data[4..4 + i + 1];
      position := position + m.data[i] * Pow256(i);
      velocity := velocity + m.data[4 + i] * Pow256(i);
    }
    assert position == WordOf(m.data[0..4]) && velocity == WordOf(m.data[4..8]);
    estimate := Some((position, velocity));
  }

  /** The emulator's reading of a frame: a velocity for one of its nodes, or nothing. */
  predicate IsVelocityFor(m: Message, node: nat) {
    IdNode(m.id) == node && IdCommand(m.id) == SET_INPUT_VEL && m.length >= 4
  }

  /** The host's reading of a frame: an estimate for one node, or nothing. */
  predicate IsEstimateFor(m: Message, node: nat) {
    IdNode(m.id) == node && IdCommand(m.id) == GET_ENCODER_ESTIMATES && m.length >= 8
  }

  lemma WordRoundTrip(bits: Word32)
    ensures WordOf(Le(bits, 4)) == bits
  {
    Pow256Values();
    LeRoundTrip(bits, 4);
  }

  /** Each side understands the other's frames bit for bit, and its own kind of frame is nobody else's. */
  lemma FramesMeanWhatTheySay(node: Byte, reader: nat, bits: Word32, bits': Word32)
    requires node < 64 && reader < 64
    ensures IsVelocityFor(VelocityFrame(node, bits), reader) <==> reader == node
    ensures WordOf(VelocityFrame(node, bits).data[0..4]) == bits
    ensures IsEstimateFor(EstimateFrame(node, bits, bits'), reader) <==> reader == node
    ensures WordOf(EstimateFrame(node, bits, bits').data[0..4]) == bits
    ensures WordOf(EstimateFrame(node, bits, bits').data[4..8]) == bits'
    ensures !IsEstimateFor(VelocityFrame(node, bits), reader) &&
            !IsVelocityFor(EstimateFrame(node, bits, bits'), reader)
    ensures !IsEstimateFor(AxisStateFrame(node, bits), reader) && !IsVelocityFor(AxisStateFrame(node, bits), reader)
  {
    hide Le, WordOf, ArbitrationId, IdNode, IdCommand;
    PayloadsKeepBits(node, bits, bits');
    IdFields(node, SET_INPUT_VEL);
    IdFields(node, GET_ENCODER_ESTIMATES);
    IdFields(node, SET_AXIS_STATE);
  }

  /** The frames byte by byte; 3f800000h and 40000000h are the float32 values 1 and 2. */
  lemma OdriveBytes(node: Byte)
    requires node < 64
    ensures AxisStateFrame(node, AXIS_CLOSED_LOOP) == Message(node * 32 + 0x07, 4, [8, 0, 0, 0, 0, 0, 0, 0])
    ensures AxisStateFrame(node, AXIS_IDLE) == Message(node * 32 + 0x07, 4, [1, 0, 0, 0, 0, 0, 0, 0])
    ensures VelocityFrame(node, 0x3f80_0000) == Message(node * 32 + 0x0d, 8, [0, 0, 0x80, 0x3f, 0, 0, 0, 0])
    ensures EstimateFrame(node, 0x3f80_0000, 0x4000_0000) ==
            Message(node * 32 + 0x09, 8, [0, 0, 0x80, 0x3f, 0, 0, 0, 0x40])
  {
    hide Le;
    FourBytes(8);
    FourBytes(1);
    FourBytes(0x3f80_0000);
    FourBytes(0x4000_0000);
  }

  lemma IdFields(node: Byte, command: Byte)
    requires node < 64 && command < 32
    ensures IdNode(ArbitrationId(node, command)) == node && IdCommand(ArbitrationId(node, command)) == command
  {
    DivisionIsUnique(node * 32 + command, 32, node, command);
  }

  lemma PayloadsKeepBits(node: Byte, bits: Word32, bits': Word32)
    ensures WordOf(VelocityFrame(node, bits).data[0..4]) == bits
    ensures WordOf(EstimateFrame(node, bits, bits').data[0..4]) == bits
    ensures WordOf(EstimateFrame(node, bits, bits').data[4..8]) == bits'
  {
    WordRoundTrip(bits);
    WordRoundTrip(bits');
    hide Le, WordOf, ArbitrationId;
    assert VelocityFrame(node, bits).data[0..4] == Le(bits, 4);
    assert EstimateFrame(node, bits, bits').data[0..4] == Le(bits, 4);
    assert EstimateFrame(node, bits, bits').data[4..8] == Le(bits', 4);
  }
}

/** Backends and emulator, with doubles as exact reals. */
module Drivetrain {
  import opened Wrappers
  import opened PxxCan
  import opened OdriveCan
  import opened Counts

  datatype WheelState = WheelState(position: real, velocity: real)

  datatype Estimate = Estimate(position: real, velocity: real)

  function MotorTurns(wheel: real, gear: real): real {
    wheel * gear / TWO_PI
  }

  function WheelRad(turns: real, gear: real): real
    requires gear != 0.0
  {
    turns * TWO_PI / gear
  }

  /** One turn of the motor is 2 pi at its shaft, which the gear divides between motor and wheel. */
  lemma OneMotorTurn(turns: real, wheel: real, gear: real)
    requires gear != 0.0
    ensures WheelRad(turns, gear) * gear == turns * TWO_PI && MotorTurns(wheel, gear) * TWO_PI == wheel * gear
    ensures WheelRad(1.0, gear) * gear == TWO_PI && MotorTurns(TWO_PI / gear, gear) == 1.0
  {
    var t, w := turns * TWO_PI, wheel * gear;
    assert t / gear * gear == t && w / TWO_PI * TWO_PI == w;
    assert TWO_PI / gear * gear == TWO_PI;
  }

  /** Wheel to motor and back is the identity. */
  lemma ConversionRoundTrip(wheel: real, gear: real)
    requires gear != 0.0
    ensures WheelRad(MotorTurns(wheel, gear), gear) == wheel
  {
    var t := wheel * gear;
    assert t / TWO_PI * TWO_PI == t;
    QuotientIs(t, gear, wheel);
  }

  function Travel(speed: real, time: real): real {
    speed * time
  }

  lemma TurnsRoundTrip(turns: real, gear: real)
    requires gear != 0.0
    ensures MotorTurns(WheelRad(turns, gear), gear) == turns
  {
    var t := turns * TWO_PI;
    assert t / gear * gear == t;
    QuotientIs(t, TWO_PI, turns);
  }

  /** Integrating in motor turns is integrating at the wheel. */
  lemma IntegrationCommutes(turns: real, speed: real, dt: real, gear: real)
    requires gear != 0.0
    ensures WheelRad(turns + Travel(speed, dt), gear) == WheelRad(turns, gear) + Travel(WheelRad(speed, gear), dt)
  {
    var a, b := WheelRad(turns, gear), WheelRad(speed, gear);
    assert a * gear == turns * TWO_PI && b * gear == speed * TWO_PI;
    assert (turns + speed * dt) * TWO_PI == turns * TWO_PI + speed * TWO_PI * dt;
    assert (a + b * dt) * gear == a * gear + b * gear * dt;
    QuotientIs((turns + speed * dt) * TWO_PI, gear, a + b * dt);
  }

  lemma ZeroTurns(gear: real)
    requires gear != 0.0
    ensures WheelRad(0.0, gear) == 0.0
  {
  }

  lemma TravelAdds(speed: real, a: real, b: real)
    ensures Travel(speed, a + b) == Travel(speed, a) + Travel(speed, b)
    ensures Travel(speed, 0.0) == 0.0
  {
  }

  // MockDriveBackend -----------------------------------------------------------------------------------------

  /** One read of one wheel. */
  function Roll(state: WheelState, command: real, gear: real, period: real): WheelState
    requires gear != 0.0
  {
    var speed := WheelRad(MotorTurns(command, gear), gear);
    WheelState(if period > 0.0 then state.position + speed * period else state.position, speed)
  }

  /** A wheel turns at its command, and moves on by command times period. */
  lemma RollMoves(state: WheelState, command: real, gear: real, period: real)
    requires gear != 0.0
    ensures Roll(state, command, gear, period) ==
            WheelState(state.position + (if period > 0.0 then command * period else 0.0), command)
  {
    ConversionRoundTrip(command, gear);
    hide MotorTurns, WheelRad;
  }

  class MockDriveBackend {
    const gear: real
    const commandsRadS: array<real>
    const states: array<WheelState>

    ghost predicate Valid()
    {
      commandsRadS.Length == states.Length && gear != 0.0
    }

    constructor (jointCount: nat, gear: real)
      requires gear != 0.0
      ensures Valid() && this.gear == gear && states.Length == jointCount && fresh(commandsRadS) && fresh(states)
    {
      this.gear := gear;
      commandsRadS := new real[jointCount](_ => 0.0);
      states := new WheelState[jointCount](_ => WheelState(0.0, 0.0));
    }

    method Activate()
      requires Valid()
      modifies commandsRadS, states
      ensures forall i :: 0 <= i < states.Length ==> commandsRadS[i] == 0.0 && states[i] == WheelState(0.0, 0.0)
    {
      for i := 0 to states.Length
        invariant forall k :: 0 <= k < i ==> commandsRadS[k] == 0.0 && states[k] == WheelState(0.0, 0.0)
      {
        commandsRadS[i] := 0.0;
        states[i] := WheelState(0.0, 0.0);
      }
    }

    method Deactivate()
      requires Valid()
      modifies commandsRadS, states
      ensures forall i :: 0 <= i < states.Length ==>
                            commandsRadS[i] == 0.0 && states[i] == WheelState(old(states[i].position), 0.0)
    {
      for i := 0 to states.Length
        invariant forall k :: 0 <= k < i ==>
                                commandsRadS[k] == 0.0 && states[k] == WheelState(old(states[k].position), 0.0)
        invariant forall k :: i <= k < states.Length ==> states[k] == old(states[k])
      {
        commandsRadS[i] := 0.0;
        states[i] := states[i].(velocity := 0.0);
      }
    }

    /** A period that is not finite is None. */
    method Read(period: Option<real>) returns (ok: bool, result: seq<WheelState>)
      requires Valid()
      modifies states
      ensures ok == period.Some?
      ensures !ok ==> states[..] == old(states[..])
      ensures ok ==> result == states[..]
      ensures ok ==> forall i :: 0 <= i < states.Length ==>
                                   states[i] == Roll(old(states[i]), commandsRadS[i], gear, period.value)
      ensures ok ==> forall i :: 0 <= i < states.Length ==>
                                   && states[i].velocity == commandsRadS[i]
                                   && states[i].position == old(states[i]).position +
                                       if period.value > 0.0 then commandsRadS[i] * period.value else 0.0
    {
      hide Roll;
      ok, result := period.Some?, [];
      if ok {
        for i := 0 to states.Length
          invariant forall k :: i <= k < states.Length ==> states[k] == old(states[k])
          invariant forall k :: 0 <= k < i ==> states[k] == Roll(old(states[k]), commandsRadS[k], gear, period.value)
        {
          states[i] := Roll(states[i], commandsRadS[i], gear, period.value);
        }
        result := states[..];
        forall i | 0 <= i < states.Length
          ensures states[i].velocity == commandsRadS[i]
          ensures states[i].position == old(states[i]).position +
                                        if period.value > 0.0 then commandsRadS[i] * period.value else 0.0
        {
          RollMoves(old(states[i]), commandsRadS[i], gear, period.value);
        }
      }
    }

    method Write(commands: seq<real>) returns (ok: bool)
      requires Valid()
      modifies commandsRadS
      ensures ok == (|commands| == states.Length)
      ensures commandsRadS[..] == if ok then commands else old(commandsRadS[..])
    {
      ok := |commands| == commandsRadS.Length;
      if ok {
        for i := 0 to |commands|
          invariant forall k :: 0 <= k < i ==> commandsRadS[k] == commands[k]
        {
          commandsRadS[i] := commands[i];
        }
      }
    }
  }

  // SocketCanDriveBackend ------------------------------------------------------------------------------------

  /** The estimate held for node k after frames were taken in order: the last one for k, if any. */
  function Heard(e: Estimate, frames: seq<Message>, k: nat, decode: Word32 -> real): Estimate {
    if frames == [] then e
    else
      var m := frames[|frames| - 1];
      if IsEstimateFor(m, k) then Estimate(decode(WordOf(m.data[0..4])), decode(WordOf(m.data[4..8])))
      else Heard(e, frames[..|frames| - 1], k, decode)
  }

  function VelocityFrames(nodes: seq<nat>, commands: seq<real>, gear: real, encode: real -> Word32,
                          n: nat): (fs: seq<Message>)
    requires n <= |nodes| == |commands| && forall i :: 0 <= i < |nodes| ==> nodes[i] < 64
    ensures |fs| == n
    ensures forall i :: 0 <= i < n ==> fs[i] == VelocityFrame(nodes[i], encode(MotorTurns(commands[i], gear)))
  {
    if n == 0 then []
    else
      VelocityFrames(nodes, commands, gear, encode, n - 1) +
      [VelocityFrame(nodes[n - 1], encode(MotorTurns(commands[n - 1], gear)))]
  }

  function AxisFrames(nodes: seq<nat>, state: Word32, n: nat): (fs: seq<Message>)
    requires n <= |nodes| && forall i :: 0 <= i < |nodes| ==> nodes[i] < 64
    ensures |fs| == n && forall i :: 0 <= i < n ==> fs[i] == AxisStateFrame(nodes[i], state)
  {
    if n == 0 then [] else AxisFrames(nodes, state, n - 1) + [AxisStateFrame(nodes[n - 1], state)]
  }

  predicate OnlyAxisFrames(frames: seq<Message>) {
    forall i :: 0 <= i < |frames| ==> IdCommand(frames[i].id) == SET_AXIS_STATE
  }

  lemma NoAxisFrames()
    ensures OnlyAxisFrames([])
  {
  }

  lemma OneAxisFrameMore(frames: seq<Message>, node: Byte, state: Word32)
    requires OnlyAxisFrames(frames)
    ensures OnlyAxisFrames(frames + [AxisStateFrame(node, state)])
  {
    assert IdCommand(AxisStateFrame(node, state).id) == SET_AXIS_STATE;
  }

  class SocketCanDriveBackend {
    const nodeIds: seq<nat>
    const gear: real
    const encode: real -> Word32             // the cast to float32 and its bit pattern
    const decode: Word32 -> real             // the value of a bit pattern
    const estimates: array<Estimate>
    var isOpen: bool
    var rxRunning: bool
    var rxThread: bool
    var sent: seq<Message>                   // frames the socket has accepted
    ghost var offered: seq<Message>          // frames handed to the socket

    ghost predicate Valid()
    {
      && estimates.Length == ESTIMATES && gear != 0.0
      && forall i :: 0 <= i < |nodeIds| ==> nodeIds[i] < 64
    }

    ghost predicate Consistent()
      reads this
    {
      isOpen == rxRunning == rxThread
    }

    constructor (nodeIds: seq<nat>, gear: real, encode: real -> Word32, decode: Word32 -> real)
      requires gear != 0.0 && forall i :: 0 <= i < |nodeIds| ==> nodeIds[i] < 64
      ensures Valid() && Consistent() && !isOpen && fresh(estimates)
      ensures this.nodeIds == nodeIds && this.gear == gear && this.encode == encode && this.decode == decode
      ensures sent == [] && offered == []
    {
      this.nodeIds := nodeIds;
      this.gear := gear;
      this.encode := encode;
      this.decode := decode;
      estimates := new Estimate[ESTIMATES](_ => Estimate(0.0, 0.0));
      isOpen, rxRunning, rxThread, sent, offered := false, false, false, [], [];
    }

    method SendFrame(m: Message) returns (ok: bool)
      modifies this`sent, this`offered
      ensures offered == old(offered) + [m] && sent == if ok then old(sent) + [m] else old(sent)
      ensures !isOpen || m.length > 8 ==> !ok
    {
      offered := offered + [m];
      ok := *;
      ok := ok && isOpen && m.length <= 8;
      if ok { sent := sent + [m]; }
    }

    /** Every node is asked, whatever became of the others. */
    method RequestAxisStateAll(state: Word32) returns (ok: bool)
      requires Valid()
      modifies this`sent, this`offered
      ensures offered == old(offered) + AxisFrames(nodeIds, state, |nodeIds|)
      ensures old(sent) <= sent && |sent| <= |old(sent)| + |nodeIds| && (ok <==> |sent| == |old(sent)| + |nodeIds|)
      ensures OnlyAxisFrames(sent[|old(sent)|..])
    {
      hide AxisStateFrame, OnlyAxisFrames, IdCommand;
      NoAxisFrames();
      assert sent[|sent|..] == [];
      ok := true;
      for i := 0 to |nodeIds|
        invariant offered == old(offered) + AxisFrames(nodeIds, state, i)
        invariant old(sent) <= sent && |sent| <= |old(sent)| + i && (ok <==> |sent| == |old(sent)| + i)
        invariant OnlyAxisFrames(sent[|old(sent)|..])
      {
        var m := MakeAxisStateFrame(nodeIds[i], state);
        ghost var before := sent[|old(sent)|..];
        var accepted := SendFrame(m);
        assert sent[|old(sent)|..] == if accepted then before + [m] else before;
        OneAxisFrameMore(before, nodeIds[i], state);
        ok := ok && accepted;
        assert AxisFrames(nodeIds, state, i + 1) == AxisFrames(nodeIds, state, i) + [m];
      }
    }

    /** A refused axis request is not an error of activation. */
    method Activate() returns (ok: bool)
      requires Valid() && Consistent() && !rxThread
      modifies this`isOpen, this`rxRunning, this`rxThread, this`sent, this`offered, estimates
      ensures Consistent() && ok == isOpen
      ensures ok ==> (forall k :: 0 <= k < ESTIMATES ==> estimates[k] == Estimate(0.0, 0.0)) &&
                     offered == old(offered) + AxisFrames(nodeIds, AXIS_CLOSED_LOOP, |nodeIds|)
      ensures old(sent) <= sent && OnlyAxisFrames(sent[|old(sent)|..])
      ensures !ok ==> sent == old(sent) && offered == old(offered)
    {
      ok := *;
      isOpen := ok;
      if ok {
        for k := 0 to ESTIMATES
          invariant isOpen && rxRunning == rxThread == false && sent == old(sent) && offered == old(offered)
          invariant forall j :: 0 <= j < k ==> estimates[j] == Estimate(0.0, 0.0)
        {
          estimates[k] := Estimate(0.0, 0.0);
        }
        rxRunning := true;
        rxThread := true;
        var requested := RequestAxisStateAll(AXIS_CLOSED_LOOP);
      }
    }

    method Deactivate() returns (ok: bool)
      requires Valid() && Consistent()
      modifies this`isOpen, this`rxRunning, this`rxThread, this`sent, this`offered
      ensures Consistent() && !isOpen
      ensures !old(isOpen) ==> ok && sent == old(sent) && offered == old(offered)
      ensures old(isOpen) ==> offered == old(offered) + AxisFrames(nodeIds, AXIS_IDLE, |nodeIds|) &&
                              (ok <==> |sent| == |old(sent)| + |nodeIds|)
    {
      ok := true;
      if isOpen {
        ok := RequestAxisStateAll(AXIS_IDLE);
      }
      rxRunning := false;
      rxThread := false;
      isOpen := false;
    }

    /** rx_loop over frames in the order they arrive. */
    method Hear(frames: seq<Message>)
      requires Valid()
      modifies estimates
      ensures forall k :: 0 <= k < ESTIMATES ==> estimates[k] == Heard(old(estimates[k]), frames, k, decode)
    {
      hide IsEstimateFor, WordOf;
      for i := 0 to |frames|
        invariant forall k :: 0 <= k < ESTIMATES ==> estimates[k] == Heard(old(estimates[k]), frames[..i], k, decode)
      {
        HearFrame(frames[i]);
        assert frames[..i + 1][..i] == frames[..i];
      }
      assert frames[..|frames|] == frames;
    }

    method HearFrame(m: Message)
      requires Valid()
      modifies estimates
      ensures forall k :: 0 <= k < ESTIMATES ==>
                            estimates[k] == if IsEstimateFor(m, k)
                                            then Estimate(decode(WordOf(m.data[0..4])), decode(WordOf(m.data[4..8])))
                                            else old(estimates[k])
    {
      hide WordOf;
      var estimate := ParseEncoderEstimate(m);
      if IdCommand(m.id) == GET_ENCODER_ESTIMATES && estimate.Some? {
        estimates[IdNode(m.id)] := Estimate(decode(estimate.value.0), decode(estimate.value.1));
      }
    }

    method Read() returns (ok: bool, states: seq<WheelState>)
      requires Valid()
      ensures ok == isOpen
      ensures ok ==> |states| == |nodeIds| &&
                     forall i :: 0 <= i < |nodeIds| ==>
                                   states[i] == WheelState(WheelRad(estimates[nodeIds[i]].position, gear),
                                                           WheelRad(estimates[nodeIds[i]].velocity, gear))
      ensures ok ==> forall i :: 0 <= i < |nodeIds| ==>
                                   && states[i].position * gear == estimates[nodeIds[i]].position * TWO_PI
                                   && states[i].velocity * gear == estimates[nodeIds[i]].velocity * TWO_PI
    {
      hide WheelRad;
      ok, states := isOpen, [];
      if ok {
        for i := 0 to |nodeIds|
          invariant |states| == i
          invariant forall k :: 0 <= k < i ==>
                                  states[k] == WheelState(WheelRad(estimates[nodeIds[k]].position, gear),
                                                          WheelRad(estimates[nodeIds[k]].velocity, gear))
        {
          var e := estimates[nodeIds[i]];
          states := states + [WheelState(WheelRad(e.position, gear), WheelRad(e.velocity, gear))];
        }
        forall i | 0 <= i < |nodeIds|
          ensures states[i].position * gear == estimates[nodeIds[i]].position * TWO_PI
          ensures states[i].velocity * gear == estimates[nodeIds[i]].velocity * TWO_PI
        {
          OneMotorTurn(estimates[nodeIds[i]].position, 0.0, gear);
          OneMotorTurn(estimates[nodeIds[i]].velocity, 0.0, gear);
        }
      }
    }

    /** The frame asks its node for the motor speed, in turns per second, that turns the wheel at `command`. */
    ghost predicate Asks(m: Message, node: Byte, command: real) {
      exists turns: real :: m == VelocityFrame(node, encode(turns)) && turns * TWO_PI == command * gear
    }

    lemma FramesAsk(commands: seq<real>)
      requires Valid() && |commands| == |nodeIds|
      ensures var frames := VelocityFrames(nodeIds, commands, gear, encode, |nodeIds|);
              forall i :: 0 <= i < |nodeIds| ==> Asks(frames[i], nodeIds[i], commands[i])
    {
      hide MotorTurns, VelocityFrame;
      forall i | 0 <= i < |nodeIds|
        ensures Asks(VelocityFrame(nodeIds[i], encode(MotorTurns(commands[i], gear))), nodeIds[i], commands[i])
      {
        OneMotorTurn(0.0, commands[i], gear);
      }
    }

    /** One velocity frame per wheel, in order, whatever the socket refuses. */
    method Write(commands: seq<real>) returns (ok: bool)
      requires Valid()
      modifies this`sent, this`offered
      ensures !isOpen || |commands| != |nodeIds| ==> !ok && sent == old(sent) && offered == old(offered)
      ensures |sent| <= |old(sent)| + |nodeIds|
      ensures isOpen && |commands| == |nodeIds| ==>
                var frames := VelocityFrames(nodeIds, commands, gear, encode, |nodeIds|);
                && offered == old(offered) + frames
                && old(sent) <= sent && (ok ==> sent == old(sent) + frames)
                && (ok <==> |sent| == |old(sent)| + |nodeIds|)
      ensures isOpen && |commands| == |nodeIds| ==>
                forall i :: 0 <= i < |nodeIds| ==>
                              Asks(offered[|old(offered)| + i], nodeIds[i], commands[i])
    {
      hide MotorTurns, VelocityFrame, Asks;
      ok := isOpen && |commands| == |nodeIds|;
      if ok {
        for i := 0 to |nodeIds|
          invariant offered == old(offered) + VelocityFrames(nodeIds, commands, gear, encode, i) && old(sent) <= sent
          invariant |sent| <= |old(sent)| + i && (ok <==> |sent| == |old(sent)| + i)
          invariant ok ==> sent == old(sent) + VelocityFrames(nodeIds, commands, gear, encode, i)
        {
          var m := MakeInputVelocityFrame(nodeIds[i], encode(MotorTurns(commands[i], gear)));
          var accepted := SendFrame(m);
          ok := ok && accepted;
          assert VelocityFrames(nodeIds, commands, gear, encode, i + 1) ==
                 VelocityFrames(nodeIds, commands, gear, encode, i) + [m];
        }
        FramesAsk(commands);
      }
    }
  }

  // The vCAN emulator ----------------------------------------------------------------------------------------

  const NODE_COUNT := 6
  const INTERVAL: real := 1.0 / 100.0

  /** The speed of node k after frames were drained in order: that of the last velocity frame for k, if any. */
  function Drained(speed: real, frames: seq<Message>, k: nat, decode: Word32 -> real): real {
    if frames == [] then speed
    else
      var m := frames[|frames| - 1];
      if IsVelocityFor(m, k) then decode(WordOf(m.data[0..4])) else Drained(speed, frames[..|frames| - 1], k, decode)
  }

  class Emulator {
    const encode: real -> Word32
    const decode: Word32 -> real
    const positions: array<real>
    const velocities: array<real>
    var previous: real
    var nextPublish: real

    ghost predicate Valid()
    {
      positions.Length == velocities.Length == NODE_COUNT && positions != velocities
    }

    ghost function Now(): Clock
      reads this
    {
      Clock(previous, nextPublish)
    }

    constructor (encode: real -> Word32, decode: Word32 -> real, now: real)
      ensures Valid() && previous == nextPublish == now && this.encode == encode && this.decode == decode &&
              fresh(positions) && fresh(velocities)
      ensures forall k :: 0 <= k < NODE_COUNT ==> positions[k] == 0.0 && velocities[k] == 0.0
    {
      this.encode := encode;
      this.decode := decode;
      positions := new real[NODE_COUNT](_ => 0.0);
      velocities := new real[NODE_COUNT](_ => 0.0);
      previous, nextPublish := now, now;
    }

    method Integrate(dt: real)
      requires Valid()
      modifies positions
      ensures forall k :: 0 <= k < NODE_COUNT ==> positions[k] == old(positions[k]) + Travel(velocities[k], dt)
    {
      for node := 0 to NODE_COUNT
        invariant forall k :: 0 <= k < node ==> positions[k] == old(positions[k]) + Travel(velocities[k], dt)
        invariant forall k :: node <= k < NODE_COUNT ==> positions[k] == old(positions[k])
      {
        positions[node] := positions[node] + Travel(velocities[node], dt);
      }
    }

    method Drain(frames: seq<Message>)
      requires Valid()
      modifies velocities
      ensures forall k :: 0 <= k < NODE_COUNT ==> velocities[k] == Drained(old(velocities[k]), frames, k, decode)
    {
      hide WordOf;
      for i := 0 to |frames|
        invariant forall k :: 0 <= k < NODE_COUNT ==>
                  velocities[k] == Drained(old(velocities[k]), frames[..i], k, decode)
      {
        var m := frames[i];
        var node := IdNode(m.id);
        assert frames[..i + 1][..i] == frames[..i];
        if node < NODE_COUNT && IdCommand(m.id) == SET_INPUT_VEL && m.length >= 4 {
          velocities[node] := decode(WordOf(m.data[0..4]));
        }
      }
      assert frames[..|frames|] == frames;
    }

    method Publish() returns (frames: seq<Message>)
      requires Valid()
      ensures |frames| == NODE_COUNT
      ensures forall k :: 0 <= k < NODE_COUNT ==>
                            frames[k] == EstimateFrame(k, encode(positions[k]), encode(velocities[k]))
    {
      frames := [];
      for node := 0 to NODE_COUNT
        invariant |frames| == node
        invariant forall k :: 0 <= k < node ==>
                                frames[k] == EstimateFrame(k, encode(positions[k]), encode(velocities[k]))
      {
        frames := frames + [EstimateFrame(node, encode(positions[node]), encode(velocities[node]))];
      }
    }

    /** One pass of the main loop: integrate at the old speeds, drain the commands, publish when it is time. */
    method Pass(now: real, frames: seq<Message>) returns (out: seq<Message>)
      requires Valid()
      modifies this, positions, velocities
      ensures previous == now
      ensures forall k :: 0 <= k < NODE_COUNT ==>
                            && positions[k] == old(positions[k]) + Travel(old(velocities[k]), now - old(previous))
                            && velocities[k] == Drained(old(velocities[k]), frames, k, decode)
      ensures now < old(nextPublish) ==> out == [] && nextPublish == old(nextPublish)
      ensures now >= old(nextPublish) ==>
                && nextPublish == now + INTERVAL && |out| == NODE_COUNT
                && forall k :: 0 <= k < NODE_COUNT ==>
                    out[k] == EstimateFrame(k, encode(positions[k]), encode(velocities[k]))
    {
      hide Travel, Drained, EstimateFrame;
      var dt := now - previous;
      previous := now;
      Integrate(dt);
      Drain(frames);
      out := [];
      if now >= nextPublish {
        out := Publish();
        nextPublish := now + INTERVAL;
      }
    }
  }

  // What frames do, batch by batch ---------------------------------------------------------------------------

  predicate DistinctWheels(nodes: seq<nat>) {
    && (forall i :: 0 <= i < |nodes| ==> nodes[i] < NODE_COUNT)
    && (forall i, j :: 0 <= i < j < |nodes| ==> nodes[i] != nodes[j])
  }

  lemma {:induction false} WriteReachesItsWheel(speed: real, nodes: seq<nat>, commands: seq<real>, gear: real,
                                                encode: real -> Word32, decode: Word32 -> real, n: nat, i: nat)
    requires DistinctWheels(nodes) && n <= |nodes| == |commands| && i < |nodes|
    ensures Drained(speed, VelocityFrames(nodes, commands, gear, encode, n), nodes[i], decode) ==
            if i < n then decode(encode(MotorTurns(commands[i], gear))) else speed
  {
    hide MotorTurns, WordOf, IsVelocityFor, VelocityFrame, Drained;
    if n == 0 {
      NothingDrained(speed, nodes[i], decode);
    } else {
      var m := VelocityFrame(nodes[n - 1], encode(MotorTurns(commands[n - 1], gear)));
      DrainedOneMore(speed, VelocityFrames(nodes, commands, gear, encode, n - 1), m, nodes[i], decode);
      FramesMeanWhatTheySay(nodes[n - 1], nodes[i], encode(MotorTurns(commands[n - 1], gear)), 0);
      WriteReachesItsWheel(speed, nodes, commands, gear, encode, decode, n - 1, i);
    }
  }

  lemma NothingDrained(speed: real, k: nat, decode: Word32 -> real)
    ensures Drained(speed, [], k, decode) == speed
  {
  }

  lemma DrainedOneMore(speed: real, frames: seq<Message>, m: Message, k: nat, decode: Word32 -> real)
    ensures Drained(speed, frames + [m], k, decode) ==
            if IsVelocityFor(m, k) then decode(WordOf(m.data[0..4])) else Drained(speed, frames, k, decode)
  {
    hide WordOf, IsVelocityFor;
    assert (frames + [m])[..|frames + [m]| - 1] == frames;
  }

  lemma {:induction false} AxisFramesMoveNothing(speed: real, frames: seq<Message>, decode: Word32 -> real, k: nat)
    requires OnlyAxisFrames(frames)
    ensures Drained(speed, frames, k, decode) == speed
  {
    if frames != [] { AxisFramesMoveNothing(speed, frames[..|frames| - 1], decode, k); }
  }

  /** The estimate of node k after a batch in which only the k-th frame is for k. */
  lemma {:induction false} PublishReachesItsEstimate(e: Estimate, frames: seq<Message>, p: seq<Word32>, v: seq<Word32>,
                                                     decode: Word32 -> real, k: nat)
    requires |frames| <= |p| == |v| <= 64 && k < 64
    requires forall i :: 0 <= i < |frames| ==> frames[i] == EstimateFrame(i, p[i], v[i])
    ensures Heard(e, frames, k, decode) == if k < |frames| then Estimate(decode(p[k]), decode(v[k])) else e
  {
    hide WordOf, IsEstimateFor, EstimateFrame;
    if frames != [] {
      var n := |frames| - 1;
      FramesMeanWhatTheySay(n, k, p[n], v[n]);
      PublishReachesItsEstimate(e, frames[..n], p, v, decode, k);
    }
  }

  /** The last estimate for node k counts, and nothing else does. */
  lemma {:induction false} LastEstimateCounts(e: Estimate, frames: seq<Message>, k: nat, decode: Word32 -> real, i: nat)
    requires i <= |frames| && forall j :: i <= j < |frames| ==> !IsEstimateFor(frames[j], k)
    ensures i == 0 ==> Heard(e, frames, k, decode) == e
    ensures i > 0 && IsEstimateFor(frames[i - 1], k) ==>
              Heard(e, frames, k, decode) ==
              Estimate(decode(WordOf(frames[i - 1].data[0..4])), decode(WordOf(frames[i - 1].data[4..8])))
  {
    hide IsEstimateFor, WordOf;
    if i < |frames| { LastEstimateCounts(e, frames[..|frames| - 1], k, decode, i); }
  }

  lemma {:induction false} LastVelocityCounts(speed: real, frames: seq<Message>, k: nat, decode: Word32 -> real, i: nat)
    requires i <= |frames| && forall j :: i <= j < |frames| ==> !IsVelocityFor(frames[j], k)
    ensures i == 0 ==> Drained(speed, frames, k, decode) == speed
    ensures i > 0 && IsVelocityFor(frames[i - 1], k) ==>
              Drained(speed, frames, k, decode) == decode(WordOf(frames[i - 1].data[0..4]))
  {
    hide IsVelocityFor, WordOf;
    if i < |frames| { LastVelocityCounts(speed, frames[..|frames| - 1], k, decode, i); }
  }

  lemma NothingHeard(e: Estimate, k: nat, decode: Word32 -> real)
    ensures Heard(e, [], k, decode) == e
  {
  }

  // Mock and SocketCAN path side by side ---------------------------------------------------------------------

  /** A control cycle: commands of all wheels, how long the emulator took to drain them, and its passes afterwards. */
  datatype Cycle = Cycle(commands: seq<real>, delay: real, rests: seq<real>)

  predicate WideCycles(history: seq<Cycle>, n: nat) {
    forall k :: 0 <= k < |history| ==> |history[k].commands| == n
  }

  /** Time does not run backwards. */
  predicate Forward(history: seq<Cycle>) {
    forall k :: 0 <= k < |history| ==> history[k].delay >= 0.0 && AllForward(history[k].rests)
  }

  predicate AllForward(rests: seq<real>) {
    forall j :: 0 <= j < |rests| ==> rests[j] >= 0.0
  }

  function Total(rests: seq<real>): real {
    if rests == [] then 0.0 else Total(rests[..|rests| - 1]) + rests[|rests| - 1]
  }

  function LastCommand(history: seq<Cycle>, n: nat, i: nat): real
    requires WideCycles(history, n) && i < n
  {
    if history == [] then 0.0 else history[|history| - 1].commands[i]
  }

  /** How far the SocketCAN path runs ahead of the mock: for each cycle, the change of speed times the delay. */
  function Lag(history: seq<Cycle>, n: nat, i: nat): real
    requires WideCycles(history, n) && i < n
  {
    if history == [] then 0.0
    else
      var last, earlier := history[|history| - 1], history[..|history| - 1];
      Lag(earlier, n, i) + Slip(LastCommand(earlier, n, i), last.commands[i], last.delay)
  }

  function Slip(before: real, after: real, delay: real): real {
    (before - after) * delay
  }

  /** Wheel i of the mock after the cycles: one read per cycle over its whole period. */
  function Rolled(start: WheelState, history: seq<Cycle>, n: nat, i: nat, gear: real): WheelState
    requires WideCycles(history, n) && i < n && gear != 0.0
  {
    if history == [] then start
    else
      var last := history[|history| - 1];
      Roll(Rolled(start, history[..|history| - 1], n, i, gear), last.commands[i], gear, last.delay + Total(last.rests))
  }

  /** All frames the host hands to the socket in these cycles. */
  function AllFrames(nodes: seq<nat>, history: seq<Cycle>, gear: real, encode: real -> Word32): seq<Message>
    requires WideCycles(history, |nodes|) && forall i :: 0 <= i < |nodes| ==> nodes[i] < 64
  {
    if history == [] then []
    else
      AllFrames(nodes, history[..|history| - 1], gear, encode) +
      VelocityFrames(nodes, history[|history| - 1].commands, gear, encode, |nodes|)
  }

  /** The emulator's clock: its last pass and when it will publish next. */
  datatype Clock = Clock(previous: real, nextPublish: real)

  predicate Publishes(c: Clock, dt: real) {
    c.previous + dt >= c.nextPublish
  }

  function Tick(c: Clock, dt: real): Clock {
    var now := c.previous + dt;
    Clock(now, if Publishes(c, dt) then now + INTERVAL else c.nextPublish)
  }

  function Ticks(c: Clock, passes: seq<real>): Clock {
    if passes == [] then c else Tick(Ticks(c, passes[..|passes| - 1]), passes[|passes| - 1])
  }

  function ClockAfter(c: Clock, history: seq<Cycle>): Clock {
    if history == [] then c
    else
      var last := history[|history| - 1];
      Ticks(Tick(ClockAfter(c, history[..|history| - 1]), last.delay), last.rests)
  }

  /** The last of the passes publishes. */
  predicate EndsWithPublish(c: Clock, delay: real, rests: seq<real>) {
    if rests == [] then Publishes(c, delay)
    else Publishes(Ticks(Tick(c, delay), rests[..|rests| - 1]), rests[|rests| - 1])
  }

  /**
   The emulator publishes at 100 Hz: after a publication, with none on the passes since, the next pass publishes exactly
   when a hundredth of a second has gone by.
   */
  lemma {:induction false} NextPublication(c: Clock, dt: real, rests: seq<real>, next: real)
    requires Publishes(c, dt)
    requires forall j :: 0 <= j < |rests| ==> !Publishes(Ticks(Tick(c, dt), rests[..j]), rests[j])
    ensures Publishes(Ticks(Tick(c, dt), rests), next) <==> Total(rests) + next >= 0.01
    ensures Ticks(Tick(c, dt), rests) == Clock(c.previous + dt + Total(rests), c.previous + dt + 0.01)
  {
    if rests != [] {
      var last, earlier := rests[|rests| - 1], rests[..|rests| - 1];
      forall j | 0 <= j < |earlier| ensures !Publishes(Ticks(Tick(c, dt), earlier[..j]), earlier[j]) {
        assert earlier[..j] == rests[..j] && earlier[j] == rests[j];
      }
      NextPublication(c, dt, earlier, last);
    }
  }

  /** At the end of the last cycle the emulator has just published. */
  predicate Fresh(c: Clock, history: seq<Cycle>)
    requires history != []
  {
    var last := history[|history| - 1];
    EndsWithPublish(ClockAfter(c, history[..|history| - 1]), last.delay, last.rests)
  }

  lemma {:induction false} AlignedCyclesHaveNoLag(history: seq<Cycle>, n: nat, i: nat)
    requires WideCycles(history, n) && i < n && forall k :: 0 <= k < |history| ==> history[k].delay == 0.0
    ensures Lag(history, n, i) == 0.0
  {
    if history != [] { AlignedCyclesHaveNoLag(history[..|history| - 1], n, i); }
  }

  /** One command of 1 rad/s drained half a second late leaves the SocketCAN path half a radian behind the mock. */
  lemma LateDrainLagsBehind(rests: seq<real>)
    ensures Lag([Cycle([1.0], 0.5, rests)], 1, 0) == -0.5
  {
    var h := [Cycle([1.0], 0.5, rests)];
    assert h[..|h| - 1] == [];
    assert Lag([], 1, 0) == 0.0;
  }

  /** After a cycle the two paths differ as before it if and only if the speed did not change or there was no delay. */
  lemma LagStaysIff(history: seq<Cycle>, c: Cycle, n: nat, i: nat)
    requires WideCycles(history, n) && |c.commands| == n && i < n
    ensures WideCycles(history + [c], n)
    ensures Lag(history + [c], n, i) == Lag(history, n, i) <==>
            c.commands[i] == LastCommand(history, n, i) || c.delay == 0.0
  {
    LagGrows(history, c, n, i);
    SlipIsZero(LastCommand(history, n, i), c.commands[i], c.delay);
    hide Lag, LastCommand, Slip;
  }

  lemma OneTotal(t: real)
    ensures Total([t]) == t
  {
    assert Total([t][..0]) == 0.0;
  }

  lemma Regroup(speed: real, t: real, gear: real)
    ensures speed * t * gear == speed * gear * t
  {
  }

  lemma TurnsBetween(from: real, to: real, wheel: real, gear: real)
    requires gear != 0.0 && WheelRad(to, gear) == WheelRad(from, gear) + wheel
    ensures (to - from) * TWO_PI == wheel * gear
  {
    OneMotorTurn(from, 0.0, gear);
    OneMotorTurn(to, 0.0, gear);
    hide WheelRad, MotorTurns;
  }

  lemma SlipIsZero(before: real, after: real, delay: real)
    ensures Slip(before, after, delay) == 0.0 <==> after == before || delay == 0.0
  {
    var x := before - after;
    if x * delay == 0.0 && x != 0.0 { QuotientIs(x * delay, x, delay); }
  }

  lemma {:induction false} TotalForward(rests: seq<real>)
    requires AllForward(rests)
    ensures Total(rests) >= 0.0
  {
    if rests != [] { TotalForward(rests[..|rests| - 1]); }
  }

  lemma CycleArithmetic(state: WheelState, command: real, before: real, gear: real, delay: real, rest: real, lag: real)
    requires gear != 0.0 && delay >= 0.0 && rest >= 0.0
    ensures state.position + lag + Travel(before, delay) + Travel(command, rest) ==
            Roll(state, command, gear, delay + rest).position + (lag + Slip(before, command, delay))
    ensures Roll(state, command, gear, delay + rest).velocity == command
  {
    ConversionRoundTrip(command, gear);
    hide WheelRad, MotorTurns;
    assert Travel(command, delay + rest) == Travel(command, delay) + Travel(command, rest);
    assert Slip(before, command, delay) == Travel(before, delay) - Travel(command, delay);
  }

  lemma LagGrows(history: seq<Cycle>, c: Cycle, n: nat, i: nat)
    requires WideCycles(history, n) && |c.commands| == n && i < n
    ensures WideCycles(history + [c], n) && LastCommand(history + [c], n, i) == c.commands[i]
    ensures Lag(history + [c], n, i) == Lag(history, n, i) + Slip(LastCommand(history, n, i), c.commands[i], c.delay)
  {
    assert (history + [c])[..|history + [c]| - 1] == history;
  }

  class VirtualDrivetrain {
    const mock: MockDriveBackend
    const can: SocketCanDriveBackend
    const emulator: Emulator
    ghost var history: seq<Cycle>

    ghost predicate Valid()
      reads this, can
    {
      && mock.Valid() && can.Valid() && emulator.Valid() && can.isOpen
      && mock.gear == can.gear && mock.states.Length == |can.nodeIds| && DistinctWheels(can.nodeIds)
      && emulator.encode == can.encode && emulator.decode == can.decode
      && emulator.positions != mock.commandsRadS && emulator.velocities != mock.commandsRadS
      && WideCycles(history, |can.nodeIds|)
    }

    /** What is left of a number after its trip through a float32. */
    ghost function Cast(x: real): real {
      can.decode(can.encode(x))
    }

    ghost predicate ExactCommands(commands: seq<real>) {
      forall i :: 0 <= i < |commands| ==> Cast(MotorTurns(commands[i], can.gear)) == MotorTurns(commands[i], can.gear)
    }

    /** Each wheel of the emulator stands where the mock has it, plus the lag, and turns at the mock's speed. */
    ghost predicate Agree()
      requires Valid()
      reads this, can, mock.states, mock.commandsRadS, emulator.positions, emulator.velocities
    {
      forall i :: 0 <= i < |can.nodeIds| ==> Agrees(i)
    }

    ghost predicate Agrees(i: nat)
      requires Valid() && i < |can.nodeIds|
      reads this, can, mock.states, mock.commandsRadS, emulator.positions, emulator.velocities
    {
      && mock.commandsRadS[i] == LastCommand(history, |can.nodeIds|, i)
      && WheelRad(emulator.positions[can.nodeIds[i]], can.gear) == mock.states[i].position +
          Lag(history, |can.nodeIds|, i)
      && WheelRad(emulator.velocities[can.nodeIds[i]], can.gear) == mock.commandsRadS[i]
    }

    constructor (nodeIds: seq<nat>, gear: real, encode: real -> Word32, decode: Word32 -> real, now: real)
      requires gear != 0.0 && DistinctWheels(nodeIds)
      ensures Built() && can.nodeIds == nodeIds && can.gear == gear && can.encode == encode && can.decode == decode
      ensures emulator.Now() == Clock(now, now)
      ensures fresh(mock.states) && fresh(mock.commandsRadS) && fresh(emulator.positions) && fresh(emulator.velocities)
      ensures fresh(can) && fresh(can.estimates) && fresh(emulator)
    {
      mock := new MockDriveBackend(|nodeIds|, gear);
      can := new SocketCanDriveBackend(nodeIds, gear, encode, decode);
      emulator := new Emulator(encode, decode, now);
      history := [];
    }

    /** Not started yet: the emulator stands at zero and nothing has been sent. */
    ghost predicate Built()
      reads this, can, emulator.positions, emulator.velocities
    {
      && mock.Valid() && can.Valid() && emulator.Valid() && can.Consistent() && !can.isOpen
      && mock.gear == can.gear && mock.states.Length == |can.nodeIds| && DistinctWheels(can.nodeIds)
      && emulator.encode == can.encode && emulator.decode == can.decode
      && emulator.positions != mock.commandsRadS && emulator.velocities != mock.commandsRadS
      && history == [] && can.sent == []
      && forall k :: 0 <= k < NODE_COUNT ==> emulator.positions[k] == 0.0 && emulator.velocities[k] == 0.0
    }

    /** Both sides activated, the emulator freshly started: a common zero. */
    method Start() returns (ok: bool)
      requires Built()
      modifies can`isOpen, can`rxRunning, can`rxThread, can`sent, can`offered, can.estimates, mock.commandsRadS,
               mock.states, emulator.velocities
      ensures ok == can.isOpen
      ensures ok ==> && Valid() && Agree() && history == []
                     && forall i :: 0 <= i < |can.nodeIds| ==> mock.states[i] == WheelState(0.0, 0.0)
    {
      hide Drained, OnlyAxisFrames, WheelRad, AxisFrames;
      ZeroTurns(can.gear);
      mock.Activate();
      ok := can.Activate();
      emulator.Drain(can.sent);
      forall k | 0 <= k < NODE_COUNT ensures emulator.velocities[k] == 0.0 {
        assert can.sent[0..] == can.sent;
        AxisFramesMoveNothing(0.0, can.sent, can.decode, k);
      }
    }

    /** The host's half of a cycle: the same commands to both backends; `accepted` says the socket took every frame. */
    method Send(commands: seq<real>) returns (frames: seq<Message>, accepted: bool)
      requires Valid() && |commands| == |can.nodeIds|
      modifies can`sent, can`offered, mock.commandsRadS
      ensures mock.commandsRadS[..] == commands
      ensures Offered(old(can.offered), can.offered, old(can.sent), can.sent, commands, accepted)
      ensures accepted ==> frames == VelocityFrames(can.nodeIds, commands, can.gear, can.encode, |can.nodeIds|)
    {
      hide VelocityFrames;
      var before := |can.sent|;
      var written := mock.Write(commands);
      accepted := can.Write(commands);
      frames := can.sent[before..];
    }

    /** One frame per wheel was handed to the socket, in order; it took all of them, or fewer. */
    ghost predicate Offered(o: seq<Message>, o': seq<Message>, s: seq<Message>, s': seq<Message>, commands: seq<real>,
                            accepted: bool)
      requires can.Valid() && |commands| == |can.nodeIds|
    {
      var frames := VelocityFrames(can.nodeIds, commands, can.gear, can.encode, |can.nodeIds|);
      && o' == o + frames
      && (accepted ==> s' == s + frames) && (!accepted ==> |s'| < |s| + |frames|)
    }

    /** One pass of the emulator, whose frames the receive loop hears. */
    method Pass(dt: real, frames: seq<Message>)
      requires Valid()
      modifies emulator, emulator.positions, emulator.velocities, can.estimates
      ensures Valid() && emulator.Now() == Tick(old(emulator.Now()), dt)
      ensures Publishes(old(emulator.Now()), dt) ==> Shown()
      ensures !Publishes(old(emulator.Now()), dt) ==> can.estimates[..] == old(can.estimates[..])
      ensures forall k :: 0 <= k < NODE_COUNT ==>
                            && emulator.positions[k] == old(emulator.positions[k]) +
                                Travel(old(emulator.velocities[k]), dt)
                            && emulator.velocities[k] == Drained(old(emulator.velocities[k]), frames, k, can.decode)
    {
      hide Travel, Drained, Heard, EstimateFrame;
      var now := emulator.previous + dt;
      var out := emulator.Pass(now, frames);
      can.Hear(out);
      if out != [] {
        ghost var p := seq(NODE_COUNT, k requires 0 <= k < NODE_COUNT reads emulator.positions =>
                                         can.encode(emulator.positions[k]));
        ghost var v := seq(NODE_COUNT, k requires 0 <= k < NODE_COUNT reads emulator.velocities =>
                                         can.encode(emulator.velocities[k]));
        forall i | 0 <= i < |can.nodeIds| ensures can.estimates[can.nodeIds[i]] == Seen(can.nodeIds[i]) {
          PublishReachesItsEstimate(old(can.estimates[can.nodeIds[i]]), out, p, v, can.decode, can.nodeIds[i]);
        }
      } else {
        forall k | 0 <= k < ESTIMATES ensures can.estimates[k] == old(can.estimates[k]) {
          NothingHeard(old(can.estimates[k]), k, can.decode);
        }
      }
    }

    /** What the host makes of the state of emulator node n. */
    ghost function Seen(n: nat): Estimate
      requires emulator.Valid() && n < NODE_COUNT
      reads emulator.positions, emulator.velocities
    {
      Estimate(Cast(emulator.positions[n]), Cast(emulator.velocities[n]))
    }

    /** The host's table shows where the wheels are now. */
    ghost predicate Shown()
      requires Valid()
      reads this, can, can.estimates, emulator.positions, emulator.velocities
    {
      forall i :: 0 <= i < |can.nodeIds| ==> can.estimates[can.nodeIds[i]] == Seen(can.nodeIds[i])
    }

    /** The emulator's pass that drains the commands, `delay` after the mock took them over. */
    method Hand(commands: seq<real>, delay: real) returns (accepted: bool)
      requires Valid() && |commands| == |can.nodeIds|
      modifies can`sent, can`offered, can.estimates, mock.commandsRadS, emulator, emulator.positions,
               emulator.velocities
      ensures Valid() && mock.commandsRadS[..] == commands
      ensures Offered(old(can.offered), can.offered, old(can.sent), can.sent, commands, accepted)
      ensures emulator.Now() == Tick(old(emulator.Now()), delay)
      ensures Publishes(old(emulator.Now()), delay) ==> Shown()
      ensures old(Agree()) && accepted && ExactCommands(commands) ==>
                forall i :: 0 <= i < |can.nodeIds| ==> Turning(i, commands[i], delay)
    {
      hide WheelRad, MotorTurns, Lag, LastCommand, Drained, Travel, ExactCommands, VelocityFrames, Shown, Offered, Tick;
      ghost var n, start := |can.nodeIds|, emulator.velocities[..];
      ghost var place := emulator.positions[..];
      var frames;
      frames, accepted := Send(commands);
      Pass(delay, frames);
      if old(Agree()) && accepted && ExactCommands(commands) {
        forall i | 0 <= i < n ensures Turning(i, commands[i], delay) {
          assert old(Agrees(i));
          var k := can.nodeIds[i];
          IntegrationCommutes(place[k], start[k], delay, can.gear);
          WriteReachesItsWheel(start[k], can.nodeIds, commands, can.gear, can.encode, can.decode, n, i);
          CommandIsExact(commands, i);
          ConversionRoundTrip(commands[i], can.gear);
        }
      }
    }

    lemma CommandIsExact(commands: seq<real>, i: nat)
      requires ExactCommands(commands) && i < |commands|
      ensures can.decode(can.encode(MotorTurns(commands[i], can.gear))) == MotorTurns(commands[i], can.gear)
    {
      hide MotorTurns;
    }

    /** Wheel i has gone on at the old speed for `delay` and now turns at the new one. */
    ghost predicate Turning(i: nat, command: real, delay: real)
      requires Valid() && i < |can.nodeIds|
      reads this, can, mock.states, emulator.positions, emulator.velocities
    {
      && WheelRad(emulator.positions[can.nodeIds[i]], can.gear) ==
         mock.states[i].position + Lag(history, |can.nodeIds|, i) +
             Travel(LastCommand(history, |can.nodeIds|, i), delay)
      && WheelRad(emulator.velocities[can.nodeIds[i]], can.gear) == command
    }

    /** Further passes of the emulator's loop. */
    method Turn(rests: seq<real>) returns (total: real)
      requires Valid()
      modifies emulator, emulator.positions, emulator.velocities, can.estimates
      ensures Valid() && total == Total(rests) && emulator.Now() == Ticks(old(emulator.Now()), rests)
      ensures rests == [] && old(Shown()) ==> Shown()
      ensures rests != [] && Publishes(Ticks(old(emulator.Now()), rests[..|rests| - 1]), rests[|rests| - 1]) ==> Shown()
      ensures emulator.velocities[..] == old(emulator.velocities[..])
      ensures forall i :: 0 <= i < |can.nodeIds| ==>
              Moved(old(emulator.positions[can.nodeIds[i]]), can.nodeIds[i], total)
    {
      hide WheelRad, Travel, Shown, Tick, Publishes;
      total := 0.0;
      ghost var start, speeds, clock := emulator.positions[..], emulator.velocities[..], emulator.Now();
      forall i | 0 <= i < |can.nodeIds|
        ensures Travel(WheelRad(emulator.velocities[can.nodeIds[i]], can.gear), 0.0) == 0.0
      {
        TravelAdds(WheelRad(emulator.velocities[can.nodeIds[i]], can.gear), 0.0, 0.0);
      }
      for j := 0 to |rests|
        invariant Valid() && total == Total(rests[..j]) && emulator.velocities[..] == speeds
        invariant emulator.Now() == Ticks(clock, rests[..j])
        invariant j == 0 && old(Shown()) ==> Shown()
        invariant j > 0 && Publishes(Ticks(clock, rests[..j - 1]), rests[j - 1]) ==> Shown()
        invariant forall i :: 0 <= i < |can.nodeIds| ==> Moved(start[can.nodeIds[i]], can.nodeIds[i], total)
      {
        label before:
        Pass(rests[j], []);
        forall i | 0 <= i < |can.nodeIds| ensures Moved(start[can.nodeIds[i]], can.nodeIds[i], total + rests[j]) {
          var n := can.nodeIds[i];
          assert old@before(Moved(start[n], n, total));
          assert emulator.velocities[n] == old@before(emulator.velocities[n]);
          IntegrationCommutes(old@before(emulator.positions[n]), emulator.velocities[n], rests[j], can.gear);
          TravelAdds(WheelRad(emulator.velocities[n], can.gear), total, rests[j]);
        }
        total := total + rests[j];
        assert rests[..j + 1][..j] == rests[..j];
      }
      assert rests[..|rests|] == rests;
    }

    ghost predicate Moved(start: real, n: nat, time: real)
      requires Valid() && n < NODE_COUNT
      reads this, can, emulator.positions, emulator.velocities
    {
      WheelRad(emulator.positions[n], can.gear) ==
      WheelRad(start, can.gear) + Travel(WheelRad(emulator.velocities[n], can.gear), time)
    }

    /** A state as the host gets to know it: the wheel converted to motor turns, through a float32 and back. */
    ghost function Told(state: WheelState): WheelState
      requires can.gear != 0.0
    {
      WheelState(WheelRad(Cast(MotorTurns(state.position, can.gear)), can.gear),
                 WheelRad(Cast(MotorTurns(state.velocity, can.gear)), can.gear))
    }

    lemma ToldExactly(state: WheelState)
      requires can.gear != 0.0 && Fits(state)
      ensures Told(state) == state
    {
      ConversionRoundTrip(state.position, can.gear);
      ConversionRoundTrip(state.velocity, can.gear);
      hide MotorTurns, WheelRad;
    }

    /** Where the emulator has the wheel of node n. */
    ghost function Wheel(n: nat): WheelState
      requires emulator.Valid() && n < NODE_COUNT && can.gear != 0.0
      reads emulator.positions, emulator.velocities
    {
      WheelState(WheelRad(emulator.positions[n], can.gear), WheelRad(emulator.velocities[n], can.gear))
    }

    /** The host reads. */
    method Report() returns (states: seq<WheelState>)
      requires Valid()
      ensures |states| == |can.nodeIds|
      ensures Shown() ==> forall i :: 0 <= i < |can.nodeIds| ==> states[i] == Told(Wheel(can.nodeIds[i]))
    {
      hide WheelRad, Told, Wheel, Seen;
      var ok;
      ok, states := can.Read();
      forall i | 0 <= i < |can.nodeIds| && Shown() ensures states[i] == Told(Wheel(can.nodeIds[i])) {
        SeenIsTold(can.nodeIds[i]);
      }
    }

    lemma SeenIsTold(n: nat)
      requires can.Valid() && emulator.Valid() && n < NODE_COUNT
      ensures WheelState(WheelRad(Seen(n).position, can.gear), WheelRad(Seen(n).velocity, can.gear)) == Told(Wheel(n))
    {
      TurnsRoundTrip(emulator.positions[n], can.gear);
      TurnsRoundTrip(emulator.velocities[n], can.gear);
      hide MotorTurns, WheelRad;
    }

    /**
     One cycle on both sides over the same period. If the two agreed, the socket took the cycle's frames and the
     commands fit float32, they agree afterwards, the lag grown by the change of speed times the delay; and if the
     emulator has just published, the host is told exactly that.
     */
    method Run(c: Cycle) returns (mockStates: seq<WheelState>, canStates: seq<WheelState>, accepted: bool)
      requires Valid() && |c.commands| == |can.nodeIds| && c.delay >= 0.0 && AllForward(c.rests)
      modifies this, can`sent, can`offered, can.estimates, mock.commandsRadS, mock.states, emulator,
               emulator.positions, emulator.velocities
      ensures Valid() && history == old(history) + [c]
      ensures |mockStates| == |canStates| == |can.nodeIds|
      ensures mock.states[..] == mockStates
      ensures forall i :: 0 <= i < |can.nodeIds| ==>
                mockStates[i] == Roll(old(mock.states[i]), c.commands[i], can.gear, c.delay + Total(c.rests))
      ensures Offered(old(can.offered), can.offered, old(can.sent), can.sent, c.commands, accepted)
      ensures emulator.Now() == Ticks(Tick(old(emulator.Now()), c.delay), c.rests)
      ensures old(Agree()) && accepted && ExactCommands(c.commands) ==>
                && Agree()
                && (EndsWithPublish(old(emulator.Now()), c.delay, c.rests) ==>
                      forall i :: 0 <= i < |can.nodeIds| ==>
                        canStates[i] == Told(WheelState(mockStates[i].position + Lag(history, |can.nodeIds|, i),
                                                        mockStates[i].velocity)))
    {
      hide WheelRad, Lag, LastCommand, Roll, Travel, Slip, Shown, Tick, Ticks, Publishes, Told, Offered, ExactCommands;
      accepted := Hand(c.commands, c.delay);
      label commanded:
      var rest := Turn(c.rests);
      canStates := Report();
      label reported:
      var ok;
      ok, mockStates := mock.Read(Some(c.delay + rest));
      ghost var n, h := |can.nodeIds|, history;
      history := history + [c];
      TotalForward(c.rests);
      if old(Agree()) && accepted && ExactCommands(c.commands) {
        forall i | 0 <= i < n
          ensures Agrees(i)
          ensures Wheel(can.nodeIds[i]) == WheelState(mockStates[i].position + Lag(history, n, i),
                                                      mockStates[i].velocity)
        {
          assert old@commanded(Turning(i, c.commands[i], c.delay));
          assert Moved(old@commanded(emulator.positions[can.nodeIds[i]]), can.nodeIds[i], rest);
          LagGrows(h, c, n, i);
          CycleArithmetic(old@reported(mock.states[i]), c.commands[i], LastCommand(h, n, i), can.gear, c.delay, rest,
                          Lag(h, n, i));
        }
        if EndsWithPublish(old(emulator.Now()), c.delay, c.rests) {
          assert old@reported(Shown());
        }
      }
    }

    /** A steady speed: after t seconds each node has advanced by turns with turns * 2 pi == speed * gear * t. */
    method RunSteadily(speeds: seq<real>, t: real) returns (accepted: bool)
      requires Valid() && Agree() && |speeds| == |can.nodeIds| && t >= 0.0
      modifies this, can`sent, can`offered, can.estimates, mock.commandsRadS, mock.states, emulator,
               emulator.positions, emulator.velocities
      ensures Valid()
      ensures accepted && ExactCommands(speeds) ==>
                forall i :: 0 <= i < |can.nodeIds| ==>
                  var n := can.nodeIds[i];
                  (emulator.positions[n] - old(emulator.positions[n])) * TWO_PI == speeds[i] * can.gear * t
    {
      hide WheelRad, MotorTurns, Lag, LastCommand, Tick, Ticks, Publishes, Told, ExactCommands, Roll, Offered;
      ghost var h, n := history, |can.nodeIds|;
      ghost var place, wheels := emulator.positions[..], mock.states[..];
      var mockStates, canStates;
      mockStates, canStates, accepted := Run(Cycle(speeds, 0.0, [t]));
      if accepted && ExactCommands(speeds) {
        forall i | 0 <= i < n
          ensures (emulator.positions[can.nodeIds[i]] - place[can.nodeIds[i]]) * TWO_PI == speeds[i] * can.gear * t
        {
          assert old(Agrees(i)) && Agrees(i);
          OneTotal(t);
          RollMoves(wheels[i], speeds[i], can.gear, 0.0 + Total([t]));
          LagStaysIff(h, Cycle(speeds, 0.0, [t]), n, i);
          TurnsBetween(place[can.nodeIds[i]], emulator.positions[can.nodeIds[i]], speeds[i] * t, can.gear);
          Regroup(speeds[i], t, can.gear);
        }
      }
    }

    /** One wheel, one command of 1 rad/s drained half a second late: it is half a radian behind the mock. */
    method RunOneLateCycle(rests: seq<real>)
      returns (mockStates: seq<WheelState>, canStates: seq<WheelState>, accepted: bool)
      requires Valid() && Agree() && history == [] && |can.nodeIds| == 1 && AllForward(rests)
      modifies this, can`sent, can`offered, can.estimates, mock.commandsRadS, mock.states, emulator,
               emulator.positions, emulator.velocities
      ensures Valid() && |mockStates| == |canStates| == 1
      ensures accepted && ExactCommands([1.0]) ==>
                && Wheel(can.nodeIds[0]).position == mockStates[0].position - 0.5
                && (EndsWithPublish(old(emulator.Now()), 0.5, rests) ==>
                      canStates[0] == Told(mockStates[0].(position := mockStates[0].position - 0.5)))
    {
      hide WheelRad, Lag, Tick, Ticks, Publishes, Told, ExactCommands, Roll, Total, Offered;
      mockStates, canStates, accepted := Run(Cycle([1.0], 0.5, rests));
      LateDrainLagsBehind(rests);
      assert history == [Cycle([1.0], 0.5, rests)];
      if accepted && ExactCommands([1.0]) { assert Agrees(0); }
    }

    /** The host is told the mock's wheels, each ahead by its lag, up to the trip through float32. */
    ghost predicate Reports(mockRead: seq<WheelState>, canRead: seq<WheelState>, past: seq<Cycle>)
      requires can.gear != 0.0 && WideCycles(past, |can.nodeIds|)
    {
      && |mockRead| == |canRead| == |can.nodeIds|
      && forall i :: 0 <= i < |can.nodeIds| ==>
                       canRead[i] ==
                       Told(WheelState(mockRead[i].position + Lag(past, |can.nodeIds|, i), mockRead[i].velocity))
    }

    /** The mock's wheels after these cycles. */
    ghost predicate Rolls(start: seq<WheelState>, mockRead: seq<WheelState>, past: seq<Cycle>)
      requires can.gear != 0.0 && WideCycles(past, |can.nodeIds|)
    {
      && |start| == |mockRead| == |can.nodeIds|
      && forall i :: 0 <= i < |can.nodeIds| ==> mockRead[i] == Rolled(start[i], past, |can.nodeIds|, i, can.gear)
    }

    /**
     Any run of cycles from a common start. The mock's reads are what its integration makes of the cycles, and every
     frame is handed to the socket. If the socket took them all and the commands fit float32, then whenever the emulator
     has just published, which its clock alone decides, the host is told the mock's wheels plus the lag.
     */
    method Runs(cycles: seq<Cycle>) returns (mockReads: seq<seq<WheelState>>, canReads: seq<seq<WheelState>>)
      requires Valid() && Agree() && history == [] && WideCycles(cycles, |can.nodeIds|) && Forward(cycles)
      modifies this, can`sent, can`offered, can.estimates, mock.commandsRadS, mock.states, emulator,
               emulator.positions, emulator.velocities
      ensures Valid() && history == cycles && |mockReads| == |canReads| == |cycles|
      ensures emulator.Now() == ClockAfter(old(emulator.Now()), cycles)
      ensures can.offered == old(can.offered) + AllFrames(can.nodeIds, cycles, can.gear, can.encode)
      ensures forall k :: 0 <= k < |cycles| ==> Rolls(old(mock.states[..]), mockReads[k], cycles[..k + 1])
      ensures can.sent == old(can.sent) + AllFrames(can.nodeIds, cycles, can.gear, can.encode) &&
              (forall k :: 0 <= k < |cycles| ==> ExactCommands(cycles[k].commands)) ==>
                forall k :: 0 <= k < |cycles| && Fresh(old(emulator.Now()), cycles[..k + 1]) ==>
                              Reports(mockReads[k], canReads[k], cycles[..k + 1])
    {
      hide WheelRad, Lag, Agree, Rolls, Reports, ExactCommands, Fresh, Tick, Ticks, Offered, Roll, AllFrames,
           ClockAfter;
      ghost var start, clock := mock.states[..], emulator.Now();
      ghost var offered, sent := can.offered, can.sent;
      mockReads, canReads := [], [];
      ghost var took, exact := true, true;
      assert cycles[..0] == [];
      assert Rolls(start, start, []) && Handed(offered, offered, sent, sent, [], true) &&
             ClockAfter(clock, []) == clock by {
        NothingDone(start, clock, offered, sent);
      }
      for j := 0 to |cycles|
        invariant Valid() && history == cycles[..j] && |mockReads| == |canReads| == j
        invariant emulator.Now() == ClockAfter(clock, cycles[..j])
        invariant Handed(offered, can.offered, sent, can.sent, cycles[..j], took)
        invariant Rolls(start, mock.states[..], cycles[..j])
        invariant forall k :: 0 <= k < j ==> Rolls(start, mockReads[k], cycles[..k + 1])
        invariant exact <==> forall k :: 0 <= k < j ==> ExactCommands(cycles[k].commands)
        invariant took && exact ==> Agree()
        invariant took && exact ==> forall k :: 0 <= k < j && Fresh(clock, cycles[..k + 1]) ==>
                                                  Reports(mockReads[k], canReads[k], cycles[..k + 1])
      {
        assert cycles[..j + 1] == cycles[..j] + [cycles[j]];
        var c := cycles[j];
        ghost var past := cycles[..j];
        ghost var wheels, o, s := mock.states[..], can.offered, can.sent;
        var mockStates, canStates, accepted := Run(c);
        OneCycleMore(clock, past, c);
        RollsMore(start, wheels, mockStates, past, c);
        HandedMore(offered, o, can.offered, sent, s, can.sent, past, c, took, accepted);
        if took && exact && accepted && ExactCommands(c.commands) && Fresh(clock, past + [c]) {
          assert Reports(mockStates, canStates, past + [c]) by { ReportsAre(mockStates, canStates, past + [c]); }
        }
        took, exact := took && accepted, exact && ExactCommands(c.commands);
        mockReads, canReads := mockReads + [mockStates], canReads + [canStates];
      }
      assert cycles[..|cycles|] == cycles;
      SentAll(offered, can.offered, sent, can.sent, cycles, took);
    }

    lemma NothingDone(start: seq<WheelState>, clock: Clock, offered: seq<Message>, sent: seq<Message>)
      requires can.Valid() && |start| == |can.nodeIds|
      ensures Rolls(start, start, []) && Handed(offered, offered, sent, sent, [], true) &&
              ClockAfter(clock, []) == clock
    {
      assert AllFrames(can.nodeIds, [], can.gear, can.encode) == [];
    }

    lemma OneCycleMore(clock: Clock, past: seq<Cycle>, c: Cycle)
      ensures ClockAfter(clock, past + [c]) == Ticks(Tick(ClockAfter(clock, past), c.delay), c.rests)
      ensures Fresh(clock, past + [c]) == EndsWithPublish(ClockAfter(clock, past), c.delay, c.rests)
    {
      assert (past + [c])[..|past + [c]| - 1] == past;
      hide Tick, Ticks, EndsWithPublish;
    }

    /** The frames of these cycles were handed to the socket; `took` says it took them all. */
    ghost predicate Handed(o: seq<Message>, o': seq<Message>, s: seq<Message>, s': seq<Message>, past: seq<Cycle>,
                           took: bool)
      requires can.Valid() && WideCycles(past, |can.nodeIds|)
    {
      var frames := AllFrames(can.nodeIds, past, can.gear, can.encode);
      o' == o + frames && (took ==> s' == s + frames) && (!took ==> |s'| < |s| + |frames|)
    }

    lemma HandedMore(o: seq<Message>, o1: seq<Message>, o2: seq<Message>, s: seq<Message>, s1: seq<Message>,
                     s2: seq<Message>, past: seq<Cycle>, c: Cycle, took: bool, accepted: bool)
      requires can.Valid() && WideCycles(past, |can.nodeIds|) && |c.commands| == |can.nodeIds|
      requires Handed(o, o1, s, s1, past, took) && Offered(o1, o2, s1, s2, c.commands, accepted)
      ensures WideCycles(past + [c], |can.nodeIds|) && Handed(o, o2, s, s2, past + [c], took && accepted)
    {
      hide VelocityFrames;
      var h := past + [c];
      assert h[..|h| - 1] == past;
      assert AllFrames(can.nodeIds, h, can.gear, can.encode) ==
             AllFrames(can.nodeIds, past, can.gear, can.encode) +
             VelocityFrames(can.nodeIds, c.commands, can.gear, can.encode, |can.nodeIds|);
      hide AllFrames;
    }

    lemma SentAll(o: seq<Message>, o': seq<Message>, s: seq<Message>, s': seq<Message>, cycles: seq<Cycle>, took: bool)
      requires can.Valid() && WideCycles(cycles, |can.nodeIds|) && Handed(o, o', s, s', cycles, took)
      ensures o' == o + AllFrames(can.nodeIds, cycles, can.gear, can.encode)
      ensures took <==> s' == s + AllFrames(can.nodeIds, cycles, can.gear, can.encode)
    {
      hide AllFrames;
    }

    lemma RollsMore(start: seq<WheelState>, a: seq<WheelState>, b: seq<WheelState>, past: seq<Cycle>, c: Cycle)
      requires can.gear != 0.0 && WideCycles(past, |can.nodeIds|) && |c.commands| == |can.nodeIds|
      requires Rolls(start, a, past) && |b| == |can.nodeIds|
      requires forall i :: 0 <= i < |b| ==> b[i] == Roll(a[i], c.commands[i], can.gear, c.delay + Total(c.rests))
      ensures WideCycles(past + [c], |can.nodeIds|) && Rolls(start, b, past + [c])
    {
      hide Roll, Total;
      assert (past + [c])[..|past + [c]| - 1] == past;
    }

    lemma ReportsAre(mockRead: seq<WheelState>, canRead: seq<WheelState>, past: seq<Cycle>)
      requires can.gear != 0.0 && WideCycles(past, |can.nodeIds|) && |mockRead| == |canRead| == |can.nodeIds|
      requires forall i :: 0 <= i < |can.nodeIds| ==>
                 canRead[i] == Told(WheelState(mockRead[i].position + Lag(past, |can.nodeIds|, i),
                                               mockRead[i].velocity))
      ensures Reports(mockRead, canRead, past)
    {
      hide Told, Lag;
    }

    /**
     Cycles whose commands are drained at once: whenever the emulator has just published, the host is told exactly the
     mock's wheels, and if their motor turns fit float32, both backends report the same.
     */
    method AlignedRun(cycles: seq<Cycle>) returns (mockReads: seq<seq<WheelState>>, canReads: seq<seq<WheelState>>)
      requires Valid() && Agree() && history == [] && WideCycles(cycles, |can.nodeIds|) && Forward(cycles)
      requires forall k :: 0 <= k < |cycles| ==> cycles[k].delay == 0.0
      modifies this, can`sent, can`offered, can.estimates, mock.commandsRadS, mock.states, emulator,
               emulator.positions, emulator.velocities
      ensures Valid() && |mockReads| == |canReads| == |cycles|
      ensures can.offered == old(can.offered) + AllFrames(can.nodeIds, cycles, can.gear, can.encode)
      ensures forall k :: 0 <= k < |cycles| ==> Rolls(old(mock.states[..]), mockReads[k], cycles[..k + 1])
      ensures can.sent == old(can.sent) + AllFrames(can.nodeIds, cycles, can.gear, can.encode) &&
              (forall k :: 0 <= k < |cycles| ==> ExactCommands(cycles[k].commands)) ==>
                forall k :: 0 <= k < |cycles| && Fresh(old(emulator.Now()), cycles[..k + 1]) ==>
                              && |mockReads[k]| == |canReads[k]| == |can.nodeIds|
                              && (forall i :: 0 <= i < |can.nodeIds| ==> canReads[k][i] == Told(mockReads[k][i]))
                              && ((forall i :: 0 <= i < |can.nodeIds| ==> Fits(mockReads[k][i])) ==>
                                    canReads[k] == mockReads[k])
    {
      hide WheelRad, Lag, Agree, Rolls, Reports, ExactCommands, Fresh, AllFrames, ClockAfter, Told, Fits;
      mockReads, canReads := Runs(cycles);
      forall k | 0 <= k < |cycles| && Reports(mockReads[k], canReads[k], cycles[..k + 1])
        ensures |mockReads[k]| == |canReads[k]| == |can.nodeIds|
        ensures forall i :: 0 <= i < |can.nodeIds| ==> canReads[k][i] == Told(mockReads[k][i])
        ensures (forall i :: 0 <= i < |can.nodeIds| ==> Fits(mockReads[k][i])) ==> canReads[k] == mockReads[k]
      {
        WithoutLag(mockReads[k], canReads[k], cycles[..k + 1]);
      }
    }

    /** A state whose motor turns are float32 numbers. */
    ghost predicate Fits(state: WheelState) {
      && Cast(MotorTurns(state.position, can.gear)) == MotorTurns(state.position, can.gear)
      && Cast(MotorTurns(state.velocity, can.gear)) == MotorTurns(state.velocity, can.gear)
    }

    lemma WithoutLag(mockRead: seq<WheelState>, canRead: seq<WheelState>, past: seq<Cycle>)
      requires can.gear != 0.0 && WideCycles(past, |can.nodeIds|) && Reports(mockRead, canRead, past)
      requires forall k :: 0 <= k < |past| ==> past[k].delay == 0.0
      ensures |mockRead| == |canRead| == |can.nodeIds|
      ensures forall i :: 0 <= i < |can.nodeIds| ==> canRead[i] == Told(mockRead[i])
      ensures (forall i :: 0 <= i < |can.nodeIds| ==> Fits(mockRead[i])) ==> canRead == mockRead
    {
      hide Told, Lag, MotorTurns, Fits;
      forall i | 0 <= i < |can.nodeIds|
        ensures canRead[i] == Told(mockRead[i]) && (Fits(mockRead[i]) ==> canRead[i] == mockRead[i])
      {
        AlignedCyclesHaveNoLag(past, |can.nodeIds|, i);
        assert mockRead[i].position + 0.0 == mockRead[i].position;
        if Fits(mockRead[i]) { ToldExactly(mockRead[i]); }
      }
    }
  }
}
