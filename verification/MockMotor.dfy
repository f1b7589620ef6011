// MockMotorBackend: an ideal position servo, and how close the SocketCAN path comes to it.

module MockMotor {
  import opened Wrappers
  import opened PxxCan
  import opened Cia402Drive
  import opened CanNetwork
  import opened CyclicOperation
  import opened Lifecycle
  import opened CanTransport
  import opened Counts
  import opened CommandHistory
  import opened MotorBackend
  import opened SystemHardware

  /** Where joint i stands when every write so far has been followed by a read. */
  function ServoPosition(history: seq<seq<Command>>, n: nat, i: nat): real
    requires Wide(history, n) && i < n
  {
    if history == [] then 0.0
    else
      var last := history[|history| - 1][i];
      if last.Some? then last.value else ServoPosition(history[..|history| - 1], n, i)
  }

  /** One read of one joint: it reaches its command, at the speed that took. */
  function Servo(state: JointState, command: Command, period: real): JointState {
    if command.None? then state.(velocity := 0.0)
    else JointState(command.value, if period > 0.0 then (command.value - state.position) / period else 0.0)
  }

  class MockMotorBackend {
    const commandsRad: array<Command>
    const states: array<JointState>
    ghost var reached: seq<seq<Command>>    // the commands each read since activation has acted on

    ghost predicate Valid()
      reads this, commandsRad, states
    {
      && commandsRad.Length == states.Length
      && Wide(reached, states.Length)
      && forall i :: 0 <= i < states.Length ==> states[i].position == ServoPosition(reached, states.Length, i)
    }

    constructor (jointCount: nat)
      ensures Valid() && states.Length == jointCount && fresh(commandsRad) && fresh(states)
      ensures reached == [] && forall i :: 0 <= i < jointCount ==> commandsRad[i] == None
    {
      commandsRad := new Command[jointCount](_ => None);
      states := new JointState[jointCount](_ => JointState(0.0, 0.0));
      reached := [];
    }

    method Activate()
      requires Valid()
      modifies this`reached, commandsRad, states
      ensures Valid() && reached == []
      ensures forall i :: 0 <= i < states.Length ==> commandsRad[i] == None && states[i] == JointState(0.0, 0.0)
    {
      Unclaim();
      for i := 0 to states.Length
        invariant forall k :: 0 <= k < commandsRad.Length ==> commandsRad[k] == None
        invariant forall k :: 0 <= k < i ==> states[k] == JointState(0.0, 0.0)
      {
        states[i] := JointState(0.0, 0.0);
      }
      reached := [];
    }

    method Unclaim()
      modifies commandsRad
      ensures forall i :: 0 <= i < commandsRad.Length ==> commandsRad[i] == None
    {
      for i := 0 to commandsRad.Length
        invariant forall k :: 0 <= k < i ==> commandsRad[k] == None
      {
        commandsRad[i] := None;
      }
    }

    method Deactivate()
      requires Valid()
      modifies commandsRad, states
      ensures Valid()
      ensures forall i :: 0 <= i < states.Length ==>
                            commandsRad[i] == None && states[i] == JointState(old(states[i].position), 0.0)
    {
      Unclaim();
      for i := 0 to states.Length
        invariant forall k :: 0 <= k < commandsRad.Length ==> commandsRad[k] == None
        invariant forall k :: 0 <= k < i ==> states[k] == JointState(old(states[k].position), 0.0)
        invariant forall k :: i <= k < states.Length ==> states[k] == old(states[k])
      {
        states[i] := states[i].(velocity := 0.0);
      }
    }

    /** A period that is not finite is None. */
    method Read(period: Option<real>) returns (ok: bool, result: seq<JointState>)
      requires Valid()
      modifies this`reached, states
      ensures Valid() && ok == period.Some?
      ensures !ok ==> states[..] == old(states[..]) && reached == old(reached)
      ensures ok ==> result == states[..] && reached == old(reached) + [commandsRad[..]]
      ensures ok ==> forall i :: 0 <= i < states.Length ==>
                                   states[i] == Servo(old(states[i]), commandsRad[i], period.value)
      ensures ok ==> forall i :: 0 <= i < states.Length ==>
                       if period.value > 0.0
                       then old(states[i]).position + states[i].velocity * period.value == states[i].position
                       else states[i].velocity == 0.0
    {
      hide Servo;
      ok, result := period.Some?, [];
      if ok {
        for i := 0 to states.Length
          invariant reached == old(reached)
          invariant forall k :: i <= k < states.Length ==> states[k] == old(states[k])
          invariant forall k :: 0 <= k < i ==> states[k] == Servo(old(states[k]), commandsRad[k], period.value)
        {
          states[i] := Servo(states[i], commandsRad[i], period.value);
        }
        ghost var next := reached + [commandsRad[..]];
        assert next[..|next| - 1] == reached;
        forall i | 0 <= i < states.Length
          ensures states[i].position == ServoPosition(next, states.Length, i)
          ensures if period.value > 0.0
                  then old(states[i]).position + states[i].velocity * period.value == states[i].position
                  else states[i].velocity == 0.0
        {
          ServoReaches(old(states[i]), commandsRad[i], period.value);
        }
        reached := next;
        result := states[..];
      }
    }

    method Write(commands: seq<Command>) returns (ok: bool)
      requires Valid()
      modifies commandsRad
      ensures Valid() && ok == (|commands| == states.Length)
      ensures commandsRad[..] == if ok then commands else old(commandsRad[..])
    {
      ok := |commands| == commandsRad.Length;
      if ok {
        for i := 0 to |commands|
          invariant forall k :: 0 <= k < i ==> commandsRad[k] == commands[k]
        {
          commandsRad[i] := commands[i];
        }
      }
    }
  }

  /**
   For any sequence of cycles in which joint i was claimed with commands in range, an ideal drive that stands at its
   goal reads back within half a count, divided by the gear ratio, of what the mock reports.
   */
  lemma {:induction false} MockWithinHalfACount(history: seq<seq<Command>>, n: nat, i: nat, gear: real, seed: int)
    requires Wide(history, n) && i < n && gear != 0.0 && !Unclaimed(history, n, i)
    requires forall k :: 0 <= k < |history| ==> CommandInRange(history[k][i], gear)
    ensures Abs(CountsToRad(Goal(history, n, i, gear, seed)) / gear - ServoPosition(history, n, i)) <=
            TWO_PI / COUNTS_PER_REV / 2.0 / Abs(gear)
  {
    hide MotorCounts, CommandInRange, CountsToRad, Abs;
    var last := history[|history| - 1];
    if last[i].Some? {
      OneCommand(last[i], gear);
    } else {
      MockWithinHalfACount(history[..|history| - 1], n, i, gear, seed);
    }
  }

  predicate CommandInRange(command: Command, gear: real) {
    command.Some? ==> InRange(MotorRad(command.value, gear))
  }

  lemma OneCommand(command: Command, gear: real)
    requires gear != 0.0 && command.Some? && CommandInRange(command, gear)
    ensures Abs(CountsToRad(MotorCounts(command.value, gear)) / gear - command.value) <=
            TWO_PI / COUNTS_PER_REV / 2.0 / Abs(gear)
  {
    hide Abs, CountsToRad, RadToCounts, InRange, MotorRad;
    WithinHalfACountAtTheJoint(command.value, gear);
  }

  /** The servo reaches its command, and its speed is what takes it there in one period. */
  lemma ServoReaches(state: JointState, command: Command, period: real)
    ensures Servo(state, command, period).position == if command.Some? then command.value else state.position
    ensures var s := Servo(state, command, period);
            if period > 0.0 then state.position + s.velocity * period == s.position else s.velocity == 0.0
  {
  }

  /** Both arm backends under one host: the same commands, the same order of calls. */
  class MirroredArm {
    const can: SocketCanMotorBackend
    const mock: MockMotorBackend

    ghost predicate Valid()
      reads this, can, can.transport, can.feedback, mock, mock.commandsRad, mock.states
    {
      can.Operating() && mock.Valid() && mock.states.Length == |can.nodeIds| && mock.reached == can.written
    }

    constructor (can: SocketCanMotorBackend, mock: MockMotorBackend)
      ensures this.can == can && this.mock == mock
    {
      this.can, this.mock := can, mock;
    }

    method Start() returns (ok: bool)
      requires can.Idle() && mock.Valid() && mock.states.Length == |can.nodeIds|
      modifies can, can.transport, can.feedback, mock`reached, mock.commandsRad, mock.states
      ensures ok ==> Valid() && can.written == []
    {
      hide Steady, Resting, Retired, WorldOk, AllConverge, TableEntry, Replay, Since, FramesOf;
      ghost var bound, starts, part;
      ok, bound, starts, part := can.Activate();
      mock.Activate();
    }

    /**
     The drive of joint i has missed no frame since activation began, has nothing more coming to it, stands where it was
     sent, and its last report of that has been heard.
     */
    ghost predicate Settled(i: nat)
      requires can.Structure() && can.JointsMatch() && i < |can.nodeIds|
      reads can, can.transport
    {
      var l := can.transport.links[can.nodeIds[i]];
      && l.lost == can.joints[i].base && l.down == [] && l.drive.position == l.drive.core.target
      && PositionOf(can.log, can.nodeIds[i]) == l.drive.position
    }

    /** The mock's joint i stands where the drive's does, up to half a count; before any command it stands at zero. */
    ghost predicate Mirrors(i: nat, mockState: JointState, canState: JointState)
      requires can.Structure() && can.JointsMatch() && i < |can.nodeIds|
      reads can, can.transport
    {
      && Wide(can.written, |can.nodeIds|)
      && var gear := can.gearRatios[i];
      && (Unclaimed(can.written, |can.nodeIds|, i) ==>
            mockState.position == 0.0 && canState.position == CountsToRad(can.joints[i].seed) / gear)
      && (!Unclaimed(can.written, |can.nodeIds|, i) &&
          (forall k :: 0 <= k < |can.written| ==> CommandInRange(can.written[k][i], gear)) ==>
            Abs(canState.position - mockState.position) <= TWO_PI / COUNTS_PER_REV / 2.0 / Abs(gear))
    }

    /** One update of both: anything may happen on the bus during the calls and between them. */
    method Cycle(commands: seq<Command>, period: real)
      returns (ok: bool, mockRead: seq<JointState>, canRead: seq<JointState>)
      requires Valid() && |commands| == |can.nodeIds|
      modifies can`sdoResponse, can`responseId, can`log, can`trace, can`written, can.transport`links,
               can.transport`nextId, can.transport`offered, can.transport`trouble, can.feedback, mock`reached,
               mock.commandsRad, mock.states
      ensures Valid() && can.written == old(can.written) + [commands]
      ensures |mockRead| == |canRead| == |can.nodeIds|
      ensures ok <==> NoFaultUpTo(can.log, can.nodeIds, |can.nodeIds|)
      ensures ok ==> forall i :: 0 <= i < |can.nodeIds| && Settled(i) ==> Mirrors(i, mockRead[i], canRead[i])
    {
      hide Steady, WorldOk, TableEntry, Replay, CountsToRad, VelocityToRadS, StatusOf, Bit, VelocityOf, PositionOf,
           Mirrors, TargetFrames;
      var _ := can.Write(commands);
      var _ := mock.Write(commands);
      can.Elapse();
      ok, canRead := can.Read([]);
      var fine;
      fine, mockRead := mock.Read(Some(period));
      if ok {
        forall i | 0 <= i < |can.nodeIds| && Settled(i) ensures Mirrors(i, mockRead[i], canRead[i]) {
          SettledMirrors(i, mockRead[i], canRead[i]);
        }
      }
    }

    lemma SettledMirrors(i: nat, mockState: JointState, canState: JointState)
      requires can.Operating() && i < |can.nodeIds| && Settled(i)
      requires Wide(can.written, |can.nodeIds|)
      requires mockState.position == ServoPosition(can.written, |can.nodeIds|, i)
      requires canState.position == CountsToRad(PositionOf(can.log, can.nodeIds[i])) / can.gearRatios[i]
      ensures Mirrors(i, mockState, canState)
    {
      hide Steady, WorldOk, TableEntry, Replay, CountsToRad, CommandInRange, Abs, Goal;
      var n, gear, seed := |can.nodeIds|, can.gearRatios[i], can.joints[i].seed;
      SteadyTracks(can.Now(), can.joints, can.written, can.transport.nextId, i);
      if Unclaimed(can.written, n, i) {
        UnclaimedHoldsSeed(can.written, n, i, gear, seed);
        UnclaimedStandsStill(can.written, n, i);
      } else if forall k :: 0 <= k < |can.written| ==> CommandInRange(can.written[k][i], gear) {
        MockWithinHalfACount(can.written, n, i, gear, seed);
      }
    }

    /**
     Any number of updates after a common start: if the last read finds no fault, every drive that is settled then reads
     within half a count of the mock if its joint was ever commanded, and its seed where the mock says zero otherwise.
     */
    method Runs(cycles: seq<(seq<Command>, real)>)
      returns (ok: bool, mockRead: seq<JointState>, canRead: seq<JointState>)
      requires Valid() && can.written == [] && cycles != []
      requires forall k :: 0 <= k < |cycles| ==> |cycles[k].0| == |can.nodeIds|
      modifies can`sdoResponse, can`responseId, can`log, can`trace, can`written, can.transport`links,
               can.transport`nextId, can.transport`offered, can.transport`trouble, can.feedback, mock`reached,
               mock.commandsRad, mock.states
      ensures Valid() && can.written == seq(|cycles|, k requires 0 <= k < |cycles| => cycles[k].0)
      ensures |mockRead| == |canRead| == |can.nodeIds|
      ensures ok <==> NoFaultUpTo(can.log, can.nodeIds, |can.nodeIds|)
      ensures ok ==> forall i :: 0 <= i < |can.nodeIds| && Settled(i) ==> Mirrors(i, mockRead[i], canRead[i])
    {
      hide Steady, WorldOk, TableEntry, Replay, NoFaultUpTo, PositionOf, Settled, Mirrors, ServoPosition;
      ok, mockRead, canRead := Cycle(cycles[0].0, cycles[0].1);
      for j := 1 to |cycles|
        invariant Valid() && can.written == seq(j, k requires 0 <= k < j => cycles[k].0)
        invariant |mockRead| == |canRead| == |can.nodeIds|
        invariant ok <==> NoFaultUpTo(can.log, can.nodeIds, |can.nodeIds|)
        invariant ok ==> forall i :: 0 <= i < |can.nodeIds| && Settled(i) ==> Mirrors(i, mockRead[i], canRead[i])
      {
        ok, mockRead, canRead := Cycle(cycles[j].0, cycles[j].1);
      }
    }
  }

  lemma {:induction false} UnclaimedStandsStill(history: seq<seq<Command>>, n: nat, i: nat)
    requires Wide(history, n) && i < n && Unclaimed(history, n, i)
    ensures ServoPosition(history, n, i) == 0.0
  {
    if history != [] { UnclaimedStandsStill(history[..|history| - 1], n, i); }
  }
}
