// PxxSystemHardware: the ros2_control plugin over the SocketCAN backend, and whole runs of it.

module SystemHardware {
  import opened Wrappers
  import opened PxxCan
  import opened Cia402Drive
  import opened CanNetwork
  import opened SdoTransactions
  import opened CyclicOperation
  import opened CommandHistory
  import opened Sending
  import opened Lifecycle
  import opened CanTransport
  import opened Counts
  import opened MotorBackend

  /** No drive is ever enabled to move, and every fault reset is an edge unless a shutdown word got lost. */
  ghost predicate Safe(w: World) {
    forall n :: n in w.links ==>
                  && (forall i :: 0 <= i < |w.links[n].enables| ==> NoJump(w.links[n].enables[i]))
                  && (w.links[n].missed == 0 ==> forall i :: 0 <= i < |w.links[n].resets| ==> w.links[n].resets[i])
  }

  lemma AlwaysSafe(w: World, next: nat)
    requires WorldOk(w, next)
    ensures Safe(w)
  {
  }

  class PxxSystemHardware {
    const backend: SocketCanMotorBackend
    const hwPositions: array<real>
    const hwVelocities: array<real>
    const hwCommands: array<Command>
    var backendStates: seq<JointState>
    ghost var claimed: set<nat>              // joints a controller has stored a command for since activation

    ghost predicate Valid()
      reads this, hwPositions, hwVelocities, hwCommands, backend, backend.transport, backend.feedback
    {
      && hwPositions.Length == hwVelocities.Length == hwCommands.Length == |backendStates| == |backend.nodeIds|
      && hwPositions != hwVelocities
      && backend.Valid() && backend.Consistent()
      && (if backend.transport.isOpen then backend.Operating() else backend.Idle())
      && (backend.transport.isOpen ==> Unsent())
    }

    /** A joint nobody has claimed holds NaN and has had nothing but NaN written. */
    ghost predicate Unsent()
      requires hwCommands.Length == |backend.nodeIds|
      reads this, hwCommands, backend, backend.transport, backend.feedback
    {
      && Wide(backend.written, |backend.nodeIds|)
      && forall i :: 0 <= i < hwCommands.Length && i !in claimed ==>
                       hwCommands[i] == None && Unclaimed(backend.written, |backend.nodeIds|, i)
    }

    constructor (backend: SocketCanMotorBackend)
      requires backend.Idle()
      ensures Valid() && this.backend == backend && fresh({hwPositions, hwVelocities}) && fresh(hwCommands)
      ensures forall i :: 0 <= i < hwCommands.Length ==> hwCommands[i] == None
    {
      hide WorldOk, Replay, Retired, Resting, TableEntry;
      this.backend := backend;
      hwPositions := new real[|backend.nodeIds|](_ => 0.0);
      hwVelocities := new real[|backend.nodeIds|](_ => 0.0);
      hwCommands := new Command[|backend.nodeIds|](_ => None);
      backendStates := seq(|backend.nodeIds|, _ => JointState(0.0, 0.0));
      claimed := {};
    }

    /** std::fill of the commands with NaN and of the velocities with zero. */
    method Release()
      requires hwPositions != hwVelocities
      modifies hwVelocities, hwCommands, this`claimed
      ensures forall i :: 0 <= i < hwCommands.Length ==> hwCommands[i] == None
      ensures forall i :: 0 <= i < hwVelocities.Length ==> hwVelocities[i] == 0.0
      ensures claimed == {}
    {
      for i := 0 to hwCommands.Length
        invariant forall k :: 0 <= k < i ==> hwCommands[k] == None
      {
        hwCommands[i] := None;
      }
      for i := 0 to hwVelocities.Length
        invariant forall k :: 0 <= k < hwCommands.Length ==> hwCommands[k] == None
        invariant forall k :: 0 <= k < i ==> hwVelocities[k] == 0.0
      {
        hwVelocities[i] := 0.0;
      }
      claimed := {};
    }

    /**
     Commands stay NaN until a controller stores one: a zero command would drive every joint to zero. After a failure
     the drives are shut down, unless the socket could not be opened and nothing happened at all.
     */
    method OnActivate() returns (ok: bool)
      requires Valid() && !backend.transport.isOpen
      modifies backend, backend.transport, backend.feedback, hwVelocities, hwCommands, this`claimed
      ensures Valid() && ok == backend.transport.isOpen
      ensures ok ==> && backend.written == [] && claimed == {}
                     && (forall i :: 0 <= i < hwCommands.Length ==> hwCommands[i] == None)
                     && (forall i :: 0 <= i < hwVelocities.Length ==> hwVelocities[i] == 0.0)
      ensures !ok ==> hwCommands[..] == old(hwCommands[..]) && hwVelocities[..] == old(hwVelocities[..])
      ensures !ok ==> backend.Now() == old(backend.Now()) || backend.ShutDown(old(backend.Now()))
      ensures backend.trace != old(backend.trace) ==>
                && AllConverge(old(backend.Now()), backend.Now(), backend.nodeIds, ok)
                && (!ok && AllAble(old(backend.transport.links), backend.nodeIds) ==>
                      WentWrong(backend.genesis, backend.trace, |old(backend.trace)|))
    {
      hide Steady, Resting, Retired, WorldOk, AllConverge, AllHalting, TableEntry, Replay, Since, WentWrong, AllAble,
           FramesOf;
      ghost var bound, starts, part;
      ok, bound, starts, part := backend.Activate();
      if ok {
        Release();
      }
    }

    /** on_deactivate, on_cleanup and on_shutdown. */
    method OnDeactivate()
      requires Valid()
      modifies backend`rxRunning, backend`rxThread, backend`sdoResponse, backend`responseId, backend`log,
               backend`trace, backend`shutAt, backend.transport`links, backend.transport`nextId,
               backend.transport`offered, backend.transport`trouble, backend.transport`isOpen, backend.feedback,
               hwVelocities, hwCommands, this`claimed
      ensures Valid() && !backend.transport.isOpen
      ensures forall i :: 0 <= i < hwCommands.Length ==> hwCommands[i] == None
      ensures forall i :: 0 <= i < hwVelocities.Length ==> hwVelocities[i] == 0.0
      ensures old(backend.transport.isOpen) ==>
                && AllHalting(old(backend.Now()), backend.Now(), backend.nodeIds)
                && backend.shutAt == Some(|old(backend.trace)|)
                && (forall i :: 0 <= i < |backend.nodeIds| ==> Live(old(backend.transport.links[backend.nodeIds[i]])))
      ensures !old(backend.transport.isOpen) ==> backend.Now() == old(backend.Now())
    {
      hide WorldOk, AllHalting, TableEntry, Steady, Resting, Retired, Replay, Since, FramesOf, Live;
      if backend.transport.isOpen {
        SteadyLive(backend.Now(), backend.joints, backend.written, backend.transport.nextId);
        OpenIsStale(backend.Now(), backend.joints, backend.written, backend.transport.nextId);
      } else {
        RestIsStale(backend.Now(), backend.nodeIds, backend.transport.nextId);
      }
      var ok := backend.Deactivate();
      Release();
    }

    /** All joints from one instant of the feedback history, or none changed. */
    method Read() returns (ok: bool)
      requires Valid()
      modifies backend`sdoResponse, backend`responseId, backend`log, backend`trace, backend.transport`links,
               backend.transport`trouble, backend.feedback, hwPositions, hwVelocities, this`backendStates
      ensures Valid()
      ensures ok <==> backend.transport.isOpen && NoFaultUpTo(backend.log, backend.nodeIds, |backend.nodeIds|)
      ensures !ok ==> hwPositions[..] == old(hwPositions[..]) && hwVelocities[..] == old(hwVelocities[..])
      ensures ok ==> forall i :: 0 <= i < |backend.nodeIds| ==>
                                   JointState(hwPositions[i], hwVelocities[i]) ==
                                   StateOf(backend.log, backend.nodeIds[i], backend.gearRatios[i])
      ensures ok ==> forall i :: 0 <= i < |backend.nodeIds| ==>
                                   AtTheShaft(JointState(hwPositions[i], hwVelocities[i]),
                                              PositionOf(backend.log, backend.nodeIds[i]),
                                              VelocityOf(backend.log, backend.nodeIds[i]), backend.gearRatios[i])
      ensures ok && backend.written == [] ==>
                forall i :: 0 <= i < |backend.nodeIds| ==>
                              hwPositions[i] == CountsToRad(backend.joints[i].seed) / backend.gearRatios[i]
      ensures ok ==> forall i :: 0 <= i < |backend.nodeIds| &&
                                 backend.transport.links[backend.nodeIds[i]].drive.core.nmt == PreOperational ==>
                                   hwPositions[i] == CountsToRad(backend.joints[i].seed) / backend.gearRatios[i]
    {
      hide Steady, Resting, Retired, Replay, WorldOk, TableEntry, StatusOf, PositionOf, VelocityOf, Bit, CountsToRad,
           VelocityToRadS, AtTheShaft;
      var filled;
      ok, filled := backend.Read(backendStates);
      backendStates := filled;
      if ok {
        Publish(filled);
      }
    }

    method Publish(states: seq<JointState>)
      requires |states| == hwPositions.Length == hwVelocities.Length && hwPositions != hwVelocities
      modifies hwPositions, hwVelocities
      ensures forall i :: 0 <= i < |states| ==>
                            hwPositions[i] == states[i].position && hwVelocities[i] == states[i].velocity
    {
      for i := 0 to |states|
        invariant forall k :: 0 <= k < i ==>
                                hwPositions[k] == states[k].position && hwVelocities[k] == states[k].velocity
      {
        hwPositions[i] := states[i].position;
        hwVelocities[i] := states[i].velocity;
      }
    }

    method Write() returns (ok: bool)
      requires Valid()
      modifies backend`sdoResponse, backend`responseId, backend`log, backend`trace, backend`written,
               backend.transport`links, backend.transport`nextId, backend.transport`offered, backend.transport`trouble,
               backend.feedback
      ensures Valid()
      ensures backend.transport.isOpen ==>
                var frames := TargetFrames(backend.joints, hwCommands[..], hwCommands.Length) + [SyncFrame()];
                && backend.written == old(backend.written) + [hwCommands[..]]
                && backend.transport.offered == old(backend.transport.offered) + frames
                && (ok <==> backend.transport.nextId == old(backend.transport.nextId) + |frames|)
      ensures !backend.transport.isOpen ==> !ok && backend.transport.offered == old(backend.transport.offered)
    {
      hide Steady, Resting, Retired, Replay, WorldOk, TableEntry, SyncFrame, TargetPositionFrame, MotorCounts;
      ok := backend.Write(hwCommands[..]);
    }

    /** A controller stores a command; None is NaN. */
    method Store(i: nat, command: Command)
      requires Valid() && i < hwCommands.Length
      modifies hwCommands, this`claimed
      ensures Valid() && hwCommands[..] == old(hwCommands[..])[i := command]
      ensures claimed == if command.Some? then old(claimed) + {i} else old(claimed)
    {
      hide Steady, Resting, Retired, Replay, WorldOk, TableEntry;
      hwCommands[i] := command;
      claimed := if command.Some? then claimed + {i} else claimed;
    }

    /** A command stored and taken back before the next write reaches no drive: every goal of its joint stays. */
    method StoreAndWithdraw(i: nat, angle: real) returns (ok: bool)
      requires Valid() && backend.transport.isOpen && i < hwCommands.Length
      modifies hwCommands, this`claimed, backend`sdoResponse, backend`responseId, backend`log, backend`trace,
               backend`written, backend.transport`links, backend.transport`nextId, backend.transport`offered,
               backend.transport`trouble, backend.feedback
      ensures Valid() && Wide(backend.written, hwCommands.Length) && Wide(old(backend.written), hwCommands.Length)
      ensures backend.written == old(backend.written) + [old(hwCommands[..])[i := None]]
      ensures forall gear, seed ::
                Goal(backend.written, hwCommands.Length, i, gear, seed) ==
                Goal(old(backend.written), hwCommands.Length, i, gear, seed)
    {
      hide Steady, Resting, Retired, Replay, WorldOk, TableEntry, TargetFrames, SyncFrame;
      Store(i, Some(angle));
      Store(i, None);
      assert hwCommands[..] == old(hwCommands[..])[i := None];
      ok := Write();
      ghost var before := old(backend.written);
      assert backend.written[..|backend.written| - 1] == before;
      assert backend.written[|backend.written| - 1][i] == None;
    }

    /**
     Any sequence of calls in ros2_control order, with anything happening on the bus between and during them: no
     enable makes a drive jump, the drive of a joint nobody has claimed keeps aiming at the position it reported, a
     drive that missed no frame aims at the last command written once it has arrived, and one that missed the start
     command keeps its seed and its entry in the table. Whenever the backend is closed, after a deactivation or after
     a failed activation, every drive that was listening when the shutdown began has been shut down, and with it every
     drive the host has ever enabled or had report its position.
     */
    method AnyRun()
      requires Valid()
      modifies this, hwPositions, hwVelocities, hwCommands, backend, backend.transport, backend.feedback
      ensures Valid() && Safe(backend.Now())
      ensures backend.transport.isOpen ==>
                && (forall i :: 0 <= i < |backend.nodeIds| && i !in claimed ==>
                    StillHeld(backend.Now(), backend.joints, i))
                && (forall i :: 0 <= i < |backend.nodeIds| ==>
                    Tracks(backend.Now(), backend.joints, backend.written, i))
                && AllDecided(backend.Now(), backend.joints)
      ensures !backend.transport.isOpen ==> forall i :: 0 <= i < |backend.nodeIds| ==> Stilled(i)
    {
      hide Steady, Resting, Retired, Replay, WorldOk, TableEntry, Safe, StillHeld, Tracks, AllDecided;
      var steps: nat := *;
      while steps > 0
        invariant Valid()
      {
        AnyCall();
        steps := steps - 1;
      }
      AlwaysSafe(backend.Now(), backend.transport.nextId);
      if backend.transport.isOpen {
        forall i | 0 <= i < |backend.nodeIds| && i !in claimed ensures StillHeld(backend.Now(), backend.joints, i) {
          HeldWhileUnclaimed(backend.Now(), backend.joints, backend.written, backend.transport.nextId, i);
        }
        forall i | 0 <= i < |backend.nodeIds| ensures Tracks(backend.Now(), backend.joints, backend.written, i) {
          SteadyTracks(backend.Now(), backend.joints, backend.written, backend.transport.nextId, i);
        }
        StrandedPositions(backend.Now(), backend.joints, backend.written, backend.transport.nextId);
      } else {
        forall i | 0 <= i < |backend.nodeIds| ensures Stilled(i) { IsStilled(i); }
      }
    }

    /**
     Drive i while the backend is closed. Before the first shutdown it was never enabled. Afterwards nothing but the
     shutdown frames has been sent since the last shutdown began, after `shutAt` happenings; if the drive was listening
     then, as every drive that had reported its position by then or was ever enabled was, it is out of Operation
     Enabled once they have arrived, unless a frame to it was lost since.
     */
    ghost predicate Stilled(i: nat)
      requires backend.Structure() && i < |backend.nodeIds|
      reads backend, backend.transport
    {
      var n := backend.nodeIds[i];
      var l := backend.transport.links[n];
      match backend.shutAt
      case None => l.enables == []
      case Some(k) =>
        && k <= |backend.trace|
        && FramesOf(backend.trace) == FramesOf(backend.trace[..k]) +
                                      ShutdownFrames(backend.nodeIds, |backend.nodeIds|)
        && n in backend.At(k).links
        && var before := backend.At(k).links[n];
        && before.lost <= l.lost
        && (Woken(before) || l.enables != [] ==> Live(before))
        && (Live(before) && l.lost == before.lost && l.down == [] ==> l.drive.power != OperationEnabled)
    }

    lemma IsStilled(i: nat)
      requires backend.Idle() && i < |backend.nodeIds|
      ensures Stilled(i)
    {
      hide WorldOk, Replay, FramesOf, ShutdownFrames, TableEntry, Resting, Live, Woken;
      RetiredStops(backend.genesis, backend.Now(), backend.nodeIds, backend.shutAt, i);
      hide AllHalting;
    }

    method AnyCall()
      requires Valid()
      modifies this, hwPositions, hwVelocities, hwCommands, backend, backend.transport, backend.feedback
      ensures Valid()
    {
      hide Steady, Resting, Retired, Replay, WorldOk, TableEntry, AllHalting;
      var call: nat := *;
      var ok;
      if call == 0 && !backend.transport.isOpen {
        ok := OnActivate();
      } else if call == 1 {
        OnDeactivate();
      } else if call == 2 {
        ok := Read();
      } else if call == 3 {
        ok := Write();
      } else if call == 4 {
        var i: nat := *;
        var command: Command := *;
        if i < hwCommands.Length { Store(i, command); }
      } else {
        backend.Elapse();
      }
    }
  }

  /** The drive of joint i aims at its seed; no target frame has reached it or is under way. */
  ghost predicate StillHeld(w: World, joints: seq<Joint>, i: nat) {
    && i < |joints| && joints[i].node in w.links
    && var l := w.links[joints[i].node];
    && l.drive.core.target == joints[i].seed && l.drive.core.buffer == None
    && forall k :: 0 <= k < |l.down| ==> !l.down[k].msg.Rpdo1?
  }

  lemma HeldWhileUnclaimed(w: World, joints: seq<Joint>, history: seq<seq<Command>>, next: nat, i: nat)
    requires Steady(w, joints, history, next) && i < |joints| && Unclaimed(history, |joints|, i)
    ensures StillHeld(w, joints, i)
  {
    hide AllStale, AllSeeded, Aims, Fold;
    var j := joints[i];
    var l := w.links[j.node];
    assert Follows(l, j, history, |joints|, i);
    UnclaimedHoldsSeed(history, |joints|, i, j.gear, j.seed);
    hide Holds;
    HoldsTheSeed(l, j.seed);
  }

  /**
   The drive of joint i aims at its seed or at something commanded; if no frame to it was lost since activation began
   and nothing is under way, it is Operational and aims at the last command written.
   */
  ghost predicate Tracks(w: World, joints: seq<Joint>, history: seq<seq<Command>>, i: nat) {
    && i < |joints| && joints[i].node in w.links && Wide(history, |joints|)
    && var j, l := joints[i], w.links[joints[i].node];
    && (l.drive.core.target == j.seed || l.drive.core.target in Commanded(history, |joints|, i, j.gear))
    && (l.lost == j.base && l.down == [] ==>
          l.drive.core.nmt == Operational && l.drive.core.target == Goal(history, |joints|, i, j.gear, j.seed))
  }

  lemma SteadyTracks(w: World, joints: seq<Joint>, history: seq<seq<Command>>, next: nat, i: nat)
    requires Steady(w, joints, history, next) && i < |joints|
    ensures Tracks(w, joints, history, i)
  {
    hide AllStale, AllSeeded, Aims, Fold, Commanded, Goal, CarriesOneOf, Configured;
    var j := joints[i];
    var l := w.links[j.node];
    assert Follows(l, j, history, |joints|, i);
    if l.lost == j.base && l.down == [] {
      CyclingDrained(l, j.seed, Commanded(history, |joints|, i, j.gear), j.base,
                     Goal(history, |joints|, i, j.gear, j.seed));
    }
  }
}
