// The commands the plugin has written since activation, and what they mean for a drive.

module CommandHistory {
  import opened Wrappers
  import opened PxxCan
  import opened Cia402Drive
  import opened CanNetwork
  import opened SdoTransactions
  import opened CyclicOperation
  import opened Sending
  import opened Counts

  /** A joint command; None is NaN, "no controller has claimed this joint yet". */
  type Command = Option<real>

  predicate Wide(history: seq<seq<Command>>, n: nat) {
    forall k :: 0 <= k < |history| ==> |history[k]| == n
  }

  /** A joint command in motor counts, as the drive is sent it. */
  function MotorCounts(command: real, gear: real): (c: int)
    ensures IsInt32(c)
  {
    RadToCounts(MotorRad(command, gear))
  }

  /** Every value, in counts, that joint i was ever commanded to. */
  function Commanded(history: seq<seq<Command>>, n: nat, i: nat, gear: real): set<int>
    requires Wide(history, n) && i < n
  {
    if history == [] then {}
    else
      var last := history[|history| - 1][i];
      Commanded(history[..|history| - 1], n, i, gear) + if last.Some? then {MotorCounts(last.value, gear)} else {}
  }

  /** The last value joint i was commanded to, or the position it was enabled at. */
  function Goal(history: seq<seq<Command>>, n: nat, i: nat, gear: real, seed: int): int
    requires Wide(history, n) && i < n
  {
    if history == [] then seed
    else
      var last := history[|history| - 1][i];
      if last.Some? then MotorCounts(last.value, gear) else Goal(history[..|history| - 1], n, i, gear, seed)
  }

  /** Joint i has had only NaN written so far. */
  predicate Unclaimed(history: seq<seq<Command>>, n: nat, i: nat)
    requires Wide(history, n) && i < n
  {
    forall k :: 0 <= k < |history| ==> history[k][i].None?
  }

  /** Nothing but NaN means nothing commanded and the seed held. */
  lemma {:induction false} UnclaimedHoldsSeed(history: seq<seq<Command>>, n: nat, i: nat, gear: real, seed: int)
    requires Wide(history, n) && i < n
    ensures Unclaimed(history, n, i) <==> Commanded(history, n, i, gear) == {}
    ensures Unclaimed(history, n, i) ==> Goal(history, n, i, gear, seed) == seed
  {
    if history != [] {
      UnclaimedHoldsSeed(history[..|history| - 1], n, i, gear, seed);
      var last := history[|history| - 1][i];
      if last.Some? { assert MotorCounts(last.value, gear) in Commanded(history, n, i, gear); }
    }
  }

  /** Goal is the last command that is not NaN, if write k held it and no later one did. */
  lemma {:induction false} GoalIsLastClaim(history: seq<seq<Command>>, n: nat, i: nat, gear: real, seed: int, k: nat)
    requires Wide(history, n) && i < n && k < |history| && history[k][i].Some?
    requires forall j :: k < j < |history| ==> history[j][i].None?
    ensures Goal(history, n, i, gear, seed) == MotorCounts(history[k][i].value, gear)
  {

    if k < |history| - 1 {
      GoalIsLastClaim(history[..|history| - 1], n, i, gear, seed, k);
    }
  }

  lemma HistoryGrows(history: seq<seq<Command>>, n: nat, i: nat, gear: real, seed: int, commands: seq<Command>)
    requires Wide(history, n) && i < n && |commands| == n
    ensures Wide(history + [commands], n)
    ensures Commanded(history + [commands], n, i, gear) ==
            Commanded(history, n, i, gear) + if commands[i].Some? then {MotorCounts(commands[i].value, gear)} else {}
    ensures Goal(history + [commands], n, i, gear, seed) ==
            if commands[i].Some? then MotorCounts(commands[i].value, gear) else Goal(history, n, i, gear, seed)
  {

    var h := history + [commands];
    assert h[..|h| - 1] == history;
  }

  // One joint between and during writes ----------------------------------------------------------------------

  datatype Joint = Joint(node: nat, gear: real, seed: int, base: nat)

  /** Between writes. */
  predicate Follows(l: Link, j: Joint, history: seq<seq<Command>>, n: nat, i: nat)
    requires Wide(history, n) && i < n
  {
    Cycling(l, j.seed, Commanded(history, n, i, j.gear), j.base, Goal(history, n, i, j.gear, j.seed), None)
  }

  /** During a write, before or after this joint's frame. */
  predicate Following(l: Link, j: Joint, history: seq<seq<Command>>, n: nat, i: nat, commands: seq<Command>, sent: bool)
    requires Wide(history, n) && i < n && |commands| == n
  {
    Wide(history + [commands], n) &&
    Cycling(l, j.seed, Commanded(history + [commands], n, i, j.gear), j.base, Goal(history, n, i, j.gear, j.seed),
            if sent && commands[i].Some? then Some(MotorCounts(commands[i].value, j.gear)) else None)
  }

  lemma WriteBegins(l: Link, j: Joint, history: seq<seq<Command>>, n: nat, i: nat, commands: seq<Command>)
    requires Wide(history, n) && i < n && |commands| == n && Follows(l, j, history, n, i)
    ensures Following(l, j, history, n, i, commands, false)
  {
    HistoryGrows(history, n, i, j.gear, j.seed, commands);
    hide Holds, MotorCounts, Aims, Fold;
    HoldsMore(l, j.seed, Commanded(history, n, i, j.gear), Commanded(history + [commands], n, i, j.gear));
  }

  predicate Effect(mid: Link, l: Link, m: Option<HostMessage>, ok: bool, id: nat, epoch: nat) {
    l == if ok then Push(mid, m, id, epoch) else Miss(mid, m)
  }

  /** This joint's own target frame, accepted or refused by the socket. */
  lemma TargetGoesOut(mid: Link, l: Link, j: Joint, history: seq<seq<Command>>, n: nat, i: nat, commands: seq<Command>,
                      ok: bool, id: nat, epoch: nat)
    requires Wide(history, n) && i < n && |commands| == n && commands[i].Some?
    requires IsNode(mid.drive.core.node) && Following(mid, j, history, n, i, commands, false)
    requires Effect(mid, l, Some(Rpdo1(Le(ToU32(MotorCounts(commands[i].value, j.gear)), 4))), ok, id, epoch)
    ensures Following(l, j, history, n, i, commands, true)
  {
    var v := MotorCounts(commands[i].value, j.gear);
    HistoryGrows(history, n, i, j.gear, j.seed, commands);
    hide Cycling, MotorCounts, Le, Push, Miss;
    CyclingPush(mid, j.seed, Commanded(history + [commands], n, i, j.gear), j.base,
                Goal(history, n, i, j.gear, j.seed), None,
                Some(Rpdo1(Le(ToU32(v), 4))), v, id, epoch);
  }

  /** The SYNC at the end. */
  lemma SyncGoesOut(mid: Link, l: Link, j: Joint, history: seq<seq<Command>>, n: nat, i: nat, commands: seq<Command>,
                    ok: bool, id: nat, epoch: nat)
    requires Wide(history, n) && i < n && |commands| == n
    requires IsNode(mid.drive.core.node) && Following(mid, j, history, n, i, commands, true)
    requires Effect(mid, l, Some(Sync), ok, id, epoch)
    ensures Wide(history + [commands], n) && Follows(l, j, history + [commands], n, i)
  {
    HistoryGrows(history, n, i, j.gear, j.seed, commands);
    hide Cycling, MotorCounts, Push, Miss;
    CyclingPush(mid, j.seed, Commanded(history + [commands], n, i, j.gear), j.base, Goal(history, n, i, j.gear, j.seed),
                if commands[i].Some? then Some(MotorCounts(commands[i].value, j.gear)) else None, Some(Sync), 0, id,
                    epoch);
  }

  // All joints -----------------------------------------------------------------------------------------------

  predicate Distinct(joints: seq<Joint>) {
    && (forall i :: 0 <= i < |joints| ==> IsNode(joints[i].node))
    && (forall i, k :: 0 <= i < k < |joints| ==> joints[i].node != joints[k].node)
  }

  predicate AllFollow(links: map<nat, Link>, joints: seq<Joint>, history: seq<seq<Command>>) {
    Wide(history, |joints|) &&
    forall i :: 0 <= i < |joints| ==>
                  joints[i].node in links && Follows(links[joints[i].node], joints[i], history, |joints|, i)
  }

  predicate AllFollowing(links: map<nat, Link>, joints: seq<Joint>, history: seq<seq<Command>>, commands: seq<Command>,
                         k: nat) {
    Wide(history, |joints|) && |commands| == |joints| &&
    forall i :: 0 <= i < |joints| ==>
                  joints[i].node in links && Following(links[joints[i].node], joints[i], history, |joints|, i,
                                                       commands, i < k)
  }

  lemma FollowsRun(w: World, cs: seq<Choice>, mode: Listening, joints: seq<Joint>, history: seq<seq<Command>>)
    requires AllFollow(w.links, joints, history)
    ensures AllFollow(Run(w, cs, mode).links, joints, history)
  {
    hide Cycling, Run, Commanded, Goal;
    forall i | 0 <= i < |joints|
      ensures joints[i].node in Run(w, cs, mode).links
      ensures Follows(Run(w, cs, mode).links[joints[i].node], joints[i], history, |joints|, i)
    {
      var j := joints[i];
      assert Follows(w.links[j.node], j, history, |joints|, i);
      RunKeepsCycling(j.node, w, cs, mode, j.seed, Commanded(history, |joints|, i, j.gear), j.base,
                      Goal(history, |joints|, i, j.gear, j.seed), None);
    }
    hide Follows;
  }

  lemma FollowingRun(w: World, cs: seq<Choice>, mode: Listening, joints: seq<Joint>, history: seq<seq<Command>>,
                     commands: seq<Command>, k: nat)
    requires AllFollowing(w.links, joints, history, commands, k)
    ensures AllFollowing(Run(w, cs, mode).links, joints, history, commands, k)
  {
    hide Cycling, Run, Commanded, Goal, MotorCounts;
    forall i | 0 <= i < |joints|
      ensures joints[i].node in Run(w, cs, mode).links
      ensures Following(Run(w, cs, mode).links[joints[i].node], joints[i], history, |joints|, i, commands, i < k)
    {
      var j := joints[i];
      assert Following(w.links[j.node], j, history, |joints|, i, commands, i < k);
      RunKeepsCycling(j.node, w, cs, mode, j.seed, Commanded(history + [commands], |joints|, i, j.gear), j.base,
                      Goal(history, |joints|, i, j.gear, j.seed),
                      if i < k && commands[i].Some? then Some(MotorCounts(commands[i].value, j.gear)) else None);
    }
    hide Following;
  }

  lemma AllWriteBegins(links: map<nat, Link>, joints: seq<Joint>, history: seq<seq<Command>>, commands: seq<Command>)
    requires AllFollow(links, joints, history) && |commands| == |joints|
    ensures AllFollowing(links, joints, history, commands, 0)
  {
    hide Follows, Following;
    forall i | 0 <= i < |joints| ensures Following(links[joints[i].node], joints[i], history, |joints|, i, commands,
                                                   false) {
      WriteBegins(links[joints[i].node], joints[i], history, |joints|, i, commands);
    }
  }

  /** What the socket did with frame f, seen at every link. */
  ghost predicate Posted(mid: World, w: World, f: Frame, ok: bool, id: nat, epoch: nat) {
    w == if ok then Broadcast(mid, f, id, epoch) else Failed(mid, f)
  }

  lemma PostedAt(mid: World, w: World, f: Frame, ok: bool, id: nat, epoch: nat, k: nat)
    requires Posted(mid, w, f, ok, id, epoch) && k in mid.links
    ensures k in w.links && Effect(mid.links[k], w.links[k], Decode(k, f), ok, id, epoch)
    ensures w.links.Keys == mid.links.Keys && w.log == mid.log
    ensures Decode(k, f) == None ==> w.links[k] == mid.links[k]
  {
    hide Decode;
  }

  lemma FrameSkipped(links: map<nat, Link>, joints: seq<Joint>, history: seq<seq<Command>>, commands: seq<Command>,
                     k: nat)
    requires AllFollowing(links, joints, history, commands, k) && k < |joints| && commands[k].None?
    ensures AllFollowing(links, joints, history, commands, k + 1)
  {
    forall i | 0 <= i < |joints| ensures Following(links[joints[i].node], joints[i], history, |joints|, i, commands,
                                                   i < k + 1) {
      assert Following(links[joints[i].node], joints[i], history, |joints|, i, commands, i < k);
    }
    hide Cycling, MotorCounts;
  }

  lemma FramePosted(mid: World, w: World, joints: seq<Joint>, history: seq<seq<Command>>, commands: seq<Command>,
                    k: nat,
                    ok: bool, id: nat, epoch: nat, next: nat)
    requires Distinct(joints) && AllFollowing(mid.links, joints, history, commands, k) && k < |joints| &&
             commands[k].Some?
    requires WorldOk(mid, next)
    requires Posted(mid, w, TargetPositionFrame(joints[k].node, MotorCounts(commands[k].value, joints[k].gear)), ok,
                    id, epoch)
    ensures AllFollowing(w.links, joints, history, commands, k + 1)
  {
    hide Following, MotorCounts, Decode, TargetPositionFrame, Effect, Posted, Le, WorldOk;
    var v := MotorCounts(commands[k].value, joints[k].gear);
    var f := TargetPositionFrame(joints[k].node, v);
    WorldNodes(mid, next);
    forall i | 0 <= i < |joints|
      ensures joints[i].node in w.links
      ensures Following(w.links[joints[i].node], joints[i], history, |joints|, i, commands, i < k + 1)
    {
      var n := joints[i].node;
      PostedAt(mid, w, f, ok, id, epoch, n);
      TargetPositionDecodes(joints[k].node, v, n);
      assert Following(mid.links[n], joints[i], history, |joints|, i, commands, i < k);
      if i == k {
        TargetGoesOut(mid.links[n], w.links[n], joints[i], history, |joints|, i, commands, ok, id, epoch);
      }
    }
  }

  lemma SyncPosted(mid: World, w: World, joints: seq<Joint>, history: seq<seq<Command>>, commands: seq<Command>,
                   ok: bool, id: nat, epoch: nat, next: nat)
    requires Distinct(joints) && AllFollowing(mid.links, joints, history, commands, |joints|) && WorldOk(mid, next)
    requires Posted(mid, w, SyncFrame(), ok, id, epoch)
    ensures AllFollow(w.links, joints, history + [commands])
  {
    hide Following, Follows, MotorCounts, Decode, SyncFrame, Effect, Posted, WorldOk;
    WorldNodes(mid, next);
    forall i | 0 <= i < |joints|
      ensures joints[i].node in w.links && Wide(history + [commands], |joints|)
      ensures Follows(w.links[joints[i].node], joints[i], history + [commands], |joints|, i)
    {
      var n := joints[i].node;
      PostedAt(mid, w, SyncFrame(), ok, id, epoch, n);
      NmtAndSyncDecode(0, n, n);
      assert Following(mid.links[n], joints[i], history, |joints|, i, commands, i < |joints|);
      SyncGoesOut(mid.links[n], w.links[n], joints[i], history, |joints|, i, commands, ok, id, epoch);
    }
  }

  /** The frames one write attempts before its SYNC, in joint order. */
  function TargetFrames(joints: seq<Joint>, commands: seq<Command>, k: nat): seq<Frame>
    requires |commands| == |joints| && k <= |joints|
  {
    if k == 0 then []
    else
      TargetFrames(joints, commands, k - 1) +
      if commands[k - 1].Some?
      then [TargetPositionFrame(joints[k - 1].node, MotorCounts(commands[k - 1].value, joints[k - 1].gear))] else []
  }
}
