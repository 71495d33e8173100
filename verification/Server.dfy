/** The server's batch replay (Player): on an input batch from a client it
    freezes every other player, replays the client's new ticks, sends one
    snapshot per replayed tick, unfreezes the others with their velocities
    restored, and advances the client's input cursor. */
module Server {
  import opened Types
  import opened Policy
  import opened Wire

  /** What the registry holds per player: the body, its kinematic flag, the
      velocities saved at a freeze, and the last input batch entry accepted. */
  datatype PlayerState = PlayerState(
    rb: RigidBody,
    isKinematic: bool,
    playerVelocity: Vector3,
    playerAngularVelocity: Vector3,
    lastReceivedInputs: ClientInput)

  /** A freshly started player: simulated, nothing saved, cursor at tick 0. */
  function NewPlayer(rb: RigidBody): PlayerState {
    PlayerState(rb, false, Zero, Zero, BlankInput)
  }

  /** The PlayerMovement snapshot broadcast after each replayed tick. */
  datatype PlayerMovement = PlayerMovement(
    playerId: U16, tick: U16, position: Vector3, velocity: Vector3, angularVelocity: Vector3, rotation: Quaternion)

  function MovementOf(id: U16, tick: U16, rb: RigidBody): PlayerMovement {
    PlayerMovement(id, tick, rb.position, rb.velocity, rb.angularVelocity, rb.rotation)
  }

  /** The registry and everything broadcast so far. */
  datatype ServerView = ServerView(players: map<U16, PlayerState>, sent: seq<PlayerMovement>)

  /** The freeze applied to one registry entry. */
  function Frozen(id: U16, clientID: U16, player: PlayerState): PlayerState {
    if id != clientID then
      player.(playerVelocity := player.rb.velocity,
              playerAngularVelocity := player.rb.angularVelocity,
              isKinematic := true)
    else player.(isKinematic := false)
  }

  /** The restore applied to one registry entry. */
  function Restored(id: U16, clientID: U16, player: PlayerState): PlayerState {
    var awake := player.(isKinematic := false);
    if id != clientID then
      awake.(rb := awake.rb.(velocity := player.playerVelocity, angularVelocity := player.playerAngularVelocity))
    else awake
  }

  function FreezeAll(players: map<U16, PlayerState>, clientID: U16): map<U16, PlayerState> {
    map id | id in players :: Frozen(id, clientID, players[id])
  }

  function RestoreAll(players: map<U16, PlayerState>, clientID: U16): map<U16, PlayerState> {
    map id | id in players :: Restored(id, clientID, players[id])
  }

  /** The first batch index to replay: the cursor's offset from the batch's
      first tick when the cursor is ahead of it, else 0. */
  function StartIndex(cursorTick: U16, firstTick: U16): (i: nat)
    ensures cursorTick >= firstTick ==> firstTick + i == cursorTick
    ensures cursorTick <= firstTick ==> i == 0
  {
    if cursorTick > firstTick then cursorTick - firstTick else 0
  }

  /** The body after replaying batch indices [lo, hi); unchanged when the
      range is empty. */
  function Replayed(p: Physics, rb: RigidBody, inputs: seq<ClientInput>, lo: nat, hi: nat): RigidBody
    requires hi <= lo || hi <= |inputs|
  {
    if hi <= lo then rb else ApplyAll(p, rb, inputs[lo..hi])
  }

  /** The snapshots sent while replaying batch indices [lo, hi): after each
      index i, the body tagged with the tick after inputs[i]'s tick. */
  function Movements(p: Physics, id: U16, rb: RigidBody, inputs: seq<ClientInput>, lo: nat, hi: nat): seq<PlayerMovement>
    requires hi <= lo || hi <= |inputs|
    decreases hi
  {
    if hi <= lo then []
    else Movements(p, id, rb, inputs, lo, hi - 1)
         + [MovementOf(id, (inputs[hi - 1].currentTick + 1) % TickModulus, Replayed(p, rb, inputs, lo, hi))]
  }

  /** The registry after an accepted batch: freeze the others, replay the
      client's indices [start, len - 1), restore, move the cursor. */
  function AcceptedPlayers(p: Physics, players: map<U16, PlayerState>, inputs: seq<ClientInput>, clientID: U16, start: nat)
    : (r: map<U16, PlayerState>)
    requires clientID in players && |inputs| > 0
    ensures r.Keys == players.Keys
  {
    var frozen := FreezeAll(players, clientID);
    var rb0 := frozen[clientID].rb;
    var stepped := frozen[clientID := frozen[clientID].(rb := Replayed(p, rb0, inputs, start, |inputs| - 1))];
    var restored := RestoreAll(stepped, clientID);
    restored[clientID := restored[clientID].(lastReceivedInputs := inputs[|inputs| - 1])]
  }

  /** Handling one input batch from clientID. The client's body is not
      changed by the freeze, so the snapshots start from its body as it was. */
  function ProcessBatch(p: Physics, s: ServerView, inputs: seq<ClientInput>, clientID: U16): (r: ServerView)
    requires clientID in s.players
    ensures r.players.Keys == s.players.Keys
    ensures s.sent <= r.sent
  {
    if |inputs| == 0 then s
    else
      var cursor := s.players[clientID].lastReceivedInputs;
      if inputs[|inputs| - 1].currentTick >= cursor.currentTick then
        var start := StartIndex(cursor.currentTick, inputs[0].currentTick);
        ServerView(AcceptedPlayers(p, s.players, inputs, clientID, start),
                   s.sent + Movements(p, clientID, s.players[clientID].rb, inputs, start, |inputs| - 1))
      else s
  }

  // ---------------------------------------------------------------------
  // Properties of the specification

  /** Replaying one more index steps the body once more with that index's
      sample. */
  lemma ReplayedStep(p: Physics, rb: RigidBody, inputs: seq<ClientInput>, lo: nat, i: nat)
    requires lo <= i < |inputs|
    ensures Replayed(p, rb, inputs, lo, i + 1) == Apply(p, Replayed(p, rb, inputs, lo, i), inputs[i])
  {
    assert inputs[lo..i + 1] == inputs[lo..i] + [inputs[i]];
    ApplyAllSnoc(p, rb, inputs[lo..i], inputs[i]);
  }

  /** One snapshot per replayed index, in ascending index order, the j-th
      tagged (tick of inputs[lo + j]) + 1 modulo 65536 and carrying the body
      after replaying indices lo..lo + j. */
  lemma {:induction false} MovementsShape(p: Physics, id: U16, rb: RigidBody, inputs: seq<ClientInput>, lo: nat, hi: nat)
    requires hi <= |inputs|
    ensures var ms := Movements(p, id, rb, inputs, lo, hi);
      && |ms| == (if hi <= lo then 0 else hi - lo)
      && forall j :: 0 <= j < |ms| ==>
           && ms[j].playerId == id
           && ms[j].tick == (inputs[lo + j].currentTick + 1) % TickModulus
           && ms[j] == MovementOf(id, ms[j].tick, ApplyAll(p, rb, inputs[lo..lo + j + 1]))
    decreases hi
  {
    if lo < hi {
      MovementsShape(p, id, rb, inputs, lo, hi - 1);
      var ms := Movements(p, id, rb, inputs, lo, hi);
      assert ms == Movements(p, id, rb, inputs, lo, hi - 1)
                   + [MovementOf(id, (inputs[hi - 1].currentTick + 1) % TickModulus, ApplyAll(p, rb, inputs[lo..hi]))];
      assert lo + (hi - lo - 1) + 1 == hi;
    }
  }

  /** An empty batch, or one whose last tick is behind the cursor, changes
      no player, no cursor and sends nothing. */
  lemma EmptyOrStaleBatchIgnored(p: Physics, s: ServerView, inputs: seq<ClientInput>, clientID: U16)
    requires clientID in s.players
    requires |inputs| == 0
          || inputs[|inputs| - 1].currentTick < s.players[clientID].lastReceivedInputs.currentTick
    ensures ProcessBatch(p, s, inputs, clientID) == s
  {
  }

  /** The number of indices an accepted batch replays: [start, len - 1),
      so the last entry is never stepped. */
  function ReplaySteps(start: nat, len: nat): nat {
    if len - 1 <= start then 0 else len - 1 - start
  }

  /** Isolation: when a batch is accepted (an equal last tick included),
      every other player ends with its body, position and velocities
      included, exactly as before, and with those velocities saved; nobody
      stays kinematic; the client's cursor becomes the batch's last entry,
      however many steps ran. The body equality follows from the step
      touching only the client's body (see Policy.Physics), not from the
      freeze; what rests on the code here is the kinematic flags, the saved
      velocities, their restoring and the cursor. */
  lemma AcceptedBatchIsolatesOthers(p: Physics, s: ServerView, inputs: seq<ClientInput>, clientID: U16)
    requires clientID in s.players && |inputs| > 0
    requires inputs[|inputs| - 1].currentTick >= s.players[clientID].lastReceivedInputs.currentTick
    ensures var r := ProcessBatch(p, s, inputs, clientID);
      && r.players.Keys == s.players.Keys
      && (forall id :: id in r.players ==> !r.players[id].isKinematic)
      && (forall id :: id in s.players && id != clientID ==>
            && r.players[id].rb == s.players[id].rb
            && r.players[id].playerVelocity == s.players[id].rb.velocity
            && r.players[id].playerAngularVelocity == s.players[id].rb.angularVelocity
            && r.players[id].lastReceivedInputs == s.players[id].lastReceivedInputs)
      && r.players[clientID].playerVelocity == s.players[clientID].playerVelocity
      && r.players[clientID].playerAngularVelocity == s.players[clientID].playerAngularVelocity
      && r.players[clientID].lastReceivedInputs == inputs[|inputs| - 1]
  {
  }

  /** The client's body replays exactly the samples of indices
      [start, len - 1), in order, starting from its body before the batch. */
  lemma AcceptedBatchReplaysClient(p: Physics, s: ServerView, inputs: seq<ClientInput>, clientID: U16)
    requires clientID in s.players && |inputs| > 0
    requires inputs[|inputs| - 1].currentTick >= s.players[clientID].lastReceivedInputs.currentTick
    ensures var r := ProcessBatch(p, s, inputs, clientID);
      var me := s.players[clientID];
      var start := StartIndex(me.lastReceivedInputs.currentTick, inputs[0].currentTick);
      r.players[clientID].rb
        == if ReplaySteps(start, |inputs|) == 0 then me.rb else ApplyAll(p, me.rb, inputs[start..|inputs| - 1])
  {
  }

  /** What an accepted batch appends: the snapshots of its replay, from the
      client's body before the batch. */
  lemma AcceptedBatchSent(p: Physics, s: ServerView, inputs: seq<ClientInput>, clientID: U16)
    requires clientID in s.players && |inputs| > 0
    requires inputs[|inputs| - 1].currentTick >= s.players[clientID].lastReceivedInputs.currentTick
    ensures var start := StartIndex(s.players[clientID].lastReceivedInputs.currentTick, inputs[0].currentTick);
      ProcessBatch(p, s, inputs, clientID).sent
        == s.sent + Movements(p, clientID, s.players[clientID].rb, inputs, start, |inputs| - 1)
  {
  }

  /** One snapshot per replayed index is appended to what was sent, in
      index order, each for the client and tagged with the tick after its
      sample's tick, modulo 65536. */
  lemma AcceptedBatchSends(p: Physics, s: ServerView, inputs: seq<ClientInput>, clientID: U16)
    requires clientID in s.players && |inputs| > 0
    requires inputs[|inputs| - 1].currentTick >= s.players[clientID].lastReceivedInputs.currentTick
    ensures var r := ProcessBatch(p, s, inputs, clientID);
      var start := StartIndex(s.players[clientID].lastReceivedInputs.currentTick, inputs[0].currentTick);
      var added := r.sent[|s.sent|..];
      && |s.sent| <= |r.sent|
      && r.sent[..|s.sent|] == s.sent
      && |added| == ReplaySteps(start, |inputs|)
      && forall j :: 0 <= j < |added| ==>
           added[j].playerId == clientID && added[j].tick == (inputs[start + j].currentTick + 1) % TickModulus
  {
    var me := s.players[clientID];
    var start := StartIndex(me.lastReceivedInputs.currentTick, inputs[0].currentTick);
    var ms := Movements(p, clientID, me.rb, inputs, start, |inputs| - 1);
    MovementsShape(p, clientID, me.rb, inputs, start, |inputs| - 1);
    AcceptedBatchSent(p, s, inputs, clientID);
    var r := ProcessBatch(p, s, inputs, clientID);
    assert |ms| == ReplaySteps(start, |inputs|);
    assert r.sent[|s.sent|..] == ms;
    assert r.sent[..|s.sent|] == s.sent;
    forall j | 0 <= j < |ms|
      ensures ms[j].playerId == clientID && ms[j].tick == (inputs[start + j].currentTick + 1) % TickModulus
    {
    }
  }

  /** A batch of the samples of ticks 50 to 55, all with the same keys and
      look rotation. */
  function ExampleBatch(keys: Keys, look: Quaternion): seq<ClientInput> {
    [ClientInput(keys, 50, look), ClientInput(keys, 51, look), ClientInput(keys, 52, look),
     ClientInput(keys, 53, look), ClientInput(keys, 54, look), ClientInput(keys, 55, look)]
  }

  /** Resuming at the cursor: for a batch of consecutive ticks that reaches
      back to the cursor, the replay starts at the cursor's own entry (the
      previous batch's last entry, which that batch did not step) and stops
      before the new last entry. So each tick from the cursor up to, not
      including, the new last tick is stepped exactly once, in order, and
      the snapshots are tagged with the ticks after them. */
  lemma ResumeAtCursor(p: Physics, s: ServerView, inputs: seq<ClientInput>, clientID: U16)
    requires clientID in s.players && |inputs| > 0
    requires forall k :: 0 <= k < |inputs| ==> inputs[k].currentTick == inputs[0].currentTick + k
    requires inputs[0].currentTick <= s.players[clientID].lastReceivedInputs.currentTick
             <= inputs[|inputs| - 1].currentTick
    ensures var c := s.players[clientID].lastReceivedInputs.currentTick;
      var first := inputs[0].currentTick;
      var last := inputs[|inputs| - 1].currentTick;
      var r := ProcessBatch(p, s, inputs, clientID);
      var added := r.sent[|s.sent|..];
      && |s.sent| <= |r.sent|
      && |added| == last - c
      && (forall j :: 0 <= j < |added| ==> added[j].tick == (c + j + 1) % TickModulus)
      && r.players[clientID].rb
           == if c == last then s.players[clientID].rb
              else ApplyAll(p, s.players[clientID].rb, inputs[c - first..|inputs| - 1])
  {
    AcceptedBatchSends(p, s, inputs, clientID);
    AcceptedBatchReplaysClient(p, s, inputs, clientID);
  }

  /** An example: cursor at 52, batch of ticks 50..55. Indices 2, 3
      and 4 (ticks 52, 53, 54) are replayed, the snapshots are tagged 53, 54
      and 55, and the cursor moves to tick 55. */
  lemma WorkedExample(p: Physics, s: ServerView, clientID: U16, keys: Keys, look: Quaternion)
    requires clientID in s.players && s.players[clientID].lastReceivedInputs.currentTick == 52
    ensures var inputs := ExampleBatch(keys, look);
      var r := ProcessBatch(p, s, inputs, clientID);
      && r.players[clientID].rb == ApplyAll(p, s.players[clientID].rb, inputs[2..5])
      && inputs[2].currentTick == 52 && inputs[3].currentTick == 53 && inputs[4].currentTick == 54
      && |r.sent| == |s.sent| + 3
      && r.sent[|s.sent|].tick == 53 && r.sent[|s.sent| + 1].tick == 54 && r.sent[|s.sent| + 2].tick == 55
      && r.players[clientID].lastReceivedInputs.currentTick == 55
  {
    var inputs := ExampleBatch(keys, look);
    AcceptedBatchReplaysClient(p, s, inputs, clientID);
    AcceptedBatchSends(p, s, inputs, clientID);
    assert StartIndex(52, inputs[0].currentTick) == 2;
  }

  /** Once the cursor holds tick 65535, only a batch ending at 65535 is
      accepted again: after the tick counter wraps, the client's batches are
      ignored. */
  lemma CursorAtLastTick(p: Physics, s: ServerView, inputs: seq<ClientInput>, clientID: U16)
    requires clientID in s.players && s.players[clientID].lastReceivedInputs.currentTick == TickModulus - 1
    requires |inputs| > 0 && inputs[|inputs| - 1].currentTick != TickModulus - 1
    ensures ProcessBatch(p, s, inputs, clientID) == s
  {
  }

  /** Reading one more sample extends the prefix already read. */
  lemma PrependStep(prefix: seq<ClientInput>, x: ClientInput, rest: Option<seq<ClientInput>>)
    ensures Prepend(prefix, Prepend([x], rest)) == Prepend(prefix + [x], rest)
  {
    match rest {
      case None =>
      case Some(b) => assert prefix + ([x] + b) == (prefix + [x]) + b;
    }
  }

  /** Reading a PlayerInput message into a fresh array, one sample per loop
      turn; a message with too few or ill-typed fields is reported as not
      read. */
  method ReadInputs(message: seq<Field>) returns (ok: bool, inputs: array<ClientInput>)
    ensures ok <==> DecodeBatch(message).Some?
    ensures ok ==> inputs[..] == DecodeBatch(message).value
  {
    if |message| == 0 || !message[0].ByteField? {
      ok := false;
      inputs := new ClientInput[0];
      return;
    }
    var inputsQuantity := message[0].b;
    inputs := new ClientInput[inputsQuantity](_ => BlankInput);
    var rest := message[1..];
    var i := 0;
    match DecodeRecords(rest, inputsQuantity) {
      case None =>
      case Some(b) => assert inputs[..0] + b == b;
    }
    while i < inputsQuantity
      invariant 0 <= i <= inputsQuantity
      invariant DecodeBatch(message) == Prepend(inputs[..i], DecodeRecords(rest, inputsQuantity - i))
      decreases inputsQuantity - i
    {
      if |rest| < 3 {
        ok := false;
        return;
      }
      var x := ParseRecord(rest[0], rest[1], rest[2]);
      if x.None? {
        ok := false;
        return;
      }
      ghost var prefix := inputs[..i];
      inputs[i] := x.value;
      assert inputs[..i + 1] == prefix + [x.value];
      PrependStep(prefix, x.value, DecodeRecords(rest[3..], inputsQuantity - i - 1));
      rest := rest[3..];
      i := i + 1;
    }
    ok := true;
    assert inputs[..] == inputs[..i];
  }

  // ---------------------------------------------------------------------
  // The registry

  /** The simulation session: the player registry and the broadcast log. */
  class Session {
    const physics: Physics
    var players: map<U16, PlayerState>
    var sent: seq<PlayerMovement>

    function View(): ServerView
      reads this
    {
      ServerView(players, sent)
    }

    constructor (physics: Physics, bodies: map<U16, RigidBody>)
      ensures this.physics == physics
      ensures players == map id | id in bodies :: NewPlayer(bodies[id])
      ensures sent == []
    {
      this.physics := physics;
      players := map id | id in bodies :: NewPlayer(bodies[id]);
      sent := [];
    }

    /** Handles a batch for clientID; the caller passes the receiving
        player's own id. */
    method HandleClientInput(inputs: array<ClientInput>, clientID: U16)
      requires clientID in players
      modifies this
      ensures View() == ProcessBatch(physics, old(View()), inputs[..], clientID)
    {
      if inputs.Length == 0 {
        return;
      }
      var cursor := players[clientID].lastReceivedInputs;
      if inputs[inputs.Length - 1].currentTick >= cursor.currentTick {
        var start: nat := if cursor.currentTick > inputs[0].currentTick then cursor.currentTick - inputs[0].currentTick else 0;
        assert start == StartIndex(cursor.currentTick, inputs[0].currentTick);
        ghost var batch := inputs[..];
        FreezeOthers(clientID);
        ghost var frozen := players;
        assert frozen[clientID].rb == old(players)[clientID].rb;
        ReplayBatch(inputs, start, clientID);
        assert sent == old(sent) + Movements(physics, clientID, old(players)[clientID].rb, batch, start, |batch| - 1);
        assert players == frozen[clientID := frozen[clientID].(rb := Replayed(physics, frozen[clientID].rb, batch, start, |batch| - 1))];
        RestoreOthers(clientID);
        players := players[clientID := players[clientID].(lastReceivedInputs := inputs[inputs.Length - 1])];
        assert players == AcceptedPlayers(physics, old(players), batch, clientID, start);
      }
    }

    /** The first pass over the registry: every other player's velocities
        are saved and it is made kinematic; the client's player is made
        non-kinematic. */
    method FreezeOthers(clientID: U16)
      modifies this
      ensures players == FreezeAll(old(players), clientID)
      ensures sent == old(sent)
    {
      ghost var before := players;
      var todo := players.Keys;
      while todo != {}
        invariant todo <= players.Keys && players.Keys == before.Keys
        invariant forall id :: id in players && id !in todo ==> players[id] == Frozen(id, clientID, before[id])
        invariant forall id :: id in todo ==> players[id] == before[id]
        invariant sent == old(sent)
        decreases todo
      {
        var playerId :| playerId in todo;
        var player := players[playerId];
        if playerId != clientID {
          player := player.(playerVelocity := player.rb.velocity);
          player := player.(playerAngularVelocity := player.rb.angularVelocity);
          player := player.(isKinematic := true);
        } else {
          player := player.(isKinematic := false);
        }
        players := players[playerId := player];
        todo := todo - {playerId};
      }
    }

    /** The replay loop: steps the client's body with each sample of
        indices [start, length - 1) and broadcasts a snapshot after each. */
    method ReplayBatch(inputs: array<ClientInput>, start: nat, clientID: U16)
      requires clientID in players && inputs.Length > 0
      modifies this
      ensures players == old(players)[clientID := old(players)[clientID].(rb := Replayed(physics, old(players)[clientID].rb, inputs[..], start, inputs.Length - 1))]
      ensures sent == old(sent) + Movements(physics, clientID, old(players)[clientID].rb, inputs[..], start, inputs.Length - 1)
    {
      ghost var rb0 := players[clientID].rb;
      ghost var batch := inputs[..];
      var i := start;
      while i < inputs.Length - 1
        invariant start <= i
        invariant i <= inputs.Length - 1 || i == start
        invariant players == old(players)[clientID := old(players)[clientID].(rb := Replayed(physics, rb0, batch, start, i))]
        invariant sent == old(sent) + Movements(physics, clientID, rb0, batch, start, i)
        decreases inputs.Length - i
      {
        var me := players[clientID];
        ReplayedStep(physics, rb0, batch, start, i);
        assert batch[i] == inputs[i];
        assert Movements(physics, clientID, rb0, batch, start, i + 1)
            == Movements(physics, clientID, rb0, batch, start, i)
               + [MovementOf(clientID, (batch[i].currentTick + 1) % TickModulus, Replayed(physics, rb0, batch, start, i + 1))];
        var rb := PhysicsStep(physics, me.rb, inputs[i].keys, inputs[i].rotation);
        players := players[clientID := me.(rb := rb)];
        sent := sent + [MovementOf(clientID, (inputs[i].currentTick + 1) % TickModulus, rb)];
        i := i + 1;
      }
    }

    /** The second pass over the registry: everyone is made non-kinematic and
        every other player gets its saved velocities back. */
    method RestoreOthers(clientID: U16)
      modifies this
      ensures players == RestoreAll(old(players), clientID)
      ensures sent == old(sent)
    {
      ghost var stepped := players;
      var todo := players.Keys;
      while todo != {}
        invariant todo <= players.Keys && players.Keys == stepped.Keys
        invariant forall id :: id in players && id !in todo ==> players[id] == Restored(id, clientID, stepped[id])
        invariant forall id :: id in todo ==> players[id] == stepped[id]
        invariant sent == old(sent)
        decreases todo
      {
        var playerId :| playerId in todo;
        var player := players[playerId];
        player := player.(isKinematic := false);
        if playerId != clientID {
          player := player.(rb := player.rb.(velocity := player.playerVelocity));
          player := player.(rb := player.rb.(angularVelocity := player.playerAngularVelocity));
        }
        players := players[playerId := player];
        todo := todo - {playerId};
      }
    }

    /** The PlayerInput message handler: looks the sender up, reads the
        batch and hands it to the sender's own player. A sender with no
        player (not spawned yet, or already gone) makes the lookup throw
        before anything changes. */
    method PlayerInput(fromClientId: U16, message: seq<Field>)
      modifies this
      ensures fromClientId !in old(players) ==> View() == old(View())
      ensures fromClientId in old(players) && DecodeBatch(message).None? ==> View() == old(View())
      ensures fromClientId in old(players) && DecodeBatch(message).Some? ==>
                View() == ProcessBatch(physics, old(View()), DecodeBatch(message).value, fromClientId)
    {
      if fromClientId !in players {
        return;
      }
      var ok, inputs := ReadInputs(message);
      if ok {
        HandleClientInput(inputs, fromClientId);
      }
    }
  }
}
