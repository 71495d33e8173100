/** The client's predictor and reconciler (PlayerController): it records
    each tick's input and pre-step state in the two history buffers, steps
    the body at once, sends every unconfirmed input, and on a newer server
    snapshot rewinds to it and replays the buffered inputs. */
module Client {
  import opened Types
  import opened Policy
  import opened History
  import opened Wire

  /** The locally predicted state recorded for a tick. */
  datatype SimulationState = SimulationState(position: Vector3, rotation: Quaternion, currentTick: U16)

  /** The server's authoritative snapshot. */
  datatype ServerSimulationState = ServerSimulationState(
    position: Vector3, rotation: Quaternion, velocity: Vector3, angularVelocity: Vector3, currentTick: U16)

  /** A state slot nobody has written yet. */
  const Unrecorded: SimulationState := SimulationState(Zero, Unset, 0)

  /** Squared position errors at or below this count as agreement. */
  const Epsilon: real := 0.0000001
  /** Squared visual jumps at or above this are snapped, not smoothed. */
  const SnapDistanceSquared: real := 4.0

  /** Everything the predictor and reconciler read or write. */
  datatype ClientView = ClientView(
    cTick: U16,
    inputCache: seq<ClientInput>,
    clientStateCache: seq<SimulationState>,
    rb: RigidBody,
    orientation: Quaternion,
    lastCorrectedFrame: int,
    clientPosError: Vector3,
    clientRotError: Quaternion)
  {
    predicate WellFormed() {
      |inputCache| == CacheSize && |clientStateCache| == CacheSize
    }
  }

  /** The state recorded for the current tick: the body's position, the
      look rotation (not the body's own rotation) and the current tick
      counter. */
  function CurrentSimulationState(rb: RigidBody, orientation: Quaternion, cTick: U16): (s: SimulationState)
    ensures s.position == rb.position && s.rotation == orientation && s.currentTick == cTick
  {
    SimulationState(rb.position, orientation, cTick)
  }

  /** One fixed tick of prediction: the orientation takes the latest look
      rotation, the sample and the pre-step state go to the slot of cTick,
      the body steps with the sample, the tick advances (wrapping at 65536).
      Reconciliation state is left alone. */
  function Predict(p: Physics, v: ClientView, keys: Keys, look: Quaternion): (r: ClientView)
    requires v.WellFormed()
    ensures r.WellFormed()
    ensures r.orientation == look && r.cTick == (v.cTick + 1) % TickModulus
    ensures r.lastCorrectedFrame == v.lastCorrectedFrame
    ensures r.clientPosError == v.clientPosError && r.clientRotError == v.clientRotError
  {
    var i := Slot(v.cTick);
    var input := ClientInput(keys, v.cTick, look);
    v.(orientation := look,
       inputCache := v.inputCache[i := input],
       clientStateCache := v.clientStateCache[i := CurrentSimulationState(v.rb, look, v.cTick)],
       rb := Apply(p, v.rb, input),
       cTick := (v.cTick + 1) % TickModulus)
  }

  /** The message sent to the server: the count byte is the tick difference
      truncated to a byte; the samples are those buffered for the ticks
      [serverTick, cTick). */
  function EncodeInputs(cache: seq<ClientInput>, serverTick: int, cTick: int): (m: seq<Field>)
    requires |cache| == CacheSize
    ensures |m| == 1 + 3 * (if cTick <= serverTick then 0 else cTick - serverTick)
    ensures m[0] == ByteField((cTick - serverTick) % 256)
  {
    WindowShape(cache, serverTick, cTick);
    RecordsAt(Window(cache, serverTick, cTick));
    Batch((cTick - serverTick) % 256, Window(cache, serverTick, cTick))
  }

  /** The body at the snapshot: position and both velocities from the
      server, the rest kept. */
  function ResetTo(rb: RigidBody, snap: ServerSimulationState): RigidBody {
    rb.(position := snap.position, velocity := snap.velocity, angularVelocity := snap.angularVelocity)
  }

  /** The state buffer after replaying ticks [lo, hi) from `reset`: before
      each replayed tick its slot is rewritten with the body's position, the
      orientation and `tag` (the current tick, not the replayed one). */
  function Rerecorded(p: Physics, reset: RigidBody, inputs: seq<ClientInput>, states: seq<SimulationState>,
                      orientation: Quaternion, tag: U16, lo: int, hi: int): (r: seq<SimulationState>)
    requires |inputs| == CacheSize && |states| == CacheSize
    ensures |r| == CacheSize
    decreases hi - lo
  {
    if hi <= lo then states
    else
      var before := Rerecorded(p, reset, inputs, states, orientation, tag, lo, hi - 1);
      var rb := ApplyAll(p, reset, Window(inputs, lo, hi - 1));
      before[Slot(hi - 1) := CurrentSimulationState(rb, orientation, tag)]
  }

  /** Rewind and replay after a divergence, then choose between a smoothing
      offset and a snap. */
  function Rewind(p: Physics, v: ClientView, snap: ServerSimulationState): (r: ClientView)
    requires v.WellFormed()
    ensures r.WellFormed()
    ensures r.orientation == snap.rotation
    ensures r.inputCache == v.inputCache && r.cTick == v.cTick && r.lastCorrectedFrame == v.lastCorrectedFrame
  {
    var prevPos := Add(v.rb.position, v.clientPosError);
    var prevRot := Product(v.orientation, v.clientRotError);
    var reset := ResetTo(v.rb, snap);
    var rb := ApplyAll(p, reset, Window(v.inputCache, snap.currentTick, v.cTick));
    var states := Rerecorded(p, reset, v.inputCache, v.clientStateCache, snap.rotation, v.cTick, snap.currentTick, v.cTick);
    var snaps := SqrMagnitude(Sub(prevPos, rb.position)) >= SnapDistanceSquared;
    v.(rb := rb,
       orientation := snap.rotation,
       clientStateCache := states,
       clientPosError := if snaps then Zero else Sub(prevPos, rb.position),
       clientRotError := if snaps then Identity else Product(Inverse(snap.rotation), prevRot))
  }

  /** Reconciliation against one snapshot. */
  function Reconcile(p: Physics, v: ClientView, snap: ServerSimulationState): (r: ClientView)
    requires v.WellFormed()
    ensures r.WellFormed()
    ensures r.inputCache == v.inputCache && r.cTick == v.cTick
    ensures v.lastCorrectedFrame <= r.lastCorrectedFrame
  {
    if snap.currentTick <= v.lastCorrectedFrame then v
    else
      var cached := v.clientStateCache[Slot(snap.currentTick)];
      var corrected := if SqrMagnitude(Sub(snap.position, cached.position)) > Epsilon then Rewind(p, v, snap) else v;
      corrected.(lastCorrectedFrame := snap.currentTick)
  }

  // ---------------------------------------------------------------------
  // Properties of the specification

  /** A tick writes both buffers at the slot of cTick and nowhere else,
      both tagged with the latest look rotation, steps the body with that
      rotation, and advances the tick by one modulo 65536. */
  lemma PredictRecordsOneSlot(p: Physics, v: ClientView, keys: Keys, look: Quaternion)
    requires v.WellFormed()
    ensures var r := Predict(p, v, keys, look);
      && r.inputCache[Slot(v.cTick)] == ClientInput(keys, v.cTick, look)
      && r.clientStateCache[Slot(v.cTick)] == SimulationState(v.rb.position, look, v.cTick)
      && (forall j :: 0 <= j < CacheSize && j != Slot(v.cTick) ==>
            r.inputCache[j] == v.inputCache[j] && r.clientStateCache[j] == v.clientStateCache[j])
      && r.cTick == (v.cTick + 1) % TickModulus
      && r.rb == PhysicsStep(p, v.rb, keys, look)
  {
  }

  /** A snapshot no newer than the last corrected one changes nothing. */
  lemma ReconcileIgnoresStale(p: Physics, v: ClientView, snap: ServerSimulationState)
    requires v.WellFormed() && snap.currentTick <= v.lastCorrectedFrame
    ensures Reconcile(p, v, snap) == v
  {
  }

  /** lastCorrectedFrame only moves forward, to the newest snapshot's tick. */
  lemma ReconcileAdvancesLastCorrected(p: Physics, v: ClientView, snap: ServerSimulationState)
    requires v.WellFormed()
    ensures Reconcile(p, v, snap).lastCorrectedFrame
         == if snap.currentTick <= v.lastCorrectedFrame then v.lastCorrectedFrame else snap.currentTick
  {
  }

  /** Once a snapshot tagged 65535 has been accepted, the int-versus-ushort
      comparison rejects every later snapshot: reconciliation stops for
      good after the tick counter wraps. */
  lemma ReconcileStopsAfterLastTick(p: Physics, v: ClientView, snap: ServerSimulationState)
    requires v.WellFormed() && v.lastCorrectedFrame == TickModulus - 1
    ensures Reconcile(p, v, snap) == v
  {
  }

  /** When the cached prediction is within tolerance there is no rewind:
      only lastCorrectedFrame changes. */
  lemma ReconcileWithinTolerance(p: Physics, v: ClientView, snap: ServerSimulationState)
    requires v.WellFormed() && snap.currentTick > v.lastCorrectedFrame
    requires SqrMagnitude(Sub(snap.position, v.clientStateCache[Slot(snap.currentTick)].position)) <= Epsilon
    ensures Reconcile(p, v, snap) == v.(lastCorrectedFrame := snap.currentTick)
  {
  }

  /** On divergence the body is first reset to the snapshot, then replays
      exactly the buffered samples of ticks [snapshot tick, cTick), in
      ascending order (none when the snapshot is not older than cTick); the
      input buffer and the tick counter are untouched. */
  lemma ReconcileResetsAndReplays(p: Physics, v: ClientView, snap: ServerSimulationState)
    requires v.WellFormed() && snap.currentTick > v.lastCorrectedFrame
    requires SqrMagnitude(Sub(snap.position, v.clientStateCache[Slot(snap.currentTick)].position)) > Epsilon
    ensures var r := Reconcile(p, v, snap);
      var replayed := Window(v.inputCache, snap.currentTick, v.cTick);
      && |replayed| == (if v.cTick <= snap.currentTick then 0 else v.cTick - snap.currentTick)
      && (forall k :: 0 <= k < |replayed| ==> replayed[k] == v.inputCache[Slot(snap.currentTick + k)])
      && r.rb == ApplyAll(p, RigidBody(snap.position, v.rb.rotation, snap.velocity, snap.angularVelocity), replayed)
      && r.orientation == snap.rotation
      && r.inputCache == v.inputCache
      && r.cTick == v.cTick
      && r.lastCorrectedFrame == snap.currentTick
  {
    WindowShape(v.inputCache, snap.currentTick, v.cTick);
  }

  /** Replaying rewrites only the slots of the replayed ticks. */
  lemma {:induction false} RerecordedFrame(p: Physics, reset: RigidBody, inputs: seq<ClientInput>,
                                          states: seq<SimulationState>, orientation: Quaternion, tag: U16,
                                          lo: int, hi: int, j: int)
    requires |inputs| == CacheSize && |states| == CacheSize && 0 <= j < CacheSize
    requires forall t :: lo <= t < hi ==> Slot(t) != j
    ensures Rerecorded(p, reset, inputs, states, orientation, tag, lo, hi)[j] == states[j]
    decreases hi - lo
  {
    if lo < hi {
      RerecordedFrame(p, reset, inputs, states, orientation, tag, lo, hi - 1, j);
    }
  }

  /** When the replay spans at most 1024 ticks, the slot of each replayed
      tick t holds the body's position just before t's step, the snapshot's
      rotation, and the tag. */
  lemma {:induction false} RerecordedAt(p: Physics, reset: RigidBody, inputs: seq<ClientInput>,
                                       states: seq<SimulationState>, orientation: Quaternion, tag: U16,
                                       lo: int, hi: int, t: int)
    requires |inputs| == CacheSize && |states| == CacheSize
    requires lo <= t < hi <= lo + CacheSize
    ensures Rerecorded(p, reset, inputs, states, orientation, tag, lo, hi)[Slot(t)]
         == SimulationState(ApplyAll(p, reset, Window(inputs, lo, t)).position, orientation, tag)
    decreases hi - lo
  {
    if t < hi - 1 {
      SlotsDistinct(t, hi - 1);
      RerecordedAt(p, reset, inputs, states, orientation, tag, lo, hi - 1, t);
    }
  }

  /** On divergence the state buffer changes only at the slots of the
      replayed ticks; when at most 1024 ticks are replayed, each of those
      slots holds the replayed pre-step position tagged with cTick. */
  lemma ReconcileRerecordsReplayedSlots(p: Physics, v: ClientView, snap: ServerSimulationState)
    requires v.WellFormed() && snap.currentTick > v.lastCorrectedFrame
    requires SqrMagnitude(Sub(snap.position, v.clientStateCache[Slot(snap.currentTick)].position)) > Epsilon
    ensures var r := Reconcile(p, v, snap);
      && (forall j :: 0 <= j < CacheSize && (forall t :: snap.currentTick <= t < v.cTick ==> Slot(t) != j) ==>
            r.clientStateCache[j] == v.clientStateCache[j])
      && (v.cTick <= snap.currentTick + CacheSize ==>
            forall t :: snap.currentTick <= t < v.cTick ==>
              r.clientStateCache[Slot(t)] == SimulationState(
                ApplyAll(p, ResetTo(v.rb, snap), Window(v.inputCache, snap.currentTick, t)).position,
                snap.rotation, v.cTick))
  {
    var r := Reconcile(p, v, snap);
    var reset := ResetTo(v.rb, snap);
    forall j | 0 <= j < CacheSize && (forall t :: snap.currentTick <= t < v.cTick ==> Slot(t) != j)
      ensures r.clientStateCache[j] == v.clientStateCache[j]
    {
      RerecordedFrame(p, reset, v.inputCache, v.clientStateCache, snap.rotation, v.cTick, snap.currentTick, v.cTick, j);
    }
    if v.cTick <= snap.currentTick + CacheSize {
      forall t | snap.currentTick <= t < v.cTick
        ensures r.clientStateCache[Slot(t)] == SimulationState(
                  ApplyAll(p, reset, Window(v.inputCache, snap.currentTick, t)).position, snap.rotation, v.cTick)
      {
        RerecordedAt(p, reset, v.inputCache, v.clientStateCache, snap.rotation, v.cTick, snap.currentTick, v.cTick, t);
      }
    }
  }

  /** After a rewind the error offset either snaps to zero (when the
      rendered position would jump by a squared distance of 4 or more) or
      makes the rendered position, body plus offset, exactly what it was
      before the correction. */
  lemma ReconcileSmoothsOrSnaps(p: Physics, v: ClientView, snap: ServerSimulationState)
    requires v.WellFormed() && snap.currentTick > v.lastCorrectedFrame
    requires SqrMagnitude(Sub(snap.position, v.clientStateCache[Slot(snap.currentTick)].position)) > Epsilon
    ensures var r := Reconcile(p, v, snap);
      var prevPos := Add(v.rb.position, v.clientPosError);
      && (SqrMagnitude(Sub(prevPos, r.rb.position)) >= SnapDistanceSquared ==>
            r.clientPosError == Zero && r.clientRotError == Identity)
      && (SqrMagnitude(Sub(prevPos, r.rb.position)) < SnapDistanceSquared ==>
            Add(r.rb.position, r.clientPosError) == prevPos
            && r.clientRotError == Product(Inverse(r.orientation), Product(v.orientation, v.clientRotError)))
  {
  }

  /** The sent message starts with the count byte (cTick - serverTick) mod
      256, then one record per tick of [serverTick, cTick), ascending, each
      read from that tick's slot. */
  lemma SentBatchLayout(cache: seq<ClientInput>, serverTick: int, cTick: int)
    requires |cache| == CacheSize
    ensures var m := EncodeInputs(cache, serverTick, cTick);
      var n := if cTick <= serverTick then 0 else cTick - serverTick;
      && |m| == 1 + 3 * n
      && m[0] == ByteField((cTick - serverTick) % 256)
      && forall k :: 0 <= k < n ==>
           && m[1 + 3 * k] == BoolsField(cache[Slot(serverTick + k)].keys)
           && m[2 + 3 * k] == UShortField(cache[Slot(serverTick + k)].currentTick)
           && m[3 + 3 * k] == QuaternionField(cache[Slot(serverTick + k)].rotation)
  {
    var w := Window(cache, serverTick, cTick);
    WindowShape(cache, serverTick, cTick);
    RecordsAt(w);
    var m := EncodeInputs(cache, serverTick, cTick);
    assert m == [ByteField((cTick - serverTick) % 256)] + Records(w);
    forall k | 0 <= k < |w|
      ensures m[1 + 3 * k] == BoolsField(cache[Slot(serverTick + k)].keys)
      ensures m[2 + 3 * k] == UShortField(cache[Slot(serverTick + k)].currentTick)
      ensures m[3 + 3 * k] == QuaternionField(cache[Slot(serverTick + k)].rotation)
    {
      assert m[1 + 3 * k] == Records(w)[3 * k];
      assert m[2 + 3 * k] == Records(w)[3 * k + 1];
      assert m[3 + 3 * k] == Records(w)[3 * k + 2];
    }
  }

  /** The server decodes exactly the window the client meant to send if and
      only if the window's length survives truncation to a byte: a gap of
      256 ticks or more, or a server tick ahead of cTick by other than a
      multiple of 256, breaks the count. */
  lemma SentBatchRoundTrip(cache: seq<ClientInput>, serverTick: int, cTick: int)
    requires |cache| == CacheSize
    ensures DecodeBatch(EncodeInputs(cache, serverTick, cTick)) == Some(Window(cache, serverTick, cTick))
        <==> (cTick - serverTick) % 256 == (if cTick <= serverTick then 0 else cTick - serverTick)
  {
    WindowShape(cache, serverTick, cTick);
    BatchRoundTrip((cTick - serverTick) % 256, Window(cache, serverTick, cTick));
  }

  // ---------------------------------------------------------------------
  // The controller

  class PlayerController {
    const physics: Physics
    var cTick: U16
    const inputCache: array<ClientInput>
    const clientStateCache: array<SimulationState>
    var rb: RigidBody
    var orientation: Quaternion
    var lastCorrectedFrame: int
    var clientPosError: Vector3
    var clientRotError: Quaternion

    ghost predicate Valid()
      reads this
    {
      inputCache.Length == CacheSize && clientStateCache.Length == CacheSize
    }

    ghost function View(): (v: ClientView)
      requires Valid()
      reads this, inputCache, clientStateCache
      ensures v.WellFormed()
    {
      ClientView(cTick, inputCache[..], clientStateCache[..], rb, orientation,
                 lastCorrectedFrame, clientPosError, clientRotError)
    }

    /** Start: empty buffers, zero offsets, tick 0. */
    constructor (physics: Physics, rb: RigidBody, orientation: Quaternion)
      ensures Valid() && fresh(inputCache) && fresh(clientStateCache)
      ensures this.physics == physics
      ensures View() == ClientView(0, seq(CacheSize, _ => BlankInput), seq(CacheSize, _ => Unrecorded),
                                   rb, orientation, 0, Zero, Identity)
    {
      this.physics := physics;
      this.rb := rb;
      this.orientation := orientation;
      inputCache := new ClientInput[CacheSize](_ => BlankInput);
      clientStateCache := new SimulationState[CacheSize](_ => Unrecorded);
      clientPosError := Zero;
      clientRotError := Identity;
      cTick := 0;
      lastCorrectedFrame := 0;
    }

    /** One fixed tick. `look` is the orientation the latest mouse-look left
        (the camera yaw); the keys are those held. The snapshot is the latest
        one received; the source dereferences it while sending, so it must
        exist. */
    method FixedUpdate(keys: Keys, look: Quaternion, snapshot: ServerSimulationState) returns (sent: seq<Field>)
      requires Valid()
      modifies this, inputCache, clientStateCache
      ensures Valid()
      ensures sent == EncodeInputs(Predict(physics, old(View()), keys, look).inputCache, snapshot.currentTick, old(cTick))
      ensures View() == Reconcile(physics, Predict(physics, old(View()), keys, look), snapshot)
    {
      orientation := look;
      var cacheIndex := Slot(cTick);
      inputCache[cacheIndex] := ClientInput(keys, cTick, orientation);
      clientStateCache[cacheIndex] := CurrentSimulationState(rb, orientation, cTick);
      rb := PhysicsStep(physics, rb, inputCache[cacheIndex].keys, orientation);
      sent := SendInput(snapshot.currentTick);
      cTick := (cTick + 1) % TickModulus;
      assert View() == Predict(physics, old(View()), keys, look);
      Reconciliate(snapshot);
    }

    method Reconciliate(snapshot: ServerSimulationState)
      requires Valid()
      modifies this, clientStateCache
      ensures Valid()
      ensures View() == Reconcile(physics, old(View()), snapshot)
    {
      if snapshot.currentTick <= lastCorrectedFrame {
        return;
      }
      var cached := clientStateCache[Slot(snapshot.currentTick)];
      var positionError := Sub(snapshot.position, cached.position);
      if SqrMagnitude(positionError) > Epsilon {
        var prevPos := Add(rb.position, clientPosError);
        var prevRot := Product(orientation, clientRotError);

        rb := rb.(position := snapshot.position);
        orientation := snapshot.rotation;
        rb := rb.(velocity := snapshot.velocity);
        rb := rb.(angularVelocity := snapshot.angularVelocity);

        ReplayFrom(snapshot.currentTick);

        if SqrMagnitude(Sub(prevPos, rb.position)) >= SnapDistanceSquared {
          clientPosError := Zero;
          clientRotError := Identity;
        } else {
          clientPosError := Sub(prevPos, rb.position);
          clientRotError := Product(Inverse(orientation), prevRot);
        }
      }
      lastCorrectedFrame := snapshot.currentTick;
    }

    /** The replay loop of Reconciliate: from the reset body, re-records the
        state of every tick of [tick, cTick) and steps through its buffered
        sample. */
    method ReplayFrom(tick: U16)
      requires Valid()
      modifies this, clientStateCache
      ensures Valid()
      ensures rb == ApplyAll(physics, old(rb), Window(inputCache[..], tick, cTick))
      ensures clientStateCache[..] == Rerecorded(physics, old(rb), inputCache[..], old(clientStateCache[..]),
                                                 orientation, cTick, tick, cTick)
      ensures cTick == old(cTick) && orientation == old(orientation)
      ensures lastCorrectedFrame == old(lastCorrectedFrame)
      ensures clientPosError == old(clientPosError) && clientRotError == old(clientRotError)
    {
      ghost var reset := rb;
      ghost var states0 := clientStateCache[..];
      ghost var inputs := inputCache[..];
      var rewindTickNumber: int := tick;
      while rewindTickNumber < cTick
        invariant tick <= rewindTickNumber
        invariant rewindTickNumber <= cTick || rewindTickNumber == tick
        invariant cTick == old(cTick) && orientation == old(orientation)
        invariant lastCorrectedFrame == old(lastCorrectedFrame)
        invariant clientPosError == old(clientPosError) && clientRotError == old(clientRotError)
        invariant inputCache[..] == inputs
        invariant rb == ApplyAll(physics, reset, Window(inputs, tick, rewindTickNumber))
        invariant clientStateCache[..] == Rerecorded(physics, reset, inputs, states0, orientation, cTick,
                                                     tick, rewindTickNumber)
        decreases cTick - rewindTickNumber
      {
        var cacheIndex := Slot(rewindTickNumber);
        clientStateCache[cacheIndex] := CurrentSimulationState(rb, orientation, cTick);
        assert inputs[cacheIndex] == inputCache[cacheIndex];
        ApplyAllSnoc(physics, reset, Window(inputs, tick, rewindTickNumber), inputs[cacheIndex]);
        rb := PhysicsStep(physics, rb, inputCache[cacheIndex].keys, inputCache[cacheIndex].rotation);
        rewindTickNumber := rewindTickNumber + 1;
      }
    }

    /** Builds the input message: the count byte, then the buffered sample
        of every tick from serverTick up to (not including) cTick. */
    method SendInput(serverTick: U16) returns (message: seq<Field>)
      requires Valid()
      ensures message == EncodeInputs(inputCache[..], serverTick, cTick)
    {
      message := [ByteField((cTick - serverTick) % 256)];
      var i: int := serverTick;
      while i < cTick
        invariant serverTick <= i
        invariant i <= cTick || i == serverTick
        invariant message == [ByteField((cTick - serverTick) % 256)] + Records(Window(inputCache[..], serverTick, i))
        decreases cTick - i
      {
        var x := inputCache[i % CacheSize];
        RecordsSnoc(Window(inputCache[..], serverTick, i), x);
        message := message + [BoolsField(x.keys), UShortField(x.currentTick), QuaternionField(x.rotation)];
        i := i + 1;
      }
    }
  }
}
