# Client prediction and server batch replay for a networked rigid body

This project models the tick bookkeeping and control logic of a
client-predicted, server-authoritative movement scheme (a Unity demo built on
the Riptide networking library), and proves properties of that model in Dafny.

- **Client (`Client.dfy`, class `PlayerController`).** Each fixed tick the
  client records its input sample and its pre-step state in two 1024-slot
  ring buffers. The slot is the tick modulo 1024. The client then steps its
  body and sends the inputs of ticks `[snapshot tick, cTick)`: all but the
  sample it has just recorded, since it sends before it advances its
  wrapping 16-bit tick counter. Finally it reconciles against the latest
  server snapshot. Reconciliation drops stale snapshots and skips a rewind
  when the squared position error is at most 1e-7. Otherwise it resets the
  body to the snapshot and replays the buffered inputs of ticks
  `[snapshot tick, cTick)`. It then either keeps a smoothing offset or snaps.
- **Server (`Server.dfy`, class `Session`).** On an input batch the server
  drops empty and stale batches. It computes a start offset from the
  client's input cursor. It freezes every other registered player and saves
  their velocities. It replays batch indices `[start, len - 1)` and
  broadcasts one snapshot tagged `tick + 1` per step. Then it unfreezes
  everyone, restores the saved velocities and moves the cursor to the last
  entry.
- **Shared parts.**
  - `Types.dfy`: ticks, vectors, opaque rotations, input samples.
  - `Policy.dfy`: the key-to-direction rule and the physics step.
  - `History.dfy`: ring-buffer slots and windows.
  - `Wire.dfy`: the field layout of the PlayerInput message, which the
    client writes and the server reads.

The physics is one injected function, `Physics`. It receives the body, the
move direction, the jump key and the look rotation, and returns the body one
tick later. Nothing else is assumed about it. Positions and velocities are
exact reals. Rotations are symbolic terms: a product or an inverse is
recorded and never evaluated.

Each imperative method is proved against a pure function of the old state:
- `FixedUpdate` against `Predict` and then `Reconcile`;
- `Reconciliate` against `Reconcile`;
- `SendInput` against `EncodeInputs`;
- `HandleClientInput` against `ProcessBatch`;
- `ReadInputs` against `DecodeBatch`.

The lemmas state what those functions guarantee.

Behaviour of the code that the model keeps:
- A batch whose last tick equals the cursor is processed. The test is `>=`,
  so only a strictly older batch is dropped.
- With the cursor at 52 and a batch of ticks 50..55, the server replays
  ticks 52, 53 and 54. It sends snapshots tagged 53, 54
  and 55. The last entry of a batch is never stepped by that call
  (`WorkedExample`).
- The client sends the inputs of ticks `[serverTick, cTick)`, which includes
  the snapshot's own tick.
- The snap-or-smooth decision compares the rendered position before the
  correction with the corrected position after the replay. It does not
  compare the snapshot with the cached prediction.
- During a replay the client re-records each state slot with the current
  tick `cTick`, not with the replayed tick.
- `lastCorrectedFrame` is an `int` compared with a wrapping `ushort`. Once a
  snapshot tagged 65535 is accepted, every later snapshot is ignored
  (`ReconcileStopsAfterLastTick`). The server's cursor has the same limit
  (`CursorAtLastTick`).
- The count byte of the input message is the tick difference truncated to 8
  bits. The server reads back exactly the sent window only if that window
  has fewer than 256 ticks (`SentBatchRoundTrip`).

## Model

| member | source | states |
|---|---|---|
| Policy.GetDirection | Client/Assets/Scripts/PlayerController.cs:215-231 | Each component is -1, 0 or 1. y is 1 exactly when forward is held without back, -1 exactly when back is held without forward, and 0 exactly when both or neither are held. x is the same for right (+1) and left (-1). No key has priority. The server's copy at Server/Assets/Scripts/Player.cs:126-142 is identical. |
| Policy.OpposingKeysCancel | Client/Assets/Scripts/PlayerController.cs:193-206 | The step reads the keys only through the direction and the jump key. Holding forward and back steps exactly as holding neither; the same holds for left and right. |
| Policy.ApplyAllSnoc | Client/Assets/Scripts/PlayerController.cs:166-176 | Replaying one more sample steps the body once more, after all earlier samples. So a loop that steps once per buffered sample computes the in-order replay. |
| History.Slot | Client/Assets/Scripts/PlayerController.cs:123 | The buffer index of a tick is in [0, 1024). |
| History.SlotPeriodic | Client/Assets/Scripts/PlayerController.cs:32 | Ticks t and t + 1024 share a slot. |
| History.WindowShape | Client/Assets/Scripts/PlayerController.cs:276-281 | The window for ticks [lo, hi) has max(0, hi - lo) entries. The k-th entry is read from the slot of tick lo + k. |
| Wire.RecordsSnoc | Client/Assets/Scripts/PlayerController.cs:276-281 | Writing one more sample appends exactly its three fields. |
| Wire.RecordsAt | Client/Assets/Scripts/PlayerController.cs:278-280 | The k-th sample is written as fields 3k, 3k+1 and 3k+2, in this order: its five key bits, its tick, its rotation. |
| Wire.DecodeRecords | Server/Assets/Scripts/Player.cs:208-218 | A successful read of n samples yields exactly n samples and consumed 3n fields. |
| Wire.DecodeBatch | Server/Assets/Scripts/Player.cs:206-218 | A message that decodes starts with a count byte equal to the number of samples decoded, followed by at least three fields per sample. |
| Wire.DecodeRecordsOfRecords | Server/Assets/Scripts/Player.cs:206-218 | Reading n samples from the fields of s gives s's first n samples, in order, when s has at least n. It fails when s has fewer. |
| Wire.BatchRoundTrip | Server/Assets/Scripts/Player.cs:206-218 | A message decodes to exactly the samples written into it if and only if its count byte equals their number. |
| Client.CurrentSimulationState | Client/Assets/Scripts/PlayerController.cs:233-241 | The recorded state holds the body's position, the look rotation (not the body's rotation) and the current tick. |
| Client.Predict | Client/Assets/Scripts/PlayerController.cs:121-132 | One predicted tick: the orientation becomes the latest look rotation, and cTick becomes (cTick + 1) mod 65536. lastCorrectedFrame and both error offsets are left alone. |
| Client.PredictRecordsOneSlot | Client/Assets/Scripts/PlayerController.cs:121-132 | A tick writes the input (keys, cTick, latest look rotation) and the pre-step state (position, that rotation, cTick) at slot cTick mod 1024 only; every other slot of both buffers is unchanged. The body takes one step with those keys and that rotation. cTick becomes (cTick + 1) mod 65536. |
| Client.EncodeInputs | Client/Assets/Scripts/PlayerController.cs:270-283 | The message has one count field plus three fields per tick of [serverTick, cTick), and its first field is the count byte (cTick - serverTick) mod 256. |
| Client.Rewind | Client/Assets/Scripts/PlayerController.cs:156-188 | A rewind sets the orientation to the snapshot's rotation. It leaves the input buffer, cTick and lastCorrectedFrame unchanged. |
| Client.Reconcile | Client/Assets/Scripts/PlayerController.cs:137-191 | Reconciliation never touches the input buffer or cTick, and lastCorrectedFrame never decreases. |
| Client.ReconcileIgnoresStale | Client/Assets/Scripts/PlayerController.cs:139 | A snapshot whose tick is at most lastCorrectedFrame changes nothing: body, buffers, offsets and lastCorrectedFrame stay the same. |
| Client.ReconcileAdvancesLastCorrected | Client/Assets/Scripts/PlayerController.cs:190 | lastCorrectedFrame becomes the snapshot tick when that tick is newer; otherwise it is unchanged. It never decreases. |
| Client.ReconcileStopsAfterLastTick | Client/Assets/Scripts/PlayerController.cs:139 | Once lastCorrectedFrame is 65535, every snapshot is ignored. |
| Client.ReconcileWithinTolerance | Client/Assets/Scripts/PlayerController.cs:144-152 | If the squared error against the cached state of the snapshot's slot is at most 1e-7, there is no rewind. Only lastCorrectedFrame changes, to the snapshot tick. |
| Client.ReconcileResetsAndReplays | Client/Assets/Scripts/PlayerController.cs:159-176 | On divergence the body's position and both velocities are set to the snapshot's, and the orientation to the snapshot's rotation. The body then replays the buffered samples of ticks [snapshot tick, cTick) in ascending order: exactly max(0, cTick - snapshot tick) steps. The input buffer and cTick are untouched. |
| Client.RerecordedFrame | Client/Assets/Scripts/PlayerController.cs:165-176 | The replay loop writes no slot other than the slots of the replayed ticks. |
| Client.RerecordedAt | Client/Assets/Scripts/PlayerController.cs:168-170 | With at most 1024 replayed ticks, the slot of each replayed tick t holds the body's position just before t's step, the snapshot's rotation and the current cTick. |
| Client.ReconcileRerecordsReplayedSlots | Client/Assets/Scripts/PlayerController.cs:165-176 | On divergence the state buffer keeps every slot that no replayed tick maps to. With at most 1024 replayed ticks, each replayed slot holds the replayed pre-step position, tagged with cTick rather than the replayed tick. |
| Client.ReconcileSmoothsOrSnaps | Client/Assets/Scripts/PlayerController.cs:178-188 | prevPos is the old position plus the old offset. If the squared distance between prevPos and the corrected position is at least 4, the offsets become zero and identity. Otherwise the corrected position plus the new offset equals prevPos, and the rotation offset is inverse(new orientation) * prevRot. |
| Client.SentBatchLayout | Client/Assets/Scripts/PlayerController.cs:274-281 | The message is the count byte (cTick - serverTick) mod 256, then one record per tick of [serverTick, cTick), ascending. Each record is read from the slot tick mod 1024. |
| Client.SentBatchRoundTrip | Client/Assets/Scripts/PlayerController.cs:274-281 | The server decodes exactly the intended window if and only if the truncated count byte equals the window's length. A gap of 256 ticks or more breaks the count. So does a server tick ahead of cTick by other than a multiple of 256: the window is then empty but the count byte is not 0. |
| Client.PlayerController.constructor | Client/Assets/Scripts/PlayerController.cs:70-91 | The client starts with empty buffers, zero and identity offsets, tick 0 and lastCorrectedFrame 0. |
| Client.PlayerController.FixedUpdate | Client/Assets/Scripts/PlayerController.cs:112-135 | The orientation first takes the rotation the latest mouse-look left. The new state is then one predicted tick followed by reconciliation against the snapshot. The sent message encodes the window [snapshot tick, old cTick) of the updated input buffer. |
| Client.PlayerController.Reconciliate | Client/Assets/Scripts/PlayerController.cs:137-191 | The new state (buffers, body, orientation, offsets, lastCorrectedFrame) is Reconcile of the old state. |
| Client.PlayerController.ReplayFrom | Client/Assets/Scripts/PlayerController.cs:165-176 | Starting from the reset body, the body ends as the in-order replay of the samples of ticks [tick, cTick). The state buffer ends as the re-recording of those ticks. The tick, orientation, offsets and lastCorrectedFrame are unchanged. The loop invariant ties the body and the state buffer to the replay after each replayed tick. |
| Client.PlayerController.SendInput | Client/Assets/Scripts/PlayerController.cs:270-283 | Returns the count byte followed by the records of the window [serverTick, cTick). |
| Server.StartIndex | Server/Assets/Scripts/Player.cs:61 | When the cursor is at or after the batch's first tick, the start index is the cursor's offset from it. Otherwise it is 0. |
| Server.ProcessBatch | Server/Assets/Scripts/Player.cs:55-102 | Handling a batch keeps the set of registered players and only appends to the sent messages. |
| Server.ReplayedStep | Server/Assets/Scripts/Player.cs:79-82 | Replaying one more batch index steps the body once more with that index's sample. |
| Server.MovementsShape | Server/Assets/Scripts/Player.cs:79-84 | Replaying indices [lo, hi) sends max(0, hi - lo) snapshots in ascending index order. The j-th is for the client and tagged (tick of inputs[lo + j] + 1) mod 65536. It carries the body after replaying indices lo..lo + j. |
| Server.EmptyOrStaleBatchIgnored | Server/Assets/Scripts/Player.cs:57-59 | An empty batch, or one whose last tick is strictly below the cursor tick, leaves every player, every cursor and the sent messages unchanged. |
| Server.AcceptedBatchIsolatesOthers | Server/Assets/Scripts/Player.cs:66-100 | On acceptance (an equal last tick included) every other player's velocities before the batch are saved, and no player stays kinematic. The cursor becomes the batch's last entry, whatever the number of steps. Every other player also ends with its body exactly as before: position, rotation and both velocities. That part holds because the modelled step moves only the client's body, not because of the freeze. |
| Server.AcceptedBatchReplaysClient | Server/Assets/Scripts/Player.cs:61-82 | start is cursor - first tick when the cursor is ahead, else 0. The client's body replays the samples of indices [start, len - 1) in order, so the last entry is never stepped. It is unchanged when that range is empty. |
| Server.AcceptedBatchSent | Server/Assets/Scripts/Player.cs:79-84 | An accepted batch appends to the sent messages exactly the snapshots of replaying indices [start, len - 1), starting from the client's body before the batch. The freeze does not touch that body. |
| Server.ResumeAtCursor | Server/Assets/Scripts/Player.cs:59-100 | For a batch of consecutive ticks whose range contains the cursor tick c, the replay starts at c's own entry. That entry is the previous batch's last one, which was never stepped (:79, :100). Exactly last - c snapshots are appended, the j-th tagged (c + j + 1) mod 65536. The client's body is the replay of the samples of ticks c up to, not including, the last tick. The cursor then moves to the last tick (AcceptedBatchIsolatesOthers), so the next such batch resumes at that unstepped tick. |
| Server.AcceptedBatchSends | Server/Assets/Scripts/Player.cs:79-84 | Earlier messages are kept. Exactly max(0, len - 1 - start) snapshots are appended, in index order, each for the client and tagged (tick of inputs[start + j] + 1) mod 65536. |
| Server.WorkedExample | Server/Assets/Scripts/Player.cs:59-84 | Cursor 52 and a batch of ticks 50..55: ticks 52, 53 and 54 are replayed, snapshots tagged 53, 54 and 55 are sent, and the cursor becomes 55. |
| Server.CursorAtLastTick | Server/Assets/Scripts/Player.cs:59 | Once the cursor is 65535, any batch whose last tick is not 65535 is ignored. |
| Server.ReadInputs | Server/Assets/Scripts/Player.cs:206-218 | Reading fills the array with exactly the decoded samples, in message order, and succeeds exactly when the message has the count byte and that many well-formed records. |
| Server.Session.constructor | Server/Assets/Scripts/Player.cs:45-53 | Every player starts non-kinematic, with zero saved velocities and its cursor at tick 0. Nothing has been sent yet. |
| Server.Session.HandleClientInput | Server/Assets/Scripts/Player.cs:55-102 | The new registry and sent messages are ProcessBatch of the old ones. |
| Server.Session.FreezeOthers | Server/Assets/Scripts/Player.cs:66-78 | Every other player's velocities are saved into the saved-velocity fields and it becomes kinematic. The client's player becomes non-kinematic. Nothing is sent. |
| Server.Session.ReplayBatch | Server/Assets/Scripts/Player.cs:79-84 | Only the client's body changes: it becomes the replay of indices [start, len - 1). The appended messages are the snapshots of those indices. |
| Server.Session.RestoreOthers | Server/Assets/Scripts/Player.cs:86-99 | Every player becomes non-kinematic. Every other player's velocities are set back to its saved ones. Nothing is sent. |
| Server.Session.PlayerInput | Server/Assets/Scripts/Player.cs:200-221 | A message from a sender with no registered player changes nothing. A message that decodes is handled as a batch from its sender. One that does not decode changes nothing. |

## Left out

- Physics: the ground test, force application and integration are one injected function (`Physics`). Only its inputs and the order of its calls are modelled. This covers `Physics.CheckSphere`, `rb.AddForce` and `Physics.Simulate`. The engine's effect on other bodies during a server replay is not modelled; in the model, a replay step changes only the client's body.
- Server.AcceptedBatchIsolatesOthers: the other players' bodies stay put because the modelled step cannot reach them. The model does not capture a step over the whole scene in which kinematic bodies are held in place. So it does not show that the freeze at Player.cs:66-78 is what keeps them still. Only the flags, the saved velocities and their restoring are modelled from the code.
- Quaternion algebra (`Quaternion.Inverse`, products, rotating basis vectors) is foreign floating-point math: rotations are symbolic terms.
- Floating point: vectors use exact reals, so 32-bit rounding (including that of the `0.0000001f` literal) is not modelled.
- Mouse and key reading (`Input.GetAxis`, `Input.GetKey`, the camera pitch, `Cursor`): the keys of a tick and the yaw rotation that `Look` leaves in `orientation` are parameters of `FixedUpdate`. Only the mouse arithmetic producing that rotation is left out. `Update`'s re-sampling into the slot of `cTick` is not modelled either. FixedUpdate rewrites that slot before anything reads it.
- Unity lifecycle glue (`Awake`, `simulationMode`, `OnDestroy`) and `Debug.Log`.
- Transport and spawning (`Message.Create`, `Send`/`SendToAll`, `Spawn`, `SendSpawn`, `GetSpawnData`, `PlayerName`): messages are abstract field sequences and broadcast snapshots are appended to `Session.sent`. Bit packing is not modelled. Neither is the `forward` vector of PlayerMovement, which is derived from the rotation.
- The client-side handler that stores the received snapshot is not part of this model. The snapshot is a parameter of `FixedUpdate`. The source dereferences it unconditionally in `SendInput`, so it must exist.
- Empty buffer slots: the source starts both buffers with null entries, and reading one would throw. The model starts them with a blank sample and a blank state.
- Server.Session.PlayerInput: a sender with no registered player makes the lookup at Player.cs:203 throw before any state changes; the model returns with nothing changed. A message with fewer fields than its count byte announces, or with a field of the wrong kind, is dropped. What the transport does on such a short read is not modelled.
- Server.Session.HandleClientInput takes one id: the receiving player and `clientID` are the same. The only caller passes the player's own `Id`.
- The render-side fading of the error offsets: no such code exists in these files.
- Client.ReconcileRerecordsReplayedSlots: the content of rewritten slots is stated only when at most 1024 ticks are replayed. Beyond that, later ticks overwrite earlier ones in the same slot, and only the untouched slots are stated.
- Client.RerecordedAt: stated only for replays of at most 1024 ticks, for the same reason.
