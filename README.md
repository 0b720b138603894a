# HOH character script, modelled in Dafny

This project models `CharacterScript`, the per-frame script of the HOH game that moves
and animates the player's sprite. Each frame the script does four things:

- It samples the four arrow keys into one `InputState` (`GetInputState`).
- It picks the direction's four sprite-sheet frames from its frame table, using a first-match
  `HasFlag` search.
- It starts looped playback when the direction changes, and stops playback when the keys are
  released (`Update`). On a stop it resets the displayed frame to the first frame of the
  previous direction.
- It pushes a velocity of speed 60 at the direction's angle, or zero when idle
  (`UpdateTransform2`).

Files and modules:

- `input_state.dfy`, module `InputStates`: the flag values as `bv8`, `HasFlag`, and the key
  sampler. The sampler is proved equal to a reference "last held key in check order" definition.
- `frame_table.dfy`, module `FrameTable`: the frame table in its enumeration order, the
  first-match flag search, and a reference lookup by exact key. The value `Right` is 0x16. It
  carries the bits of `Up` (0x2) and `Down` (0x4). The search still returns every direction's
  own frames, because `Right` comes before `Up` and `Down` in the table. The general lemma
  `FlagMatchIsKeyLookup` states when a flag search agrees with exact-key lookup.
- `velocity.dfy`, module `Velocities`: the angle is a number of quarter turns (Right 0, Up 1,
  Left 2, Down 3). `Velocity` is zero or a speed along an angle.
- `character_script.dfy`, module `Character`: the engine calls the script makes, as
  `EngineCall` values. `FrameCalls` gives the calls of one running frame. The class
  `CharacterScript` holds the script's fields (`oldInputState`, `speed`, `velocity`). Its
  `Update` appends its calls to a ghost trace `Calls`. `Replay` and the counting lemmas say what
  a run of frames does.

The engine's `Game.IsRunning` flag becomes the `running` parameter of `Update`. The key states
become a `KeySample` parameter. The engine's play, stop, set-frame and set-velocity calls become
`EngineCall` entries in the trace.

## Model

| member | source | states |
|---|---|---|
| `InputStates.RightOverlapsUpAndDown` | HOH/HOH.Game/CharacterScript.cs:21-29 | `Right` (0x16) has the flags `Up` and `Down` but not `Left`; neither `Up` nor `Down` has the flag `Right` |
| `InputStates.GetInputState` | HOH/HOH.Game/CharacterScript.cs:107-132 | the result is always one of the five named values, and it is `None` exactly when no key is down |
| `InputStates.LastHeldIsLastHeldBinding` | HOH/HOH.Game/CharacterScript.cs:107-132 | the reference "last held key" is `None` iff no key is held; otherwise it is the state of a held key with no held key checked after it |
| `InputStates.GetInputStateIsLastHeld` | HOH/HOH.Game/CharacterScript.cs:107-132 | the sampler equals the state of the last held key in check order Left, Right, Up, Down |
| `InputStates.GetInputStatePriority` | HOH/HOH.Game/CharacterScript.cs:107-132 | Down beats Up, Up beats Right, and Right beats Left when several keys are held |
| `InputStates.GetInputStateKeyIsHeld` | HOH/HOH.Game/CharacterScript.cs:107-132 | a sampled direction always belongs to a key that is down |
| `FrameTable.FirstMatchIndex` | HOH/HOH.Game/CharacterScript.cs:95 | the `FirstOrDefault` search stops at an entry whose key is a flag of the state, and no earlier entry's key is one |
| `FrameTable.FirstFlagMatch` | HOH/HOH.Game/CharacterScript.cs:86-95 | the `FirstOrDefault` lookup with a `HasFlag` test finds nothing exactly when no key of the table is a flag of the state; otherwise it returns the frames of an entry whose key is a flag of the state, with no earlier entry's key being one |
| `FrameTable.FlagMatchIsKeyLookup` | HOH/HOH.Game/CharacterScript.cs:86 | a first-match `HasFlag` search equals exact-key lookup whenever every other matching entry comes after the state's own entry |
| `FrameTable.FramesForIsOwnEntry` | HOH/HOH.Game/CharacterScript.cs:46-52 | over the table in order Left, Right, Up, Down the flag search returns each state's own entry, and the default entry (no frames) for `None` |
| `FrameTable.FramesForValues` | HOH/HOH.Game/CharacterScript.cs:46-52 | Left gets [4,5,6,7], Right gets [12..15], Up gets [8..11], Down gets [0..3], and `None` gets nothing |
| `FrameTable.FramesForDirection` | HOH/HOH.Game/CharacterScript.cs:46-52 | every direction finds four frames, and no two directions find the same frames |
| `Velocities.AngleOf` | HOH/HOH.Game/CharacterScript.cs:211-231 | the angle is pi (2 quarter turns) for Left, pi/2 (1) for Up, 0 for Right, 3*pi/2 (3) for Down, and stays at its initial 0 for `None` |
| `Velocities.AngleOfRoundTrip` | HOH/HOH.Game/CharacterScript.cs:211-231 | each direction's angle gives the direction back, so the four angles are distinct |
| `Velocities.DirectionOfRoundTrip` | HOH/HOH.Game/CharacterScript.cs:211-231 | each of the four quarter turns is the angle of the direction it names |
| `Velocities.VelocityFor` | HOH/HOH.Game/CharacterScript.cs:233-240 | the zero-vector branch is taken exactly when the state is `None`; otherwise the velocity has the script's current speed and points along the state's direction |
| `Velocities.VelocityMagnitude` | HOH/HOH.Game/CharacterScript.cs:239 | in exact arithmetic the magnitude is 0 when idle and the speed otherwise: Left is (-speed, 0), Right (speed, 0), Up (0, speed), Down (0, -speed); with a non-zero speed the vector is zero exactly when the state is `None` |
| `Character.Frames` | HOH/HOH.Game/CharacterScript.cs:95 | the frames played for a direction are four long and are the frames stored under that direction's own key |
| `Character.AnimationCalls` | HOH/HOH.Game/CharacterScript.cs:80-97 | a frame makes no animation call exactly when the sampled state equals the remembered one; on a release to `None` it stops and resets the displayed frame to the first frame stored under the previous direction's key; on a change to a direction it plays the frames stored under that direction's key, `LoopInfinite`, rate 15 |
| `Character.PlayExactlyOnNewDirection` | HOH/HOH.Game/CharacterScript.cs:91-96 | a frame issues one Play iff the sampled state is a direction different from the previous state, and none otherwise; the Play comes first and uses the direction's own frames, `LoopInfinite` and rate 15 |
| `Character.StopExactlyOnRelease` | HOH/HOH.Game/CharacterScript.cs:80-89 | a frame issues one Stop iff the state falls to `None` from a direction; each Stop is followed by resetting the displayed frame to the first frame of the previous direction's sequence |
| `Character.VelocityEveryFrame` | HOH/HOH.Game/CharacterScript.cs:242 | every running frame pushes exactly one velocity, as its last call, and it is the velocity of the sampled state |
| `Character.ReplayCounts` | HOH/HOH.Game/CharacterScript.cs:74-105 | over any run of frames, the number of Plays is the number of changes to a new direction, the number of Stops is the number of releases to `None`, and the number of velocity pushes is the number of frames |
| `Character.HoldingIssuesNoAnimation` | HOH/HOH.Game/CharacterScript.cs:80-96 | holding the same direction, or staying idle, for any number of frames issues no Play and no Stop |
| `Character.LeftTapExample` | HOH/HOH.Game/CharacterScript.cs:74-105 | inputs None, Left, Left, None from idle give: velocity zero; Play [4,5,6,7] and velocity at pi; velocity at pi; Stop, frame 4, velocity zero |
| `Character.UpHeldExample` | HOH/HOH.Game/CharacterScript.cs:91-96 | Up held for three frames gives one Play of [8..11] on the first frame and velocity (0, 60) on each frame |
| `Character.CharacterScript.constructor` | HOH/HOH.Game/CharacterScript.cs:31-34 | a new script remembers `None`, has speed and velocity zero, and has made no calls |
| `Character.CharacterScript.Initialize` | HOH/HOH.Game/CharacterScript.cs:36-42 | sets the velocity to zero and the speed to 60, changes nothing else, and keeps the invariant (the speed is 0 or 60) |
| `Character.CharacterScript.Update` | HOH/HOH.Game/CharacterScript.cs:74-105 | when not running it changes no field and makes no call; when running it makes the frame's calls (`FrameCalls` of the old and the sampled state), remembers the sampled state and keeps the invariant: the remembered state is one of the five values and the speed is 0 or 60 |
| `Character.CharacterScript.UpdateTransform2` | HOH/HOH.Game/CharacterScript.cs:207-243 | sets the velocity field to the sampled state's velocity and pushes it to the engine, with one call |

## Left out

- `Start` (HOH/HOH.Game/CharacterScript.cs:60-72) is not modelled beyond its call to `Initialize`. The rest of it looks up engine entities and components, casts the sprite provider, and reads the backbuffer size. These are host-engine calls with no effect on the behaviour modelled here.
- The dead `UpdateTransform` (HOH/HOH.Game/CharacterScript.cs:134-205) is not modelled. Its only call is commented out at line 101. Had it run, its `HasFlag` tests would also move `Right` up and down, and its `None` test at line 200 is always true.
- `_position` and the backbuffer sizes are not modelled. Live code only writes them; the backbuffer sizes are read only by the dead `UpdateTransform` (lines 142, 158, 173, 189).
- The engine calls `SpriteAnimation.Play`, `SpriteAnimation.Stop`, `CharacterComponent.SetVelocity` and `Input.IsKeyDown` are not modelled themselves. They appear only as trace entries and as boolean key states.
- The script samples the keys twice per frame, in `Update` and again in `UpdateTransform2`. The model assumes the key state is stable within a frame and passes the same `KeySample` to both.
- `Velocities.VelocityMagnitude` states the velocity in exact arithmetic. The source computes `Math.Cos` and `Math.Sin` of a `float` angle, so its components differ by rounding. For example, `sin((float)pi)` is not exactly 0.
- `Velocities.VelocityFor` keeps the speed as an integer. The source's `_speed` is a `float` that only ever holds 0 or 60.
- `FrameTable.FramesForIsOwnEntry` assumes the dictionary enumerates in insertion order. .NET does this for a dictionary that has never had an entry removed, which holds for this table, but the language does not promise it.
- When the flag search finds no entry, `FirstOrDefault` returns the default entry, whose frame array is null. Line 86 would then throw `ArgumentNullException` from `First()`, and line 95 would pass a null frame array to `Play`. The model returns `NotFound` there. Line 86 only looks up a remembered direction and line 95 only a sampled direction, and the invariant `Valid()` with `FramesForDirection` shows that both always find an entry.
- Before `Initialize` runs, `_speed` is 0, so every direction pushes a zero vector. The model keeps this: the velocity of a direction is then `Polar` with speed 0, whose ideal components are (0, 0).
