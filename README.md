# Win32 platform layer: audio ring-buffer synchronisation, in Dafny

This project models the core of the Win32 platform layer in
`code/win32_handmade.cpp`. That core streams game-generated stereo samples
into DirectSound's circular secondary buffer from a busy frame loop. Every
frame the loop does the following:

- It drains window messages. Close, destroy, quit and Alt+F4 clear `GlobalRunning`.
- It polls the controllers.
- It asks the sound card for its play cursor.
- It plans a write range: from the byte that the running sample index maps
  to (`ByteToLock`) up to a target one fifteenth of a second ahead of the
  play cursor (`TargetCursor`). The length is `BytesToWrite`, taken round
  the end of the buffer when needed.
- It lets the game produce that many samples.
- It copies the samples through a `Lock` into one or two regions of the ring.
- It advances the frame clock.

Modules (one file each):

- `Types` (`types.dfy`): machine widths (`uint32`, `uint64`, `byte`, `int16`) and `Option`.
- `Samples` (`samples.dfy`): how an `int16` sample lies in the byte buffer, low byte first.
- `SoundConfig` (`sound_config.dfy`): the fixed fields of `win32_sound_output` and the values WinMain gives them.
- `ModArith` (`mod_arith.dfy`): facts about Euclidean remainder used by the proofs.
- `Planner` (`planner.dfy`): the write-range arithmetic of the frame loop, as pure functions and lemmas.
- `DirectSound` (`direct_sound.dfy`): `IDirectSoundBuffer::Lock`. This is an **assumption** about the hardware API, not code of the platform layer. A lock of `[offset, offset+length)` yields Region1 `[offset, min(offset+length, size))` and Region2 `[0, rest)`. It fails when the device says so or the arguments are out of range.
- `SoundBuffer` (`sound_buffer.dfy`): class `SoundOutput`. It holds the configuration, the running sample index and the secondary buffer as an `array<byte>`. `ClearBuffer` and `FillSoundBuffer` are the two locked writers, each with its byte or sample loops. Each is proved against a function of the old buffer (`Cleared`, `Filled`).
- `Input` (`input.dfy`): window messages, the window callback's effect on `GlobalRunning`, the `LParam` key bits, and the stick offsets.
- `MainLoop` (`main_loop.dfy`): class `Win32Platform`. It covers the start-up part of WinMain, the message pump, controller polling, the audio step of a frame, the frame clock, one frame, and the `while (GlobalRunning)` loop.

The outside world is a parameter:

- the messages of a frame. A message that Windows sends straight to the window callback during the pump is its own entry in this list, in the order the callback sees it. So `SC_CLOSE` handled by `DefWindowProcA` (code/win32_handmade.cpp:361) shows up as a later `WM_CLOSE` entry, and `DestroyWindow` shows up as a `WM_DESTROY` entry;
- the controller readings;
- whether `GetCurrentPosition` succeeded, and the play cursor it gave;
- whether the fill's `Lock` succeeds;
- the clock readings;
- the game callback of each frame (a field of the frame's input), a function from offsets and sample count to the samples it writes. Because every frame brings its own callback, the game may keep state between frames.

## Model

| member | source | states |
|---|---|---|
| `SoundConfig.InitialSoundOutput` | code/win32_handmade.cpp:480-487 | the start-up configuration is valid: 4 bytes per stereo sample, a buffer of exactly one second of samples, and a latency of one fifteenth of a second (less than one second) |
| `Samples.DecodeEncode` | code/win32_handmade.cpp:422-423 | an `int16` stored through the sample pointer reads back as the same value |
| `Samples.StreamPairDecodes` | code/win32_handmade.cpp:419-425 | the four bytes of stereo sample k in the copied stream decode to source values 2k (left) and 2k+1 (right) |
| `Planner.ByteToLock` | code/win32_handmade.cpp:564 | the write offset lies in the ring, is sample-aligned, and is the index's slot in the ring (`index mod samples-in-buffer`) times 4 |
| `Planner.ByteToLockAsWritten` | code/win32_handmade.cpp:564 | the 32-bit computation lies in the ring and is sample-aligned; it agrees with `ByteToLock` while `index * 4 < 2^32` |
| `Planner.AsWrittenByteToLockJumps` | code/win32_handmade.cpp:564 | with the 32-bit product, one sample after index 2^30-1 the offset falls from 119292 to 0 instead of advancing to 119296 |
| `Planner.CircularDistance` | code/win32_handmade.cpp:567-577 | the forward distance between two ring offsets is less than the ring size |
| `Planner.TargetCursor` | code/win32_handmade.cpp:565 | the target lies in the ring; without 32-bit overflow it is play cursor plus latency bytes, reduced into the ring |
| `Planner.TargetLeadsPlayCursor` | code/win32_handmade.cpp:565 | for a play cursor in the ring, the forward distance from it to the target is exactly the latency in bytes |
| `Planner.BytesToWrite` | code/win32_handmade.cpp:567-577 | the length is below the ring size; starting at `ByteToLock` it ends exactly on the target (mod size); it equals the circular distance in both the wrap and the no-wrap branch |
| `Planner.BytesToWriteUnique` | code/win32_handmade.cpp:567-577 | any length below the ring size that ends on the target is `BytesToWrite` |
| `Planner.PlanWrite` | code/win32_handmade.cpp:555-580 | the frame's plan has offsets and length in range, and the write ends on the target |
| `Planner.PlanSampleAligned` | code/win32_handmade.cpp:564-577 | a sample-aligned play cursor yields a whole number of samples to write |
| `Planner.BytesToWriteAligned` | code/win32_handmade.cpp:567-577 | between sample-aligned offsets of a sample-aligned ring the length is whole samples |
| `Planner.FullFillReachesTarget` | code/win32_handmade.cpp:564-565 | after `BytesToWrite / 4` more samples, the next frame's `ByteToLock` equals this frame's `TargetCursor` |
| `Planner.SampleCount` | code/win32_handmade.cpp:582-584 | the requested sample count is `BytesToWrite / 4` (rounded down), zero without a plan, and always fits the one-second sample store |
| `Planner.SampleCountAsWritten` | code/win32_handmade.cpp:584 | as written, the count comes from the plan, or from the indeterminate `BytesToWrite` when no plan was made |
| `Planner.SampleCountAsWrittenExceedsStore` | code/win32_handmade.cpp:584 | as written, a failed cursor query can request more samples than the store of `SecondaryBufferSize` bytes holds |
| `Planner.NoWrapScenario` | code/win32_handmade.cpp:564-577 | index 0, play cursor 1000: write 13800 bytes from offset 0 to target 13800 |
| `Planner.WrapScenario` | code/win32_handmade.cpp:564-577 | write offset 190000, play cursor 1000: 2000 bytes to the end plus 13800, so 15800 bytes |
| `Planner.CaughtUpScenario` | code/win32_handmade.cpp:567-577 | when the write offset already equals the target, nothing is planned |
| `DirectSound.Lock` | code/win32_handmade.cpp:406-411 | (assumption) success exactly when the device answers and offset and length are in range; Region1 starts at the offset; the region sizes add up to the length; Region2 starts at 0 and ends before the offset; Region2 is non-empty only when Region1 reaches the end |
| `SoundBuffer.ClearedBytes` | code/win32_handmade.cpp:383-392 | a clear zeroes every byte of both regions and keeps every other byte |
| `SoundBuffer.ClearWholeBuffer` | code/win32_handmade.cpp:374-379 | the lock of the whole buffer from 0 succeeds on a working device, and the clear then zeroes every byte |
| `SoundBuffer.FilledRegion1Sample` | code/win32_handmade.cpp:415-425 | Region1 sample k holds source sample k, both channels |
| `SoundBuffer.FilledRegion2Sample` | code/win32_handmade.cpp:428-435 | Region2 sample k holds source sample `Region1SampleCount + k`: the source is consumed in order across the regions |
| `SoundBuffer.FilledKeepsRest` | code/win32_handmade.cpp:415-435 | bytes outside the whole samples written to the two regions keep their value |
| `SoundBuffer.SoundOutput.constructor` | code/win32_handmade.cpp:480 | the sound output starts with running sample index 0 on a buffer of `SecondaryBufferSize` bytes |
| `SoundBuffer.SoundOutput.ClearBuffer` | code/win32_handmade.cpp:367-396 | on a successful lock the buffer becomes `Cleared` of the old buffer; on a failed lock it is unchanged |
| `SoundBuffer.SoundOutput.ZeroRegion` | code/win32_handmade.cpp:383-392 | the byte loop zeroes exactly its region |
| `SoundBuffer.SoundOutput.StoreSample` | code/win32_handmade.cpp:422-423 | one sample store writes its two bytes and nothing else |
| `SoundBuffer.SoundOutput.CopySamples` | code/win32_handmade.cpp:419-425 | the copy loop writes `count` samples from source sample `first` on, adds `count` to the running index, and changes nothing else |
| `SoundBuffer.SoundOutput.FillSoundBuffer` | code/win32_handmade.cpp:398-440 | on a successful lock: the buffer becomes `Filled` of the old buffer, and the index grows by `Region1Size/4 + Region2Size/4`. On a failed lock: buffer and index are unchanged |
| `Input.DecodeKeyTransition` | code/win32_handmade.cpp:274-277 | `WasDown` is bit 30 of `LParam` set; `IsDown` is bit 31 clear |
| `Input.AltKeyWasDown` | code/win32_handmade.cpp:336 | Alt-was-down is bit 29 of `LParam` |
| `Input.WindowCallback` | code/win32_handmade.cpp:252-339 | the callback never sets `GlobalRunning`. It clears it exactly on `WM_DESTROY`, `WM_CLOSE`, or a key message for `VK_F4` with bit 29 set |
| `Input.RunningAfterMessages` | code/win32_handmade.cpp:511-519 | after draining a batch of messages the loop still runs exactly when it ran before and no message was a quit or stop request |
| `Input.RunningAfterAppend` | code/win32_handmade.cpp:511-519 | draining two batches one after the other is draining their concatenation |
| `Input.StickOffset` | code/win32_handmade.cpp:540-544 | `Stick / 4096` truncates toward zero and lies in [-8, 7] |
| `Input.StickSumBounds` | code/win32_handmade.cpp:522-550 | one poll of n controllers moves each offset by at least -8n and at most 7n |
| `MainLoop.GameSamplesReachRegion1` | code/win32_handmade.cpp:582-603 | after the game wrote its samples into the store and a successful lock was filled from it, Region1 sample k decodes to the game's values 2k (left) and 2k+1 (right) |
| `MainLoop.GameSamplesReachRegion2` | code/win32_handmade.cpp:582-603 | likewise, Region2 sample k decodes to the game's values for sample `Region1Size/4 + k` |
| `MainLoop.StoppedStaysStopped` | code/win32_handmade.cpp:507-514 | once `GlobalRunning` is false, no later frame's messages set it again |
| `MainLoop.LockedSamplesMatchPlan` | code/win32_handmade.cpp:406-435 | for whole-sample offset, length and ring, the lock succeeds on a working device, and the two regions hold exactly `BytesToWrite / 4` samples |
| `MainLoop.PlannedFillReachesTarget` | code/win32_handmade.cpp:555-603 | for a sample-aligned play cursor and a working device, the fill writes exactly `BytesToWrite / 4` samples, and the next `ByteToLock` is this frame's `TargetCursor` |
| `MainLoop.Win32Platform.constructor` | code/win32_handmade.cpp:476-504 | start-up: initial configuration, cleared buffer (when the lock succeeds), `GlobalRunning` set, offsets 0, zeroed sample store, clock baseline taken |
| `MainLoop.Win32Platform.PumpMessages` | code/win32_handmade.cpp:511-519 | `GlobalRunning` after the drain is `RunningAfter` of the messages |
| `MainLoop.Win32Platform.PollControllers` | code/win32_handmade.cpp:522-550 | each offset grows by the stick offsets of the connected controllers |
| `MainLoop.Win32Platform.Tick` | code/win32_handmade.cpp:613-633 | the elapsed counter is end minus last; the elapsed cycles are that difference modulo 2^64; the baseline is replaced |
| `MainLoop.Win32Platform.UpdateSound` | code/win32_handmade.cpp:555-604 | the store holds the game's samples for the requested count, the rest of it is kept (`StoreGameSamples`). No cursor, or a failed lock: index and buffer are unchanged. A successful lock: the regions fit, the index grows by the locked samples, and the buffer is `Filled` from the new store. An aligned cursor and a working device: the index grows by `BytesToWrite/4` and lands on the target |
| `MainLoop.Win32Platform.RunFrame` | code/win32_handmade.cpp:507-634 | one frame: `GlobalRunning` follows the messages; `XOffset` grows by the stick offsets plus 1; the store holds the samples the frame's game gave for the offsets after polling; no cursor or a failed lock leaves index and buffer unchanged; a successful lock fills the buffer from the store and advances the index by the locked samples; an aligned cursor and a working device land on the target; the clock baseline is replaced; the index never decreases |
| `MainLoop.Win32Platform.Run` | code/win32_handmade.cpp:494-634 | frames run only while `GlobalRunning` holds. The loop stops early only because a frame cleared it, and never starts when it is already false. The running sample index never decreases |

## Left out

- Device initialisation and playback start (`Win32InitDSound`, `Play`): COM and hardware binding. The model starts from an already-created secondary buffer.
- An absent device. When `Win32InitDSound` fails, `GlobalSecondaryBuffer` is null and the source dereferences it anyway (lines 374, 492, 561). The model treats an absent device as one whose `GetCurrentPosition` and `Lock` fail.
- `GetCurrentPosition` is not modelled. Its result is an input: a play cursor, or no cursor. The write cursor is never used and is not modelled.
- `Unlock` calls are not modelled: they release the lock and change no byte.
- DirectSound's own rules for `Lock` are not part of this model. `DirectSound.Lock` states the split the code relies on, as an assumption.
- XInput DLL loading and its stubs. A controller that is not connected is an input of `None`. The buttons are read into locals that nothing uses.
- Window class registration, window dimensions, `WM_PAINT`, the DIB section and the blit: GDI and `VirtualAlloc` plumbing.
- `GameUpdateAndRender` is external. It is a function carried by each frame's input, giving the samples it writes. The pixels it renders are not modelled.
- `OutputDebugStringA` diagnostics are not modelled. This includes the per-key messages in the `WasDown != IsDown` branch, which only print.
- Floating-point frame metrics (`MSPerFrame`, `FPS`, `MCPF`), the `tSine` field and the tone fields' use by the game are not modelled.
- `Input.DecodeKeyTransition`: `LParam` is taken as the documented 32-bit key-message layout. On 64-bit Windows the `1 << 31` mask is a negative `int`, which sign-extends, so the source tests bits 31 to 63. Those upper bits are zero for key messages.
- `MainLoop.Win32Platform.RunFrame`: `XOffset` and `YOffset` are unbounded. The 32-bit `int` overflow after about 2^31 frames is not modelled.
- `MainLoop.Win32Platform.Tick`: the performance counter difference is an unbounded integer. The `int64` overflow is not modelled.
- `SoundBuffer.SoundOutput.FillSoundBuffer`: the running sample index is an unbounded count, the corrected behaviour (see Findings). The source's `uint32` increments wrap at 2^32.
- The copier writes exactly the locked range or nothing: the source takes one `Lock` for both regions, so no partial write can happen.
- A zero-length plan still calls the fill. The fill locks zero bytes and writes nothing; the model does the same.

## Findings

| source | as written | input that shows it | evidently intended | confidence | as-written member | corrected member |
|---|---|---|---|---|---|---|
| code/win32_handmade.cpp:564 | `RunningSampleIndex * BytesPerSample` is `uint32` arithmetic and wraps at 2^32, which is not a multiple of the 192000-byte buffer (2^32 mod 192000 = 119296) | `RunningSampleIndex` = 2^30-1 gives `ByteToLock` 119292. One sample later the offset is 0 instead of 119296, after about 6.2 hours at 48 kHz | the write offset advances by 4 bytes per sample forever | high, not executed | `Planner.ByteToLockAsWritten`, `Planner.AsWrittenByteToLockJumps` | `Planner.ByteToLock`, `Planner.FullFillReachesTarget` |
| code/win32_handmade.cpp:584 | the sample count handed to the game is computed from `BytesToWrite`, which is assigned only when `GetCurrentPosition` succeeded | a frame whose cursor query fails; an indeterminate value of 0xFFFFFFFF asks the game for 1073741823 samples, more than the 48000-sample store | no sample request, or an empty one, when no plan was made | medium, not executed | `Planner.SampleCountAsWritten`, `Planner.SampleCountAsWrittenExceedsStore` | `Planner.SampleCount` |
