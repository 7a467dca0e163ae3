/**
 * The frame loop of WinMain: start-up of the sound output, then
 * `while (GlobalRunning)` iterations that drain messages, poll controllers,
 * plan the audio write, let the game fill the sample store, copy the samples
 * into the secondary buffer and advance the frame clock.
 */
module MainLoop {
  import opened Types
  import opened SoundConfig
  import opened Planner
  import opened DirectSound
  import opened SoundBuffer
  import opened Input
  import opened Samples

  /**
   * GameUpdateAndRender, which lives outside the platform layer: from the
   * offsets and the requested SampleCount it yields the interleaved samples
   * it writes into the sample store.
   */
  type GameUpdate = (int, int, nat) -> seq<int16>

  /** What the outside world supplies to one iteration of the loop. */
  datatype FrameInput = FrameInput(
    messages: seq<Message>,          // drained by PeekMessage, in order
    controllers: seq<Option<Stick>>, // XInputGetState per slot; None when not connected
    playCursor: Option<uint32>,      // GetCurrentPosition; None when the call fails
    lockOk: bool,                    // whether the Lock of the fill succeeds
    endCounter: int,                 // QueryPerformanceCounter at the end of the frame
    endCycleCount: uint64,           // __rdtsc at the end of the frame
    game: GameUpdate)                // the game's answer this frame (it may keep state between frames)

  /**
   * The sample store after the game wrote `count` stereo samples: the first
   * 2 * count slots come from `written` (as far as it reaches), the rest keep
   * what an earlier frame left there.
   */
  function StoreGameSamples(store: seq<int16>, written: seq<int16>, count: nat): seq<int16>
  {
    seq(|store|, i requires 0 <= i < |store| => if i < 2 * count && i < |written| then written[i] else store[i])
  }

  /** GlobalRunning after a run of frames, each draining its own messages. */
  function RunningAfterFrames(running: bool, frames: seq<FrameInput>): bool
    decreases |frames|
  {
    if frames == [] then running
    else RunningAfterFrames(RunningAfter(running, frames[0].messages), frames[1..])
  }

  /** Once stopped, no later frame restarts the loop. */
  lemma {:induction false} StoppedStaysStopped(frames: seq<FrameInput>)
    ensures !RunningAfterFrames(false, frames)
  {
    if frames != [] {
      RunningAfterMessages(false, frames[0].messages);
      StoppedStaysStopped(frames[1..]);
    }
  }

  lemma RunningAfterFramesSnoc(running: bool, frames: seq<FrameInput>, last: FrameInput)
    ensures RunningAfterFrames(running, frames + [last]) == RunningAfter(RunningAfterFrames(running, frames), last.messages)
    decreases |frames|
  {
    if frames == [] {
      assert frames + [last] == [last];
    } else {
      assert (frames + [last])[0] == frames[0];
      assert (frames + [last])[1..] == frames[1..] + [last];
      RunningAfterFramesSnoc(RunningAfter(running, frames[0].messages), frames[1..], last);
    }
  }

  /**
   * When the ring, the write position and the planned length are whole
   * samples, a successful Lock hands back regions that hold exactly the
   * planned number of samples.
   */
  lemma LockedSamplesMatchPlan(size: nat, byteToLock: nat, bytesToWrite: nat)
    requires size % 4 == 0 && byteToLock % 4 == 0 && bytesToWrite % 4 == 0
    requires byteToLock < size && bytesToWrite <= size
    ensures var lock := Lock(size, byteToLock, bytesToWrite, true);
      lock.Some? && RegionSampleCount(lock.value.region1Size) + RegionSampleCount(lock.value.region2Size) == bytesToWrite / 4
  {
    var g := Lock(size, byteToLock, bytesToWrite, true).value;
    assert g.region1Size % 4 == 0;
  }

  /**
   * For a sample-aligned play cursor, a successful Lock of the planned range
   * yields regions holding exactly BytesToWrite / 4 samples, and writing them
   * all moves the next ByteToLock onto this frame's TargetCursor.
   */
  lemma PlannedFillReachesTarget(c: SoundOutputConfig, runningSampleIndex: nat, playCursor: uint32)
    requires ValidConfig(c) && playCursor % c.bytesPerSample == 0
    ensures var plan := PlanWrite(c, runningSampleIndex, playCursor);
      var lock := Lock(c.secondaryBufferSize, plan.byteToLock, plan.bytesToWrite, true);
      && lock.Some?
      && var written := RegionSampleCount(lock.value.region1Size) + RegionSampleCount(lock.value.region2Size);
      && written == plan.bytesToWrite / c.bytesPerSample
      && ByteToLock(c, runningSampleIndex + written) == plan.targetCursor
  {
    var plan := PlanWrite(c, runningSampleIndex, playCursor);
    PlanSampleAligned(c, runningSampleIndex, playCursor);
    LockedSamplesMatchPlan(c.secondaryBufferSize, plan.byteToLock, plan.bytesToWrite);
    FullFillReachesTarget(c, runningSampleIndex, playCursor);
  }

  /** The plan of a frame: made only when GetCurrentPosition gave a play cursor. */
  function FramePlan(c: SoundOutputConfig, runningSampleIndex: nat, playCursor: Option<uint32>): (plan: Option<WritePlan>)
    requires ValidConfig(c)
    ensures plan.Some? <==> playCursor.Some?
    ensures plan.Some? ==> plan.value.bytesToWrite < c.secondaryBufferSize
  {
    match playCursor
    case None => None
    case Some(cursor) => Some(PlanWrite(c, runningSampleIndex, cursor))
  }

  /**
   * End to end, Region1: after the game wrote `written` into the store for a
   * request of `count` samples and the copier filled the locked regions from
   * the store, Region1 sample k holds the game's values 2k and 2k+1.
   */
  lemma GameSamplesReachRegion1(ring: seq<byte>, g: LockedRegions, store: seq<int16>, written: seq<int16>, count: nat, k: nat)
    requires RegionsFit(g, |ring|) && g.region2Size <= g.region1Offset
    requires 2 * (RegionSampleCount(g.region1Size) + RegionSampleCount(g.region2Size)) <= |store|
    requires k < RegionSampleCount(g.region1Size) && k < count && 2 * k + 1 < |written|
    ensures var r, at := Filled(ring, g, StoreGameSamples(store, written, count)), g.region1Offset + 4 * k;
      && DecodeSample(r[at], r[at + 1]) == written[2 * k]
      && DecodeSample(r[at + 2], r[at + 3]) == written[2 * k + 1]
  {
    var src := StoreGameSamples(store, written, count);
    FilledRegion1Sample(ring, g, src, k);
    assert src[2 * k] == written[2 * k] && src[2 * k + 1] == written[2 * k + 1];
  }

  /**
   * End to end, Region2: Region2 sample k holds the game's values for
   * sample RegionSampleCount(Region1Size) + k.
   */
  lemma GameSamplesReachRegion2(ring: seq<byte>, g: LockedRegions, store: seq<int16>, written: seq<int16>, count: nat, k: nat)
    requires RegionsFit(g, |ring|)
    requires 2 * (RegionSampleCount(g.region1Size) + RegionSampleCount(g.region2Size)) <= |store|
    requires k < RegionSampleCount(g.region2Size)
    requires RegionSampleCount(g.region1Size) + k < count
    requires 2 * (RegionSampleCount(g.region1Size) + k) + 1 < |written|
    ensures var r, m := Filled(ring, g, StoreGameSamples(store, written, count)), RegionSampleCount(g.region1Size) + k;
      && DecodeSample(r[4 * k], r[4 * k + 1]) == written[2 * m]
      && DecodeSample(r[4 * k + 2], r[4 * k + 3]) == written[2 * m + 1]
  {
    var src := StoreGameSamples(store, written, count);
    var m := RegionSampleCount(g.region1Size) + k;
    FilledRegion2Sample(ring, g, src, k);
    assert src[2 * m] == written[2 * m] && src[2 * m + 1] == written[2 * m + 1];
  }

  class Win32Platform {
    var globalRunning: bool
    var xOffset: int
    var yOffset: int
    /** QueryPerformanceCounter and __rdtsc at the end of the previous frame. */
    var lastCounter: int
    var lastCycleCount: uint64
    /** The VirtualAlloc'd store the game writes samples into (SecondaryBufferSize bytes). */
    var samples: seq<int16>
    const sound: SoundOutput

    ghost predicate Valid()
      reads this, sound
    {
      sound.Valid() && 2 * |samples| == sound.config.secondaryBufferSize
    }

    /**
     * The start-up part of WinMain: configure the sound output, clear the
     * secondary buffer, set GlobalRunning, allocate the zeroed sample store
     * and take the first clock readings.
     */
    constructor (secondaryBuffer: array<byte>, clearOk: bool, counter: int, cycleCount: uint64)
      requires secondaryBuffer.Length == InitialSoundOutput().secondaryBufferSize
      modifies secondaryBuffer
      ensures Valid() && fresh(sound)
      ensures sound.config == InitialSoundOutput() && sound.secondaryBuffer == secondaryBuffer
      ensures sound.runningSampleIndex == 0
      ensures var lock := Lock(secondaryBuffer.Length, 0, secondaryBuffer.Length, clearOk);
        && (lock.Some? ==> RegionsFit(lock.value, secondaryBuffer.Length)
                           && secondaryBuffer[..] == Cleared(old(secondaryBuffer[..]), lock.value))
        && (lock.None? ==> secondaryBuffer[..] == old(secondaryBuffer[..]))
      ensures globalRunning && xOffset == 0 && yOffset == 0
      ensures forall i :: 0 <= i < |samples| ==> samples[i] == 0
      ensures lastCounter == counter && lastCycleCount == cycleCount
    {
      var output := new SoundOutput(InitialSoundOutput(), secondaryBuffer);
      output.ClearBuffer(clearOk);
      sound := output;
      xOffset, yOffset := 0, 0;
      globalRunning := true;
      samples := seq(InitialSoundOutput().secondaryBufferSize / 2, _ => 0);
      lastCounter, lastCycleCount := counter, cycleCount;
    }

    /** The PeekMessage loop: WM_QUIT clears GlobalRunning, every message goes to the window callback. */
    method PumpMessages(messages: seq<Message>)
      modifies this`globalRunning
      ensures globalRunning == RunningAfter(old(globalRunning), messages)
    {
      var i := 0;
      while i < |messages|
        invariant 0 <= i <= |messages|
        invariant RunningAfter(old(globalRunning), messages) == RunningAfter(globalRunning, messages[i..])
      {
        assert messages[i..][1..] == messages[i + 1..];
        var message := messages[i];
        if message.Quit? {
          globalRunning := false;
        }
        globalRunning := WindowCallback(globalRunning, message);
        i := i + 1;
      }
    }

    /** The controller loop: each connected controller moves the offsets by its stick / 4096. */
    method PollControllers(controllers: seq<Option<Stick>>)
      requires |controllers| == XUSER_MAX_COUNT
      modifies this`xOffset, this`yOffset
      ensures xOffset == old(xOffset) + SumStickX(controllers)
      ensures yOffset == old(yOffset) + SumStickY(controllers)
    {
      var controllerIndex := 0;
      while controllerIndex < XUSER_MAX_COUNT
        invariant 0 <= controllerIndex <= XUSER_MAX_COUNT
        invariant old(xOffset) + SumStickX(controllers) == xOffset + SumStickX(controllers[controllerIndex..])
        invariant old(yOffset) + SumStickY(controllers) == yOffset + SumStickY(controllers[controllerIndex..])
      {
        assert controllers[controllerIndex..][1..] == controllers[controllerIndex + 1..];
        match controllers[controllerIndex] {
          case Some(stick) =>
            xOffset := xOffset + StickOffset(stick.x);
            yOffset := yOffset + StickOffset(stick.y);
          case None =>
        }
        controllerIndex := controllerIndex + 1;
      }
    }

    /** The frame clock: elapsed counter ticks and cycles, then the new baseline. */
    method Tick(endCounter: int, endCycleCount: uint64) returns (counterElapsed: int, cyclesElapsed: uint64)
      modifies this`lastCounter, this`lastCycleCount
      ensures counterElapsed == endCounter - old(lastCounter)
      ensures cyclesElapsed == (endCycleCount - old(lastCycleCount)) % U64
      ensures lastCounter == endCounter && lastCycleCount == endCycleCount
    {
      cyclesElapsed := (endCycleCount - lastCycleCount) % U64;
      counterElapsed := endCounter - lastCounter;
      lastCounter := endCounter;
      lastCycleCount := endCycleCount;
    }

    /**
     * The audio part of a frame: plan the write when GetCurrentPosition
     * succeeded, let the game fill SampleCount samples into the store, and
     * copy them into the secondary buffer.
     */
    method UpdateSound(playCursor: Option<uint32>, lockOk: bool, game: GameUpdate)
      requires Valid()
      modifies this`samples, sound, sound.secondaryBuffer
      ensures Valid()
      ensures var count := SampleCount(sound.config, FramePlan(sound.config, old(sound.runningSampleIndex), playCursor));
        samples == StoreGameSamples(old(samples), game(xOffset, yOffset, count), count)
      ensures playCursor.None? ==>
        && sound.runningSampleIndex == old(sound.runningSampleIndex)
        && sound.secondaryBuffer[..] == old(sound.secondaryBuffer[..])
      ensures playCursor.Some? ==>
        var plan := PlanWrite(sound.config, old(sound.runningSampleIndex), playCursor.value);
        var lock := Lock(sound.config.secondaryBufferSize, plan.byteToLock, plan.bytesToWrite, lockOk);
        && (lock.None? ==>
              && sound.runningSampleIndex == old(sound.runningSampleIndex)
              && sound.secondaryBuffer[..] == old(sound.secondaryBuffer[..]))
        && (lock.Some? ==>
              var g := lock.value;
              && RegionsFit(g, sound.secondaryBuffer.Length)
              && 2 * (RegionSampleCount(g.region1Size) + RegionSampleCount(g.region2Size)) <= |samples|
              && sound.runningSampleIndex
                 == old(sound.runningSampleIndex) + RegionSampleCount(g.region1Size) + RegionSampleCount(g.region2Size)
              && sound.secondaryBuffer[..] == Filled(old(sound.secondaryBuffer[..]), g, samples))
      ensures playCursor.Some? && playCursor.value % 4 == 0 && lockOk ==>
        var plan := PlanWrite(sound.config, old(sound.runningSampleIndex), playCursor.value);
        && sound.runningSampleIndex == old(sound.runningSampleIndex) + plan.bytesToWrite / 4
        && ByteToLock(sound.config, sound.runningSampleIndex) == plan.targetCursor
    {
      var plan := FramePlan(sound.config, sound.runningSampleIndex, playCursor);
      var sampleCount := SampleCount(sound.config, plan);
      samples := StoreGameSamples(samples, game(xOffset, yOffset, sampleCount), sampleCount);

      if plan.Some? {
        ghost var index := sound.runningSampleIndex;
        var p := plan.value;
        sound.FillSoundBuffer(p.byteToLock, p.bytesToWrite, samples, lockOk);
        if playCursor.value % 4 == 0 && lockOk {
          PlannedFillReachesTarget(sound.config, index, playCursor.value);
        }
      }
    }

    /** One iteration of `while (GlobalRunning)`. */
    method RunFrame(input: FrameInput)
      requires Valid() && |input.controllers| == XUSER_MAX_COUNT
      modifies this, sound, sound.secondaryBuffer
      ensures Valid()
      ensures globalRunning == RunningAfter(old(globalRunning), input.messages)
      ensures xOffset == old(xOffset) + SumStickX(input.controllers) + 1
      ensures yOffset == old(yOffset) + SumStickY(input.controllers)
      ensures lastCounter == input.endCounter && lastCycleCount == input.endCycleCount
      ensures var count := SampleCount(sound.config, FramePlan(sound.config, old(sound.runningSampleIndex), input.playCursor));
        samples == StoreGameSamples(old(samples),
          input.game(old(xOffset) + SumStickX(input.controllers), old(yOffset) + SumStickY(input.controllers), count), count)
      ensures input.playCursor.None? ==>
        && sound.runningSampleIndex == old(sound.runningSampleIndex)
        && sound.secondaryBuffer[..] == old(sound.secondaryBuffer[..])
      ensures input.playCursor.Some? ==>
        var plan := PlanWrite(sound.config, old(sound.runningSampleIndex), input.playCursor.value);
        var lock := Lock(sound.config.secondaryBufferSize, plan.byteToLock, plan.bytesToWrite, input.lockOk);
        && (lock.None? ==>
              && sound.runningSampleIndex == old(sound.runningSampleIndex)
              && sound.secondaryBuffer[..] == old(sound.secondaryBuffer[..]))
        && (lock.Some? ==>
              var g := lock.value;
              && RegionsFit(g, sound.secondaryBuffer.Length)
              && 2 * (RegionSampleCount(g.region1Size) + RegionSampleCount(g.region2Size)) <= |samples|
              && sound.runningSampleIndex
                 == old(sound.runningSampleIndex) + RegionSampleCount(g.region1Size) + RegionSampleCount(g.region2Size)
              && sound.secondaryBuffer[..] == Filled(old(sound.secondaryBuffer[..]), g, samples))
      ensures input.playCursor.Some? && input.playCursor.value % 4 == 0 && input.lockOk ==>
        var plan := PlanWrite(sound.config, old(sound.runningSampleIndex), input.playCursor.value);
        && sound.runningSampleIndex == old(sound.runningSampleIndex) + plan.bytesToWrite / 4
        && ByteToLock(sound.config, sound.runningSampleIndex) == plan.targetCursor
      ensures sound.runningSampleIndex >= old(sound.runningSampleIndex)
    {
      PumpMessages(input.messages);
      PollControllers(input.controllers);
      UpdateSound(input.playCursor, input.lockOk, input.game);
      xOffset := xOffset + 1;
      var counterElapsed, cyclesElapsed := Tick(input.endCounter, input.endCycleCount);
    }

    /**
     * The `while (GlobalRunning)` loop over the frames the outside world
     * supplies; returns how many frames ran. The loop ends when a frame's
     * messages cleared GlobalRunning or the supplied frames run out.
     */
    method Run(frames: seq<FrameInput>) returns (framesRun: nat)
      requires Valid()
      requires forall k :: 0 <= k < |frames| ==> |frames[k].controllers| == XUSER_MAX_COUNT
      modifies this, sound, sound.secondaryBuffer
      ensures Valid()
      ensures framesRun <= |frames|
      ensures globalRunning == RunningAfterFrames(old(globalRunning), frames[..framesRun])
      ensures framesRun < |frames| ==> !globalRunning
      ensures forall k :: 0 < k < framesRun ==> RunningAfterFrames(old(globalRunning), frames[..k])
      ensures old(globalRunning) == false ==> framesRun == 0
      ensures sound.runningSampleIndex >= old(sound.runningSampleIndex)
    {
      framesRun := 0;
      while globalRunning && framesRun < |frames|
        invariant Valid()
        invariant framesRun <= |frames|
        invariant globalRunning == RunningAfterFrames(old(globalRunning), frames[..framesRun])
        invariant forall k :: 0 < k < framesRun ==> RunningAfterFrames(old(globalRunning), frames[..k])
        invariant old(globalRunning) == false ==> framesRun == 0
        invariant sound.runningSampleIndex >= old(sound.runningSampleIndex)
      {
        RunningAfterFramesSnoc(old(globalRunning), frames[..framesRun], frames[framesRun]);
        assert frames[..framesRun + 1] == frames[..framesRun] + [frames[framesRun]];
        RunFrame(frames[framesRun]);
        framesRun := framesRun + 1;
      }
    }
  }
}
