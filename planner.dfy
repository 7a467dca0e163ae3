/**
 * The latency-targeting planner of the frame loop (WinMain, after a
 * successful GetCurrentPosition): where in the circular secondary buffer the
 * next write starts, where it should end so that the writer stays the latency
 * margin ahead of the play cursor, and how many bytes lie in between.
 */
module Planner {
  import opened Types
  import opened SoundConfig
  import opened ModArith

  /** The write range computed for one frame. */
  datatype WritePlan = WritePlan(byteToLock: nat, targetCursor: nat, bytesToWrite: nat)

  /**
   * The circular distance from `from` forward to `to` in a ring of `size`
   * bytes: the reference definition that BytesToWrite is measured against.
   */
  function CircularDistance(size: int, from: int, to: int): (d: nat)
    requires size > 0
    ensures d < size
  {
    (to - from) % size
  }

  /**
   * Offset of the next byte to write: the running sample index mapped into
   * the ring. The index is an unbounded count here; ByteToLockAsWritten is
   * the 32-bit computation of the source.
   */
  function ByteToLock(c: SoundOutputConfig, runningSampleIndex: nat): (r: nat)
    requires ValidConfig(c)
    ensures r < c.secondaryBufferSize
    ensures r % c.bytesPerSample == 0
    ensures r == (runningSampleIndex % (c.secondaryBufferSize / c.bytesPerSample)) * c.bytesPerSample
  {
    var slots := c.secondaryBufferSize / 4;
    ModUnique(runningSampleIndex * 4, c.secondaryBufferSize,
              runningSampleIndex / slots, (runningSampleIndex % slots) * 4);
    (runningSampleIndex * c.bytesPerSample) % c.secondaryBufferSize
  }

  /**
   * ByteToLock as the source computes it: RunningSampleIndex is a uint32 and
   * the product RunningSampleIndex * BytesPerSample is taken modulo 2^32
   * before the remainder by the buffer size.
   */
  function ByteToLockAsWritten(c: SoundOutputConfig, runningSampleIndex: uint32): (r: nat)
    requires ValidConfig(c)
    ensures r < c.secondaryBufferSize
    ensures r % c.bytesPerSample == 0
    ensures runningSampleIndex * c.bytesPerSample < U32 ==> r == ByteToLock(c, runningSampleIndex)
  {
    var product := (runningSampleIndex * c.bytesPerSample) % U32;
    ModKeepsAlignment(product, c.secondaryBufferSize, 4);
    product % c.secondaryBufferSize
  }

  /**
   * The 32-bit product wraps after 2^30 samples, and 2^32 is not a multiple
   * of the 192000-byte buffer: one sample after index 2^30 - 1 the write
   * offset jumps from 119292 back to 0 instead of advancing to 119296.
   */
  lemma AsWrittenByteToLockJumps()
    ensures var c := InitialSoundOutput();
      && ByteToLockAsWritten(c, 0x3FFF_FFFF) == 119292
      && ByteToLockAsWritten(c, 0x4000_0000) == 0
      && ByteToLock(c, 0x4000_0000) == (119292 + c.bytesPerSample) % c.secondaryBufferSize
  {
  }

  /**
   * The point the writer aims for: the latency margin ahead of the play
   * cursor, taken modulo 2^32 (DWORD arithmetic) and then into the ring.
   */
  function TargetCursor(c: SoundOutputConfig, playCursor: uint32): (r: nat)
    requires ValidConfig(c)
    ensures r < c.secondaryBufferSize
    ensures playCursor + LatencyBytes(c) < U32 ==> r == (playCursor + LatencyBytes(c)) % c.secondaryBufferSize
  {
    ((playCursor + c.latencySampleCount * c.bytesPerSample) % U32) % c.secondaryBufferSize
  }

  /** For a play cursor inside the ring, the target is exactly the latency margin ahead of it. */
  lemma TargetLeadsPlayCursor(c: SoundOutputConfig, playCursor: uint32)
    requires ValidConfig(c)
    requires playCursor < c.secondaryBufferSize && LatencyBytes(c) < c.secondaryBufferSize
    requires playCursor + LatencyBytes(c) < U32
    ensures CircularDistance(c.secondaryBufferSize, playCursor, TargetCursor(c, playCursor)) == LatencyBytes(c)
  {
    var size, lead := c.secondaryBufferSize, LatencyBytes(c);
    var t := TargetCursor(c, playCursor);
    assert t == (playCursor + lead) % size;
    if playCursor + lead < size {
      ModUnique(playCursor + lead, size, 0, playCursor + lead);
      ModUnique(t - playCursor, size, 0, lead);
    } else {
      ModUnique(playCursor + lead, size, 1, playCursor + lead - size);
      ModUnique(t - playCursor, size, -1, lead);
    }
  }

  /**
   * The number of bytes from ByteToLock up to TargetCursor, going round the
   * end of the buffer when the target lies behind the write position.
   */
  function BytesToWrite(size: int, byteToLock: nat, targetCursor: nat): (r: nat)
    requires byteToLock < size && targetCursor < size
    ensures r < size
    ensures (byteToLock + r) % size == targetCursor
    ensures r == CircularDistance(size, byteToLock, targetCursor)
  {
    if byteToLock > targetCursor then
      ModUnique(byteToLock + ((size - byteToLock) + targetCursor), size, 1, targetCursor);
      ModUnique(targetCursor - byteToLock, size, -1, (size - byteToLock) + targetCursor);
      (size - byteToLock) + targetCursor
    else
      ModUnique(targetCursor, size, 0, targetCursor);
      ModUnique(targetCursor - byteToLock, size, 0, targetCursor - byteToLock);
      targetCursor - byteToLock
  }

  /** No other length shorter than the ring ends the write at the target. */
  lemma BytesToWriteUnique(size: int, byteToLock: nat, targetCursor: nat, n: nat)
    requires byteToLock < size && targetCursor < size && n < size
    requires (byteToLock + n) % size == targetCursor
    ensures n == BytesToWrite(size, byteToLock, targetCursor)
  {
    if byteToLock + n < size {
      ModUnique(byteToLock + n, size, 0, byteToLock + n);
    } else {
      ModUnique(byteToLock + n, size, 1, byteToLock + n - size);
    }
  }

  /** The whole plan for one frame, from the running index and the play cursor. */
  function PlanWrite(c: SoundOutputConfig, runningSampleIndex: nat, playCursor: uint32): (p: WritePlan)
    requires ValidConfig(c)
    ensures p.byteToLock < c.secondaryBufferSize && p.targetCursor < c.secondaryBufferSize
    ensures p.bytesToWrite < c.secondaryBufferSize
    ensures (p.byteToLock + p.bytesToWrite) % c.secondaryBufferSize == p.targetCursor
    ensures p.byteToLock == ByteToLock(c, runningSampleIndex) && p.targetCursor == TargetCursor(c, playCursor)
  {
    var byteToLock := ByteToLock(c, runningSampleIndex);
    var targetCursor := TargetCursor(c, playCursor);
    WritePlan(byteToLock, targetCursor, BytesToWrite(c.secondaryBufferSize, byteToLock, targetCursor))
  }

  /** A sample-aligned play cursor gives a write length of whole samples. */
  lemma PlanSampleAligned(c: SoundOutputConfig, runningSampleIndex: nat, playCursor: uint32)
    requires ValidConfig(c) && playCursor % c.bytesPerSample == 0
    ensures PlanWrite(c, runningSampleIndex, playCursor).bytesToWrite % c.bytesPerSample == 0
  {
    var sum := playCursor + c.latencySampleCount * c.bytesPerSample;
    assert sum % 4 == 0;
    ModKeepsAlignment(sum, U32, 4);
    ModKeepsAlignment(sum % U32, c.secondaryBufferSize, 4);
    BytesToWriteAligned(c.secondaryBufferSize, ByteToLock(c, runningSampleIndex), TargetCursor(c, playCursor));
  }

  /** Between two sample-aligned offsets of a sample-aligned ring lie whole samples. */
  lemma BytesToWriteAligned(size: int, byteToLock: nat, targetCursor: nat)
    requires byteToLock < size && targetCursor < size
    requires size % 4 == 0 && byteToLock % 4 == 0 && targetCursor % 4 == 0
    ensures BytesToWrite(size, byteToLock, targetCursor) % 4 == 0
  {
  }

  /**
   * Writing the whole planned range advances the running index so that the
   * next frame's ByteToLock is this frame's TargetCursor.
   */
  lemma FullFillReachesTarget(c: SoundOutputConfig, runningSampleIndex: nat, playCursor: uint32)
    requires ValidConfig(c) && playCursor % c.bytesPerSample == 0
    ensures var p := PlanWrite(c, runningSampleIndex, playCursor);
      ByteToLock(c, runningSampleIndex + p.bytesToWrite / c.bytesPerSample) == p.targetCursor
  {
    var p := PlanWrite(c, runningSampleIndex, playCursor);
    PlanSampleAligned(c, runningSampleIndex, playCursor);
    assert (runningSampleIndex + p.bytesToWrite / 4) * 4 == runningSampleIndex * 4 + p.bytesToWrite;
    ModAddLeft(runningSampleIndex * 4, p.bytesToWrite, c.secondaryBufferSize);
  }

  /**
   * SoundBuffer.SampleCount, the number of stereo samples the game is asked
   * for: the planned bytes in whole samples, and none when no plan was made.
   */
  function SampleCount(c: SoundOutputConfig, plan: Option<WritePlan>): (n: nat)
    requires ValidConfig(c)
    requires plan.Some? ==> plan.value.bytesToWrite < c.secondaryBufferSize
    ensures n * c.bytesPerSample < c.secondaryBufferSize
    ensures plan.Some? ==> n * c.bytesPerSample <= plan.value.bytesToWrite < (n + 1) * c.bytesPerSample
    ensures plan.None? ==> n == 0
  {
    match plan
    case None => 0
    case Some(p) => p.bytesToWrite / c.bytesPerSample
  }

  /**
   * SampleCount as the source computes it: when GetCurrentPosition failed,
   * BytesToWrite was never assigned, so the count comes from whatever value
   * the variable holds (`indeterminate`).
   */
  function SampleCountAsWritten(c: SoundOutputConfig, plan: Option<WritePlan>, indeterminate: uint32): (n: nat)
    requires ValidConfig(c)
    ensures plan.Some? ==> n * c.bytesPerSample <= plan.value.bytesToWrite < (n + 1) * c.bytesPerSample
    ensures plan.None? ==> n * c.bytesPerSample <= indeterminate < (n + 1) * c.bytesPerSample
  {
    match plan
    case None => indeterminate / c.bytesPerSample
    case Some(p) => p.bytesToWrite / c.bytesPerSample
  }

  /**
   * With no plan, the as-written count can ask for more samples than the
   * one-second backing store (SecondaryBufferSize bytes) holds.
   */
  lemma SampleCountAsWrittenExceedsStore()
    ensures var c := InitialSoundOutput();
      SampleCountAsWritten(c, None, 0xFFFF_FFFF) * c.bytesPerSample > c.secondaryBufferSize
  {
  }

  /** A frame without wrap: the write runs from the start of the buffer to the target. */
  lemma NoWrapScenario()
    ensures PlanWrite(InitialSoundOutput(), 0, 1000) == WritePlan(0, 13800, 13800)
  {
  }

  /** A frame that wraps: 2000 bytes up to the end of the buffer, then 13800 from its start. */
  lemma WrapScenario()
    ensures PlanWrite(InitialSoundOutput(), 47500, 1000) == WritePlan(190000, 13800, 15800)
  {
    var c := InitialSoundOutput();
    assert ByteToLock(c, 47500) == 190000;
    assert TargetCursor(c, 1000) == 13800;
  }

  /** When the writer is already at the target nothing is planned. */
  lemma CaughtUpScenario(c: SoundOutputConfig, runningSampleIndex: nat, playCursor: uint32)
    requires ValidConfig(c)
    requires ByteToLock(c, runningSampleIndex) == TargetCursor(c, playCursor)
    ensures PlanWrite(c, runningSampleIndex, playCursor).bytesToWrite == 0
  {
  }
}
