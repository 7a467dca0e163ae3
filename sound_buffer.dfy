/**
 * The sound output of the platform layer: the running sample index of
 * win32_sound_output, the circular secondary buffer it writes into (the
 * global GlobalSecondaryBuffer, passed explicitly here), and the two
 * routines that write through a Lock: Win32ClearBuffer and
 * Win32FillSoundBuffer.
 */
module SoundBuffer {
  import opened Types
  import opened Samples
  import opened SoundConfig
  import opened DirectSound

  /** Both locked regions lie inside a ring of `size` bytes. */
  predicate RegionsFit(g: LockedRegions, size: int)
  {
    g.region1Offset + g.region1Size <= size && g.region2Size <= size
  }

  /** The ring after every byte of both locked regions is set to zero. */
  function Cleared(ring: seq<byte>, g: LockedRegions): (r: seq<byte>)
    requires RegionsFit(g, |ring|)
    ensures |r| == |ring|
  {
    seq(|ring|, j requires 0 <= j < |ring| =>
      if g.region1Offset <= j < g.region1Offset + g.region1Size || j < g.region2Size then 0 else ring[j])
  }

  /** Clearing zeroes both regions and leaves every other byte alone. */
  lemma ClearedBytes(ring: seq<byte>, g: LockedRegions, j: nat)
    requires RegionsFit(g, |ring|) && j < |ring|
    ensures g.region1Offset <= j < g.region1Offset + g.region1Size ==> Cleared(ring, g)[j] == 0
    ensures j < g.region2Size ==> Cleared(ring, g)[j] == 0
    ensures !(g.region1Offset <= j < g.region1Offset + g.region1Size) && g.region2Size <= j ==> Cleared(ring, g)[j] == ring[j]
  {
  }

  /** Win32ClearBuffer locks the whole buffer from offset 0, so a successful clear silences all of it. */
  lemma ClearWholeBuffer(ring: seq<byte>)
    requires 0 < |ring|
    ensures var lock := Lock(|ring|, 0, |ring|, true);
      lock.Some? && RegionsFit(lock.value, |ring|) && forall j :: 0 <= j < |ring| ==> Cleared(ring, lock.value)[j] == 0
  {
  }

  /** Stereo samples that fit in a region of `size` bytes (four bytes per sample). */
  function RegionSampleCount(size: nat): nat { size / 4 }

  /**
   * The ring after the copier has written stereo samples from `src` into the
   * locked regions: whole samples only, Region1 from source sample 0 on,
   * Region2 from where Region1 stopped; every other byte is unchanged.
   * Region2 is written second, so it wins where the regions overlap.
   */
  function Filled(ring: seq<byte>, g: LockedRegions, src: seq<int16>): (r: seq<byte>)
    requires RegionsFit(g, |ring|)
    requires 2 * (RegionSampleCount(g.region1Size) + RegionSampleCount(g.region2Size)) <= |src|
    ensures |r| == |ring|
  {
    seq(|ring|, j requires 0 <= j < |ring| => FilledByte(ring, g, src, j))
  }

  function FilledByte(ring: seq<byte>, g: LockedRegions, src: seq<int16>, j: nat): byte
    requires RegionsFit(g, |ring|) && j < |ring|
    requires 2 * (RegionSampleCount(g.region1Size) + RegionSampleCount(g.region2Size)) <= |src|
  {
    var n1 := 4 * RegionSampleCount(g.region1Size);
    var n2 := 4 * RegionSampleCount(g.region2Size);
    if j < n2 then StreamByte(src, n1 + j)
    else if g.region1Offset <= j < g.region1Offset + n1 then StreamByte(src, j - g.region1Offset)
    else ring[j]
  }

  /** Sample k of Region1 holds source sample k (left and right channel). */
  lemma FilledRegion1Sample(ring: seq<byte>, g: LockedRegions, src: seq<int16>, k: nat)
    requires RegionsFit(g, |ring|) && g.region2Size <= g.region1Offset
    requires 2 * (RegionSampleCount(g.region1Size) + RegionSampleCount(g.region2Size)) <= |src|
    requires k < RegionSampleCount(g.region1Size)
    ensures var r, at := Filled(ring, g, src), g.region1Offset + 4 * k;
      && DecodeSample(r[at], r[at + 1]) == src[2 * k]
      && DecodeSample(r[at + 2], r[at + 3]) == src[2 * k + 1]
  {
    var r, at := Filled(ring, g, src), g.region1Offset + 4 * k;
    assert r[at] == StreamByte(src, 4 * k) && r[at + 1] == StreamByte(src, 4 * k + 1);
    assert r[at + 2] == StreamByte(src, 4 * k + 2) && r[at + 3] == StreamByte(src, 4 * k + 3);
    StreamPairDecodes(src, k);
  }

  /** Sample k of Region2 holds source sample RegionSampleCount(Region1Size) + k. */
  lemma FilledRegion2Sample(ring: seq<byte>, g: LockedRegions, src: seq<int16>, k: nat)
    requires RegionsFit(g, |ring|)
    requires 2 * (RegionSampleCount(g.region1Size) + RegionSampleCount(g.region2Size)) <= |src|
    requires k < RegionSampleCount(g.region2Size)
    ensures var r, m := Filled(ring, g, src), RegionSampleCount(g.region1Size) + k;
      && DecodeSample(r[4 * k], r[4 * k + 1]) == src[2 * m]
      && DecodeSample(r[4 * k + 2], r[4 * k + 3]) == src[2 * m + 1]
  {
    var r, m := Filled(ring, g, src), RegionSampleCount(g.region1Size) + k;
    assert r[4 * k] == StreamByte(src, 4 * m) && r[4 * k + 1] == StreamByte(src, 4 * m + 1);
    assert r[4 * k + 2] == StreamByte(src, 4 * m + 2) && r[4 * k + 3] == StreamByte(src, 4 * m + 3);
    StreamPairDecodes(src, m);
  }

  /** Bytes outside the whole samples written to either region keep their old value. */
  lemma FilledKeepsRest(ring: seq<byte>, g: LockedRegions, src: seq<int16>, j: nat)
    requires RegionsFit(g, |ring|)
    requires 2 * (RegionSampleCount(g.region1Size) + RegionSampleCount(g.region2Size)) <= |src|
    requires j < |ring|
    requires !(g.region1Offset <= j < g.region1Offset + 4 * RegionSampleCount(g.region1Size))
    requires j >= 4 * RegionSampleCount(g.region2Size)
    ensures Filled(ring, g, src)[j] == ring[j]
  {
  }

  class SoundOutput {
    /** The fields WinMain sets once (SamplesPerSecond, BytesPerSample, SecondaryBufferSize, ...). */
    const config: SoundOutputConfig
    /** The stereo samples written so far (unbounded here, see ByteToLockAsWritten). */
    var runningSampleIndex: nat
    /** The circular DirectSound secondary buffer, as bytes. */
    const secondaryBuffer: array<byte>

    ghost predicate Valid()
      reads this
    {
      ValidConfig(config) && secondaryBuffer.Length == config.secondaryBufferSize
    }

    constructor (config: SoundOutputConfig, secondaryBuffer: array<byte>)
      requires ValidConfig(config) && secondaryBuffer.Length == config.secondaryBufferSize
      ensures Valid()
      ensures this.config == config && this.secondaryBuffer == secondaryBuffer
      ensures runningSampleIndex == 0
    {
      this.config := config;
      this.secondaryBuffer := secondaryBuffer;
      runningSampleIndex := 0;
    }

    /** Win32ClearBuffer: lock the whole buffer and zero both regions byte by byte. */
    method ClearBuffer(deviceOk: bool)
      requires Valid()
      modifies secondaryBuffer
      ensures var lock := Lock(config.secondaryBufferSize, 0, config.secondaryBufferSize, deviceOk);
        && (lock.Some? ==> RegionsFit(lock.value, secondaryBuffer.Length)
                           && secondaryBuffer[..] == Cleared(old(secondaryBuffer[..]), lock.value))
        && (lock.None? ==> secondaryBuffer[..] == old(secondaryBuffer[..]))
    {
      var lock := Lock(config.secondaryBufferSize, 0, config.secondaryBufferSize, deviceOk);
      if lock.Some? {
        var g := lock.value;
        ZeroRegion(g.region1Offset, g.region1Size);
        ZeroRegion(0, g.region2Size);
        assert secondaryBuffer[..] == Cleared(old(secondaryBuffer[..]), g);
      }
    }

    /** One of the byte loops of Win32ClearBuffer: zero `size` bytes from `offset`. */
    method ZeroRegion(offset: nat, size: nat)
      requires offset + size <= secondaryBuffer.Length
      modifies secondaryBuffer
      ensures forall j :: 0 <= j < secondaryBuffer.Length ==>
        secondaryBuffer[j] == if offset <= j < offset + size then 0 else old(secondaryBuffer[j])
    {
      var byteIndex := 0;
      while byteIndex < size
        invariant 0 <= byteIndex <= size
        invariant forall j :: 0 <= j < secondaryBuffer.Length ==>
          secondaryBuffer[j] == if offset <= j < offset + byteIndex then 0 else old(secondaryBuffer[j])
      {
        secondaryBuffer[offset + byteIndex] := 0;
        byteIndex := byteIndex + 1;
      }
    }

    /** Stores one int16 sample at byte offset `at`, low byte first. */
    method StoreSample(at: nat, x: int16)
      requires at + 1 < secondaryBuffer.Length
      modifies secondaryBuffer
      ensures secondaryBuffer[at] == LowByte(x) && secondaryBuffer[at + 1] == HighByte(x)
      ensures forall j :: 0 <= j < secondaryBuffer.Length && j != at && j != at + 1 ==>
        secondaryBuffer[j] == old(secondaryBuffer[j])
    {
      secondaryBuffer[at] := LowByte(x);
      secondaryBuffer[at + 1] := HighByte(x);
    }

    /**
     * Win32FillSoundBuffer: lock BytesToWrite bytes from ByteToLock and copy
     * stereo samples from `source` into Region1 and then Region2, counting
     * each one in the running sample index. If the lock fails nothing
     * changes.
     */
    method FillSoundBuffer(byteToLock: nat, bytesToWrite: nat, source: seq<int16>, deviceOk: bool)
      requires Valid()
      requires 2 * (bytesToWrite / config.bytesPerSample) <= |source|
      modifies this`runningSampleIndex, secondaryBuffer
      ensures var lock := Lock(config.secondaryBufferSize, byteToLock, bytesToWrite, deviceOk);
        && (lock.Some? ==>
              var g := lock.value;
              && RegionsFit(g, secondaryBuffer.Length)
              && 2 * (RegionSampleCount(g.region1Size) + RegionSampleCount(g.region2Size)) <= |source|
              && runningSampleIndex == old(runningSampleIndex) + RegionSampleCount(g.region1Size) + RegionSampleCount(g.region2Size)
              && secondaryBuffer[..] == Filled(old(secondaryBuffer[..]), g, source))
        && (lock.None? ==>
              && runningSampleIndex == old(runningSampleIndex)
              && secondaryBuffer[..] == old(secondaryBuffer[..]))
    {
      var lock := Lock(config.secondaryBufferSize, byteToLock, bytesToWrite, deviceOk);
      if lock.Some? {
        var g := lock.value;
        var region1SampleCount := g.region1Size / config.bytesPerSample;
        CopySamples(g.region1Offset, region1SampleCount, source, 0);
        var region2SampleCount := g.region2Size / config.bytesPerSample;
        CopySamples(0, region2SampleCount, source, region1SampleCount);
        assert secondaryBuffer[..] == Filled(old(secondaryBuffer[..]), g, source);
      }
    }

    /**
     * One of the copy loops of Win32FillSoundBuffer: `count` stereo samples
     * from source sample `first` on, to byte offset `at`, each one counted in
     * the running sample index.
     */
    method CopySamples(at: nat, count: nat, source: seq<int16>, first: nat)
      requires at + 4 * count <= secondaryBuffer.Length && 2 * (first + count) <= |source|
      modifies this`runningSampleIndex, secondaryBuffer
      ensures runningSampleIndex == old(runningSampleIndex) + count
      ensures forall j :: 0 <= j < secondaryBuffer.Length ==>
        secondaryBuffer[j] == if at <= j < at + 4 * count then StreamByte(source, 4 * first + (j - at)) else old(secondaryBuffer[j])
    {
      var dest := at;
      var sourceSample := 2 * first;
      var sampleIndex := 0;
      while sampleIndex < count
        invariant 0 <= sampleIndex <= count
        invariant dest == at + 4 * sampleIndex && sourceSample == 2 * (first + sampleIndex)
        invariant runningSampleIndex == old(runningSampleIndex) + sampleIndex
        invariant forall j :: 0 <= j < secondaryBuffer.Length ==>
          secondaryBuffer[j] == if at <= j < dest then StreamByte(source, 4 * first + (j - at)) else old(secondaryBuffer[j])
      {
        StoreSample(dest, source[sourceSample]);
        StoreSample(dest + 2, source[sourceSample + 1]);
        dest, sourceSample := dest + 4, sourceSample + 2;
        runningSampleIndex := runningSampleIndex + 1;
        sampleIndex := sampleIndex + 1;
      }
    }
  }
}
