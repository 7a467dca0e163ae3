/**
 * IDirectSoundBuffer::Lock, which the platform layer calls but does not
 * implement. This module is an ASSUMPTION about that hardware API, not code
 * of the platform layer: the locked range [offset, offset + length) of the
 * circular buffer comes back as Region1 = [offset, end of buffer or end of
 * range) and, when the range runs past the end, Region2 = [0, remainder).
 * The call may fail (the device was lost, is busy or absent); the platform
 * layer only tests SUCCEEDED, so `deviceOk` stands for the device's answer.
 */
module DirectSound {
  import opened Types

  /** Region1 starts at `region1Offset`; Region2 always starts at offset 0. */
  datatype LockedRegions = LockedRegions(region1Offset: nat, region1Size: nat, region2Size: nat)

  function Min(a: int, b: int): int { if a < b then a else b }

  /** Locks `length` bytes of a `bufferSize`-byte circular buffer from `offset`. */
  function Lock(bufferSize: nat, offset: nat, length: nat, deviceOk: bool): (r: Option<LockedRegions>)
    ensures r.Some? <==> deviceOk && offset < bufferSize && length <= bufferSize
    ensures r.Some? ==> var g := r.value;
      && g.region1Offset == offset
      && g.region1Size + g.region2Size == length
      && offset + g.region1Size <= bufferSize
      && g.region2Size <= offset
      && (g.region2Size > 0 ==> offset + g.region1Size == bufferSize)
  {
    if deviceOk && offset < bufferSize && length <= bufferSize then
      var region1Size := Min(length, bufferSize - offset);
      Some(LockedRegions(offset, region1Size, length - region1Size))
    else
      None
  }
}
