/**
 * The configuration part of win32_sound_output: the fields that WinMain sets
 * once before the frame loop and never changes afterwards.
 */
module SoundConfig {
  import opened Types

  datatype SoundOutputConfig = SoundOutputConfig(
    samplesPerSecond: int,
    toneHz: int,
    toneVolume: int16,
    wavePeriod: int,
    bytesPerSample: int,
    secondaryBufferSize: int,
    latencySampleCount: int)

  /**
   * What the ring-buffer code relies on: one sample is a stereo pair of
   * int16 values (four bytes), the buffer holds a whole number of samples
   * and fits a DWORD, and the latency is not negative.
   */
  predicate ValidConfig(c: SoundOutputConfig)
  {
    && c.bytesPerSample == 4
    && 0 < c.secondaryBufferSize < U32
    && c.secondaryBufferSize % c.bytesPerSample == 0
    && c.latencySampleCount >= 0
  }

  /** The latency margin in bytes. */
  function LatencyBytes(c: SoundOutputConfig): int
  {
    c.latencySampleCount * c.bytesPerSample
  }

  /** The configuration WinMain fills in before initialising DirectSound. */
  function InitialSoundOutput(): (c: SoundOutputConfig)
    ensures ValidConfig(c)
    ensures c.secondaryBufferSize == c.samplesPerSecond * c.bytesPerSample
    ensures 0 < c.latencySampleCount < c.samplesPerSecond
    ensures c.latencySampleCount * 15 == c.samplesPerSecond
  {
    var samplesPerSecond := 48000;
    var toneHz := 256;
    var bytesPerSample := 2 * 2;
    SoundOutputConfig(
      samplesPerSecond,
      toneHz,
      3000,
      samplesPerSecond / toneHz,
      bytesPerSample,
      samplesPerSecond * bytesPerSample,
      samplesPerSecond / 15)
  }
}
