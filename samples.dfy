/**
 * How an int16 sample lies in the byte-addressed secondary buffer: the copier
 * stores samples through an int16 pointer, i.e. as two bytes, low byte first
 * (x86 is little-endian).
 */
module Samples {
  import opened Types

  function LowByte(x: int16): byte { (x % 0x1_0000) % 0x100 }

  function HighByte(x: int16): byte { (x % 0x1_0000) / 0x100 }

  /** Reads back a two's-complement int16 from its two stored bytes. */
  function DecodeSample(lo: byte, hi: byte): int16
  {
    var u := hi * 0x100 + lo;
    if u < 0x8000 then u else u - 0x1_0000
  }

  /** Storing a sample and reading it back gives the sample. */
  lemma DecodeEncode(x: int16)
    ensures DecodeSample(LowByte(x), HighByte(x)) == x
  {
  }

  /**
   * Byte n of the interleaved sample stream src (L0 R0 L1 R1 ...) as the
   * copier lays it down: sample n / 2, low byte when n is even.
   */
  function StreamByte(src: seq<int16>, n: nat): byte
    requires n < 2 * |src|
  {
    if n % 2 == 0 then LowByte(src[n / 2]) else HighByte(src[n / 2])
  }

  /** The four stored bytes of stereo pair k decode to source samples 2k and 2k+1. */
  lemma StreamPairDecodes(src: seq<int16>, k: nat)
    requires 2 * k + 1 < |src|
    ensures DecodeSample(StreamByte(src, 4 * k), StreamByte(src, 4 * k + 1)) == src[2 * k]
    ensures DecodeSample(StreamByte(src, 4 * k + 2), StreamByte(src, 4 * k + 3)) == src[2 * k + 1]
  {
    DecodeEncode(src[2 * k]);
    DecodeEncode(src[2 * k + 1]);
  }
}
