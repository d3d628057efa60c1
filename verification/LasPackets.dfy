/** A packet as the Android side holds it: the wire fields, read into signed machine integers. */
module LasPackets {
  import opened Words

  const CODEC_PCM16 := 1
  const CODEC_OPUS := 3

  datatype LasPacket = LasPacket(
    protocolVersion: int, headerSize: int, flags: int, sequence: int32, timestampMs: int,
    codec: int, sampleRate: int32, channels: int, framesPerPacket: int, payload: seq<byte>)
  {
    /** Milliseconds of audio, truncated toward zero. */
    function FrameDurationMs(): int {
      if sampleRate <= 0 then 0 else TruncDiv(framesPerPacket * 1000, sampleRate)
    }
  }

  /** Division of machine integers: the quotient is truncated toward zero. */
  function TruncDiv(a: int, d: int): int
    requires d > 0
  {
    if a >= 0 then a / d else -((-a) / d)
  }
}
