/** Codec and device enumerations of the VST frame pipeline
    (VarjoVSTFrame/varjo_vst_frame_type.hpp).

    Both conversions are `switch` statements with a `default:` branch, so an
    out-of-range enumerator value is modelled explicitly by `CodecCode`. */
module Codec {

  /** `enum class Codec { libx264, h264_nvenc }`; `CodecCode` stands for any
      other value of the underlying integer. */
  datatype Codec = Libx264 | H264Nvenc | CodecCode(code: int)

  datatype Device = CPU | GPU

  /** A value the enumeration declares. */
  predicate Declared(c: Codec)
  {
    !c.CodecCode?
  }

  /** `codec_toString`: the encoder name passed to ffmpeg's `-c:v`. */
  function CodecName(c: Codec): (s: string)
    ensures s == "h264_nvenc" <==> c == H264Nvenc
    ensures s == "libx264" <==> c != H264Nvenc
  {
    match c
    case Libx264 => "libx264"
    case H264Nvenc => "h264_nvenc"
    case CodecCode(_) => "libx264"
  }

  /** `get_device_from_codec`: NVENC runs on the GPU, everything else on the CPU. */
  function DeviceOf(c: Codec): (d: Device)
    ensures d == GPU <==> c == H264Nvenc
  {
    match c
    case Libx264 => CPU
    case H264Nvenc => GPU
    case CodecCode(_) => CPU
  }

  /** The device can be read off the encoder name: GPU exactly for "h264_nvenc". */
  lemma DeviceFollowsName(c: Codec)
    ensures DeviceOf(c) == GPU <==> CodecName(c) == "h264_nvenc"
    ensures DeviceOf(c) == CPU <==> CodecName(c) == "libx264"
  {
  }

  /** The two declared codecs have different names. */
  lemma CodecNameInjective(a: Codec, b: Codec)
    requires Declared(a) && Declared(b)
    requires CodecName(a) == CodecName(b)
    ensures a == b
  {
  }

  /** An out-of-range value behaves like `libx264` in both conversions. */
  lemma UnlistedFallsBackToLibx264(c: Codec)
    requires !Declared(c)
    ensures CodecName(c) == CodecName(Libx264)
    ensures DeviceOf(c) == DeviceOf(Libx264)
  {
  }
}
