/** The frame record the vendor data stream hands to the camera streamers
    (`VarjoExamples::DataStreamer::Frame`) and the channel constants the
    routing compares against.

    DataStreamer.hpp and the vendor headers are not part of this model: the
    metadata shape follows the fields the metadata writer reads, and every
    value the writer only prints is kept as the text `operator<<` gives it
    (an opaque token). The channel index and the timestamp are integers. */
module Frames {
  import opened Common

  /** `varjo_ChannelIndex_Left` and `varjo_ChannelIndex_Right`. */
  const LeftChannel: int := 0
  const RightChannel: int := 1

  /** The two bits of `varjo_ChannelFlag` the streamers test. */
  datatype ChannelFlags = ChannelFlags(left: bool, right: bool)

  datatype ColorMetadata = ColorMetadata(
    timestamp: string, ev: string, exposureTime: string, whiteBalanceTemperature: string,
    colorGains: seq<string>, invCcm: seq<string>, ccm: seq<string>,
    cameraCalibrationConstant: string)

  datatype StreamFrame = StreamFrame(
    streamType: string, id: string, frameNumber: string, channels: string, dataFlags: string,
    hmdPose: seq<string>, color: ColorMetadata)

  datatype Intrinsics = Intrinsics(
    model: string, principalPointX: string, principalPointY: string,
    focalLengthX: string, focalLengthY: string, distortion: seq<string>)

  datatype BufferMetadata = BufferMetadata(
    format: string, bufferType: string, byteSize: string, rowStride: string,
    width: string, height: string)

  datatype Metadata = Metadata(
    streamFrame: StreamFrame, channelIndex: int, timestamp: int,
    extrinsics: seq<string>, intrinsics: Intrinsics, buffer: BufferMetadata)

  /** The fixed-size arrays of the vendor structs have their declared lengths. */
  predicate WellFormed(m: Metadata)
  {
    && |m.streamFrame.hmdPose| == 16
    && |m.streamFrame.color.colorGains| == 3
    && |m.streamFrame.color.invCcm| == 9
    && |m.streamFrame.color.ccm| == 9
    && |m.extrinsics| == 16
    && |m.intrinsics.distortion| == 8
  }

  datatype Frame = Frame(metadata: Metadata, data: seq<byte>)

  /** The last `n` elements of `s` (all of `s` when it is shorter): what a
      queue bounded by `n` that drops its oldest entries holds. */
  function Latest<T>(s: seq<T>, n: nat): (r: seq<T>)
    ensures |r| <= n && |r| <= |s|
    ensures |r| == if |s| <= n then |s| else n
    ensures r == s[|s| - |r|..]
  {
    if |s| <= n then s else s[|s| - n..]
  }
}
