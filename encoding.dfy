/** Encoder option records (VarjoEyeCam/EyeCam_types.hpp) and the helper
    builders and container names of VarjoVSTFrame/utility.hpp.

    `Quality` and `VideoContainer` are used by the builders but their
    declarations are not part of this model; they are declared here with the
    enumerators the `switch` statements name, plus a case for any other value
    of the underlying integer (the `default:` branches). */
module Encoding {

  datatype Quality = Lossless | High | Medium | Low | QualityCode(code: int)

  datatype VideoContainer = Mp4 | Mkv | ContainerCode(code: int)

  datatype X264Preset = Ultrafast | Superfast | Veryfast | Faster | Fast | Medium | Slow | Slower | Veryslow

  datatype X264Mode = Crf | Qp

  datatype X264Options = X264Options(preset: X264Preset, mode: X264Mode, crf: int, qp: int)

  datatype NvencPreset = P1 | P2 | P3 | P4 | P5 | P6 | P7

  datatype NvencRc = VbrHq | ConstQp

  datatype NvencH264Options = NvencH264Options(
    preset: NvencPreset, rc: NvencRc, cq: int, qp: int, spatialAq: bool, temporalAq: bool)

  datatype Ffv1Options = Ffv1Options(level: int)

  /** `std::variant<X264Options, NvencH264Options, Ffv1Options>`. */
  datatype EncodeOptions =
    | X264(x264: X264Options)
    | NvencH264(nvenc: NvencH264Options)
    | Ffv1(ffv1: Ffv1Options)

  /** The member initialisers of the three option structs. */
  const DefaultX264 := X264Options(X264Preset.Veryfast, Crf, 18, 0)
  const DefaultNvenc := NvencH264Options(P1, VbrHq, 19, 0, false, false)
  const DefaultFfv1 := Ffv1Options(3)

  /** `videoContainer_toString`: "mkv" for mkv and "mp4" for everything else. */
  function ContainerName(c: VideoContainer): (s: string)
    ensures s == "mkv" <==> c == Mkv
    ensures s == "mp4" <==> c != Mkv
  {
    match c
    case Mp4 => "mp4"
    case Mkv => "mkv"
    case ContainerCode(_) => "mp4"
  }

  /** A rank that orders the named qualities from best (0) to worst (3). */
  function Rank(q: Quality): nat
    requires !q.QualityCode?
  {
    match q
    case Lossless => 0
    case High => 1
    case Medium => 2
    case Low => 3
  }

  /** The explicit x264 builder; its default arguments are Crf, crf 19 and qp 0. */
  function MakeX264Options(preset: X264Preset, mode: X264Mode := Crf, crf: int := 19, qp: int := 0): (o: X264Options)
    ensures o.preset == preset && o.mode == mode && o.crf == crf && o.qp == qp
  {
    X264Options(preset, mode, crf, qp)
  }

  /** The crf the by-quality x264 builder chooses. */
  function X264Crf(q: Quality): (crf: int)
    ensures 0 <= crf <= 51
    ensures crf == 0 <==> q == Lossless
  {
    match q
    case Lossless => 0
    case High => 18
    case Medium => 23
    case Low => 28
    case QualityCode(_) => 19
  }

  /** The by-quality x264 builder: preset veryfast, constant-rate-factor mode, qp 0. */
  function X264OptionsFor(q: Quality): (o: X264Options)
    ensures o.preset == X264Preset.Veryfast && o.mode == Crf && o.qp == 0
  {
    X264Options(X264Preset.Veryfast, Crf, X264Crf(q), 0)
  }

  /** The explicit NVENC builder; its default arguments are VbrHq, cq 19, qp 0 and no adaptive quantisation. */
  function MakeNvencH264Options(preset: NvencPreset, rc: NvencRc := VbrHq, cq: int := 19, qp: int := 0,
                                spatialAq: bool := false, temporalAq: bool := false): (o: NvencH264Options)
    ensures o.preset == preset && o.rc == rc && o.cq == cq && o.qp == qp
    ensures o.spatialAq == spatialAq && o.temporalAq == temporalAq
  {
    NvencH264Options(preset, rc, cq, qp, spatialAq, temporalAq)
  }

  /** The cq the by-quality NVENC builder chooses. */
  function NvencCq(q: Quality): (cq: int)
    ensures 0 <= cq <= 51
    ensures cq == 0 <==> q == Lossless
  {
    match q
    case Lossless => 0
    case High => 19
    case Medium => 23
    case Low => 28
    case QualityCode(_) => 19
  }

  /** The by-quality NVENC builder: preset p1, constant QP only for lossless, qp 0, no adaptive quantisation. */
  function NvencH264OptionsFor(q: Quality): (o: NvencH264Options)
    ensures o.preset == P1 && o.qp == 0 && !o.spatialAq && !o.temporalAq
    ensures o.rc == ConstQp <==> q == Lossless
  {
    match q
    case Lossless => NvencH264Options(P1, ConstQp, 0, 0, false, false)
    case High => NvencH264Options(P1, VbrHq, 19, 0, false, false)
    case Medium => NvencH264Options(P1, VbrHq, 23, 0, false, false)
    case Low => NvencH264Options(P1, VbrHq, 28, 0, false, false)
    case QualityCode(_) => NvencH264Options(P1, VbrHq, 19, 0, false, false)
  }

  /** The explicit FFV1 builder. */
  function MakeFfv1Options(level: int): (o: Ffv1Options)
    ensures o.level == level
  {
    Ffv1Options(level)
  }

  /** The by-quality FFV1 builder ignores the quality. */
  function Ffv1OptionsFor(q: Quality): (o: Ffv1Options)
    ensures o.level == 3
  {
    Ffv1Options(3)
  }

  /** The by-quality x264 builder is the explicit builder with preset veryfast
      and the tabled crf; for an unlisted quality it is exactly the explicit
      builder's defaults. */
  lemma X264ForIsExplicit(q: Quality)
    ensures X264OptionsFor(q) == MakeX264Options(X264Preset.Veryfast, Crf, X264Crf(q), 0)
    ensures q.QualityCode? ==> X264OptionsFor(q) == MakeX264Options(X264Preset.Veryfast)
  {
  }

  /** Worse quality never means a smaller crf, for x264 as for NVENC. */
  lemma RateFactorMonotone(a: Quality, b: Quality)
    requires !a.QualityCode? && !b.QualityCode? && Rank(a) <= Rank(b)
    ensures X264Crf(a) <= X264Crf(b)
    ensures NvencCq(a) <= NvencCq(b)
  {
  }

  /** The by-quality NVENC builder is the explicit builder with preset p1, the
      rate control mode that lossless selects, and the tabled cq; unlisted
      qualities get the explicit builder's defaults. */
  lemma NvencForIsExplicit(q: Quality)
    ensures NvencH264OptionsFor(q)
         == MakeNvencH264Options(P1, if q == Lossless then ConstQp else VbrHq, NvencCq(q), 0, false, false)
    ensures q.QualityCode? ==> NvencH264OptionsFor(q) == MakeNvencH264Options(P1)
  {
  }

  /** Lossless NVENC encoding uses constant QP 0 with cq 0. */
  lemma NvencLossless()
    ensures var o := NvencH264OptionsFor(Lossless); o.rc == ConstQp && o.qp == 0 && o.cq == 0
  {
  }

  /** High quality reproduces the struct initialisers for x264 and NVENC, and
      every quality reproduces the FFV1 initialiser. The two encoders differ
      only at High: crf 18 for x264 against cq 19 for NVENC. */
  lemma HighIsStructDefault(q: Quality)
    ensures X264OptionsFor(High) == DefaultX264
    ensures NvencH264OptionsFor(High) == DefaultNvenc
    ensures Ffv1OptionsFor(q) == DefaultFfv1 == MakeFfv1Options(3)
    ensures X264Crf(q) == NvencCq(q) <==> q != High
  {
  }
}
