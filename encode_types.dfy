/** The encode configuration: the codec, rate-control, pixel-format and colour
    enumerations, the optional HDR records, the audio settings and the
    EncodeConfig aggregate with its default initialisers. */
module EncodeTypes {
  import opened Wrappers

  /** The C++ fixed-width unsigned integers the configuration uses. */
  newtype u16 = x: int | 0 <= x < 0x1_0000
  newtype u32 = x: int | 0 <= x < 0x1_0000_0000

  /** Conversion of a C++ int to uint16_t: reduction modulo 2^16. */
  function ToU16(i: int): (r: u16)
    ensures 0 <= i < 0x1_0000 ==> r as int == i
    ensures (i - r as int) % 0x1_0000 == 0
  {
    (i % 0x1_0000) as u16
  }

  /** Conversion of a C++ int to uint32_t: reduction modulo 2^32. */
  function ToU32(i: int): (r: u32)
    ensures 0 <= i < 0x1_0000_0000 ==> r as int == i
    ensures (i - r as int) % 0x1_0000_0000 == 0
  {
    (i % 0x1_0000_0000) as u32
  }

  datatype Codec =
    | X264               // x264
    | X265               // x265 / HEVC
    | H264_NVENC         // NVIDIA hardware H.264
    | H265_NVENC         // NVIDIA hardware H.265
    | AV1                // libaom-av1
    | SVT_AV1            // SVT-AV1
    | SVT_AV1_ESSENTIAL  // SVT-AV1 driven by Auto-Boost-Essential
    | ProRes             // Apple ProRes
    | FFV1               // lossless FFV1

  datatype RateControl = CRF | CQP | VBR | CBR

  /** The pixel formats, including NV12 and YUVA444P10LE, which the re-encode
      job and its builder use although the enumeration in encode_types.hpp
      does not list them. */
  datatype PixelFormat =
    | RGB24 | RGB48 | RGBF16
    | YUV420P8 | YUV420P10 | P010 | NV12
    | YUV422P10 | YUV444P10 | YUVA444P10LE

  datatype Range = Limited | Full

  datatype ColorPrimaries = PrimariesBT601 | PrimariesBT709 | PrimariesBT2020 | PrimariesP3D65

  datatype TransferCharacteristic = SRGB | BT1886 | PQ | HLG

  datatype MatrixCoefficients = MatrixBT601 | MatrixBT709 | MatrixBT2020NCL

  datatype ColorProfile = ColorProfile(
    primaries: ColorPrimaries,
    transfer: TransferCharacteristic,
    matrix: MatrixCoefficients,
    range: Range)

  const DefaultColorProfile := ColorProfile(PrimariesBT709, BT1886, MatrixBT709, Full)

  datatype ContentLightLevel = ContentLightLevel(maxCll: u16, maxFall: u16)

  /** Mastering-display chromaticities and luminance; the C++ fields are floats. */
  datatype MasteringDisplay = MasteringDisplay(
    redX: real, redY: real,
    greenX: real, greenY: real,
    blueX: real, blueY: real,
    whiteX: real, whiteY: real,
    minLuminance: real, maxLuminance: real)

  const DefaultMasteringDisplay := MasteringDisplay(
    0.708, 0.292, 0.170, 0.797, 0.131, 0.046, 0.3127, 0.3290, 0.0, 1000.0)

  datatype AudioConfig = AudioConfig(
    copyAudio: bool,
    sourcePath: string,
    codec: string,
    sampleRate: u32,
    channels: u16,
    layout: string,
    bitrateKbps: int)

  const DefaultAudioConfig := AudioConfig(false, "", "aac", 48000, 2, "stereo", 192)

  /** The re-encode settings. The codec-specific fields from proresProfile on are
      read and written by the re-encode job and its builder. */
  datatype EncodeConfig = EncodeConfig(
    codec: Codec,
    encoderOverride: string,
    rateControl: RateControl,
    quality: int,
    bitrateKbps: int,
    maxBitrateKbps: int,
    bufferSizeKbps: int,
    preset: string,
    tune: string,
    gopSize: int,
    bframes: int,
    threads: int,
    pixelFormat: PixelFormat,
    passthroughColor: bool,
    colorProfile: ColorProfile,
    masteringDisplay: Option<MasteringDisplay>,
    contentLightLevel: Option<ContentLightLevel>,
    container: string,
    audio: AudioConfig,
    extraArgs: seq<string>,
    proresProfile: int,
    proresVendor: string,
    bitsPerMb: int,
    ffv1Coder: int,
    ffv1Context: int,
    ffv1Level: int,
    ffv1Slices: int,
    x264Params: string,
    bAdapt: int,
    rcLookahead: int,
    qpCbOffset: int,
    qpCrOffset: int)

  const DefaultEncodeConfig := EncodeConfig(
    codec := X264,
    encoderOverride := "",
    rateControl := CRF,
    quality := 18,
    bitrateKbps := 0,
    maxBitrateKbps := 0,
    bufferSizeKbps := 0,
    preset := "slow",
    tune := "",
    gopSize := 250,
    bframes := 3,
    threads := 0,
    pixelFormat := YUV420P8,
    passthroughColor := true,
    colorProfile := DefaultColorProfile,
    masteringDisplay := None,
    contentLightLevel := None,
    container := "mp4",
    audio := DefaultAudioConfig,
    extraArgs := [],
    proresProfile := 4,
    proresVendor := "apl0",
    bitsPerMb := 8000,
    ffv1Coder := 1,
    ffv1Context := 1,
    ffv1Level := 3,
    ffv1Slices := 24,
    x264Params := "",
    bAdapt := 0,
    rcLookahead := 0,
    qpCbOffset := 0,
    qpCrOffset := 0)
}
