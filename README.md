# ffmpeg_multi command-line core, modelled in Dafny

ffmpeg_multi is a front-end for ffmpeg and the tools around it. It turns declarative
encode settings into command lines and runs them. This project models the layer
that builds those command lines, together with the text and path logic around it:

- `CodecUtils` (codec_utils.dfy): the encoder-name table, the per-codec argument blocks
  (`-crf`, `-cq`, ProRes, FFV1), container extensions, codec/container
  compatibility, and quality and preset validation.
- `EncodeTypes` (encode_types.dfy): the codec, rate-control, pixel-format and colour
  enums, the HDR records, the audio configuration and `EncodeConfig` with its defaults.
- `Reencode` and `ReencodeBuilder`: the re-encode job. `ReencodeJob` appends each
  section of the argument list to an `ArgVector` in place. `ReencodeJobBuilder` holds the
  setters and presets, and `build` is its only validation checkpoint.
- `ImageEncode`, `ExtractFrames`, `Thumbnails` and `Concat`: the image-sequence encoder,
  frame extraction, scene-change thumbnails and mkvmerge concatenation, each with a job
  class and a builder class.
- `SvtAv1Essential`: the Auto-Boost pipeline. It runs four gated steps and a cleanup
  whose result is ignored. The existence checks, exit statuses and copy and remove
  results are an `Outcomes` record passed in; its answers are independent of each
  other and of the actions the steps request.
- `Probe`: the ffprobe command, the JSON value scanner, stream-type counting, the export
  path, and the unit and field arithmetic of byte and duration formatting.
- `StringUtils`: `removeQuotes`, `trim` and `clean`.
- `TestFiltering`: the filtering tool's command builder, the quote stripping of its input
  path, the `_filtered` output path and its two menus.
- `CommandText`: the display form of an argument list, with tokens that contain a space
  wrapped in double quotes.
- Shared modules:
  - `Text`: `std::to_string`, `find`, `std::replace`;
  - `Paths`: `std::filesystem` `operator/`, `parent_path`, `filename`, `stem` and
    `extension`;
  - `Process`: the argument vector and the trace of external actions;
  - `Wrappers`: `Option` and `Result`.

Where the C++ code builds a vector or a string step by step, the model is a method with a
loop or a sequence of appends. It is proved equal to a specification function, and the
function's properties are proved as lemmas: flag presence in both directions, order,
first and last tokens, counts and round trips. Builders are classes. The postcondition
of each setter names every field it changes and keeps the others. A job's `Execute` takes
the outcomes of file-system checks and processes as parameters and returns its verdict
together with the list of actions it performed.

The source disagrees with itself in three places, and the model follows the code that
uses the definitions:
- `PixelFormat` in include/jobs/encode_types.hpp lacks `NV12` and `YUVA444P10LE`.
  reencode.cpp and reencode_builder.cpp use both, so the model adds them.
- `EncodeConfig` lacks the codec-specific fields that reencode.cpp and
  reencode_builder.cpp read and write: the ProRes profile, vendor and bits per
  macroblock; the FFV1 coder, context, level and slices; `x264_params`; `b_adapt`;
  `rc_lookahead`; and the two qp offsets. The model adds them. The ProRes and FFV1
  defaults are those of the `CodecUtils` default arguments; the rest default to empty
  or zero.
- include/jobs/encode_builder.hpp declares a second, different `EncodeJobBuilder`. The
  model follows include/jobs/encode.hpp and src/jobs/encode_builder.cpp.

## Model

| member | source | states |
|---|---|---|
| CodecUtils.EncoderTable | src/jobs/codec_utils.cpp:18-38 | every encoder name in the table is non-empty and has no space |
| CodecUtils.EncoderName | src/jobs/codec_utils.cpp:11-15 | a non-empty override is returned verbatim; otherwise the codec's table entry; never empty |
| CodecUtils.EncoderTableRoundTrip | src/jobs/codec_utils.cpp:18-38 | reading an encoder name back gives the codec, except that SVT_AV1_ESSENTIAL comes back as SVT_AV1 |
| CodecUtils.EncoderTableCollisions | src/jobs/codec_utils.cpp:29-31 | two codecs share an encoder name exactly when they are the two SVT-AV1 variants |
| CodecUtils.EncoderOverrideWins | include/jobs/codec_utils.hpp:25 | with an override every codec gets the same name; the one-argument call uses the table |
| CodecUtils.PresetPair | src/jobs/codec_utils.cpp:55-58 | the preset pair has two tokens for a non-empty preset and none otherwise |
| CodecUtils.AddProResArgs | src/jobs/codec_utils.cpp:82-94 | appends exactly the ProRes block (profile, vendor, bits per macroblock, pixel format) after the existing arguments |
| CodecUtils.AddFFV1Args | src/jobs/codec_utils.cpp:96-111 | appends exactly the FFV1 block (level, coder, context, -g 1, slices) after the existing arguments |
| CodecUtils.AddCodecArgs | src/jobs/codec_utils.cpp:45-80 | appends the codec's block; the arguments already present stay as a prefix |
| CodecUtils.QualityBlock | src/jobs/codec_utils.cpp:47-70 | CRF codecs start with -crf and NVENC codecs with -cq, the quality reads back from the next token, and -preset p follows iff the preset is non-empty |
| CodecUtils.FixedBlocks | include/jobs/codec_utils.hpp:43-48 | ProRes always gets profile 4, apl0, 8000 in 8 tokens ending -pix_fmt yuva444p10le; FFV1 always gets level 3, coder 1, context 1, -g 1, 24 slices in 10 tokens; neither depends on quality or preset |
| CodecUtils.ContainerExtension | src/jobs/codec_utils.cpp:117-123 | the dotted container name for mkv, webm, mp4 and mov, and ".mkv" for any other string |
| CodecUtils.CompatibilityRules | src/jobs/codec_utils.cpp:125-143 | a pair is refused iff it is a codec other than AV1/SVT_AV1 in webm, or FFV1 in mp4 |
| CodecUtils.PermissiveContainers | src/jobs/codec_utils.cpp:130-142 | every codec is accepted by every container other than webm and mp4 |
| CodecUtils.ValidateQuality | src/jobs/codec_utils.cpp:149-158 | accepts iff the codec has no quality scale or the value lies in 0..51 |
| CodecUtils.QualityScaleCodecs | src/jobs/codec_utils.cpp:151-157 | the checked codecs are the -crf/-cq codecs minus SVT_AV1_ESSENTIAL; every quality passes for the others |
| CodecUtils.ValidatePreset | src/jobs/codec_utils.cpp:160-175 | the empty preset always passes; x264/x265 accept exactly the nine named presets; NVENC accepts fast, medium, slow, hq or any name starting with p; other codecs accept anything |
| CodecUtils.PresetExamples | src/jobs/codec_utils.cpp:163-172 | p6 passes for NVENC but not for x264; ultrafast fails for NVENC; any preset passes for ProRes |
| CommandText.RenderCommand | src/jobs/encode.cpp:128-141 | the logging loop yields the program name followed, for each argument, by a space and the argument, in double quotes iff it needs them (the same loop is at src/jobs/extract_frames.cpp:182-195, src/jobs/reencode.cpp:83-96 and src/jobs/thumbnails.cpp:194-207, where an apostrophe also asks for quotes) |
| CommandText.SplitOnSpaces | src/jobs/encode.cpp:133-138 | splitting a line at its spaces gives at least one piece |
| CommandText.DisplaySplits | src/jobs/encode.cpp:128-141 | when the program and the arguments hold no space (and need no quotes), splitting the logged line at spaces gives back the program and the arguments exactly, in order |
| CommandText.DisplayPlainLast | src/jobs/encode.cpp:133-137 | an argument that needs no quotes is appended after one space exactly as it is |
| CommandText.SplitAtLastSpace | src/jobs/encode.cpp:133-137 | a space followed by a space-free token splits off exactly that token |
| CommandText.DisplayLength | src/jobs/encode.cpp:131-139 | the logged line's length is exactly the program, one separating space per argument, the arguments, and two quote marks for each quoted argument |
| Concat.InputTokensLayout | src/jobs/concat.cpp:44-50 | n inputs give 2n-1 tokens: input k, quoted, sits at position 2k, and "+" sits between each two |
| Concat.SeparatorCount | src/jobs/concat.cpp:47-50 | n inputs are joined by exactly n-1 "+" separators |
| Concat.MkvMergePath | src/jobs/concat.cpp:19-29 | the bundled path extern/env/mkvtoolnix/mkvmerge.exe (ending in mkvmerge.exe) when it exists; the bare "mkvmerge" otherwise |
| Concat.ConcatJob.constructor | src/jobs/concat.cpp:17 | the job holds the given inputs and output |
| Concat.ConcatJob.BuildCommand | src/jobs/concat.cpp:42-50 | the string grown with += equals the tool, -o with the quoted output, then the quoted inputs joined by " + " |
| Concat.ConcatJob.Execute | src/jobs/concat.cpp:31-58 | fewer than two inputs fail with no command run; otherwise exactly one shell command, the concat command, is run and success is a zero exit status |
| Concat.ConcatBuilder.constructor | src/jobs/concat.cpp:64-76 | a new builder has no inputs and an empty output |
| Concat.ConcatBuilder.AddInput | src/jobs/concat.cpp:64-67 | appends the input at the end; the output is unchanged |
| Concat.ConcatBuilder.Output | src/jobs/concat.cpp:69-72 | replaces the output; the inputs are unchanged |
| Concat.ConcatBuilder.Build | src/jobs/concat.cpp:74-76 | a fresh job with the builder's inputs and output, without any check |
| ImageEncode.FormatExtension | src/jobs/encode.cpp:72-80 | every container extension is a dot followed by at least one character |
| ImageEncode.FormatExtensionAgrees | src/jobs/encode.cpp:72-80 | the job's own extension switch agrees with the codec table's container extensions, and distinct formats get distinct extensions |
| ImageEncode.OutputName | src/jobs/encode.cpp:60-68 | the output name always contains the extension; a name that already contains it is kept, any other gets it appended |
| ImageEncode.OutputPathEndsWithExtension | src/jobs/encode.cpp:64-69 | when the file name does not contain the extension, the output path ends with it |
| ImageEncode.SubstringNotSuffix | src/jobs/encode.cpp:65 | "a.mkv.bak" is kept unchanged although it does not end with ".mkv": the check is for a substring, not a suffix |
| ImageEncode.SequenceArgsShape | src/jobs/encode.cpp:94-126 | the argument list starts with -hide_banner, the frame rate, the input pattern under the input directory and the table encoder, and ends with the output path |
| ImageEncode.PixFmtCount | src/jobs/encode.cpp:113-120 | after the codec block and the default pixel format there is exactly one -pix_fmt, except for FFV1 which has none |
| ImageEncode.RateBlockPixFmtCount | src/jobs/codec_utils.cpp:45-70 | the CRF and NVENC codec blocks carry no -pix_fmt of their own |
| ImageEncode.ProResPixFmtCount | src/jobs/codec_utils.cpp:82-94 | the ProRes codec block carries exactly one -pix_fmt |
| ImageEncode.EncodeJob.constructor | src/jobs/encode.cpp:19 | the job holds the given configuration |
| ImageEncode.EncodeJob.SetConfig | src/jobs/encode.cpp:25-27 | the configuration is replaced |
| ImageEncode.EncodeJob.ValidatePaths | src/jobs/encode.cpp:41-58 | accepted exactly when the input directory exists and the output directory and file name are both non-empty |
| ImageEncode.EncodeJob.BuildCommand | src/jobs/encode.cpp:94-126 | the pushed arguments are exactly the specified sequence command, whose shape and -pix_fmt count are proved above |
| ImageEncode.EncodeJob.GetCommandString | src/jobs/encode.cpp:128-141 | the line is "ffmpeg" followed by each argument, those with a space in double quotes |
| ImageEncode.EncodeJob.Execute | src/jobs/encode.cpp:147-184 | invalid paths do nothing and fail; a missing output directory is created first and a failed creation stops the job; otherwise extern/ffmpeg.exe runs with the built arguments and its outcome is the result |
| ImageEncode.EncodeJobBuilder.constructor | include/jobs/encode.hpp:24-35 | the builder starts from the default configuration (MKV, x264, quality 23, preset medium, 24 fps, %08d.png) |
| ImageEncode.EncodeJobBuilder.InputDir | src/jobs/encode_builder.cpp:10-13 | only the input directory changes |
| ImageEncode.EncodeJobBuilder.OutputDir | src/jobs/encode_builder.cpp:15-18 | only the output directory changes |
| ImageEncode.EncodeJobBuilder.OutputFilename | src/jobs/encode_builder.cpp:20-23 | only the output file name changes |
| ImageEncode.EncodeJobBuilder.InputPattern | src/jobs/encode_builder.cpp:25-28 | only the input pattern changes |
| ImageEncode.EncodeJobBuilder.Framerate | src/jobs/encode_builder.cpp:30-33 | only the frame rate changes |
| ImageEncode.EncodeJobBuilder.Format | src/jobs/encode_builder.cpp:39-42 | only the container format changes |
| ImageEncode.EncodeJobBuilder.UseMkv | src/jobs/encode_builder.cpp:44-47 | only the format changes, to MKV |
| ImageEncode.EncodeJobBuilder.UseWebm | src/jobs/encode_builder.cpp:49-52 | only the format changes, to WebM |
| ImageEncode.EncodeJobBuilder.UseMp4 | src/jobs/encode_builder.cpp:54-57 | only the format changes, to MP4 |
| ImageEncode.EncodeJobBuilder.UseMov | src/jobs/encode_builder.cpp:59-62 | only the format changes, to MOV |
| ImageEncode.EncodeJobBuilder.SetCodec | src/jobs/encode_builder.cpp:68-71 | only the codec changes |
| ImageEncode.EncodeJobBuilder.UseX264 | src/jobs/encode_builder.cpp:73-76 | only the codec changes, to x264 |
| ImageEncode.EncodeJobBuilder.UseX265 | src/jobs/encode_builder.cpp:78-81 | only the codec changes, to x265 |
| ImageEncode.EncodeJobBuilder.UseAv1 | src/jobs/encode_builder.cpp:83-86 | only the codec changes, to AV1 |
| ImageEncode.EncodeJobBuilder.UseH264Nvenc | src/jobs/encode_builder.cpp:88-91 | only the codec changes, to H.264 NVENC |
| ImageEncode.EncodeJobBuilder.UseH265Nvenc | src/jobs/encode_builder.cpp:93-96 | only the codec changes, to H.265 NVENC |
| ImageEncode.EncodeJobBuilder.UseProRes | src/jobs/encode_builder.cpp:98-101 | only the codec changes, to ProRes |
| ImageEncode.EncodeJobBuilder.UseFfv1 | src/jobs/encode_builder.cpp:103-106 | only the codec changes, to FFV1 |
| ImageEncode.EncodeJobBuilder.Quality | src/jobs/encode_builder.cpp:112-115 | only the quality changes; no range check |
| ImageEncode.EncodeJobBuilder.Preset | src/jobs/encode_builder.cpp:117-120 | only the preset changes; no validation |
| ImageEncode.EncodeJobBuilder.Build | src/jobs/encode_builder.cpp:126-128 | a new job holding the builder's configuration, unvalidated |
| ExtractFrames.FileExtensionsDistinct | src/jobs/extract_frames.cpp:85-96 | every image extension is a dot and at least one character, and distinct formats get distinct extensions |
| ExtractFrames.TargetDirPlacement | src/jobs/extract_frames.cpp:56-60 | without a requested and named sub-folder the frames go to the output directory itself; with one they go to a child of it carrying the sub-folder's name |
| ExtractFrames.FormatBlockFacts | src/jobs/extract_frames.cpp:115-174 | each format block has its fixed length (PNG 14, TIFF 20, JPEG 16), opens with the format's colour transfer tag (1 for TIFF, 2 otherwise), names its encoder at position 9 and never carries -vf |
| ExtractFrames.FramesArgsShape | src/jobs/extract_frames.cpp:102-180 | the argument list is the five input and scaling tokens, the format block, then the output pattern last |
| ExtractFrames.AddFormatArgs | src/jobs/extract_frames.cpp:115-174 | appends exactly the format's block after the arguments already present |
| ExtractFrames.AddColourTags | src/jobs/extract_frames.cpp:117-124 | appends the three colour tags with the given value and the video stream map |
| ExtractFrames.AddPngTail | src/jobs/extract_frames.cpp:125-130 | appends the png encoder, rgb24 and the start number 0 |
| ExtractFrames.AddTiffTail | src/jobs/extract_frames.cpp:142-153 | appends the tiff encoder, rgb24, deflate compression, start number 0, the movflags and -bf 0 |
| ExtractFrames.AddJpegTail | src/jobs/extract_frames.cpp:165-172 | appends the mjpeg encoder, yuvj420p, -q:v 1 and start number 0 |
| ExtractFrames.ExtractFramesJob.constructor | src/jobs/extract_frames.cpp:18 | the job holds the given configuration |
| ExtractFrames.ExtractFramesJob.SetConfig | src/jobs/extract_frames.cpp:24-26 | the configuration is replaced |
| ExtractFrames.ExtractFramesJob.ValidatePaths | src/jobs/extract_frames.cpp:40-52 | accepted exactly when the input file exists and the output directory is non-empty |
| ExtractFrames.ExtractFramesJob.CreateOutputDirectory | src/jobs/extract_frames.cpp:54-72 | an existing target directory is left alone; a missing one is created, and the step fails only when that creation fails |
| ExtractFrames.ExtractFramesJob.OutputPatternOf | src/jobs/extract_frames.cpp:74-83 | the pattern is %08d plus the format's extension, under the target directory |
| ExtractFrames.ExtractFramesJob.BuildCommand | src/jobs/extract_frames.cpp:102-180 | the pushed arguments are exactly the specified frames command |
| ExtractFrames.ExtractFramesJob.GetCommandString | src/jobs/extract_frames.cpp:182-195 | the line is "ffmpeg" followed by each argument, those with a space in double quotes |
| ExtractFrames.ExtractFramesJob.Execute | src/jobs/extract_frames.cpp:201-231 | invalid paths do nothing; a failed directory creation stops before ffmpeg; otherwise extern/ffmpeg.exe runs with the built arguments and its outcome is the result |
| ExtractFrames.ExtractFramesBuilder.constructor | include/jobs/extract_frames.hpp:22-28 | the builder starts from the default configuration (sub-folder on, PNG) |
| ExtractFrames.ExtractFramesBuilder.Input | src/jobs/extract_frames_builder.cpp:10-13 | only the input path changes |
| ExtractFrames.ExtractFramesBuilder.OutputDir | src/jobs/extract_frames_builder.cpp:15-18 | only the output directory changes |
| ExtractFrames.ExtractFramesBuilder.CreateSubfolder | src/jobs/extract_frames_builder.cpp:20-23 | only the sub-folder switch changes |
| ExtractFrames.ExtractFramesBuilder.SubfolderName | src/jobs/extract_frames_builder.cpp:25-28 | only the sub-folder name changes |
| ExtractFrames.ExtractFramesBuilder.Format | src/jobs/extract_frames_builder.cpp:30-33 | only the image format changes |
| ExtractFrames.ExtractFramesBuilder.UsePng | src/jobs/extract_frames_builder.cpp:39-42 | only the format changes, to PNG |
| ExtractFrames.ExtractFramesBuilder.UseTiff | src/jobs/extract_frames_builder.cpp:44-47 | only the format changes, to TIFF |
| ExtractFrames.ExtractFramesBuilder.UseJpeg | src/jobs/extract_frames_builder.cpp:49-52 | only the format changes, to JPEG |
| ExtractFrames.ExtractFramesBuilder.Build | src/jobs/extract_frames_builder.cpp:58-60 | a new job holding the builder's configuration, unvalidated |
| Thumbnails.ThumbArgsExtendFrames | src/jobs/thumbnails.cpp:106-192 | the thumbnail command is the frame-extraction command for the same input, directory and format with the scene filter and -vsync vfr inserted after the scaling options and the "thumb_" pattern in place of the frames pattern |
| Thumbnails.FilterTokenQuoted | src/jobs/thumbnails.cpp:95-100 | the scene filter always contains an apostrophe, so the displayed command always shows it in double quotes |
| Thumbnails.ThumbnailsJob.constructor | src/jobs/thumbnails.cpp:19 | the job holds the given configuration |
| Thumbnails.ThumbnailsJob.SetConfig | src/jobs/thumbnails.cpp:25-27 | the configuration is replaced |
| Thumbnails.ThumbnailsJob.ValidatePaths | src/jobs/thumbnails.cpp:41-53 | accepted exactly when the input file exists and the output directory is non-empty |
| Thumbnails.ThumbnailsJob.CreateOutputDirectory | src/jobs/thumbnails.cpp:55-73 | an existing target directory is left alone; a missing one is created, and the step fails only when that creation fails |
| Thumbnails.ThumbnailsJob.BuildCommand | src/jobs/thumbnails.cpp:106-192 | the pushed arguments are exactly the specified thumbnail command, related to frame extraction above |
| Thumbnails.ThumbnailsJob.GetCommandString | src/jobs/thumbnails.cpp:194-207 | the line is "ffmpeg" followed by each argument, those with a space or an apostrophe in double quotes |
| Thumbnails.ThumbnailsJob.Execute | src/jobs/thumbnails.cpp:213-246 | invalid paths do nothing; a failed directory creation stops before ffmpeg; otherwise "ffmpeg" from the search path runs with the built arguments and its outcome is the result |
| Thumbnails.BuildCheck | src/jobs/thumbnails_builder.cpp:67-78 | build() refuses exactly an empty input path or an empty output directory, the input path being checked first; it never reports the threshold |
| Thumbnails.ThumbnailsBuilder.constructor | include/jobs/thumbnails.hpp:21-28 | the builder starts from the default configuration (sub-folder on, PNG, threshold 0.15) |
| Thumbnails.ThumbnailsBuilder.Input | src/jobs/thumbnails_builder.cpp:11-14 | only the input path changes |
| Thumbnails.ThumbnailsBuilder.OutputDir | src/jobs/thumbnails_builder.cpp:16-19 | only the output directory changes |
| Thumbnails.ThumbnailsBuilder.CreateSubfolder | src/jobs/thumbnails_builder.cpp:21-24 | only the sub-folder switch changes |
| Thumbnails.ThumbnailsBuilder.SubfolderName | src/jobs/thumbnails_builder.cpp:26-29 | only the sub-folder name changes |
| Thumbnails.ThumbnailsBuilder.Format | src/jobs/thumbnails_builder.cpp:31-34 | only the image format changes |
| Thumbnails.ThumbnailsBuilder.SceneThreshold | src/jobs/thumbnails_builder.cpp:36-42 | a threshold outside 0 to 1 is refused and leaves the configuration unchanged; one inside changes only the threshold |
| Thumbnails.ThumbnailsBuilder.UsePng | src/jobs/thumbnails_builder.cpp:48-51 | only the format changes, to PNG |
| Thumbnails.ThumbnailsBuilder.UseTiff | src/jobs/thumbnails_builder.cpp:53-56 | only the format changes, to TIFF |
| Thumbnails.ThumbnailsBuilder.UseJpeg | src/jobs/thumbnails_builder.cpp:58-61 | only the format changes, to JPEG |
| Thumbnails.ThumbnailsBuilder.Build | src/jobs/thumbnails_builder.cpp:67-78 | fails exactly when the build check reports an error, with that error; otherwise a new job holding the builder's configuration |
| EncodeTypes.ToU16 | include/jobs/encode_types.hpp:116 | a value that fits in 16 bits is kept, any other wraps modulo 2^16 |
| EncodeTypes.ToU32 | include/jobs/encode_types.hpp:115 | a value that fits in 32 bits is kept, any other wraps modulo 2^32 |
| Reencode.PixelFormatNamesDistinct | src/jobs/reencode.cpp:353-378 | two pixel formats get the same ffmpeg name exactly when they are the same format |
| Reencode.ColorNamesDistinct | src/jobs/reencode.cpp:384-408 | the range and primaries names are each one-to-one |
| Reencode.TransferMatrixNamesDistinct | src/jobs/reencode.cpp:410-436 | the transfer and matrix names are each one-to-one |
| Reencode.JobCheck | src/jobs/reencode.cpp:442-459 | the job is accepted exactly when both paths are non-empty and a VBR or CBR job has a positive bitrate; an empty input path is reported first, then an empty output path; the job never reports the quality |
| Reencode.JobCheckIgnoresQuality | src/jobs/reencode.cpp:442-459 | changing the quality never changes the job's verdict |
| Reencode.AcceptedJobHasRateControl | src/jobs/reencode.cpp:172-204 | the rate-control section is empty exactly for a VBR or CBR job without a positive bitrate, so every accepted job carries one |
| Reencode.ReencodeJob.constructor | src/jobs/reencode.cpp:16 | the job holds the two paths and the default configuration |
| Reencode.ReencodeJob.SetConfig | src/jobs/reencode.cpp:22-24 | the configuration is replaced and the paths are kept |
| Reencode.ReencodeJob.SetInputPath | src/jobs/reencode.cpp:38-40 | only the input path changes |
| Reencode.ReencodeJob.SetOutputPath | src/jobs/reencode.cpp:42-44 | only the output path changes |
| Reencode.ReencodeJob.AddInputArgs | src/jobs/reencode.cpp:102-105 | appends -i and the input path |
| Reencode.ReencodeJob.AddVideoCodecArgs | src/jobs/reencode.cpp:111-166 | appends -c:v with the override or table encoder, then the ProRes, FFV1, x264-params or NVENC options of the configured codec only |
| Reencode.ReencodeJob.AddNvencArgs | src/jobs/reencode.cpp:149-165 | appends -b_adapt and -rc-lookahead, then each chroma QP offset only when non-zero |
| Reencode.ReencodeJob.AddRateControlArgs | src/jobs/reencode.cpp:172-204 | appends -crf or -qp with the quality, or for VBR and CBR with a positive bitrate the bitrate in k (CBR adds -maxrate and a buffer of the configured size or twice the bitrate) |
| Reencode.ReencodeJob.AddEncodingParams | src/jobs/reencode.cpp:210-238 | appends preset and tune when non-empty, the GOP size and threads when positive, and -bf always |
| Reencode.ReencodeJob.AddPixelFormatArgs | src/jobs/reencode.cpp:244-247 | appends -pix_fmt with the configured pixel format's name |
| Reencode.ReencodeJob.AddColorSpaceArgs | src/jobs/reencode.cpp:253-272 | appends nothing under colour passthrough, else range, matrix, primaries and transfer in that order |
| Reencode.ReencodeJob.AddHdrMetadata | src/jobs/reencode.cpp:278-300 | appends -max-cll when a light level is set and -master-display when a mastering display is set, in that order |
| Reencode.ReencodeJob.AddAudioArgs | src/jobs/reencode.cpp:306-325 | appends -c:a copy when copying, else the codec, the bitrate when positive, the sample rate and the channel count |
| Reencode.ReencodeJob.AddExtraArgs | src/jobs/reencode.cpp:74-76 | appends the extra arguments verbatim and in order |
| Reencode.ReencodeJob.AddOutputArgs | src/jobs/reencode.cpp:331-333 | appends the output path |
| Reencode.ReencodeJob.BuildCommand | src/jobs/reencode.cpp:58-81 | the arguments are the sections in the fixed order input, video, rate control, parameters, pixel format, colour, HDR, audio, extras, output |
| Reencode.SectionsFlags | src/jobs/reencode.cpp:64-71 | the option names among the video, rate-control, parameter, pixel-format, colour, HDR and audio sections are, in order, -pix_fmt, the colour options unless colour is passed through, the HDR options that are set, and the audio options unless audio is copied |
| Reencode.SectionsFlagPresence | src/jobs/reencode.cpp:244-325 | exactly one -pix_fmt; each colour option iff colour is not passed through; -max-cll iff a content light level is set; -master-display iff mastering-display data is set; -ar and -ac iff audio is re-encoded; -b:a iff audio is re-encoded with a positive bitrate (provided no free-text value is itself one of these option names) |
| Reencode.ReencodeArgsFacts | src/jobs/reencode.cpp:58-81 | the whole list starts with -i and the input path, ends with the output path, has the extra arguments verbatim immediately before it, and between them carries exactly the option names stated by SectionsFlags |
| Reencode.ReencodeArgsFrame | src/jobs/reencode.cpp:58-81 | the list is the input pair, then the sections, then the extra arguments, then the output path, with nothing between them |
| Reencode.ReencodeJob.GetCommandString | src/jobs/reencode.cpp:83-96 | the line is "ffmpeg" followed by each argument, those with a space in double quotes |
| Reencode.ReencodeJob.Validate | src/jobs/reencode.cpp:442-459 | reports exactly the job check's verdict, its first failing condition standing for the exception thrown |
| Reencode.ReencodeJob.Execute | src/jobs/reencode.cpp:465-496 | a refused job runs nothing and fails; an accepted one runs extern/ffmpeg.exe with the built arguments and its outcome is the result |
| ReencodeBuilder.BuildCheck | src/jobs/reencode_builder.cpp:455-477 | accepted exactly when both paths are set, a VBR or CBR job has a positive bitrate and a CRF or CQP job has a quality in 0..51; the quality error is reported only when every job condition holds |
| ReencodeBuilder.BuildCheckRefinesJobCheck | src/jobs/reencode_builder.cpp:455-477 | whatever the builder accepts the job accepts too, and apart from the quality range the two report the same error |
| ReencodeBuilder.JobAcceptsWhatBuilderRefuses | src/jobs/reencode.cpp:442-459 | a CRF of 60 passes the job's own validation but not the builder's |
| ReencodeBuilder.PresetsPassBuildCheck | src/jobs/reencode_builder.cpp:350-407 | with both paths set, the YouTube, x264, x265 and both NVENC presets always pass the builder check |
| ReencodeBuilder.IntraPresetsKeepRateControl | src/jobs/reencode_builder.cpp:409-430 | the ProRes and FFV1 presets leave the builder check's verdict as it was |
| ReencodeBuilder.YoutubePresetArgs | src/jobs/reencode_builder.cpp:350-358 | the YouTube preset puts -crf 23, -c:a copy and -pix_fmt yuv420p on the command |
| ReencodeBuilder.NvencPresetArgs | src/jobs/reencode_builder.cpp:381-407 | the NVENC presets put -qp 18 and the NVENC video block with b_adapt 1, look-ahead 30 and both offsets -2 on the command |
| ReencodeBuilder.ProResPresetArgs | src/jobs/reencode_builder.cpp:409-418 | the ProRes preset puts prores_ks with the profile, apl0 and 8000 and -pix_fmt yuva444p10le on the command |
| ReencodeBuilder.FFV1PresetArgs | src/jobs/reencode_builder.cpp:420-430 | the FFV1 preset puts ffv1 with coder 2, context 1, level 3, 12 slices and -g 1 on the command |
| ReencodeBuilder.CbrBufferAgrees | src/jobs/reencode_builder.cpp:107-112 | cbr(k)'s buffer of 2k gives the same rate-control section as the job's fallback for an unset buffer: -b:v, -maxrate and -bufsize 2k |
| ReencodeBuilder.ReencodeJobBuilder.constructor | include/jobs/reencode_builder.hpp:9 | the builder starts with empty paths and the default encode configuration |
| ReencodeBuilder.ReencodeJobBuilder.Input | src/jobs/reencode_builder.cpp:11-14 | only the input path changes |
| ReencodeBuilder.ReencodeJobBuilder.Output | src/jobs/reencode_builder.cpp:16-19 | only the output path changes |
| ReencodeBuilder.ReencodeJobBuilder.UseX264 | src/jobs/reencode_builder.cpp:25-28 | only the codec changes, to x264 |
| ReencodeBuilder.ReencodeJobBuilder.UseX265 | src/jobs/reencode_builder.cpp:30-33 | only the codec changes, to x265 |
| ReencodeBuilder.ReencodeJobBuilder.UseHevc | src/jobs/reencode_builder.cpp:35-37 | the same change as x265() |
| ReencodeBuilder.ReencodeJobBuilder.UseAv1 | src/jobs/reencode_builder.cpp:39-42 | only the codec changes, to AV1 |
| ReencodeBuilder.ReencodeJobBuilder.UseSvtAv1 | src/jobs/reencode_builder.cpp:44-47 | only the codec changes, to SVT-AV1 |
| ReencodeBuilder.ReencodeJobBuilder.UseProRes | src/jobs/reencode_builder.cpp:49-57 | selects ProRes with profile 4, vendor apl0, 8000 bits per macroblock and yuva444p10le, nothing else |
| ReencodeBuilder.ReencodeJobBuilder.UseFfv1 | src/jobs/reencode_builder.cpp:59-68 | selects FFV1 with coder 2, context 1, level 3, 12 slices and a GOP of 1, nothing else |
| ReencodeBuilder.ReencodeJobBuilder.UseH264Nvenc | src/jobs/reencode_builder.cpp:70-73 | only the codec changes, to H.264 NVENC |
| ReencodeBuilder.ReencodeJobBuilder.UseH265Nvenc | src/jobs/reencode_builder.cpp:75-78 | only the codec changes, to H.265 NVENC |
| ReencodeBuilder.ReencodeJobBuilder.SetCodec | src/jobs/reencode_builder.cpp:80-83 | only the codec changes |
| ReencodeBuilder.ReencodeJobBuilder.Crf | src/jobs/reencode_builder.cpp:89-93 | selects CRF with the given quality, nothing else |
| ReencodeBuilder.ReencodeJobBuilder.Qp | src/jobs/reencode_builder.cpp:95-99 | selects CQP with the given quality, nothing else |
| ReencodeBuilder.ReencodeJobBuilder.Bitrate | src/jobs/reencode_builder.cpp:101-105 | selects VBR with the given bitrate and leaves the buffer size alone |
| ReencodeBuilder.ReencodeJobBuilder.Cbr | src/jobs/reencode_builder.cpp:107-112 | selects CBR with the given bitrate and a buffer of twice that bitrate |
| ReencodeBuilder.ReencodeJobBuilder.Vbr | src/jobs/reencode_builder.cpp:114-116 | the same change as bitrate() |
| ReencodeBuilder.ReencodeJobBuilder.Preset | src/jobs/reencode_builder.cpp:122-125 | only the preset changes |
| ReencodeBuilder.ReencodeJobBuilder.Tune | src/jobs/reencode_builder.cpp:127-130 | only the tune changes |
| ReencodeBuilder.ReencodeJobBuilder.GopSize | src/jobs/reencode_builder.cpp:132-135 | only the GOP size changes |
| ReencodeBuilder.ReencodeJobBuilder.BFrames | src/jobs/reencode_builder.cpp:137-140 | only the B-frame count changes |
| ReencodeBuilder.ReencodeJobBuilder.Threads | src/jobs/reencode_builder.cpp:142-145 | only the thread count changes |
| ReencodeBuilder.ReencodeJobBuilder.EightBit | src/jobs/reencode_builder.cpp:151-154 | only the pixel format changes, to 8-bit yuv420p |
| ReencodeBuilder.ReencodeJobBuilder.TenBit | src/jobs/reencode_builder.cpp:156-159 | only the pixel format changes, to 10-bit yuv420p |
| ReencodeBuilder.ReencodeJobBuilder.SetPixelFormat | src/jobs/reencode_builder.cpp:161-164 | only the pixel format changes |
| ReencodeBuilder.ReencodeJobBuilder.ProResProfile | src/jobs/reencode_builder.cpp:170-173 | only the ProRes profile changes |
| ReencodeBuilder.ReencodeJobBuilder.ProResVendor | src/jobs/reencode_builder.cpp:175-178 | only the ProRes vendor changes |
| ReencodeBuilder.ReencodeJobBuilder.ProResBitsPerMb | src/jobs/reencode_builder.cpp:180-183 | only the ProRes bits per macroblock change |
| ReencodeBuilder.ReencodeJobBuilder.Ffv1Coder | src/jobs/reencode_builder.cpp:189-192 | only the FFV1 coder changes |
| ReencodeBuilder.ReencodeJobBuilder.Ffv1Context | src/jobs/reencode_builder.cpp:194-197 | only the FFV1 context changes |
| ReencodeBuilder.ReencodeJobBuilder.Ffv1Level | src/jobs/reencode_builder.cpp:199-202 | only the FFV1 level changes |
| ReencodeBuilder.ReencodeJobBuilder.Ffv1Slices | src/jobs/reencode_builder.cpp:204-207 | only the FFV1 slice count changes |
| ReencodeBuilder.ReencodeJobBuilder.X264Params | src/jobs/reencode_builder.cpp:213-216 | only the x264 parameter string changes |
| ReencodeBuilder.ReencodeJobBuilder.NvencBAdapt | src/jobs/reencode_builder.cpp:222-225 | only the NVENC b_adapt value changes |
| ReencodeBuilder.ReencodeJobBuilder.NvencRcLookahead | src/jobs/reencode_builder.cpp:227-230 | only the NVENC look-ahead changes |
| ReencodeBuilder.ReencodeJobBuilder.NvencQpCbOffset | src/jobs/reencode_builder.cpp:232-235 | only the NVENC Cb offset changes |
| ReencodeBuilder.ReencodeJobBuilder.NvencQpCrOffset | src/jobs/reencode_builder.cpp:237-240 | only the NVENC Cr offset changes |
| ReencodeBuilder.ReencodeJobBuilder.Sdr | src/jobs/reencode_builder.cpp:246-253 | turns colour passthrough off and sets BT.709 primaries and matrix, BT.1886 transfer and limited range |
| ReencodeBuilder.ReencodeJobBuilder.Hdr10 | src/jobs/reencode_builder.cpp:255-262 | turns colour passthrough off and sets BT.2020 primaries, PQ transfer, BT.2020 non-constant matrix and limited range |
| ReencodeBuilder.ReencodeJobBuilder.Hlg | src/jobs/reencode_builder.cpp:264-271 | turns colour passthrough off and sets BT.2020 primaries, HLG transfer, BT.2020 non-constant matrix and limited range |
| ReencodeBuilder.ReencodeJobBuilder.ColorSpace | src/jobs/reencode_builder.cpp:273-285 | turns colour passthrough off and sets the four given colour properties, the range defaulting to limited |
| ReencodeBuilder.ReencodeJobBuilder.MaxCll | src/jobs/reencode_builder.cpp:291-297 | sets the content light level to the two given 16-bit values, nothing else |
| ReencodeBuilder.ReencodeJobBuilder.SetMasteringDisplay | src/jobs/reencode_builder.cpp:299-314 | sets the mastering display to the ten given values, nothing else |
| ReencodeBuilder.ReencodeJobBuilder.CopyAudio | src/jobs/reencode_builder.cpp:320-323 | only the audio copy switch changes, to on |
| ReencodeBuilder.ReencodeJobBuilder.AudioCodec | src/jobs/reencode_builder.cpp:325-329 | turns audio copy off and sets the audio codec |
| ReencodeBuilder.ReencodeJobBuilder.AudioBitrate | src/jobs/reencode_builder.cpp:331-334 | only the audio bitrate changes |
| ReencodeBuilder.ReencodeJobBuilder.AudioSampleRate | src/jobs/reencode_builder.cpp:336-339 | only the sample rate changes, to the value converted to 32 bits unsigned |
| ReencodeBuilder.ReencodeJobBuilder.AudioChannels | src/jobs/reencode_builder.cpp:341-344 | only the channel count changes, to the value converted to 16 bits unsigned |
| ReencodeBuilder.ReencodeJobBuilder.YoutubePreset | src/jobs/reencode_builder.cpp:350-358 | applies the YouTube settings (x264, CRF 23, medium, 8-bit, audio copied, mp4), the paths untouched |
| ReencodeBuilder.ReencodeJobBuilder.X264Preset | src/jobs/reencode_builder.cpp:360-369 | applies the x264 settings (CRF 16, slow, direct=spatial:me=umh, 8-bit, audio copied, mp4) |
| ReencodeBuilder.ReencodeJobBuilder.X265Preset | src/jobs/reencode_builder.cpp:371-379 | applies the x265 settings (CRF 18, medium, 8-bit, audio copied, mp4) |
| ReencodeBuilder.ReencodeJobBuilder.H264NvencPreset | src/jobs/reencode_builder.cpp:381-393 | applies the NVENC settings for H.264 (QP 18, p6, b_adapt 1, look-ahead 30, chroma offsets -2, nv12, audio copied, mp4) |
| ReencodeBuilder.ReencodeJobBuilder.H265NvencPreset | src/jobs/reencode_builder.cpp:395-407 | applies the same NVENC settings for H.265 |
| ReencodeBuilder.ReencodeJobBuilder.ProResPreset | src/jobs/reencode_builder.cpp:409-418 | applies the ProRes settings with the given profile (apl0, 8000, yuva444p10le, audio copied, mov) |
| ReencodeBuilder.ReencodeJobBuilder.Ffv1Preset | src/jobs/reencode_builder.cpp:420-430 | applies the FFV1 settings (coder 2, context 1, level 3, 12 slices, GOP 1, audio copied, mkv) |
| ReencodeBuilder.ReencodeJobBuilder.Container | src/jobs/reencode_builder.cpp:436-439 | only the container changes |
| ReencodeBuilder.ReencodeJobBuilder.ExtraArgs | src/jobs/reencode_builder.cpp:441-444 | the extra arguments are replaced |
| ReencodeBuilder.ReencodeJobBuilder.AddExtraArg | src/jobs/reencode_builder.cpp:446-449 | one extra argument is appended after the existing ones |
| ReencodeBuilder.ReencodeJobBuilder.Validate | src/jobs/reencode_builder.cpp:455-477 | reports exactly the builder check's verdict, its first failing condition standing for the exception thrown |
| ReencodeBuilder.ReencodeJobBuilder.Build | src/jobs/reencode_builder.cpp:483-490 | fails exactly when the builder check reports an error, with that error; otherwise a new job holding both paths and the configuration |
| SvtAv1Essential.QualityString | src/jobs/svt_av1_essential.cpp:62-69 | the quality word is one of low, medium and high, and it is "high" exactly for the high setting |
| SvtAv1Essential.QualityStringInjective | src/jobs/svt_av1_essential.cpp:62-69 | two quality settings give the same word exactly when they are equal |
| SvtAv1Essential.DerivedPathsBesideInput | src/jobs/svt_av1_essential.cpp:71-92 | the temporary directory, the .ivf, the extracted audio and the temporary mkv all sit in the input's own directory, named after the input's stem (the mkv is always output_temp.mkv) |
| SvtAv1Essential.IvfBesideInput | src/jobs/svt_av1_essential.cpp:78-84 | the .ivf is the input's stem plus ".ivf" in the input's directory |
| SvtAv1Essential.AudioBesideInput | src/jobs/svt_av1_essential.cpp:86-92 | the audio file is the input's stem plus "_audio.mka" in the input's directory |
| SvtAv1Essential.TempMkvBesideInput | src/jobs/svt_av1_essential.cpp:244-247 | the temporary mkv is output_temp.mkv in the input's directory |
| SvtAv1Essential.TempDirIsNotAnOutput | src/jobs/svt_av1_essential.cpp:71-92 | the directory removed at cleanup is never the .ivf or the audio file |
| SvtAv1Essential.TempDirIsInputWithoutExtension | src/jobs/svt_av1_essential.cpp:71-76 | for an input without an extension the temporary directory is the input path itself, so cleanup would remove that path |
| SvtAv1Essential.SlashedFacts | src/jobs/svt_av1_essential.cpp:104-105 | replacing backslashes leaves none, keeps the length, is idempotent and changes nothing in a path without backslashes |
| SvtAv1Essential.ReplaceInPlace | src/jobs/svt_av1_essential.cpp:104-105 | the array afterwards holds the old contents with every occurrence of one character replaced by the other |
| SvtAv1Essential.SlashedCopy | src/jobs/svt_av1_essential.cpp:101-105 | a copy of the string with every backslash turned into a forward slash |
| SvtAv1Essential.FlagTokensFacts | src/jobs/svt_av1_essential.cpp:112-117 | each of -aggressive, -unshackle and -verboseOutput is present exactly when its switch is on, the count is the number of switches on, and they appear in that fixed order |
| SvtAv1Essential.PrefixedAppend | src/jobs/svt_av1_essential.cpp:112-117 | writing each flag after a space distributes over concatenation of the flag lists |
| SvtAv1Essential.PrefixedSwitch | src/jobs/svt_av1_essential.cpp:112-113 | a switched-on flag contributes a space and its name, a switched-off one nothing |
| SvtAv1Essential.FlagsTextTokens | src/jobs/svt_av1_essential.cpp:112-117 | the text the three conditional appends write equals the flag list, each flag preceded by a space |
| SvtAv1Essential.AbeCommand | src/jobs/svt_av1_essential.cpp:94-120 | the booster command starts with the PowerShell launcher and ends with -quality, the quality word and the switches that are on |
| SvtAv1Essential.AbeCommandLastChar | src/jobs/svt_av1_essential.cpp:94-120 | the booster command ends with the last letter of the quality word or of a switch, which sets it apart from the audio and mux commands |
| SvtAv1Essential.AudioCommand | src/jobs/svt_av1_essential.cpp:176-183 | the audio extraction command always ends with the overwrite switch -y |
| SvtAv1Essential.MuxCommand | src/jobs/svt_av1_essential.cpp:263-268 | the mux command always ends with the closing quote of the audio path |
| SvtAv1Essential.MuxCommandText | src/jobs/svt_av1_essential.cpp:252-268 | the stream appends of the slashed mkvmerge, temporary mkv, .ivf and audio paths give exactly the specified mux command |
| SvtAv1Essential.AbeCommandShape | src/jobs/svt_av1_essential.cpp:94-120 | the booster command is the PowerShell call with the script, the slashed input and the quality, followed by the switched-on flags in order; the input it quotes has no backslash |
| SvtAv1Essential.AbeCommandEndsWithQuality | src/jobs/svt_av1_essential.cpp:108-110 | with every switch off the command ends with " -quality" and the quality word |
| SvtAv1Essential.CommandsOf | src/jobs/svt_av1_essential.cpp:94-120 | the audio, booster and mux commands of one job are pairwise different |
| SvtAv1Essential.PipelineVerdict | src/jobs/svt_av1_essential.cpp:370-395 | the run succeeds exactly when validation, audio extraction, the booster and the mux all succeed; cleanup's verdict is ignored |
| SvtAv1Essential.PipelineStopsAtFirstFailure | src/jobs/svt_av1_essential.cpp:370-382 | when a step fails the run fails with exactly the effects of the steps up to and including it |
| SvtAv1Essential.MissingIvfFails | src/jobs/svt_av1_essential.cpp:213-226 | a booster that exits with 0 but leaves no .ivf fails the run, and mkvmerge is never started |
| SvtAv1Essential.MainStepsRemoveNothing | src/jobs/svt_av1_essential.cpp:126-294 | validation, extraction, the booster and the mux never remove anything |
| SvtAv1Essential.StepsRemoveNothing | src/jobs/svt_av1_essential.cpp:126-294 | each of those four steps only creates directories, runs commands or copies |
| SvtAv1Essential.AndThenRemovesNothing | src/jobs/svt_av1_essential.cpp:370-382 | running one step after another removes nothing when neither does |
| SvtAv1Essential.CleanupRemovesOnlyTempDir | src/jobs/svt_av1_essential.cpp:300-325 | the only thing a run ever removes is the temporary directory, and it is removed exactly when the run succeeded with cleanup on and the directory present |
| SvtAv1Essential.CleanupRemovesExtensionlessInput | src/jobs/svt_av1_essential.cpp:300-316 | as written, a successful run with cleanup on over an input without an extension removes the input path itself |
| SvtAv1Essential.GuardedPipelineKeepsInput | src/jobs/svt_av1_essential.cpp:300-316 | with cleanup skipped when the temporary directory is the input, no run removes the input, and every other run is unchanged |
| SvtAv1Essential.SvtAv1EssentialJob.constructor | src/jobs/svt_av1_essential.cpp:21-24 | the job holds the two paths and the default settings |
| SvtAv1Essential.SvtAv1EssentialJob.SetQuality | src/jobs/svt_av1_essential.cpp:30-32 | only the quality changes |
| SvtAv1Essential.SvtAv1EssentialJob.SetAggressive | src/jobs/svt_av1_essential.cpp:34-36 | only the aggressive switch changes |
| SvtAv1Essential.SvtAv1EssentialJob.SetUnshackle | src/jobs/svt_av1_essential.cpp:38-40 | only the unshackle switch changes |
| SvtAv1Essential.SvtAv1EssentialJob.SetVerbose | src/jobs/svt_av1_essential.cpp:42-44 | only the verbose switch changes |
| SvtAv1Essential.SvtAv1EssentialJob.SetCleanup | src/jobs/svt_av1_essential.cpp:46-48 | only the cleanup switch changes |
| SvtAv1Essential.SvtAv1EssentialJob.SetConfig | src/jobs/svt_av1_essential.cpp:50-52 | the whole configuration is replaced through the mutable accessor |
| SvtAv1Essential.SvtAv1EssentialJob.BuildAbeCommand | src/jobs/svt_av1_essential.cpp:94-120 | the streamed command equals the specified booster command |
| SvtAv1Essential.SvtAv1EssentialJob.ValidatePaths | src/jobs/svt_av1_essential.cpp:126-145 | a missing input fails with no effect; a missing output directory is created, and only a failed creation fails the step |
| SvtAv1Essential.SvtAv1EssentialJob.ExtractAudio | src/jobs/svt_av1_essential.cpp:151-196 | the temporary directory is created when missing, then the extraction command runs and succeeds iff it exits with 0 |
| SvtAv1Essential.SvtAv1EssentialJob.RunAutoBoost | src/jobs/svt_av1_essential.cpp:202-230 | the booster command runs and the step succeeds iff it exits with 0 and the .ivf exists |
| SvtAv1Essential.SvtAv1EssentialJob.MuxFinal | src/jobs/svt_av1_essential.cpp:236-294 | mkvmerge runs; only after a zero exit is the temporary mkv copied over the output, and the step succeeds iff that copy does |
| SvtAv1Essential.SvtAv1EssentialJob.Cleanup | src/jobs/svt_av1_essential.cpp:300-325 | disabled or with the directory gone it succeeds doing nothing; otherwise it removes the temporary directory and succeeds iff that removal does |
| SvtAv1Essential.SvtAv1EssentialJob.Execute | src/jobs/svt_av1_essential.cpp:370-401 | the run's verdict and effects are exactly the specified pipeline's, whose properties are proved above |
| SvtAv1Essential.BuildCheck | src/jobs/svt_av1_essential.cpp:443-447 | build() refuses exactly a missing input or output path, the input being checked first |
| SvtAv1Essential.SvtAv1EssentialBuilder.constructor | include/jobs/svt_av1_essential.hpp:23-31 | the builder starts from the default settings |
| SvtAv1Essential.SvtAv1EssentialBuilder.Input | src/jobs/svt_av1_essential.cpp:408-411 | only the input path changes |
| SvtAv1Essential.SvtAv1EssentialBuilder.Output | src/jobs/svt_av1_essential.cpp:413-416 | only the output path changes |
| SvtAv1Essential.SvtAv1EssentialBuilder.SetQuality | src/jobs/svt_av1_essential.cpp:418-421 | only the quality changes |
| SvtAv1Essential.SvtAv1EssentialBuilder.Aggressive | src/jobs/svt_av1_essential.cpp:423-426 | the aggressive switch is turned on, nothing else |
| SvtAv1Essential.SvtAv1EssentialBuilder.Unshackle | src/jobs/svt_av1_essential.cpp:428-431 | the unshackle switch is turned on, nothing else |
| SvtAv1Essential.SvtAv1EssentialBuilder.Verbose | src/jobs/svt_av1_essential.cpp:433-436 | only the verbose switch changes, on by default |
| SvtAv1Essential.SvtAv1EssentialBuilder.Cleanup | src/jobs/svt_av1_essential.cpp:438-441 | only the cleanup switch changes, on by default |
| SvtAv1Essential.SvtAv1EssentialBuilder.Build | src/jobs/svt_av1_essential.cpp:443-452 | fails exactly when the build check reports an error, with that error; otherwise a new job holding the builder's whole configuration |
| Probe.SkipBlanks | src/jobs/probe.cpp:95 | the position returned is the first at or after the start that is not a space or tab, or the end |
| Probe.NumberEnd | src/jobs/probe.cpp:108-111 | the position returned ends the longest run of digits, dots and minus signs from the start |
| Probe.NoCharBefore | src/jobs/probe.cpp:102 | when find reports no earlier occurrence of a character, none of the skipped positions holds it |
| Probe.ValueAt | src/jobs/probe.cpp:97-112 | a value read at a position never contains a double quote |
| Probe.ValueAtShape | src/jobs/probe.cpp:97-112 | a value read at a position is "N/A", a run of number characters, or text that appears between double quotes in the input |
| Probe.JsonValue | src/jobs/probe.cpp:89-112 | a key whose quoted form followed by a colon does not occur gives "N/A"; no value contains a double quote |
| Probe.ValueAfter | src/jobs/probe.cpp:91-112 | a pattern that does not occur gives "N/A"; no value contains a double quote |
| Probe.JsonValueShape | src/jobs/probe.cpp:89-112 | every extracted value is "N/A", a run of number characters, or a quoted string of the input |
| Probe.ValueAfterShape | src/jobs/probe.cpp:91-112 | the same three shapes for the value after any pattern |
| Probe.ReadValueAt | src/jobs/probe.cpp:97-112 | the loops reading a quoted or numeric value give exactly the specified value |
| Probe.ExtractJsonValue | src/jobs/probe.cpp:89-113 | the method's value is exactly the specified JSON value for the key |
| Probe.ReadValueAfter | src/jobs/probe.cpp:91-112 | the find, the blank-skipping loop and the value read give exactly the value after the search key |
| Probe.JsonValueNumber | src/jobs/probe.cpp:108-112 | reading "width" in {"width": 1920, gives 1920 |
| Probe.JsonValueBoolean | src/jobs/probe.cpp:108-112 | a boolean value is read as the empty string, since its letters are not number characters |
| Probe.Scan | src/jobs/probe.cpp:195-202 | each position the counting loop visits lies at or after its start, with room for the 12-character key |
| Probe.Classified | src/jobs/probe.cpp:197-200 | exactly the counter of the read type goes up by one; any other type changes no counter |
| Probe.Tally | src/jobs/probe.cpp:191-202 | the three counters together never exceed the number of visited positions |
| Probe.TallyAccounts | src/jobs/probe.cpp:191-202 | every visited occurrence is counted once: as video, audio or subtitle, or as unclassified |
| Probe.ScanVisitsOccurrences | src/jobs/probe.cpp:196 | every visited position holds the quoted codec_type key |
| Probe.ScanAdvances | src/jobs/probe.cpp:201 | visited positions strictly increase, at least 12 characters apart |
| Probe.TallyAppend | src/jobs/probe.cpp:197-200 | one more visited position adds its type to the tally |
| Probe.ScanStep | src/jobs/probe.cpp:196-201 | one loop iteration moves the found position from the remaining scan to the visited ones |
| Probe.CountStreams | src/jobs/probe.cpp:191-202 | the loop's counts are exactly the tally of the scanned positions |
| Probe.Section | src/jobs/probe.cpp:210-212 | a section exists exactly when the marker occurs; it is at most 1000 characters long and starts with the marker |
| Probe.SectionStartsWithMarker | src/jobs/probe.cpp:212 | a cut of up to 1000 characters at an occurrence of a short marker starts with that marker |
| Probe.Summarize | src/jobs/probe.cpp:144-265 | video details are read exactly when a video stream marker occurs, audio details exactly when an audio marker occurs, and a missing duration stays "N/A" |
| Probe.SkipSpaces | src/jobs/probe.cpp:176 | what follows the leading white space that std::stod and std::stoll skip: a suffix of the text that does not start with white space |
| Probe.LeadingDigits | src/jobs/probe.cpp:181 | the longest run of digits at the start of the text, the part std::stoll reads |
| Probe.StollAcceptsToString | src/jobs/probe.cpp:181-187 | std::stoll accepts every long long written in decimal and reads back the same number |
| Probe.NotAvailableRejected | src/jobs/probe.cpp:175-187 | "N/A" itself would be rejected by both conversions, which is why each value is compared with it first |
| Probe.BooleanDurationRejected | src/jobs/probe.cpp:175-177 | a duration given as a JSON boolean reads as the empty text, so the output does not convert |
| Probe.Pow1024 | src/jobs/probe.cpp:120-123 | every power of 1024 is at least 1 |
| Probe.UnitIndex | src/jobs/probe.cpp:116-123 | the unit index is at most 4 (TB); a unit above bytes is used only for a size of at least its power of 1024, and a unit below TB only for a size under the next power |
| Probe.ScaledAtLeast | src/jobs/probe.cpp:120-121 | comparing the scaled size with 1024 is comparing the size with the next power, and a further division by 1024 reaches it |
| Probe.Pow1024Grows | src/jobs/probe.cpp:120-123 | powers of 1024 grow with the exponent |
| Probe.FormatBytes | src/jobs/probe.cpp:115-128 | the text is the size divided by the chosen unit's power, printed with two decimals, then a space and the unit name |
| Probe.TruncDiv | src/jobs/probe.cpp:131-132 | integer division rounds toward zero for negative numbers, as C++ int division does |
| Probe.TruncMod | src/jobs/probe.cpp:132-133 | the remainder takes the sign of the dividend and recombines with the truncated quotient |
| Probe.DurationFieldsRecombine | src/jobs/probe.cpp:131-133 | hours, minutes and seconds add back up to the whole seconds; minutes and seconds are below 60 for a non-negative duration and never positive for a negative one |
| Probe.Padded | src/jobs/probe.cpp:137-140 | zero padding gives at least the width and ends with the number's digits |
| Probe.PaddedExact | src/jobs/probe.cpp:137-140 | a non-negative number with no more digits than the width fills exactly the width |
| Probe.DurationTextLayout | src/jobs/probe.cpp:130-142 | below 100 hours the duration text is always twelve characters, with colons at positions 2 and 5 and the dot at 8 |
| Probe.ExportPathBesideInput | src/jobs/probe.cpp:80-87 | the export file sits in the input's directory, named after the input's stem with _ffprobe.json or _ffprobe.txt |
| Probe.ExportPathsDiffer | src/jobs/probe.cpp:83-85 | the JSON and the text export of one input are different files |
| Probe.SpacedSnoc | src/jobs/probe.cpp:51-54 | joining one more argument adds a space and that argument |
| Probe.JoinArgs | src/jobs/probe.cpp:50-54 | when the first argument is not empty, the loop's result is the arguments separated by single spaces |
| Probe.ProbeCommandText | src/jobs/probe.cpp:34-56 | the command is the ffprobe path, -v quiet -print_format json -show_format -show_streams and the quoted input, each separated by one space |
| Probe.ProbeJob.constructor | src/jobs/probe.cpp:20-24 | the job holds the input file, no output yet, and export switched off |
| Probe.ProbeJob.SetShouldExport | include/jobs/probe.hpp:22 | only the export switch changes |
| Probe.ProbeJob.SetExportPath | include/jobs/probe.hpp:23 | only the export path changes |
| Probe.ProbeJob.GenerateExportPath | src/jobs/probe.cpp:80-87 | the path is the specified export path beside the input |
| Probe.ProbeJob.BuildFFProbeCommand | src/jobs/probe.cpp:34-57 | the command is the probe arguments separated by single spaces |
| Probe.ProbeJob.ParseAndFormatOutput | src/jobs/probe.cpp:144-269 | succeeds exactly when every duration, size, bitrate and frame-rate value that is converted converts; then the summary read from the captured output is stored, otherwise it is left as it was; nothing else changes |
| Probe.ProbeJob.Execute | src/jobs/probe.cpp:26-32 | succeeds exactly when ffprobe exits with status zero and the values convert; a non-zero exit leaves the job unchanged, a zero exit keeps the captured text, and the summary is stored only on success |
| Text.NatToString | src/jobs/codec_utils.cpp:54 | the decimal text of a natural number is non-empty, all digits, and one digit long exactly below 10 |
| Text.IntToString | src/jobs/reencode.cpp:158 | the decimal text of an integer is non-empty and starts with a minus sign exactly when the number is negative |
| Text.IntToStringIsPlain | src/jobs/encode.cpp:101-102 | a number's text has no space, quote or apostrophe and never looks like an option |
| Text.ParseNatToString | src/jobs/codec_utils.cpp:54 | reading back the text of a natural number gives the number |
| Text.IntToStringRoundTrip | src/jobs/reencode.cpp:156-159 | reading back the text of any integer, negative ones included, gives the integer |
| Text.Find | src/jobs/probe.cpp:91 | a found position holds the pattern and is the first at or after the start; none is found only when the pattern occurs nowhere from the start on |
| Text.FindFromStart | src/jobs/probe.cpp:91-92 | a search from the start succeeds exactly when the text contains the pattern |
| Text.LastIndexOf | src/jobs/svt_av1_essential.cpp:73 | the last occurrence of a character: it holds the character, no later position does, and there is none only when the character is absent |
| Text.LastIndexOfAt | src/jobs/svt_av1_essential.cpp:73 | a position holding the character with none after it is the last occurrence |
| Text.Replaced | src/jobs/svt_av1_essential.cpp:102-103 | the replaced string keeps the length and changes exactly the occurrences of the replaced character |
| Paths.Join | src/jobs/encode.cpp:106 | operator/ keeps an absolute right side as it is; otherwise the result starts with the directory and always ends with the name |
| Paths.ParentPath | src/jobs/svt_av1_essential.cpp:73 | the parent is never longer than the path and is empty for a path without a separator |
| Paths.Filename | tools/test_filtering.cpp:119 | the file name has no separator and ends the path |
| Paths.ExtensionDot | tools/test_filtering.cpp:119 | a found extension dot is the last dot of the file name and never its first character |
| Paths.Stem | src/jobs/svt_av1_essential.cpp:74 | the stem is a prefix of the file name |
| Paths.StemHasNoSeparator | src/jobs/probe.cpp:82 | the stem never contains a separator |
| Paths.Extension | tools/test_filtering.cpp:119 | the extension is empty or starts with a dot, and ends the file name |
| Paths.StemExtension | tools/test_filtering.cpp:119 | stem and extension together are exactly the file name |
| Paths.JoinParentFilename | src/jobs/probe.cpp:85 | a path without empty elements is its parent joined with its file name |
| Paths.InDirectory | src/jobs/svt_av1_essential.cpp:78-83 | joining a plain name onto a path's parent gives a sibling: same parent, that file name |
| Paths.StemNameBesideInput | src/jobs/probe.cpp:80-87 | the stem plus a separator-free suffix lands in the input's directory under exactly that name |
| Process.ArgVector.constructor | src/jobs/encode.cpp:95 | a new argument vector is empty |
| Process.ArgVector.PushBack | src/jobs/encode.cpp:98 | push_back appends one argument after the existing ones |
| Process.ArgVector.PushPair | src/jobs/encode.cpp:101-102 | an option and its value are appended, in that order, after the existing arguments |
| StringUtils.Unquoted | include/core/string_utils.hpp:13-25 | at most one character goes from each end; a leading quote or apostrophe goes, then a trailing one; a string that neither starts nor ends with a quote comes back unchanged |
| StringUtils.UnquotedWrapped | include/core/string_utils.hpp:16-22 | any text wrapped in two quote characters, even mismatched ones, comes back exactly |
| StringUtils.UnquotedOnlyOnce | include/core/string_utils.hpp:16-22 | only one quote is removed from each end: doubled quotes leave one quote on each side |
| StringUtils.UnquotedLoneQuote | include/core/string_utils.hpp:16-22 | a lone quote or apostrophe is removed entirely |
| StringUtils.RemoveQuotes | include/core/string_utils.hpp:13-25 | the erase and pop_back steps compute the unquoted string |
| StringUtils.DropLeading | include/core/string_utils.hpp:33-36 | the remainder is no longer than the input and does not start with whitespace |
| StringUtils.DropTrailing | include/core/string_utils.hpp:38-41 | the remainder is no longer than the input and does not end with whitespace |
| StringUtils.DropLeadingSuffix | include/core/string_utils.hpp:33-36 | skipping leading whitespace leaves a suffix of the input |
| StringUtils.DropTrailingPrefix | include/core/string_utils.hpp:38-41 | dropping trailing whitespace leaves a prefix of the input |
| StringUtils.DropLeadingAt | include/core/string_utils.hpp:33-36 | the first non-whitespace position is where the remainder starts |
| StringUtils.DropTrailingAt | include/core/string_utils.hpp:38-41 | the position after the last non-whitespace character is where the remainder ends |
| StringUtils.DropLeadingRemovesSpace | include/core/string_utils.hpp:34 | only whitespace is skipped at the front |
| StringUtils.DropTrailingRemovesSpace | include/core/string_utils.hpp:41 | only whitespace is dropped at the back |
| StringUtils.TrimmedIsCore | include/core/string_utils.hpp:32-44 | the trimmed string is a contiguous slice of the input with no whitespace at either end, and everything outside it is whitespace |
| StringUtils.TrimmedEmptyIff | include/core/string_utils.hpp:32-44 | trimming gives the empty string exactly when the input is all whitespace |
| StringUtils.TrimmedIdempotent | include/core/string_utils.hpp:32-44 | trimming twice is trimming once |
| StringUtils.TrimmedRange | include/core/string_utils.hpp:43 | the slice between the two iterators, once both have stopped, is the trimmed string |
| StringUtils.LastKept | include/core/string_utils.hpp:38-41 | the backward scan stops at or after start, on a non-whitespace character when there is one, with only whitespace behind it |
| StringUtils.Trim | include/core/string_utils.hpp:32-44 | the two iterator loops compute the trimmed string; on the empty string the result is empty |
| StringUtils.TrimAsWritten | include/core/string_utils.hpp:38-41 | the code as written has no defined result exactly on the empty string |
| StringUtils.TrimAsWrittenAgrees | include/core/string_utils.hpp:32-44 | the code as written and the trimmed string agree on every non-empty input; on the empty input only the intended result exists |
| StringUtils.Cleaned | include/core/string_utils.hpp:51-53 | cleaning never lengthens a string |
| StringUtils.CleanKeepsInnerSpace | include/core/string_utils.hpp:51-53 | whitespace inside the quotes survives, because trimming happens before unquoting |
| StringUtils.CleanQuotedPath | include/core/string_utils.hpp:51-53 | a quoted path with whitespace around it cleans to the bare path |
| StringUtils.Clean | include/core/string_utils.hpp:51-53 | the method computes trim followed by removeQuotes |
| TestFiltering.SwitchesStartWithPathsProfileCodec | tools/test_filtering.cpp:54-57 | every filtering command begins with the quoted input and output files, the profile and the codec, in that order |
| TestFiltering.AscendingExtend | tools/test_filtering.cpp:59-73 | appending an optional switch of higher rank keeps the switches in their fixed order |
| TestFiltering.FixedAscending | tools/test_filtering.cpp:54-57 | the four fixed switches are in order |
| TestFiltering.OptionalRanks | tools/test_filtering.cpp:59-73 | quality, preset, verbose and analyze follow the fixed switches in that order |
| TestFiltering.SwitchesInOrder | tools/test_filtering.cpp:54-73 | the switches of every command appear in the fixed order, whichever optional ones are present |
| TestFiltering.QualityIff | tools/test_filtering.cpp:59-61 | -quality is passed exactly when the codec is neither prores nor ffv1 |
| TestFiltering.PresetIff | tools/test_filtering.cpp:63-65 | -preset is passed exactly when the codec is x264, x265 or av1 |
| TestFiltering.BareSwitchesIff | tools/test_filtering.cpp:67-73 | -verboseOutput and -analyzeOnly are passed exactly when their flags are set |
| TestFiltering.SwitchesFlags | tools/test_filtering.cpp:54-73 | the flag sequence is the four fixed flags followed by each optional flag whose condition holds |
| TestFiltering.CommandFromSnoc | tools/test_filtering.cpp:54-73 | each += appends the rendering of one switch to the command so far |
| TestFiltering.LauncherText | tools/test_filtering.cpp:53 | the command starts with the PowerShell launcher and the quoted script path |
| TestFiltering.OptionalStep | tools/test_filtering.cpp:59-73 | a guarded += appends the switch's rendering when its condition holds and nothing otherwise |
| TestFiltering.QuotedPiece | tools/test_filtering.cpp:54-55 | a path switch renders as a space, the flag, a space and the quoted path |
| TestFiltering.ValuedPiece | tools/test_filtering.cpp:56-57 | a valued switch renders as a space, the flag, a space and the value |
| TestFiltering.FixedPieces | tools/test_filtering.cpp:54-57 | each fixed += appends exactly its switch's rendering |
| TestFiltering.OptionalPieces | tools/test_filtering.cpp:60-72 | each optional += appends exactly its switch's rendering |
| TestFiltering.FixedText | tools/test_filtering.cpp:53-57 | the launcher followed by the fixed switches is the text the first five lines build |
| TestFiltering.BuildFilteringCommand | tools/test_filtering.cpp:42-76 | the command is the launcher followed by the switches in order, each present exactly under its condition |
| TestFiltering.StripSurroundingQuotes | tools/test_filtering.cpp:109-111 | a path wrapped in double quotes loses exactly them; any other input, including a lone quote, is unchanged |
| TestFiltering.StripQuotedRoundTrip | tools/test_filtering.cpp:109-111 | stripping a quoted path gives the path back |
| TestFiltering.StripNarrowerThanUnquoted | tools/test_filtering.cpp:109-111 | on a double-quoted path it agrees with removeQuotes, but it leaves apostrophes and a lone quote alone where removeQuotes removes them |
| TestFiltering.FilteredOutputBesideInput | tools/test_filtering.cpp:119 | the output file sits in the input's directory, named stem plus _filtered plus the extension |
| TestFiltering.FilteredOutputDiffersFromInput | tools/test_filtering.cpp:119 | the output path never overwrites the input |
| TestFiltering.ChosenProfile | tools/test_filtering.cpp:133-147 | the profile is always one of the four names; analysis only is chosen exactly when the answer starts with 5; an empty answer means medium without analysis |
| TestFiltering.ChosenCodec | tools/test_filtering.cpp:158-170 | the codec is always one of the five menu names, and x264 for an empty or unknown answer |
| TestFiltering.MenuCodecSwitches | tools/test_filtering.cpp:158-170 | for every codec the menu can choose, -quality is passed exactly when -preset is |

## Left out

- Processes: running ffmpeg, ffprobe, mkvmerge or PowerShell is not modelled. Each job's `Execute` takes the exit status as a parameter and records the command as an action.
- File system: `fs::exists`, `create_directories`, `copy_file` and `remove_all` are not modelled. Their outcomes are parameters; in the Auto-Boost pipeline they are the fields of an `Outcomes` record, independent of each other and of the actions, so a directory the pipeline creates is not thereby known to exist at cleanup.
- Exceptions: a thrown `std::runtime_error` becomes an error result, and a caught exception in `execute` becomes a `false` verdict.
- src/core/ffmpeg_process.cpp, src/core/path_utils.cpp, src/core/app.cpp and src/core/input.cpp are not part of this model. They spawn processes, read the working directory and run the interactive menus; the extern directory is a parameter.
- Console output: the ANSI colours of include/core/colors.hpp, the banner of the Auto-Boost job and the printed progress and error messages are not modelled.
- Probe I/O: `executeFFProbe` (pipes and process creation), `readFileContent` and `writeToFile` are not modelled; the ffprobe output text is a parameter.
- Probe output layout: the report printed by `parseAndFormatOutput` is not modelled beyond its stream counts and the values it extracts.
- Floating point: the digits of the mastering-display values, the two-decimal scene threshold, the mantissa of `formatBytes` and the FPS division are produced by a formatter parameter. The fractional milliseconds of `formatDuration` and the numbers `std::stod` returns are not modelled; which texts `std::stod` and `std::stoll` accept is. Thresholds are `real`s, not IEEE doubles.
- Paths are POSIX, with `/` as the only separator. Windows drive letters and `\` separators are not modelled, except where the Auto-Boost command replaces `\` by `/`.
- `isspace` is modelled for the ASCII whitespace characters only; locale-dependent characters are not.
- examples/example_encode_usage.cpp and examples/example_prores_usage.cpp are not part of this model. They are demo programs written against an older API.
- include/jobs/encode_builder.hpp is not part of this model. Its methods have no implementation in the repository.
- tools/test_filtering.cpp: the project-root search, the prompts for quality and preset, and the final `system` call in `main` are not modelled; the menu answers are parameters.
- ReencodeBuilder.ReencodeJobBuilder.Cbr: the buffer size is `kbps * 2` on unbounded integers; the 32-bit `int` overflow for very large rates is not modelled.
- Probe.ProbeJob.ParseAndFormatOutput: `std::stod`'s `std::out_of_range` (a value beyond the range of a double, such as "1e999") is not modelled; such a value counts as converting.
- Probe.ProbeJob.Execute: the same `std::stod` range error is not modelled, for the same reason.
- Reencode.ReencodeJob.AddRateControlArgs: the CBR buffer fallback `bitrate_kbps * 2` (CbrBufferSize) is on unbounded integers; the 32-bit `int` overflow for rates above 1073741823 kbps is not modelled.
- Probe.JoinArgs: the result is stated only when the first argument is non-empty. The ffprobe path always is; with an empty first argument the second would lose its leading space.

## Findings

| source | as written | input that shows it | evidently intended | confidence | as-written member | corrected member |
|---|---|---|---|---|---|---|
| include/core/string_utils.hpp:38-41 | `trim` decrements its end iterator once before the first test, so on an empty string it steps before `begin()` (undefined behaviour) | `trim("")`, reached through `clean` when the user enters an empty line | `trim("") == ""`; on every non-empty input both agree | not executed | StringUtils.TrimAsWritten | StringUtils.Trim |
| src/jobs/svt_av1_essential.cpp:71-76 | `getTempDir` is the parent joined with the stem, so for an input without an extension it is the input path. `extractAudio` then finds it present and creates nothing (lines 157-159), and `cleanup` calls `remove_all` on it (lines 311-315) | input `/videos/clip` with cleanup on and a successful run: the source video is deleted | the temporary directory is never the input, and cleanup never removes the input | not executed | SvtAv1Essential.CleanupRemovesExtensionlessInput | SvtAv1Essential.GuardedPipelineKeepsInput |
