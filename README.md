# VarjoDataStreamServer frame pipeline, modelled in Dafny

VarjoDataStreamServer takes camera frames from a Varjo headset and sends them to several consumers: an ffmpeg encoder, an ffplay previewer, a CSV metadata log and a timestamp CSV log. Each frame is an NV12 pixel buffer plus a metadata record. This project models the core of that pipeline and proves what it promises:

- **NV12 padding removal** (`remove_padding`). A frame's luma plane and chroma plane are padded with `row_stride` bytes per row. Removing the padding packs the rows into a buffer of `width * height + (width * height) / 2` bytes. Module `Nv12`, an in-place algorithm over `array<byte>`.
- **Bounded per-channel queues** in the camera streamers. A frame is pushed by channel, and the oldest entries are trimmed above capacity. `take_*_que` hands a queue over and leaves it empty. The dummy streamer replays recorded frames.
  - Modules `VstCamStreamer` and `EyeCamStreamer`.
- **Serial and parallel sinks**: the VST video writer, the previewer, the metadata writer and the timestamp CSV writer.
  - A parallel sink is modelled as a sequence of atomic steps:
    - `Submit` appends to the queue.
    - For the VST writer and previewer, `TakeBatch` swaps the whole queue out under the lock, and `WriteBatch` or `ShowBatch` writes that batch in order with the lock released. Module `BatchWorker` proves what any interleaving of these steps keeps and what `close` loses.
    - For the metadata and timestamp CSV writers, `WorkerStep` takes the whole queue and writes it in order.
    - `Close` either writes what is still queued or loses it, as each class does.
  - Everything sent through a pipe or to a file is kept as a log (`written`, `out`). Whether `_popen` or the file open succeeds is an input.
  - Modules `BatchWorker`, `VstVideoWriter`, `VstVideoPreviewer`, `EyeCamVideoWriter`, `MetadataWriter`, `TimestampCsv` and `Pipes`.
- **Command and option construction**:
  - the ffmpeg and ffplay command lines;
  - the codec-to-name and codec-to-device maps;
  - the quality-to-encoder-option builders;
  - the encode-option variant dispatch.
  - Modules `Codec`, `Encoding`, `VstVideoWriter`, `VstVideoPreviewer` and `EyeCamVideoWriter`.
- **Fan-out and configuration**:
  - the VST data logger normalises each frame and forwards it to the writer, then to the previewer;
  - the frame dispatcher's constructor decides which sinks exist;
  - the timestamp streamer and logger pass records from a periodic worker to a CSV writer.
  - Modules `DataLogger`, `FrameDispatcher`, `TimestampStreamer` and `TimestampLogger`.
- **Utilities**:
  - filename-conflict resolution over a set of existing paths;
  - the `BorrowedOrOwned` union;
  - the gaze status printers.
  - Modules `FilesystemUtil`, `BorrowedOrOwned` and `VarjoToString`.

`Common` holds bytes, the exception kinds and the `Option`/`Result`/`Outcome` wrappers. `Text` holds decimal printing, joining, splitting and the lemmas about them. `Frames` holds the frame and metadata records and the `Latest` window.

Where the documented design and the code differ, the model follows the code. The exceptions are the members marked "(corrected; see ## Findings)" in the table below. For those, the code as written is modelled by a separate member, and "## Left out" says what the corrected member does not capture.

- **VST streamer trim.** The trimming loop of the VST streamers re-evaluates `size() - capacity` after every pop. It therefore removes only about half of a larger excess (`PopCount`). From a queue that is within capacity, it still restores the bound.
- **Previewer worker.** The parallel previewer's worker writes every queued frame in order. It never skips to the most recent one.
- **VST parallel close.** The VST parallel writer and previewer test the stop flag only at the top of the worker loop. If `close` raises the flag while the worker writes a batch, the worker returns after that batch. Frames queued in the meantime are never written.
- **Timestamp CSV close.** The parallel timestamp CSV writer's worker exits on the stop flag without writing what is queued. Records pending at `close` are lost.

## Model

| member | source | states |
|---|---|---|
| Nv12.FilledWithinTight | VarjoDataStreamServer/VarjoVSTFrame/utility.hpp:58-67 | the two copy loops never fill more than the returning overload allocates, and fill all of it when the height is even |
| Nv12.Rows | VarjoDataStreamServer/VarjoVSTFrame/utility.hpp:33-39 | a block of `count` copied rows has `count * width` bytes |
| Nv12.Unpad | VarjoDataStreamServer/VarjoVSTFrame/utility.hpp:27-47 | the copied luma and chroma rows total `height * width + (height / 2) * width` bytes |
| Nv12.Normalized | VarjoDataStreamServer/VarjoVSTFrame/utility.hpp:58-67 | the packed frame has exactly `width * height + (width * height) / 2` bytes |
| Nv12.RowsRow | VarjoDataStreamServer/VarjoVSTFrame/utility.hpp:33-39 | row `r` of a copied block is the first `width` bytes of source row `r`, taken `r * row_stride` bytes in |
| Nv12.LumaPlane | VarjoDataStreamServer/VarjoVSTFrame/utility.hpp:33-39 | the first `height * width` packed bytes are the luma rows read at `row_stride` spacing from the start of the raw frame |
| Nv12.ChromaPlane | VarjoDataStreamServer/VarjoVSTFrame/utility.hpp:40-47 | the next `(height / 2) * width` packed bytes are the chroma rows read at `row_stride` spacing from offset `row_stride * height` |
| Nv12.BlockRow | VarjoDataStreamServer/VarjoVSTFrame/utility.hpp:33-47 | wherever a block of rows is placed, output row `r` equals input row `r` without its padding |
| Nv12.RowsContiguous | VarjoDataStreamServer/VarjoVSTFrame/utility.hpp:33-39 | without padding, the copied rows are a plain slice of the input |
| Nv12.NoPaddingIsPrefix | VarjoDataStreamServer/VarjoVSTFrame/utility.hpp:27-47 | when `row_stride == width`, the output is the first `width*height + width*(height/2)` input bytes |
| Nv12.NormalizeIdempotent | VarjoDataStreamServer/VarjoVSTFrame/utility.hpp:58-67 | packing an already tight frame again (stride = width) returns it unchanged |
| Nv12.CopyBytes | VarjoDataStreamServer/VarjoVSTFrame/utility.hpp:34-38 | `memcpy` overwrites exactly `len` bytes at the destination offset with the source slice; the rest of the buffer is unchanged |
| Nv12.CopyRow | VarjoDataStreamServer/VarjoVSTFrame/utility.hpp:33-39 | one loop iteration extends the rows in place by row `i`, leaving the bytes around them unchanged |
| Nv12.CopyRows | VarjoDataStreamServer/VarjoVSTFrame/utility.hpp:41-47 | a copy loop writes exactly the block of rows at its destination offset and nothing else |
| Nv12.RemovePaddingInto | VarjoDataStreamServer/VarjoVSTFrame/utility.hpp:19-48 | the in-place overload writes the luma rows, then the chroma rows, and leaves the buffer's tail untouched |
| Nv12.RemovePadding | VarjoDataStreamServer/VarjoVSTFrame/utility.hpp:58-67 | the returning overload yields `width*height + (width*height)/2` bytes: the packed planes in a zeroed buffer |
| Nv12.ThreeHalves | VarjoDataStreamServer/VarjoVSTFrame/VarjoVSTVideoPreviewer.cpp:68 | `width * height * 3 / 2` is the same size as `width*height + (width*height)/2` |
| Nv12.NewTightBuffer | VarjoDataStreamServer/VarjoVSTFrame/VarjoVSTVideoWriter.cpp:105 | a fresh zeroed tight buffer has the tight size, and its bytes past the planes are zero |
| Nv12.NormalizeInto | VarjoDataStreamServer/VarjoVSTFrame/VarjoVSTVideoPreviewer.cpp:72-73 | packing into a reused tight buffer gives exactly the returning overload's result, and keeps the buffer's tail zero |
| Codec.CodecName | VarjoDataStreamServer/VarjoVSTFrame/varjo_vst_frame_type.hpp:19-28 | "h264_nvenc" exactly for h264_nvenc; "libx264" for libx264 and any other value |
| Codec.DeviceOf | VarjoDataStreamServer/VarjoVSTFrame/varjo_vst_frame_type.hpp:35-44 | GPU exactly for h264_nvenc; CPU otherwise |
| Codec.DeviceFollowsName | VarjoDataStreamServer/VarjoVSTFrame/varjo_vst_frame_type.hpp:19-44 | the device can be read off the encoder name, in both directions |
| Codec.CodecNameInjective | VarjoDataStreamServer/VarjoVSTFrame/varjo_vst_frame_type.hpp:6-28 | the two declared codecs have different names |
| Codec.UnlistedFallsBackToLibx264 | VarjoDataStreamServer/VarjoVSTFrame/varjo_vst_frame_type.hpp:19-44 | an undeclared codec value behaves like libx264 in both maps |
| Encoding.ContainerName | VarjoDataStreamServer/VarjoVSTFrame/utility.hpp:69-78 | "mkv" exactly for mkv; "mp4" for mp4 and anything else |
| Encoding.MakeX264Options | VarjoDataStreamServer/VarjoVSTFrame/utility.hpp:90-104 | the explicit x264 builder copies its arguments unchanged |
| Encoding.X264Crf | VarjoDataStreamServer/VarjoVSTFrame/utility.hpp:111-137 | the chosen crf lies in 0..51 and is 0 exactly for lossless |
| Encoding.X264OptionsFor | VarjoDataStreamServer/VarjoVSTFrame/utility.hpp:111-137 | the by-quality x264 options are preset veryfast, crf mode and qp 0 |
| Encoding.MakeNvencH264Options | VarjoDataStreamServer/VarjoVSTFrame/utility.hpp:148-166 | the explicit NVENC builder copies its arguments unchanged |
| Encoding.NvencCq | VarjoDataStreamServer/VarjoVSTFrame/utility.hpp:173-208 | the chosen cq lies in 0..51 and is 0 exactly for lossless |
| Encoding.NvencH264OptionsFor | VarjoDataStreamServer/VarjoVSTFrame/utility.hpp:173-208 | preset p1, qp 0, no adaptive quantisation; constant-QP mode exactly for lossless |
| Encoding.MakeFfv1Options | VarjoDataStreamServer/VarjoVSTFrame/utility.hpp:213-221 | the explicit FFV1 builder keeps the level |
| Encoding.Ffv1OptionsFor | VarjoDataStreamServer/VarjoVSTFrame/utility.hpp:226-231 | every quality gives FFV1 level 3 |
| Encoding.X264ForIsExplicit | VarjoDataStreamServer/VarjoVSTFrame/utility.hpp:90-137 | the by-quality builder is the explicit one with the tabled crf (Lossless 0, High 18, Medium 23, Low 28); an unlisted quality gives the explicit defaults |
| Encoding.RateFactorMonotone | VarjoDataStreamServer/VarjoVSTFrame/utility.hpp:111-208 | a worse quality never gets a smaller crf or cq |
| Encoding.NvencForIsExplicit | VarjoDataStreamServer/VarjoVSTFrame/utility.hpp:148-208 | the by-quality NVENC builder is the explicit one with the tabled cq (19/23/28, default 19); an unlisted quality gives the explicit defaults |
| Encoding.NvencLossless | VarjoDataStreamServer/VarjoVSTFrame/utility.hpp:175-182 | lossless NVENC is constant QP with qp = cq = 0 |
| Encoding.HighIsStructDefault | VarjoDataStreamServer/VarjoEyeCam/EyeCam_types.hpp:22-46 | High quality reproduces the struct initialisers of the option records; the two encoders disagree only at High |
| Frames.Latest | VarjoDataStreamServer/VarjoEyeCam/EyeCamDataStreamer.cpp:56-65 | the window a drop-oldest queue keeps: the last `n` elements, in order |
| VstCamStreamer.PopCount | VarjoDataStreamServer/VarjoVSTFrame/VarjoVSTCamStreamer.cpp:63-68 | the trimming loop removes nothing within capacity, at least one element above it, and never more than the queue holds |
| VstCamStreamer.Admit | VarjoDataStreamServer/VarjoVSTFrame/VarjoVSTCamStreamer.cpp:59-68 | after a push and the trim, the queue is a suffix of the old queue plus the new frame |
| VstCamStreamer.PopCountRestoresOnlySingleExcess | VarjoDataStreamServer/VarjoVSTFrame/VarjoVSTCamStreamer.cpp:63-68 | the loop restores the bound exactly when the excess is one |
| VstCamStreamer.AdmitWithinCapacity | VarjoDataStreamServer/VarjoVSTFrame/VarjoVSTCamStreamer.cpp:59-68 | from a queue within capacity, a push keeps the most recent `capacity` frames in arrival order, and the newest survives |
| VstCamStreamer.TrimAsWritten | VarjoDataStreamServer/VarjoVSTFrame/VarjoVSTCamStreamer.cpp:63-68 | the loop pops data and metadata in lockstep, exactly `PopCount` front elements |
| VstCamStreamer.Receive | VarjoDataStreamServer/VarjoVSTFrame/VarjoVSTCamStreamer.cpp:57-68 | one channel's push keeps data and metadata equally long, and keeps a bounded queue bounded |
| VstCamStreamer.CamStreamer.constructor | VarjoDataStreamServer/VarjoVSTFrame/VarjoVSTCamStreamer.cpp:5-10 | all four queues start empty |
| VstCamStreamer.CamStreamer.OnFrameReceived | VarjoDataStreamServer/VarjoVSTFrame/VarjoVSTCamStreamer.cpp:55-83 | a Left frame goes to the left queues and any other channel to the right queues; the other channel is untouched; lockstep and bound are kept (VSTCamStreamer.cpp:55-83 is the same) |
| VstCamStreamer.CamStreamer.TakeLeft | VarjoDataStreamServer/VarjoVSTFrame/VarjoVSTCamStreamer.cpp:25-31 | returns the left queues' contents in arrival order and leaves them empty; the right channel is untouched (likewise VSTCamStreamer.cpp:25-31) |
| VstCamStreamer.CamStreamer.TakeRight | VarjoDataStreamServer/VarjoVSTFrame/VarjoVSTCamStreamer.cpp:41-46 | returns the right queues' contents and leaves them empty; the left channel is untouched (likewise VSTCamStreamer.cpp:41-46) |
| VstCamStreamer.DummyConfig | VarjoDataStreamServer/VarjoVSTFrame/VarjoVSTCamStreamer.cpp:120-133 | stream 1, the given channels and frame rate, NV12 CPU buffers, and a geometry whose stride covers the width and whose height is even |
| VstCamStreamer.DummyConfigIsPackable | VarjoDataStreamServer/VarjoVSTFrame/VarjoVSTCamStreamer.cpp:129-131 | the 832 x 640 / 896 geometry packs fully: 896*960 raw bytes become 832*960 tight bytes |
| VstCamStreamer.NextIndexAsWritten | VarjoDataStreamServer/VarjoVSTFrame/VarjoVSTCamStreamer.cpp:180 | the index is taken modulo the number of left recordings; it is defined exactly when some are loaded |
| VstCamStreamer.LoadedCount | VarjoDataStreamServer/VarjoVSTFrame/VarjoVSTCamStreamer.cpp:91-117 | a channel has loaded recordings exactly when its flag is set |
| VstCamStreamer.RightOnlyReplayDividesByZero | VarjoDataStreamServer/VarjoVSTFrame/VarjoVSTCamStreamer.cpp:166-183 | a right-only dummy streamer divides by zero in its first iteration |
| VstCamStreamer.NextIndex | VarjoDataStreamServer/VarjoVSTFrame/VarjoVSTCamStreamer.cpp:180 | the replay index advances by one and wraps to 0 after the last of the 180 recordings |
| VstCamStreamer.NextIndexAgreesWhenLeftLoaded | VarjoDataStreamServer/VarjoVSTFrame/VarjoVSTCamStreamer.cpp:180 | with left recordings loaded, the corrected index is the one written |
| VstCamStreamer.DummyCamStreamer.constructor | VarjoDataStreamServer/VarjoVSTFrame/VarjoVSTCamStreamer.cpp:85-118 | each enabled channel holds its 180 recordings, each disabled one none; the queues are empty |
| VstCamStreamer.DummyCamStreamer.StartStream | VarjoDataStreamServer/VarjoVSTFrame/VarjoVSTCamStreamer.cpp:135-139 | clears the stop signal and starts the worker at recording 0; it requires that no worker runs (see ## Left out) |
| VstCamStreamer.DummyCamStreamer.StopStream | VarjoDataStreamServer/VarjoVSTFrame/VarjoVSTCamStreamer.cpp:141-146 | raises the stop signal and joins the worker; without a running worker (never started, or stopped already) `join` throws `system_error`, and only the stop signal changes; the queues are unchanged either way |
| VstCamStreamer.DummyCamStreamer.WorkerStep | VarjoDataStreamServer/VarjoVSTFrame/VarjoVSTCamStreamer.cpp:166-183 | each enabled channel gets the current recording with no capacity check, then the index advances cyclically through the 180 recordings (corrected; see ## Findings) |
| VstCamStreamer.DummyCamStreamer.TakeLeft | VarjoDataStreamServer/VarjoVSTFrame/VarjoVSTCamStreamer.cpp:148-155 | hands over the left queues and leaves them empty |
| VstCamStreamer.DummyCamStreamer.TakeRight | VarjoDataStreamServer/VarjoVSTFrame/VarjoVSTCamStreamer.cpp:157-164 | hands over the right queues and leaves them empty |
| EyeCamStreamer.Excess | VarjoDataStreamServer/VarjoEyeCam/EyeCamDataStreamer.cpp:60-61 | the excess is zero exactly within capacity, and removing it brings the size within capacity |
| EyeCamStreamer.PopFront | VarjoDataStreamServer/VarjoEyeCam/EyeCamDataStreamer.cpp:62-65 | the loop removes exactly `count` front elements from both deques |
| EyeCamStreamer.TrimKeepsLatest | VarjoDataStreamServer/VarjoEyeCam/EyeCamDataStreamer.cpp:56-65 | whatever the deque held, push plus trim leaves the latest `capacity` frames; the size is `min(old + 1, capacity)` |
| EyeCamStreamer.EyeCamStreamer.constructor | VarjoDataStreamServer/VarjoEyeCam/EyeCamDataStreamer.cpp:5-13 | all four deques start empty |
| EyeCamStreamer.EyeCamStreamer.OnFrameReceived | VarjoDataStreamServer/VarjoEyeCam/EyeCamDataStreamer.cpp:51-83 | Left and Right frames go to their channel, which then holds its latest `capacity` frames; any other index throws `runtime_error` and changes nothing |
| EyeCamStreamer.EyeCamStreamer.TakeLeft | VarjoDataStreamServer/VarjoEyeCam/EyeCamDataStreamer.cpp:33-40 | returns the left contents and leaves the left channel empty |
| EyeCamStreamer.EyeCamStreamer.TakeRight | VarjoDataStreamServer/VarjoEyeCam/EyeCamDataStreamer.cpp:42-49 | returns the right contents and leaves the right channel empty |
| VstVideoWriter.FfmpegArgs | VarjoDataStreamServer/VarjoVSTFrame/VarjoVSTVideoWriter.cpp:38-56 | GPU codecs get `-preset p1 -rc vbr_hq -cq <crf>` and others `-preset veryfast -crf <crf>`; the size, rate, codec name and quoted path are in place |
| VstVideoWriter.FfmpegCmd | VarjoDataStreamServer/VarjoVSTFrame/VarjoVSTVideoWriter.cpp:38-56 | the command string `get_ffmpegCmd` returns, the words joined by single spaces: it starts with `ffmpeg ` and ends with the double-quoted output path |
| VstVideoWriter.FfmpegCmdSplits | VarjoDataStreamServer/VarjoVSTFrame/VarjoVSTVideoWriter.cpp:38-56 | splitting the command at its spaces gives back exactly the words (the path being free of spaces) |
| VstVideoWriter.FfmpegCmdInjective | VarjoDataStreamServer/VarjoVSTFrame/VarjoVSTVideoWriter.cpp:38-56 | the command determines size, frame rate, codec name, crf and path |
| VstVideoWriter.SpanSize | VarjoDataStreamServer/VarjoVSTFrame/VarjoVSTVideoWriter.cpp:61-64 | the member's two spans cover every byte the row copies read |
| VstVideoWriter.RemovePadding | VarjoDataStreamServer/VarjoVSTFrame/VarjoVSTVideoWriter.cpp:58-83 | the member `remove_padding` writes the same packed rows as the free function and leaves the buffer's tail alone |
| VstVideoWriter.Packed | VarjoDataStreamServer/VarjoVSTFrame/VarjoVSTVideoWriter.cpp:129-138 | each written block has the tight size |
| VstVideoWriter.PackedAll | VarjoDataStreamServer/VarjoVSTFrame/VarjoVSTVideoWriter.cpp:226-239 | one packed block per frame, in order |
| VstVideoWriter.PackedAllAppend | VarjoDataStreamServer/VarjoVSTFrame/VarjoVSTVideoWriter.cpp:209-241 | packing a concatenation packs each part, so the split across worker steps does not change the output |
| VstVideoWriter.PackInto | VarjoDataStreamServer/VarjoVSTFrame/VarjoVSTVideoWriter.cpp:131 | the tight buffer ends up holding exactly the packed frame |
| VstVideoWriter.SerialVideoWriter.constructor | VarjoDataStreamServer/VarjoVSTFrame/VarjoVSTVideoWriter.cpp:89-106 | a null pipe, and a tight buffer of `width*height + (width*height)/2` bytes |
| VstVideoWriter.SerialVideoWriter.Open | VarjoDataStreamServer/VarjoVSTFrame/VarjoVSTVideoWriter.cpp:112-119 | launches the ffmpeg command and returns true iff the pipe opened |
| VstVideoWriter.SerialVideoWriter.Submit | VarjoDataStreamServer/VarjoVSTFrame/VarjoVSTVideoWriter.cpp:129-138 | writes exactly one block, the packed frame |
| VstVideoWriter.SerialVideoWriter.Close | VarjoDataStreamServer/VarjoVSTFrame/VarjoVSTVideoWriter.cpp:121-127 | releases the pipe at most once and forgets the pointer (corrected; see ## Findings); nothing more is written |
| VstVideoWriter.ParallelVideoWriter.constructor | VarjoDataStreamServer/VarjoVSTFrame/VarjoVSTVideoWriter.cpp:142-161 | an empty queue, the stop flag set, no worker, and a tight buffer of the tight size |
| VstVideoWriter.ParallelVideoWriter.Open | VarjoDataStreamServer/VarjoVSTFrame/VarjoVSTVideoWriter.cpp:167-180 | without a pipe, returns false and starts no worker; otherwise clears stop and starts the worker |
| VstVideoWriter.ParallelVideoWriter.Submit | VarjoDataStreamServer/VarjoVSTFrame/VarjoVSTVideoWriter.cpp:197-207 | appends the frame at the back of the queue and writes nothing |
| VstVideoWriter.ParallelVideoWriter.WriteAll | VarjoDataStreamServer/VarjoVSTFrame/VarjoVSTVideoWriter.cpp:226-239 | writes the taken frames, packed, front to back |
| VstVideoWriter.ParallelVideoWriter.TakeBatch | VarjoDataStreamServer/VarjoVSTFrame/VarjoVSTVideoWriter.cpp:211-224 | a waiting worker with frames queued swaps out the whole queue as its batch and leaves the queue empty |
| VstVideoWriter.ParallelVideoWriter.WriteBatch | VarjoDataStreamServer/VarjoVSTFrame/VarjoVSTVideoWriter.cpp:226-239 | writes the batch packed, in order, then holds no batch; frames queued meanwhile stay queued |
| VstVideoWriter.ParallelVideoWriter.Close | VarjoDataStreamServer/VarjoVSTFrame/VarjoVSTVideoWriter.cpp:182-195 | a waiting worker writes the whole queue; a worker in the middle of a batch writes only that batch, and the queue is never written; the pipe is then released and forgotten (corrected; see ## Findings); without a worker, nothing is written |
| BatchWorker.Opened | VarjoDataStreamServer/VarjoVSTFrame/VarjoVSTVideoWriter.cpp:167-180 | right after `open` the queue is empty, no batch is held and nothing is pending |
| BatchWorker.Apply | VarjoDataStreamServer/VarjoVSTFrame/VarjoVSTVideoWriter.cpp:197-239 | submitting appends the frame to what is pending; taking the queue and finishing a batch neither lose nor reorder a frame; a waiting worker holds no batch |
| BatchWorker.Submitted | VarjoDataStreamServer/VarjoVSTFrame/VarjoVSTVideoWriter.cpp:197-207 | the frames the submit steps carry: every frame in it is submitted by some step, every submit step's frame is in it, and there is at most one per step |
| BatchWorker.Run | VarjoDataStreamServer/VarjoVSTFrame/VarjoVSTVideoWriter.cpp:209-241 | any sequence of steps keeps a waiting worker free of a batch |
| BatchWorker.RunConserves | VarjoDataStreamServer/VarjoVSTFrame/VarjoVSTVideoWriter.cpp:197-241 | whatever the interleaving of submits, takes and finished batches, what is written, held in the batch and queued is exactly what was submitted, in order |
| BatchWorker.FlushedAtClose | VarjoDataStreamServer/VarjoVSTFrame/VarjoVSTVideoWriter.cpp:182-195 | after the stop flag, a worker writes the whole pending batch and queue exactly when it was waiting or the queue was empty; otherwise only its batch |
| BatchWorker.ClosedAsWritten | VarjoDataStreamServer/VarjoVSTFrame/VarjoVSTVideoWriter.cpp:182-241 | the output after `close` as written is a prefix of what was submitted and pending |
| BatchWorker.ClosedAsWrittenLoses | VarjoDataStreamServer/VarjoVSTFrame/VarjoVSTVideoWriter.cpp:182-241 | `close` as written loses exactly the frames queued while a batch is being written, and nothing when the worker waits |
| BatchWorker.CloseDuringBatchLosesFrame | VarjoDataStreamServer/VarjoVSTFrame/VarjoVSTVideoWriter.cpp:182-241 | submit a, the worker takes it, submit b, close: only a is written |
| BatchWorker.Closed | VarjoDataStreamServer/VarjoVSTFrame/VarjoVSTVideoWriter.cpp:182-195 | the intended close writes at least what the written one does, and more exactly when a batch is in flight with frames queued |
| BatchWorker.CloseWritesEverySubmittedFrame | VarjoDataStreamServer/VarjoVSTFrame/VarjoVSTVideoWriter.cpp:182-241 | with the intended close, every submitted frame is written exactly once, in order, whatever the interleaving |
| Pipes.Popen | VarjoDataStreamServer/VarjoVSTFrame/VarjoVSTVideoWriter.cpp:116-118 | a live handle exactly when `_popen` succeeds, null otherwise |
| Pipes.CloseAsWritten | VarjoDataStreamServer/VarjoVSTFrame/VarjoVSTVideoWriter.cpp:121-127 | `close` as written keeps a handle it has released |
| Pipes.CloseThenDestroyReleasesTwice | VarjoDataStreamServer/VarjoVSTFrame/VarjoVSTVideoWriter.cpp:108-127 | an explicit close followed by the destructor's close hands `_pclose` a released handle |
| Pipes.ClosePipe | VarjoDataStreamServer/VarjoVSTFrame/VarjoVSTVideoWriter.cpp:121-127 | the corrected close leaves a null pointer that is neither live nor released |
| Pipes.CloseIsIdempotent | VarjoDataStreamServer/VarjoVSTFrame/VarjoVSTVideoPreviewer.cpp:43-48 | closing correctly twice is the same as once, and never releases twice |
| VstVideoPreviewer.FfplayArgs | VarjoDataStreamServer/VarjoVSTFrame/VarjoVSTVideoPreviewer.cpp:50-56 | a fixed ffplay command with `-video_size WxH` and `-framerate 90` |
| VstVideoPreviewer.FfplayCmd | VarjoDataStreamServer/VarjoVSTFrame/VarjoVSTVideoPreviewer.cpp:50-56 | the ffplay command string, the words joined by single spaces: it starts with `ffplay ` and ends with `-autoexit` |
| VstVideoPreviewer.FfplayCmdSplits | VarjoDataStreamServer/VarjoVSTFrame/VarjoVSTVideoPreviewer.cpp:50-56 | splitting the command at its spaces gives back exactly the words |
| VstVideoPreviewer.FfplayCmdInjective | VarjoDataStreamServer/VarjoVSTFrame/VarjoVSTVideoPreviewer.cpp:50-56 | the command determines the frame size, and nothing else varies (row stride and padding never appear) |
| VstVideoPreviewer.Shown | VarjoDataStreamServer/VarjoVSTFrame/VarjoVSTVideoPreviewer.cpp:71-79 | with padding, the shown block has the tight size; without it, the frame is shown unchanged |
| VstVideoPreviewer.ShownAll | VarjoDataStreamServer/VarjoVSTFrame/VarjoVSTVideoPreviewer.cpp:137-146 | one shown block per frame, in order, with none skipped; without padding, the frames themselves |
| VstVideoPreviewer.ShowFrame | VarjoDataStreamServer/VarjoVSTFrame/VarjoVSTVideoPreviewer.cpp:138-142 | the worker's conversion of one frame yields the shown block |
| VstVideoPreviewer.ShowFrames | VarjoDataStreamServer/VarjoVSTFrame/VarjoVSTVideoPreviewer.cpp:137-146 | the display loop yields the shown blocks of all taken frames, in order |
| VstVideoPreviewer.SerialVideoPreviewer.constructor | VarjoDataStreamServer/VarjoVSTFrame/VarjoVSTVideoPreviewer.cpp:60-69 | a null pipe and a zeroed tight buffer of `width * height * 3 / 2` bytes |
| VstVideoPreviewer.SerialVideoPreviewer.Open | VarjoDataStreamServer/VarjoVSTFrame/VarjoVSTVideoPreviewer.cpp:18-21 | launches ffplay and returns true iff the pipe opened |
| VstVideoPreviewer.SerialVideoPreviewer.Submit | VarjoDataStreamServer/VarjoVSTFrame/VarjoVSTVideoPreviewer.cpp:71-79 | writes exactly one block: the packed frame with padding, the frame itself without |
| VstVideoPreviewer.SerialVideoPreviewer.Close | VarjoDataStreamServer/VarjoVSTFrame/VarjoVSTVideoPreviewer.cpp:43-48 | releases the pipe at most once and forgets the pointer (corrected; see ## Findings); nothing more is written |
| VstVideoPreviewer.ParallelVideoPreviewer.constructor | VarjoDataStreamServer/VarjoVSTFrame/VarjoVSTVideoPreviewer.cpp:80-86 | an empty queue, the stop flag set, no worker |
| VstVideoPreviewer.ParallelVideoPreviewer.Open | VarjoDataStreamServer/VarjoVSTFrame/VarjoVSTVideoPreviewer.cpp:88-100 | starts the worker only if the pipe opened, and returns whether it did |
| VstVideoPreviewer.ParallelVideoPreviewer.Submit | VarjoDataStreamServer/VarjoVSTFrame/VarjoVSTVideoPreviewer.cpp:112-116 | pushes the frame at the back of the queue |
| VstVideoPreviewer.ParallelVideoPreviewer.ShowAll | VarjoDataStreamServer/VarjoVSTFrame/VarjoVSTVideoPreviewer.cpp:137-146 | writes the shown blocks of the taken frames, in order |
| VstVideoPreviewer.ParallelVideoPreviewer.TakeBatch | VarjoDataStreamServer/VarjoVSTFrame/VarjoVSTVideoPreviewer.cpp:123-134 | a waiting worker with frames queued swaps out the whole queue as its batch and leaves the queue empty |
| VstVideoPreviewer.ParallelVideoPreviewer.ShowBatch | VarjoDataStreamServer/VarjoVSTFrame/VarjoVSTVideoPreviewer.cpp:136-146 | shows every frame of the batch in FIFO order, skipping none, then holds no batch; frames queued meanwhile stay queued |
| VstVideoPreviewer.ParallelVideoPreviewer.Close | VarjoDataStreamServer/VarjoVSTFrame/VarjoVSTVideoPreviewer.cpp:102-110 | a waiting worker shows the whole queue; a worker in the middle of a batch shows only that batch, and the queue is never shown; the pipe is then released and forgotten (corrected; see ## Findings); without a worker, `join` throws `system_error` and only the stop flag changes |
| VstVideoPreviewer.MakeOptions | VarjoDataStreamServer/VarjoVSTFrame/VarjoVSTVideoPreviewer.cpp:149-164 | the five arguments are copied unchanged |
| VstVideoPreviewer.Factory | VarjoDataStreamServer/VarjoVSTFrame/VarjoVSTVideoPreviewer.cpp:167-186 | a Serial or Parallel previewer over the options' geometry; any other type throws `runtime_error` |
| VstVideoPreviewer.FactoryOfMadeOptions | VarjoDataStreamServer/VarjoVSTFrame/VarjoVSTVideoPreviewer.cpp:149-186 | options made by the builder for a declared type yield a previewer of that type over exactly the given geometry |
| EyeCamVideoWriter.Ffv1Args | VarjoDataStreamServer/VarjoEyeCam/EyeCamVideoWriter.cpp:67-71 | the arguments bind by position: `-s` gets the size, `-r` and `-level` the frame rate, the output slot the FFV1 level |
| EyeCamVideoWriter.FfmpegCmd | VarjoDataStreamServer/VarjoEyeCam/EyeCamVideoWriter.cpp:54-75 | only FFV1 options give a command; x264 and NVENC throw `invalid_argument` |
| EyeCamVideoWriter.FfmpegCmdIgnoresPath | VarjoDataStreamServer/VarjoEyeCam/EyeCamVideoWriter.cpp:70-71 | the output path never reaches the command |
| EyeCamVideoWriter.FfmpegCmdInjective | VarjoDataStreamServer/VarjoEyeCam/EyeCamVideoWriter.cpp:67-71 | an FFV1 command determines size, frame rate and level |
| EyeCamVideoWriter.VideoWriter.constructor | VarjoDataStreamServer/VarjoEyeCam/EyeCamVideoWriter.cpp:8-31 | an enabled channel gets a zeroed `width*height` tight buffer, a disabled one an empty buffer; both pipes are null |
| EyeCamVideoWriter.VideoWriter.Open | VarjoDataStreamServer/VarjoEyeCam/EyeCamVideoWriter.cpp:38-52 | the left pipe is opened first, and a left failure returns false before the right is tried; true iff every enabled side opened; non-FFV1 throws |
| EyeCamVideoWriter.MovedFromWrites | VarjoDataStreamServer/VarjoEyeCam/EyeCamVideoWriter.cpp:83-101 | one block per queued frame, and every block is empty, because `f.data` was moved into `framedata` before the write reads it |
| EyeCamVideoWriter.TightWrites | VarjoDataStreamServer/VarjoEyeCam/EyeCamVideoWriter.cpp:88-101 | the evidently intended writes: one block per queued frame, the tight buffer after its padding step |
| EyeCamVideoWriter.TightWritesAreFrameData | VarjoDataStreamServer/VarjoEyeCam/EyeCamVideoWriter.cpp:88-101 | with the contiguous layout the intended blocks are the frames' own data in queue order; with the strided layout each is the tight buffer |
| EyeCamVideoWriter.MovedFromWritesLoseData | VarjoDataStreamServer/VarjoEyeCam/EyeCamVideoWriter.cpp:83-101 | the pipe receives what was meant exactly when every meant block is empty |
| EyeCamVideoWriter.OneQueuedFrameWritesNothing | VarjoDataStreamServer/VarjoEyeCam/EyeCamVideoWriter.cpp:83-101 | one queued frame with data: one empty block is written where the frame's bytes were meant |
| EyeCamVideoWriter.VideoWriter.WriteToPipe | VarjoDataStreamServer/VarjoEyeCam/EyeCamVideoWriter.cpp:77-103 | drains the left queue front to back with one write per frame, each of zero bytes; with the contiguous layout the tight buffer ends holding the last frame's data; the right queue is never touched |
| EyeCamVideoWriter.VideoWriter.WriteTightToPipe | VarjoDataStreamServer/VarjoEyeCam/EyeCamVideoWriter.cpp:77-103 | the corrected drain: writes the tight buffer after each frame's padding step, so with the contiguous layout every queued frame's bytes reach the pipe in order |
| DataLogger.CloseAsWritten | VarjoDataStreamServer/VarjoVSTFrame/DataLogger.cpp:34-40 | `close` as written is defined only when both sinks are present |
| DataLogger.CloseCalls | VarjoDataStreamServer/VarjoVSTFrame/DataLogger.cpp:34-40 | the corrected close closes exactly the present sinks, writer first |
| DataLogger.CloseAsWrittenFaultsWithoutPreviewer | VarjoDataStreamServer/VarjoVSTFrame/DataLogger.cpp:34-40 | without a previewer, which no member installs, `close` as written always dereferences null |
| DataLogger.CloseAgreesWhenBothPresent | VarjoDataStreamServer/VarjoVSTFrame/DataLogger.cpp:34-40 | where the written close is defined, the corrected one makes the same calls |
| DataLogger.Forwarded | VarjoDataStreamServer/VarjoVSTFrame/DataLogger.cpp:60-65 | the writer gets the original metadata with the tight bytes; without padding, the frame itself |
| DataLogger.SubmitCalls | VarjoDataStreamServer/VarjoVSTFrame/DataLogger.cpp:60-69 | one call per present sink, writer first, previewer last |
| DataLogger.DataLogger.constructor | VarjoDataStreamServer/VarjoVSTFrame/DataLogger.cpp:7-22 | a zeroed tight buffer of `width * height * 3 / 2` bytes, and no sink |
| DataLogger.DataLogger.OpenWriter | VarjoDataStreamServer/VarjoVSTFrame/DataLogger.cpp:24-32 | throws `runtime_error` iff a writer is present; otherwise installs one |
| DataLogger.DataLogger.Submit | VarjoDataStreamServer/VarjoVSTFrame/DataLogger.cpp:52-70 | the tight buffer holds the shown frame, which goes to the writer, then to the previewer, each only if present |
| DataLogger.DataLogger.Close | VarjoDataStreamServer/VarjoVSTFrame/DataLogger.cpp:34-40 | closes the present sinks, writer first, and leaves both absent (corrected; see ## Findings) |
| FrameDispatcher.WriterSettings | VarjoDataStreamServer/VarjoVSTFrame/VarjoVSTFrameDispatcher.cpp:9-34 | the writer gets the options' geometry, codec, path, crf and frame rate |
| FrameDispatcher.WriterFor | VarjoDataStreamServer/VarjoVSTFrame/VarjoVSTFrameDispatcher.cpp:8-34 | a writer exists iff `writer_option`, and is parallel iff `writer_parallel_write_option` |
| FrameDispatcher.PreviewerFor | VarjoDataStreamServer/VarjoVSTFrame/VarjoVSTFrameDispatcher.cpp:36-46 | a previewer exists iff both the writer and previewer options hold; it is parallel iff `preview_parallel_option`, with row stride 0 |
| FrameDispatcher.PreviewerNeedsWriter | VarjoDataStreamServer/VarjoVSTFrame/VarjoVSTFrameDispatcher.cpp:8-47 | asking for a previewer alone creates no sink |
| FrameDispatcher.FramedataDispatcher.constructor | VarjoDataStreamServer/VarjoVSTFrame/VarjoVSTFrameDispatcher.cpp:7-48 | the constructor installs exactly the sinks the selection rule names |
| FrameDispatcher.FramedataDispatcher.Dispatch | VarjoDataStreamServer/VarjoVSTFrame/VarjoVSTFrameDispatcher.cpp:49-51 | `dispatch` changes nothing |
| MetadataWriter.ColumnNames | VarjoDataStreamServer/VarjoVSTFrame/VarjoVSTMetadataWriter.hpp:24-109 | `column_names_` has exactly one element, since its literals have no commas between them |
| MetadataWriter.HeaderText | VarjoDataStreamServer/VarjoVSTFrame/VarjoVSTMetadataWriter.cpp:14-17 | defines the header row, every column name followed by a comma, then the line end; its properties are `HeaderIsOneColumn` and `HeaderTextParses` |
| MetadataWriter.HeaderTextParses | VarjoDataStreamServer/VarjoVSTFrame/VarjoVSTMetadataWriter.cpp:14-17 | the header row ends with the line end, and read back as CSV, a header of comma-free names gives the names followed by one empty column, from the trailing comma |
| MetadataWriter.HeaderIsOneColumn | VarjoDataStreamServer/VarjoVSTFrame/VarjoVSTMetadataWriter.cpp:14-17 | the header row is the concatenated names, one comma and the line end |
| MetadataWriter.ColumnLiteralsCountFields | VarjoDataStreamServer/VarjoVSTFrame/VarjoVSTMetadataWriter.hpp:25-108 | there are as many column literals as fields in a line: 84 |
| MetadataWriter.StreamFields | VarjoDataStreamServer/VarjoVSTFrame/VarjoVSTMetadataWriter.cpp:32-55 | the stream-frame part has 47 fields |
| MetadataWriter.CameraFields | VarjoDataStreamServer/VarjoVSTFrame/VarjoVSTMetadataWriter.cpp:63-85 | the camera part has 35 fields |
| MetadataWriter.Fields | VarjoDataStreamServer/VarjoVSTFrame/VarjoVSTMetadataWriter.cpp:27-88 | 84 fields: the stream part, channel index and timestamp, then the camera part |
| MetadataWriter.MetadataLine | VarjoDataStreamServer/VarjoVSTFrame/VarjoVSTMetadataWriter.cpp:27-88 | one record's text: its 84 fields separated by commas, ending with the line end (what it parses back to is `MetadataLineParses`) |
| MetadataWriter.MetadataLineParses | VarjoDataStreamServer/VarjoVSTFrame/VarjoVSTMetadataWriter.cpp:27-88 | a line ends in a newline, has 83 commas and no trailing comma, and splits back into its 84 fields |
| MetadataWriter.Lines | VarjoDataStreamServer/VarjoVSTFrame/VarjoVSTMetadataWriter.cpp:126-146 | the text of several records, one line each in order: empty exactly when there is no record, otherwise ending with a line end |
| MetadataWriter.LinesAppend | VarjoDataStreamServer/VarjoVSTFrame/VarjoVSTMetadataWriter.cpp:126-146 | writing two batches in turn gives the lines of the whole sequence |
| MetadataWriter.WriteMetadataLine | VarjoDataStreamServer/VarjoVSTFrame/VarjoVSTMetadataWriter.cpp:27-88 | appends exactly the record's line to the file |
| MetadataWriter.WriteLines | VarjoDataStreamServer/VarjoVSTFrame/VarjoVSTMetadataWriter.cpp:136-144 | appends the lines of the queued records, in submission order |
| MetadataWriter.WriteHeader | VarjoDataStreamServer/VarjoVSTFrame/VarjoVSTMetadataWriter.cpp:14-17 | each name is followed by a comma, then the line end |
| MetadataWriter.OpenOutput | VarjoDataStreamServer/VarjoVSTFrame/VarjoVSTMetadataWriter.cpp:6-12 | the file is the conflict-free path; a failed open throws `runtime_error` naming it |
| MetadataWriter.SerialMetadataWriter.constructor | VarjoDataStreamServer/VarjoVSTFrame/VarjoVSTMetadataWriter.cpp:99-101 | the file starts with the header row |
| MetadataWriter.SerialMetadataWriter.Submit | VarjoDataStreamServer/VarjoVSTFrame/VarjoVSTMetadataWriter.cpp:90-93 | writes exactly one line per record |
| MetadataWriter.NewSerialMetadataWriter | VarjoDataStreamServer/VarjoVSTFrame/VarjoVSTMetadataWriter.cpp:6-18 | succeeds iff the file opens, with the header at a conflict-free path; otherwise `runtime_error` |
| MetadataWriter.ParallelMetadataWriter.constructor | VarjoDataStreamServer/VarjoVSTFrame/VarjoVSTMetadataWriter.cpp:110-115 | the header is written, stop is cleared and the worker runs |
| MetadataWriter.ParallelMetadataWriter.Submit | VarjoDataStreamServer/VarjoVSTFrame/VarjoVSTMetadataWriter.cpp:120-124 | appends the record at the back of the queue and writes nothing |
| MetadataWriter.ParallelMetadataWriter.WorkerStep | VarjoDataStreamServer/VarjoVSTFrame/VarjoVSTMetadataWriter.cpp:126-146 | empties the queue, writing its records front to back |
| MetadataWriter.NewParallelMetadataWriter | VarjoDataStreamServer/VarjoVSTFrame/VarjoVSTMetadataWriter.cpp:110-115 | succeeds iff the file opens, with the header written and the worker running; otherwise `runtime_error` |
| FilesystemUtil.Candidate | VarjoDataStreamServer/util/filesystem_util.hpp:21-25 | a candidate keeps the parent and extension, with `_N` after the stem |
| FilesystemUtil.CandidateInjective | VarjoDataStreamServer/util/filesystem_util.hpp:23-26 | different sequence numbers give different candidates, so the search ends |
| FilesystemUtil.ResolutionIsUnique | VarjoDataStreamServer/util/filesystem_util.hpp:11-29 | the file system and the original path determine the result |
| FilesystemUtil.SolveFilenameConflict | VarjoDataStreamServer/util/filesystem_util.hpp:11-29 | an absent original is returned; otherwise the candidate with the smallest N >= 1 that does not exist; the result never exists |
| TimestampCsv.HeaderNames | VarjoDataStreamServer/VarjoTimestamp/TimestampCsvWriter.hpp:22-27 | `header_`: four column names, including the misspelled `sytem_timestamp_local`, none holding a comma |
| TimestampCsv.Header | VarjoDataStreamServer/VarjoTimestamp/TimestampCsvWriter.cpp:69-80 | the header row: the names separated by commas and ended by the line end, with no comma before it |
| TimestampCsv.HeaderParses | VarjoDataStreamServer/VarjoTimestamp/TimestampCsvWriter.cpp:69-80 | the header has 3 commas and no trailing comma, ends in a newline, and splits back into the four names |
| TimestampCsv.LineFields | VarjoDataStreamServer/VarjoTimestamp/TimestampCsvWriter.cpp:82-90 | four fields: both vendor timestamps in decimal, then the UTC and local renderings |
| TimestampCsv.LineParses | VarjoDataStreamServer/VarjoTimestamp/TimestampCsvWriter.cpp:82-90 | a line has exactly 3 commas, ends in a newline, and splits back into its four fields |
| TimestampCsv.Line | VarjoDataStreamServer/VarjoTimestamp/TimestampCsvWriter.cpp:82-90 | one record's line: it starts with the vendor timestamp in decimal and ends with the line end (what it parses back to is `LineParses`) |
| TimestampCsv.LineDeterminesTimestamps | VarjoDataStreamServer/VarjoTimestamp/TimestampCsvWriter.cpp:85-86 | a line determines the vendor timestamp and its Unix conversion |
| TimestampCsv.Lines | VarjoDataStreamServer/VarjoTimestamp/TimestampCsvWriter.cpp:106-132 | the lines of a batch in order: empty exactly when the batch is, otherwise ending with a line end |
| TimestampCsv.LinesAppend | VarjoDataStreamServer/VarjoTimestamp/TimestampCsvWriter.cpp:106-132 | how records are split into batches does not change what is written |
| TimestampCsv.WriteHeader | VarjoDataStreamServer/VarjoTimestamp/TimestampCsvWriter.cpp:69-80 | the names joined by commas, with no trailing comma, then the line end |
| TimestampCsv.AppendLine | VarjoDataStreamServer/VarjoTimestamp/TimestampCsvWriter.cpp:82-90 | the four insertions append exactly the record's line |
| TimestampCsv.AppendLines | VarjoDataStreamServer/VarjoTimestamp/TimestampCsvWriter.cpp:106-132 | a batch is written in container order |
| TimestampCsv.DataCsvWriter.constructor | VarjoDataStreamServer/VarjoTimestamp/TimestampCsvWriter.cpp:41-43 | only the path is resolved (conflict-free); nothing is opened |
| TimestampCsv.DataCsvWriter.Open | VarjoDataStreamServer/VarjoTimestamp/TimestampCsvWriter.cpp:50-158 | returns false without writing if the file does not open, otherwise the file holds just the header; reopening an open file sets its failbit; the parallel writer (148-158) starts its worker only after the file opened |
| TimestampCsv.DataCsvWriter.Close | VarjoDataStreamServer/VarjoTimestamp/TimestampCsvWriter.cpp:61-171 | closing writes nothing and leaves the file closed; the parallel worker (160-171) is stopped without writing its queue, so pending records are lost |
| TimestampCsv.DataCsvWriter.Submit | VarjoDataStreamServer/VarjoTimestamp/TimestampCsvWriter.cpp:96-185 | the serial writer writes the record's line only while the file is writable; the parallel one (173-185) appends the record at the back of its queue |
| TimestampCsv.DataCsvWriter.SubmitAll | VarjoDataStreamServer/VarjoTimestamp/TimestampCsvWriter.cpp:106-226 | the serial writer writes a batch's lines in container order; the parallel one (187-226) appends the batch at the back, in order |
| TimestampCsv.DataCsvWriter.WorkerStep | VarjoDataStreamServer/VarjoTimestamp/TimestampCsvWriter.cpp:228-249 | takes the whole queue and writes its lines in order |
| TimestampCsv.MakeDataCsvWriter | VarjoDataStreamServer/VarjoTimestamp/TimestampCsvWriter.cpp:251-271 | a closed serial or parallel writer by type; any other type throws `invalid_argument` |
| TimestampStreamer.SleepTime | VarjoDataStreamServer/VarjoTimestamp/TimestampDataStreamer.cpp:56-64 | a cycle lasts at least `separate_ms`, and exactly that when it sleeps; an overrun cycle does not sleep |
| TimestampStreamer.SleepTimeUnique | VarjoDataStreamServer/VarjoTimestamp/TimestampDataStreamer.cpp:56-64 | those three properties determine the sleep |
| TimestampStreamer.DataStreamer.constructor | VarjoDataStreamServer/VarjoTimestamp/TimestampDataStreamer.cpp:5-8 | closed, stop set, no worker, empty queue |
| TimestampStreamer.DataStreamer.Open | VarjoDataStreamServer/VarjoTimestamp/TimestampDataStreamer.cpp:15-22 | status Open, stop cleared, worker running; the queue is kept |
| TimestampStreamer.DataStreamer.Close | VarjoDataStreamServer/VarjoTimestamp/TimestampDataStreamer.cpp:24-33 | stop set, worker stopped, status Close, also when it was never opened |
| TimestampStreamer.DataStreamer.TakeData | VarjoDataStreamServer/VarjoTimestamp/TimestampDataStreamer.cpp:35-39 | returns all queued records in order and leaves the queue empty |
| TimestampStreamer.DataStreamer.WorkerStep | VarjoDataStreamServer/VarjoTimestamp/TimestampDataStreamer.cpp:41-66 | appends exactly one record at the back, and sleeps for `SleepTime` |
| TimestampStreamer.MakeDataStreamer | VarjoDataStreamServer/VarjoTimestamp/TimestampDataStreamer.cpp:69-72 | a new closed streamer with the given period |
| TimestampLogger.DataLogger.constructor | VarjoDataStreamServer/VarjoTimestamp/TimestampDataLogger.cpp:6-8 | no streamer, no writer, stop set, no logging thread |
| TimestampLogger.DataLogger.Open | VarjoDataStreamServer/VarjoTimestamp/TimestampDataLogger.cpp:15-37 | new sinks replace the old and are opened; the result, and the logging thread, are true iff both are open; nothing is rolled back; a bad writer type throws |
| TimestampLogger.DataLogger.Close | VarjoDataStreamServer/VarjoTimestamp/TimestampDataLogger.cpp:39-53 | stop is set, open sinks are closed and logging ends; queued records are never written |
| TimestampLogger.DataLogger.LoggingStep | VarjoDataStreamServer/VarjoTimestamp/TimestampDataLogger.cpp:55-68 | all streamer records are taken and go to the writer only if it is open |
| BorrowedOrOwned.FromConstRef | VarjoDataStreamServer/util/BorrowedOrOwned.hpp:13-14 | the view is the referenced value and nothing is owned |
| BorrowedOrOwned.FromRvalue | VarjoDataStreamServer/util/BorrowedOrOwned.hpp:16-17 | the view is the moved value, which is owned |
| BorrowedOrOwned.Materialize | VarjoDataStreamServer/util/BorrowedOrOwned.hpp:26-29 | the materialised value equals the view |
| BorrowedOrOwned.OwnsIffFromRvalue | VarjoDataStreamServer/util/BorrowedOrOwned.hpp:24 | `owns` holds exactly for values built from an rvalue |
| VarjoToString.GazeEyeStatusText | VarjoDataStreamServer/util/to_string.hpp:11-24 | named statuses print as a short name; any other value prints as "Unknown status: " and its decimal text |
| VarjoToString.GazeStatusText | VarjoDataStreamServer/util/to_string.hpp:26-37 | the same for the overall gaze status |
| VarjoToString.UnknownTextInjective | VarjoDataStreamServer/util/to_string.hpp:21-22 | unknown values print differently |
| VarjoToString.GazeEyeStatusTextInjective | VarjoDataStreamServer/util/to_string.hpp:11-24 | the text identifies the eye status |
| VarjoToString.GazeStatusTextInjective | VarjoDataStreamServer/util/to_string.hpp:26-37 | the text identifies the gaze status |

## Left out

- **Threads and synchronisation.** Threads, mutexes, condition variables, atomics, `notify_all` and the sleeps are not modelled. Of `join`, only the `system_error` it throws on a thread that is not joinable is modelled (the dummy streamer's `stopStream` and the parallel previewer's `close`). A worker is a sequence of explicit step calls (`WorkerStep`, or `TakeBatch` followed by `WriteBatch` or `ShowBatch`), and every method is one atomic step.
  - The metadata writer's missing notify and its unlocked `empty()` check are not modelled.
  - The race between a logger's `close` and its still-running logging thread is not modelled.
- **Pipes and files.** `_popen`, `_pclose`, `fwrite`, `fflush` and `std::fstream` are replaced by logs of what is written. Whether an open succeeds is an input. The bytes and text on disk and in the child process are not modelled.
- **Vendor session.** The vendor session and the vendor `DataStreamer` are not part of this model. Left out are:
  - `getConfig`, `startStream` and `stopStream` of the real streamers;
  - `getCurrentTime` and `varjo_ConvertToUnixTime`.

  The readings are inputs of `TimestampStreamer.DataStreamer.WorkerStep`.
- **Timestamp rendering.** The UTC and local rendering of the system clock (TimestampCsvWriter.cpp:8-36) depends on the operating system's time zone. It is the parameter `TimeFormat`. `TimestampCsv.LineParses` assumes the renderings hold no comma or line end.
- **Varjo_types.h and DataStreamer.hpp are not part of this model.** The constants used are Left = 0, Right = 1, gaze eye statuses 0..3 and gaze statuses 0..2. The metadata values the writer only prints are opaque tokens.
- **EyeCam_util.hpp is not part of this model.**
  - With the Strided layout, `remove_padding` is handed the emptied `f.data`; what it does with it is not modelled, and `EyeCamVideoWriter.VideoWriter.WriteToPipe` and `WriteTightToPipe` leave the left tight buffer unchanged.
- MetadataWriter.OpenOutput: the path in the `runtime_error` message is the path rebuilt from its parent, stem and extension with a backslash as separator. When the original path does not exist, the source returns it unchanged (filesystem_util.hpp:14), so the message shows the text the caller wrote, whatever its separators.
- **Eye-camera writer close.** Its `close` is not defined in the files shown, so the eye-camera writer has no `Close`.
- **Writer options.** `VideoWriterOptions` and `factory_VideoWriterPtr` are not part of this model. `DataLogger.DataLogger.OpenWriter` records the options a writer was built from.
- **Loaded recordings.** The dummy streamer loads its recordings from files (VarjoVSTCamStreamer.cpp:85-118). They are constructor parameters instead.
- **Dummy streamer sleep.** The dummy worker's sleep of `1000 / fps` ms is not modelled, including the division by zero when fps is 0.
- **Integer widths.** `size_t` arithmetic is unbounded in the model, so an overflow of `width * height` is not represented.
- **Destructors.** Destructors are not modelled except through `Pipes.CloseThenDestroyReleasesTwice`. In particular, destroying the parallel metadata writer while its thread is still joinable is not modelled.
- **Console output.** The `printf` and `std::cout` messages are not modelled.
- **Other parts of the repository.** Undistorter.cpp, struct_json_io.hpp, vec_util.hpp, the eye-tracking streamer, the frame-info writers and main.cpp are outside the modelled core.
- **Preconditions that stand in for undefined behaviour:**
  - Opening while a worker thread runs would assign a new `std::thread` over a joinable one and terminate the program. `TimestampCsv.DataCsvWriter.Open` (parallel), `TimestampStreamer.DataStreamer.Open`, `TimestampLogger.DataLogger.Open`, `VstVideoWriter.ParallelVideoWriter.Open`, `VstVideoPreviewer.ParallelVideoPreviewer.Open` and `VstCamStreamer.DummyCamStreamer.StartStream` require that no worker runs, instead of modelling the termination.
  - `VstVideoWriter.SerialVideoWriter.Submit` and `VstVideoPreviewer.SerialVideoPreviewer.Submit` require a live pipe. `fwrite` to a null or released pipe is undefined.
  - Frames must be large enough for the spans `remove_padding` reads (`Packable`, `Showable`). A shorter frame is read out of bounds.
  - Metadata arrays must have their declared lengths (`WellFormed`).
- VstCamStreamer.DummyCamStreamer.WorkerStep: advances the replay index by the corrected `NextIndex`. As written, the index is reduced modulo the number of left recordings (VarjoVSTCamStreamer.cpp:180), so a streamer without left recordings (right only, or neither channel) divides by zero in its first iteration. That behaviour is stated by `VstCamStreamer.RightOnlyReplayDividesByZero`, not by this method.
- VstVideoWriter.SerialVideoWriter.Close: leaves a null pointer after `_pclose`. As written (VarjoVSTVideoWriter.cpp:121-127), the pointer is kept, and the destructor's `close` hands the released handle to `_pclose` a second time. That behaviour is stated by `Pipes.CloseThenDestroyReleasesTwice`.
- VstVideoWriter.ParallelVideoWriter.Close: leaves a null pointer after `_pclose`. As written (VarjoVSTVideoWriter.cpp:182-195), the pointer is kept, and the destructor's `close` calls `_pclose` on the released handle again.
- VstVideoPreviewer.SerialVideoPreviewer.Close: leaves a null pointer after `_pclose`. As written (VarjoVSTVideoPreviewer.cpp:43-48), the pointer is kept, and the destructor's `close` calls `_pclose` again.
- VstVideoPreviewer.ParallelVideoPreviewer.Close: leaves a null pointer after `_pclose`. As written (VarjoVSTVideoPreviewer.cpp:102-110), `_pclose` runs unconditionally and the pointer is kept. The base destructor then runs the base `close`, which calls `_pclose` again on the released handle.
- DataLogger.DataLogger.Close: closes only the sinks that are present. As written (DataLogger.cpp:34-40), both pointers are dereferenced without a null check, and since no member installs a previewer, every call dereferences null. That behaviour is stated by `DataLogger.CloseAsWrittenFaultsWithoutPreviewer`.
- MetadataWriter.ColumnLiteralsCountFields: states only that the 84 column names and the 84 printed fields are equal in number. It does not prove that each name describes the field at its position.
- **Dispatcher as written.** VarjoVSTFrameDispatcher.cpp does not compile as written: there is a trailing comma in the serial writer's arguments, and the previewer constructor is called with three arguments. The model takes the arguments as written, and the writer's `buffer_size` is carried but unused.

## Findings

| source | as written | input that shows it | evidently intended | confidence | as-written member | corrected member |
|---|---|---|---|---|---|---|
| VarjoDataStreamServer/VarjoVSTFrame/VarjoVSTCamStreamer.cpp:180 | the replay index is reduced modulo the number of loaded left recordings, whichever channels are enabled | a dummy streamer with only the right channel flag: no left recording is loaded, so the first worker iteration divides by zero | cycle through the 180 recordings of whichever channel is loaded | not executed | VstCamStreamer.RightOnlyReplayDividesByZero | VstCamStreamer.NextIndex |
| VarjoDataStreamServer/VarjoVSTFrame/VarjoVSTVideoWriter.cpp:121-127 | `close` releases the pipe with `_pclose` but keeps the pointer, and the destructor calls `close` again (the previewer's `close` at VarjoVSTVideoPreviewer.cpp:43-48 does the same) | open successfully, call `close`, then destroy the writer: `_pclose` receives the released handle a second time | forget the pointer after `_pclose`, so a second close does nothing | not executed | Pipes.CloseThenDestroyReleasesTwice | Pipes.ClosePipe |
| VarjoDataStreamServer/VarjoVSTFrame/DataLogger.cpp:34-40 | `close` calls `close` on the writer and on the previewer without checking for null, and no member ever installs a previewer | any `DataLogger` that is closed, with or without a writer: the previewer pointer is null when it is dereferenced | close only the sinks that are present | not executed | DataLogger.CloseAsWrittenFaultsWithoutPreviewer | DataLogger.DataLogger.Close |
| VarjoDataStreamServer/VarjoEyeCam/EyeCamVideoWriter.cpp:83-101 | `f.data` is moved into `framedata`, which empties it, and the `fwrite` then writes `f.data.data()` with `f.data.size()` bytes | an open left pipe and one queued frame with data: the write has zero bytes, so the frame never reaches ffmpeg | write the tight buffer filled by the padding step (`framedata` itself with the contiguous layout) | not executed | EyeCamVideoWriter.OneQueuedFrameWritesNothing | EyeCamVideoWriter.VideoWriter.WriteTightToPipe |
| VarjoDataStreamServer/VarjoVSTFrame/VarjoVSTVideoWriter.cpp:209-241 | the worker tests the stop flag only at the top of its loop, so a worker writing a batch when `close` raises the flag returns without taking the queue again (the previewer at VarjoVSTVideoPreviewer.cpp:118-148 does the same) | submit frame a; the worker takes it and writes it with the lock released; submit frame b; call `close`: b is never written | `close` writes out the whole submit queue, as the comment at VarjoVSTVideoWriter.cpp:187 says | not executed | BatchWorker.CloseDuringBatchLosesFrame | BatchWorker.Closed |
