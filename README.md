# Merge-and-transcribe core of a meeting recorder, in Dafny

The recorder captures a microphone and a loopback of the default speaker at
the same time. One pass of its capture loop takes one frame from each device
queue. A frame is a 2-D array: rows are samples and columns are channels. The
pass trims both frames to the shorter one and drops channels after the
second. It then sums the frames sample by sample and peak-normalises the sum
into 16-bit PCM. The result is a chunk, which is queued for collection. The
transcriber receives handles to the saved chunk files in a FIFO queue. Its
worker transcribes them one at a time, in order, and appends every non-empty
text to an append-only transcript. `stop` returns that transcript joined by
single spaces.

Modules:

- `Wrappers` (wrappers.dfy): `Option` and `Result`.
- `Mixer` (mixer.dfy): the merge as pure functions. A frame is
  `Grid<real>`, which holds a channel count and rows. A chunk is
  `Grid<int16>`. Exact reals stand in for float32 samples. Numpy's int16
  cast is truncation toward zero (`Trunc`).
- `Recording` (recorder.dfy): the class `Recorder`. Its `seq` fields
  `micQueue`, `speakerQueue` and `chunks` stand for the three `queue.Queue`s.
  It has one capture-loop pass (`MergeStep`), `GetNextChunk`, and
  `SaveChunk`. `SaveChunk` works on a map from paths to written files.
- `Text` (text.dfy): Python's `" ".join` (`Join`). Its inverse
  `str.split(" ")` (`Split`) is the partner definition.
- `Transcription` (transcriber.dfy): the engine's result reduced to text
  (`Transcribe`). Also the class `Transcriber`, with `queue`, `running` and
  `transcript` fields. The speech engine is a function parameter
  `engine: string -> EngineResult`.

Behaviour of the code that the model keeps:

- The code has no chunk indices and no reordering of segments. The worker is
  single-threaded and strictly FIFO, and that is what is modelled.
- A merge pass reads the microphone queue first. If the loopback queue is
  then empty, the microphone frame already taken is lost (`SpeakerTimeout`).
- Numpy broadcasting of the sum is modelled: equal channel counts, or one of
  them 1. Any other pair raises (`ShapeMismatch`). Taking the maximum of a
  zero-size array also raises (`EmptyReduction`).
- `start` clears the transcript but not the handle queue.

## Model

| member | source | states |
|---|---|---|
| Mixer.Trunc | recorder.py:66 | the int16 cast truncates toward zero: the result is the integer between 0 and x nearest to x |
| Mixer.TruncMonotone | recorder.py:66 | truncation preserves order |
| Mixer.TruncOdd | recorder.py:66 | truncating -x gives minus the truncation of x |
| Mixer.KeepStereo | recorder.py:54-58 | at most two channels remain, the row count is unchanged, and the first two channels keep their samples |
| Mixer.Mix | recorder.py:49-61 | the sum fails exactly when the channel counts (capped at 2) cannot broadcast; otherwise it has min(len(mic), len(speaker)) rows and at most 2 channels, and each sample is the sum of the original mic and speaker samples in that row and channel |
| Mixer.RowPeak | recorder.py:64 | the largest magnitude in a row: non-negative, bounds every sample, and reached by some sample of a non-empty row |
| Mixer.Peak | recorder.py:64 | np.max(np.abs(x)): non-negative, bounds every sample, and reached by some sample when non-zero |
| Mixer.Scale | recorder.py:66 | x / peak * 32767 truncated toward zero (it lies within 1 of that value, on the side of zero); within ±32767, keeps the sign of x (or is 0), and maps ±peak to exactly ±32767 |
| Mixer.ScaleRows | recorder.py:66 | the rescale is applied sample by sample and keeps the shape |
| Mixer.CastRows | recorder.py:68 | casting silent rows gives zeros of the same shape |
| Mixer.Normalize | recorder.py:63-68 | keeps the shape; with a positive peak every output is Scale(sample, peak), so it is within ±32767 and keeps its input's sign, and a sample at ±peak becomes ±32767; the peak is 0 exactly for silence, and silence comes out as all zeros through the branch without division |
| Mixer.Merge | recorder.py:49-68 | a successful merge is a rectangular chunk with min(len(mic), len(speaker)) > 0 rows and 1 or 2 channels; it fails with ShapeMismatch exactly when the sum cannot broadcast, and with EmptyReduction exactly when the sum has no samples; otherwise the chunk is Normalize of the mixed sum |
| Mixer.MergeSamples | recorder.py:49-68 | every sample of a merged chunk is within ±32767 and has the sign of its mic + speaker sum, and a sum at ±peak (peak > 0) becomes ±32767 |
| Mixer.MixSilent | recorder.py:49-61 | the mixed sum of two silent frames is silent |
| Mixer.MergeSilent | recorder.py:63-68 | silent mic and speaker frames merge to an all-zero chunk |
| Mixer.ScaleMonotone | recorder.py:66 | rescaling preserves the order of samples |
| Mixer.ScaleOdd | recorder.py:66 | opposite samples rescale to opposite values |
| Mixer.MergeAlternatingExample | recorder.py:49-68 | mic [100,-100,100,-100] and speaker [50,-50,50,-50] sum to a peak of 150 and merge to [32767,-32767,32767,-32767] |
| Recording.PathJoin | recorder.py:103 | POSIX os.path.join (separator '/') ends with the file name it was given |
| Recording.Recorder.constructor | recorder.py:10-19 | sample_rate and chunk_duration default to 16000 and 5; the queues start empty, and chunk_size is int(sample_rate * chunk_duration) |
| Recording.Recorder.ReceiveMic | recorder.py:85 | a frame read from the microphone goes to the back of the mic queue; nothing else changes |
| Recording.Recorder.ReceiveSpeaker | recorder.py:85 | a frame read from the loopback goes to the back of the speaker queue; nothing else changes |
| Recording.Recorder.MergeStep | recorder.py:43-74 | with an empty mic queue nothing changes; with an empty speaker queue the oldest mic frame is dropped; otherwise both oldest frames are consumed and the merged chunk is appended behind the earlier chunks, or nothing is appended if the merge raises; every queued chunk stays playable |
| Recording.Recorder.MergePair | recorder.py:49-71 | merges one pair of frames: a successful merge appends its chunk behind the earlier ones, a merge that raises appends nothing, and the frame queues are untouched |
| Recording.Recorder.GetNextChunk | recorder.py:89-94 | with no chunk it returns None and changes nothing; otherwise it removes and returns the oldest chunk |
| Recording.Recorder.SaveChunk | recorder.py:96-105 | None writes nothing and returns None; a chunk is written, with the recorder's sample rate, to PathJoin(outputDir, chunk_<timestamp>.wav), with outputDir defaulting to "recordings", and that path is returned |
| Recording.SavePathsDistinct | recorder.py:101-103 | in one directory, two saves share a file exactly when they share a timestamp |
| Text.Join | transcriber.py:32 | joining no parts gives "" and joining one part gives that part |
| Text.JoinLength | transcriber.py:32 | the joined text is the parts' total length plus one space per neighbouring pair |
| Text.JoinConcat | transcriber.py:32 | joining two non-empty lists is joining each and putting one space between |
| Text.JoinAppend | transcriber.py:46 | appending a segment extends the joined transcript by a space and that segment, or makes it that segment if the transcript was empty |
| Text.SplitJoin | transcriber.py:32 | splitting at spaces recovers the parts when none of them contains a space |
| Text.JoinEmpty | transcriber.py:32 | when every segment is non-empty, the joined text is empty exactly when there are no segments |
| Transcription.Transcribe | transcriber.py:54-73 | an engine failure gives None; a segments result gives text exactly when every segment has a text, and that text is the segment texts joined by single spaces in segment order; any other result gives its text |
| Transcription.TranscribeSegments | transcriber.py:64-65 | a segments result gives the segment texts in order, separated by single spaces: its length is their total plus one per separator, and, for a non-empty list in which no segment contains a space, splitting it at spaces returns them |
| Transcription.Contribution | transcriber.py:43-46 | a dequeued handle adds at most one segment; a falsy handle, a failed transcription or an empty text adds nothing; an added segment is the handle's non-empty transcription |
| Transcription.Accumulate | transcriber.py:40-46 | a run of handles adds no more segments than there are handles, and every added segment is non-empty |
| Transcription.AccumulateConcat | transcriber.py:40-46 | processing two runs in a row adds the first run's segments and then the second's |
| Transcription.Sources | transcriber.py:40-46 | every listed position holds a handle that yields a segment |
| Transcription.SourcesIncreasing | transcriber.py:40-46 | the listed positions strictly increase |
| Transcription.AccumulateIsTextsAtSources | transcriber.py:40-46 | the segments added by a run of handles are exactly the transcriptions of the handles that yield one, in submission order |
| Transcription.SourcesComplete | transcriber.py:40-46 | every handle that yields a segment is among the listed positions, so none is left out of the transcript |
| Transcription.Transcriber.constructor | transcriber.py:8-18 | the language defaults to "auto"; the queue and transcript start empty and the transcriber is not running |
| Transcription.Transcriber.Start | transcriber.py:20-25 | sets running and resets the transcript to empty; queued handles stay |
| Transcription.Transcriber.Stop | transcriber.py:27-32 | clears running and returns the segments joined by single spaces; the result is "" exactly when there are no segments |
| Transcription.Transcriber.AddAudio | transcriber.py:34-36 | the handle goes to the back of the queue |
| Transcription.Transcriber.ProcessStep | transcriber.py:40-52 | a pass is taken only while running; with an empty queue nothing changes; otherwise the oldest handle is removed and its contribution is appended at the end of the transcript, earlier segments unchanged |
| Transcription.Transcriber.Run | transcriber.py:38-52 | while running, each pass consumes handles from the head of the queue, so a run consumes the oldest min(passes, queue length) handles and extends the transcript by their accumulated segments in queue order; when not running nothing happens |

## Left out

- Device capture: the `soundcard` microphone and loopback setup (recorder.py:14-15) and the blocking `recorder.record` reads (recorder.py:79-87) are hardware I/O. A frame the device thread delivers enters through `ReceiveMic` or `ReceiveSpeaker`.
- Threads and the shared flags: `start_recording`, `stop_recording`, the `recording` flag, thread start and `join` (recorder.py:21-47, 76-77; transcriber.py:24-25, 30-31). The model covers single passes of the loops, plus `Run` for a given number of worker passes.
- Timeouts: a one-second `queue.get(timeout=1)` that runs out is modelled as "the queue is empty now". How long a pass waits is not modelled.
- Recording.Recorder.MergeStep: when the merge raises, the model returns `Raised` and the recorder can still be used. In the original, the exception is not a `queue.Empty`, so it ends the capture loop thread.
- Float32 arithmetic: samples are exact reals, so rounding, overflow to infinity and NaN are not modelled.
- Recording.PathJoin: models POSIX `os.path.join` only; Windows separators and drive letters are not modelled.
- Files: `os.makedirs`, the WAV encoding done by `sf.write` and the clock behind the timestamp (recorder.py:101-104). The disk is a map from paths to (sample rate, samples), and the timestamp is a parameter.
- Speech engine: the WhisperX model, its device choice and the language argument (transcriber.py:13-14, 58-61). The engine is a function parameter that returns a failure, a list of segments, or text. The language is stored but not passed to it. A segment text that is not a string is not modelled.
- Console output: the `print` calls in transcriber.py:47-50 and 72 and in recorder.py:87.
- summarizer.py and main.py are not part of this model: they are model downloads, LLM inference, report writing and the interactive menu.
