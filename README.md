# SpeechRecognizer: a verified model

This project models `SpeechRecognizer`, the controller behind the speech-to-text
application. The controller does five things:

- it finds a Vosk model directory;
- it loads a Vosk model and creates a recognizer on it;
- it captures microphone audio into a `QBuffer`;
- it hands that buffer to the engine every 100 ms;
- it turns the engine's results into a transcription, status texts and Qt signals.

The model is imperative, like the C++ it follows. `Recognizer.SpeechRecognizer` is a class
with the same fields as the C++ class. Each slot and each `Q_INVOKABLE` method is a Dafny
method that updates those fields. Its contract states the whole new state.

Two ghost logs record what the outside world sees:

- `signals`: every Qt signal emitted, in order, with its argument;
- `engineLog`: every Vosk call made, in order, with its arguments and, for allocations, what
  they returned.

Three more ghost fields carry the invariants:

- `segments`: the finalized texts the transcription is made of;
- `captured`: the bytes the audio device delivered in the current session;
- `fed`: the bytes handed to `vosk_recognizer_accept_waveform` in the current session.

The class invariant `Valid()` has three parts:

- **HandlesValid**:
  - replaying `engineLog` through the handle state machine in `Vosk` never faults;
  - the replay ends in exactly the handles held;
  - both handles are held or neither is;
  - `isModelLoaded` holds exactly when a recognizer is held;
  - every recognizer was created at `SAMPLE_RATE`.

  A fault is any of: a second model or a second recognizer; a recognizer created without a
  model; a model freed that is not live, or freed under its recognizer; a recognizer freed
  or used when none is live.
- **TranscriptValid**:
  - the transcription is the one-space join of `segments`;
  - each segment is a non-empty, trimmed result.
- **SessionValid**:
  - the two timers run exactly while recording;
  - a device is held only while recording;
  - while recording, the buffer is open with its position at its end, and the bytes fed so
    far followed by the buffered bytes are exactly the bytes captured, in order (no loss,
    no duplication).

  The promise that every captured byte reaches the engine holds only while a recognizer is
  held. `loadModel` is not refused during a recording, and if it fails there, recording goes
  on with no recognizer. processAudioData then returns early
  (plugins/SpeechRecognizer/speech_recognizer.cpp:317-319) and leaves the buffer alone. So
  the bytes buffered when the load failed, and those captured after it, pile up. They reach
  the engine only if a later `loadModel` in the same session succeeds: the next tick or the
  flush at stop then feeds them all at once. If the session ends with no recognizer, they are
  never fed.

Every public method and slot requires and preserves `Valid()`. The getters (`isRecording`,
`isModelLoaded`, `transcription`, `status`, `recordingDuration`) are Dafny functions that
read `this`, so by construction they change nothing.

Everything outside the class is an input to the methods that consult it:

- **The filesystem**: a set of existing directories and a set of existing files, plus the
  application and data directories.
- **The audio system**: an `AudioHost` value. It gives the default device, format support and
  the nearest format, the new `QAudioInput`, and the device `start()` returns.
- **The engine's allocations**: `Ptr` values, where `Null` means failure.
- **The engine's answers**: an `EngineReply`, holding the accept-waveform flag and the
  extracted `"text"`/`"partial"` field. `None` stands for a NULL result pointer.
- **Elapsed milliseconds**.

Modules:

- **Native**: bytes, raw pointers and `Option`.
- **Text**: `QString::trimmed` over `QChar::isSpace`, and the one-space join of results.
- **ModelLocator**: the search order of `findModelPath`. A list of probes is the reference
  definition, and two nested loops implement it.
- **Vosk**: the engine call log and the handle state machine it replays through.
- **AudioBuffer**: the `QBuffer` (data, position, open flag) with the `QIODevice` operations
  the recognizer uses.
- **Recognizer**: the constants, status texts, error messages, signals and the
  `SpeechRecognizer` class.

## Model

| member | source | states |
|---|---|---|
| ModelLocator.FindModelPath | plugins/SpeechRecognizer/speech_recognizer.cpp:58-102 | returns exactly `ModelPath(env)`: the first successful probe over the four search paths (three under the application directory, then the data directory) and the three model names, or "" when none succeeds |
| ModelLocator.Search | plugins/SpeechRecognizer/speech_recognizer.cpp:79-101 | the outer loop with early return, over any search paths and names, returns the path of the first successful probe in path order, or "" |
| ModelLocator.SearchNames | plugins/SpeechRecognizer/speech_recognizer.cpp:89-96 | the inner loop returns the first `dir/name` that is an existing directory, in list order, or "" exactly when there is none |
| ModelLocator.SkipMissingDir | plugins/SpeechRecognizer/speech_recognizer.cpp:80-81 | a search path that is not an existing directory contributes no hit, even if its subdirectories exist |
| ModelLocator.FirstHitIsFirst | plugins/SpeechRecognizer/speech_recognizer.cpp:79-101 | the located probe succeeds and every probe made before it fails; when nothing is located, every probe fails |
| ModelLocator.ModelPathIsFirstHit | plugins/SpeechRecognizer/speech_recognizer.cpp:60-101 | the located path is "" exactly when no search path holds a model; otherwise it is the path of a successful probe and every earlier probe failed |
| ModelLocator.ModelDirBeforeSubdirs | plugins/SpeechRecognizer/speech_recognizer.cpp:81-87 | when the search paths before path i yield no hit (missing, or existing without a model) and path i exists and contains `am/final.mdl` or `graph/HCLG.fst`, path i itself is returned, before any of its named subdirectories and every later path |
| ModelLocator.ProbePathsNonEmpty | plugins/SpeechRecognizer/speech_recognizer.cpp:64-70 | every path a probe can return is non-empty, so "" unambiguously means no model was found |
| Text.Trim | plugins/SpeechRecognizer/speech_recognizer.cpp:287 | the trimmed text neither starts nor ends with whitespace |
| Text.TrimIsInfix | plugins/SpeechRecognizer/speech_recognizer.cpp:287 | the trimmed text is the original with only a whitespace prefix and a whitespace suffix removed |
| Text.TrimEmptyIff | plugins/SpeechRecognizer/speech_recognizer.cpp:287-289 | a result trims to empty exactly when it is all whitespace, which is the case that gets dropped |
| Text.TrimIdempotent | plugins/SpeechRecognizer/speech_recognizer.cpp:287 | a property of `QString::trimmed` in general, not a step of the source: trimming an already trimmed text changes nothing |
| Text.JoinSnoc | plugins/SpeechRecognizer/speech_recognizer.cpp:290-293 | appending a result adds exactly one space before it unless the transcription was empty |
| Text.JoinEmptyIff | plugins/SpeechRecognizer/speech_recognizer.cpp:290 | the transcription is empty exactly when no result has been appended |
| Text.JoinNoEdgeSpace | plugins/SpeechRecognizer/speech_recognizer.cpp:359-363 | the accumulated transcription never starts or ends with whitespace |
| Vosk.RecognizerNeedsModel | plugins/SpeechRecognizer/speech_recognizer.cpp:117-149 | in every log of engine calls that keeps the handle discipline, a live recognizer implies a live model |
| Vosk.PrefixKeepsDiscipline | plugins/SpeechRecognizer/speech_recognizer.cpp:117-149 | a log that keeps the discipline keeps it at every earlier point |
| Vosk.ModelFreedAfterRecognizer | plugins/SpeechRecognizer/speech_recognizer.cpp:43-56 | in a log that keeps the discipline, every `vosk_model_free` happens while the model is alive and its recognizer has already been freed |
| AudioBuffer.ByteBuffer.constructor | plugins/SpeechRecognizer/speech_recognizer.h:64 | a new QBuffer is closed, empty and at position 0 |
| AudioBuffer.ByteBuffer.Open | plugins/SpeechRecognizer/speech_recognizer.cpp:221 | open leaves the buffer open and rewound; the data stay |
| AudioBuffer.ByteBuffer.Close | plugins/SpeechRecognizer/speech_recognizer.cpp:219 | close keeps the data and rewinds |
| AudioBuffer.ByteBuffer.SetData | plugins/SpeechRecognizer/speech_recognizer.cpp:220 | setData replaces the data on a closed buffer and is ignored on an open one |
| AudioBuffer.ByteBuffer.Size | plugins/SpeechRecognizer/speech_recognizer.cpp:273 | size reads only the buffer and returns the number of bytes it holds |
| AudioBuffer.ByteBuffer.Seek | plugins/SpeechRecognizer/speech_recognizer.cpp:274 | seek within the data moves the position on an open buffer and fails on a closed one |
| AudioBuffer.ByteBuffer.ReadAll | plugins/SpeechRecognizer/speech_recognizer.cpp:275 | readAll returns everything from the position on and moves to the end; nothing from a closed buffer |
| AudioBuffer.ByteBuffer.Write | plugins/SpeechRecognizer/speech_recognizer.cpp:237 | write overwrites from the position and extends the data past the end; refused on a closed buffer |
| Recognizer.ToInt32 | plugins/SpeechRecognizer/speech_recognizer.cpp:385 | `static_cast<int>` is the 32-bit value congruent to its argument, and the identity in range |
| Recognizer.LabelInjective | plugins/SpeechRecognizer/speech_recognizer.cpp:389-395 | distinct statuses have distinct texts, so comparing statuses is comparing status strings |
| Recognizer.SpeechRecognizer.IsRecording | plugins/SpeechRecognizer/speech_recognizer.h:30 | reads only the object and returns the recording flag |
| Recognizer.SpeechRecognizer.IsModelLoaded | plugins/SpeechRecognizer/speech_recognizer.h:31 | reads only the object and returns the loaded flag, which under the handle discipline holds exactly when a recognizer is held |
| Recognizer.SpeechRecognizer.Transcription | plugins/SpeechRecognizer/speech_recognizer.h:32 | reads only the object and returns the transcription, which under the transcript invariant is the one-space join of the kept results |
| Recognizer.SpeechRecognizer.StatusText | plugins/SpeechRecognizer/speech_recognizer.h:33 | reads only the object and returns the status text, empty only before the first setStatus |
| Recognizer.SpeechRecognizer.RecordingDuration | plugins/SpeechRecognizer/speech_recognizer.h:34 | reads only the object and returns the duration in seconds |
| Recognizer.SpeechRecognizer.RecognizerImpliesModel | plugins/SpeechRecognizer/speech_recognizer.cpp:117-149 | whenever the engine log replays to the handles held, a held recognizer implies a held model |
| Recognizer.SpeechRecognizer.constructor | plugins/SpeechRecognizer/speech_recognizer.cpp:12-41 | invariant established:<br>- not recording, duration 0, null audio input and device;<br>- the 16 kHz mono 16-bit format, timer periods of 100 ms and 1000 ms, empty transcription, closed empty buffer;<br>- the log level set first, then status "Ready" with one notification;<br>- when the search finds a path, exactly loadModel's calls, status and signals for it;<br>- otherwise no handles and not loaded |
| Recognizer.SpeechRecognizer.AutoLoad | plugins/SpeechRecognizer/speech_recognizer.cpp:36-40 | nothing happens when the search finds no path; otherwise the path is loaded with loadModel's effects |
| Recognizer.SpeechRecognizer.Destroy | plugins/SpeechRecognizer/speech_recognizer.cpp:43-56 | stopRecording's engine calls, then the recognizer freed before the model; both handles end null and the replayed log holds no handle |
| Recognizer.SpeechRecognizer.SetStatus | plugins/SpeechRecognizer/speech_recognizer.cpp:389-395 | the status is stored; statusChanged is emitted only when it differs, so repeating a status emits nothing |
| Recognizer.SpeechRecognizer.ReleaseHandles | plugins/SpeechRecognizer/speech_recognizer.cpp:117-125 | frees the recognizer and then the model, whichever are held, leaving no live handle |
| Recognizer.SpeechRecognizer.CreateHandles | plugins/SpeechRecognizer/speech_recognizer.cpp:127-152 | creates the model, then a recognizer at SAMPLE_RATE, then enables words; a failed recognizer frees the model; either both allocations are held or neither |
| Recognizer.SpeechRecognizer.LoadModel | plugins/SpeechRecognizer/speech_recognizer.cpp:104-160 | the default empty argument means the search result is used. With no usable path: one error, status "No model found", false, handles and loaded flag unchanged. Otherwise: old handles freed recognizer first, then both new handles and loaded with "Ready" and true, or neither handle, not loaded, the matching error and failure status, and false |
| Recognizer.SpeechRecognizer.LoadPath | plugins/SpeechRecognizer/speech_recognizer.cpp:108-160 | the same two outcomes once the path is settled |
| Recognizer.SpeechRecognizer.Reload | plugins/SpeechRecognizer/speech_recognizer.cpp:114-159 | status "Loading model...", release, creation and report, keeping the handle discipline |
| Recognizer.SpeechRecognizer.Announce | plugins/SpeechRecognizer/speech_recognizer.cpp:130-156 | the error message with the path, or the recognizer error, then the failure status and isModelLoadedChanged; on success isModelLoadedChanged then "Ready" |
| Recognizer.SpeechRecognizer.ResetRecognizer | plugins/SpeechRecognizer/speech_recognizer.cpp:207-209 | one reset call on the live recognizer, discipline kept |
| Recognizer.SpeechRecognizer.InitAudio | plugins/SpeechRecognizer/speech_recognizer.cpp:162-192 | with no default device: no input, the format unchanged, the error and "No microphone". Otherwise a new input, with the requested format or the device's nearest when unsupported |
| Recognizer.SpeechRecognizer.StartRecording | plugins/SpeechRecognizer/speech_recognizer.cpp:194-253 | while recording, nothing changes. Without a model, only the "not loaded" error. Otherwise the recognizer is reset and audio opened. A failed start reports its errors and statuses. Success: recording, duration 0, empty open buffer, nothing captured or fed, "Listening..." |
| Recognizer.SpeechRecognizer.OpenSession | plugins/SpeechRecognizer/speech_recognizer.cpp:206-250 | the reset of the recognizer followed by the audio start, with every outcome of the latter |
| Recognizer.SpeechRecognizer.OpenInput | plugins/SpeechRecognizer/speech_recognizer.cpp:211-250 | initAudio, the "Failed to initialize audio input" error when there is no input, otherwise the capture start |
| Recognizer.SpeechRecognizer.ClearBuffer | plugins/SpeechRecognizer/speech_recognizer.cpp:219-221 | the buffer ends empty, open and at position 0 |
| Recognizer.SpeechRecognizer.StartCapture | plugins/SpeechRecognizer/speech_recognizer.cpp:219-250 | the buffer emptied and the started device kept. With no device: the error and "Audio error", not recording. Otherwise a new session |
| Recognizer.SpeechRecognizer.BeginSession | plugins/SpeechRecognizer/speech_recognizer.cpp:242-250 | recording with timers running, duration 0, nothing captured or fed, isRecordingChanged and recordingDurationChanged, then "Listening..." |
| Recognizer.SpeechRecognizer.OnReadyRead | plugins/SpeechRecognizer/speech_recognizer.cpp:233-240 | while a device is held, a non-empty chunk is appended to both the buffer and the captured bytes; otherwise nothing changes |
| Recognizer.SpeechRecognizer.PublishFinal | plugins/SpeechRecognizer/speech_recognizer.cpp:354-366 | a final result is trimmed and dropped when NULL or blank; otherwise it becomes the next segment and the transcription becomes the old one plus one space plus the text, or the text alone when the transcription was empty, then transcriptionChanged and finalResult |
| Recognizer.SpeechRecognizer.PublishPartial | plugins/SpeechRecognizer/speech_recognizer.cpp:370-378 | a partial result is trimmed and reported only when non-blank; the transcription is untouched |
| Recognizer.SpeechRecognizer.ProcessBuffer | plugins/SpeechRecognizer/speech_recognizer.cpp:338-381 | with no recognizer or no bytes, nothing happens. Otherwise one accept-waveform call with exactly the buffer appends it to the fed bytes, then the full result at an utterance boundary or the partial result (which never changes the transcription) |
| Recognizer.SpeechRecognizer.TakeResult | plugins/SpeechRecognizer/speech_recognizer.cpp:351-380 | GetResult and the final-result rule when accepted is non-zero; GetPartialResult and the partial rule otherwise |
| Recognizer.SpeechRecognizer.ProcessAudioData | plugins/SpeechRecognizer/speech_recognizer.cpp:315-336 | nothing changes unless recording with a recognizer and a non-empty buffer. Otherwise the whole buffer is forwarded in one call and the buffer left empty and open; the fed-plus-buffered equals captured invariant is kept |
| Recognizer.SpeechRecognizer.StopRecording | plugins/SpeechRecognizer/speech_recognizer.cpp:255-307 | nothing changes when not recording. Otherwise the input and device are dropped, the buffered audio is flushed before the final-result call; when a recognizer is held, every captured byte has been fed exactly once in order; then not recording, buffer closed, isRecordingChanged and "Ready" |
| Recognizer.SpeechRecognizer.Shutdown | plugins/SpeechRecognizer/speech_recognizer.cpp:261-306 | stopRecording past its guard: input and device dropped, the buffer flushed before the final-result call, fed equals captured when a recognizer is held, then not recording, buffer closed, isRecordingChanged and "Ready" |
| Recognizer.SpeechRecognizer.Halt | plugins/SpeechRecognizer/speech_recognizer.cpp:261-270 | both timers stopped, audio input and device dropped |
| Recognizer.SpeechRecognizer.Drain | plugins/SpeechRecognizer/speech_recognizer.cpp:272-304 | feed the remaining bytes, then the final result, then close; when a recognizer is held, fed equals captured afterwards |
| Recognizer.SpeechRecognizer.FinishStop | plugins/SpeechRecognizer/speech_recognizer.cpp:282-304 | the final-result call when a recognizer is held, with the final-result rule, then the buffer closed with its data kept, not recording, isRecordingChanged and "Ready" |
| Recognizer.SpeechRecognizer.FlushBuffer | plugins/SpeechRecognizer/speech_recognizer.cpp:273-279 | everything left in the buffer reaches processBuffer in one piece; when a recognizer is held it is fed, so fed equals captured |
| Recognizer.SpeechRecognizer.TakeFinalResult | plugins/SpeechRecognizer/speech_recognizer.cpp:282-298 | with a recognizer, one final-result call and the final-result rule; otherwise nothing |
| Recognizer.SpeechRecognizer.EndSession | plugins/SpeechRecognizer/speech_recognizer.cpp:300-304 | buffer closed with its data kept, not recording, isRecordingChanged, then "Ready" |
| Recognizer.SpeechRecognizer.ClearTranscription | plugins/SpeechRecognizer/speech_recognizer.cpp:309-313 | the transcription is always empty afterwards, with one transcriptionChanged |
| Recognizer.SpeechRecognizer.UpdateRecordingDuration | plugins/SpeechRecognizer/speech_recognizer.cpp:383-387 | the duration is the elapsed whole seconds cast to a 32-bit int (the exact value below 2^31 seconds), with one recordingDurationChanged |

## Left out

- The Vosk engine is opaque. Allocations, the accept-waveform result and the result texts are
  inputs, and recognition itself is not modelled.
- JSON parsing with `QJsonDocument` is not modelled. A reply carries the extracted `"text"` or
  `"partial"` field directly, and a missing field or an invalid document is given as "".
- `QTimer` ticks, `QElapsedTimer` and wall-clock time are left out. The timers are two booleans.
  `processAudioData` and `updateRecordingDuration` are methods the caller invokes, and
  `updateRecordingDuration` takes the elapsed milliseconds as an input.
- Path handling is left out. Paths are compared as plain strings, with no normalisation of
  `..` or of repeated separators, and `applicationDirPath` and `AppDataLocation` are inputs.
- Audio device handling and format negotiation are an `AudioHost` input. No property states
  that the captured audio's sample rate matches the recognizer's: the fall-back to the nearest
  format can change it without the recognizer being told.
- `QAudioInput` objects are addresses only. Their deletion, their `stop()` and their reparenting
  to the recognizer are not modelled.
- Qt signal delivery and `qDebug`/`qWarning` output are left out. Emissions are recorded in the
  ghost `signals` log.
- The QML plugin registration (plugin.cpp, plugin.h) is not part of this model.
- QBuffer seeks beyond the end of the data are not modelled. The recognizer only ever seeks to 0.
- Recognizer.SpeechRecognizer.Destroy: it does not re-establish the class invariant, because the
  C++ destructor frees both handles without clearing `m_isModelLoaded`. The contract states the
  freed handles and the engine calls instead.
- The status property is a `Status` datatype and errors are an `Error` datatype. `Label` and
  `Message` give their exact texts, and `LabelInjective` shows that comparing statuses
  is comparing the strings `setStatus` compares.
