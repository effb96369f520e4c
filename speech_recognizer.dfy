/** The SpeechRecognizer component: a controller that finds and loads a Vosk
    model, captures microphone audio into a buffer, feeds the buffer to the
    engine on a timer and publishes the recognised text.

    Qt signals and the Vosk calls are recorded in two ghost logs, `signals`
    and `engineLog`; everything the outside world supplies (the filesystem,
    the audio device, engine allocations and engine answers) is a parameter. */
module Recognizer {
  import opened Native
  import opened Text
  import opened ModelLocator
  import opened Vosk
  import opened AudioBuffer

  // The fixed capture format the recognizer is created for.
  const SAMPLE_RATE: int := 16000
  const CHANNELS: int := 1
  const SAMPLE_SIZE: int := 16

  // Timer periods, in milliseconds.
  const PROCESS_INTERVAL_MS: int := 100
  const DURATION_INTERVAL_MS: int := 1000

  /** vosk_set_log_level(-1): no info messages from the engine. */
  const QUIET_LOG_LEVEL: int := -1

  /** The values the status property takes; Unset is the empty QString it
      holds before the constructor's first setStatus. */
  datatype Status =
    | Unset | Ready | NoModelFound | LoadingModel | ModelLoadFailed
    | RecognizerCreationFailed | NoMicrophone | AudioError | Listening

  /** The status text shown to the UI. */
  function Label(s: Status): string {
    match s
    case Unset => ""
    case Ready => "Ready"
    case NoModelFound => "No model found"
    case LoadingModel => "Loading model..."
    case ModelLoadFailed => "Model load failed"
    case RecognizerCreationFailed => "Recognizer creation failed"
    case NoMicrophone => "No microphone"
    case AudioError => "Audio error"
    case Listening => "Listening..."
  }

  /** Distinct statuses have distinct texts, so comparing statuses is
      comparing the status strings setStatus compares. */
  lemma LabelInjective(a: Status, b: Status)
    ensures Label(a) == Label(b) <==> a == b
  {
    if a != b {
      assert |Label(a)| != |Label(b)|;
    }
  }

  /** The errors errorOccurred reports. */
  datatype Error =
    | NoModel | LoadFailed(path: string) | RecognizerFailed
    | NoDevice | NotLoaded | InitFailed | StartFailed

  /** The message text errorOccurred carries. */
  function Message(e: Error): string {
    match e
    case NoModel => "No speech recognition model found. Please install a Vosk model."
    case LoadFailed(path) => "Failed to load speech recognition model from: " + path
    case RecognizerFailed => "Failed to create speech recognizer"
    case NoDevice => "No audio input device found"
    case NotLoaded => "Model not loaded. Please load a model first."
    case InitFailed => "Failed to initialize audio input"
    case StartFailed => "Failed to start audio capture"
  }

  datatype ByteOrder = BigEndian | LittleEndian
  datatype SampleType = Unknown | SignedInt | UnSignedInt | Float

  datatype AudioFormat = AudioFormat(
    sampleRate: int, channelCount: int, sampleSize: int,
    codec: string, byteOrder: ByteOrder, sampleType: SampleType)

  /** 16 kHz mono signed 16-bit little-endian PCM, as the constructor configures it. */
  const VoskFormat := AudioFormat(SAMPLE_RATE, CHANNELS, SAMPLE_SIZE, "audio/pcm", LittleEndian, SignedInt)

  /** What the audio system answers during startRecording: the default input
      device (Null when there is none), whether it supports the requested
      format and the nearest one it offers, the address of the new
      QAudioInput, and the QIODevice its start() returns (Null on failure). */
  datatype AudioHost = AudioHost(
    defaultDevice: Ptr, formatSupported: bool, nearestFormat: AudioFormat,
    inputAddress: nat, startedDevice: Ptr)

  /** The component's Qt signals, in emission order. */
  datatype Signal =
    | IsRecordingChanged
    | IsModelLoadedChanged
    | TranscriptionChanged
    | StatusChanged
    | RecordingDurationChanged
    | PartialResult(text: string)
    | FinalResult(text: string)
    | ErrorOccurred(error: Error)

  /** static_cast<int> of a 64-bit value: reduction into the 32-bit range. */
  function ToInt32(x: int): (r: int)
    ensures -0x8000_0000 <= r < 0x8000_0000
    ensures (x - r) % 0x1_0000_0000 == 0
    ensures -0x8000_0000 <= x < 0x8000_0000 ==> r == x
  {
    var m := x % 0x1_0000_0000;
    if m < 0x8000_0000 then m else m - 0x1_0000_0000
  }

  /** setStatus notifies only on a change. */
  function StatusSignal(from: Status, to: Status): seq<Signal> {
    if from == to then [] else [StatusChanged]
  }

  /** What a final result contributes to the transcription: its trimmed text,
      unless the pointer was NULL or the text is blank. */
  function Published(raw: Option<string>): seq<string> {
    if raw.Some? && Trim(raw.value) != "" then [Trim(raw.value)] else []
  }

  function FinalSignals(raw: Option<string>): seq<Signal> {
    if Published(raw) == [] then [] else [TranscriptionChanged, FinalResult(Published(raw)[0])]
  }

  function PartialSignals(raw: Option<string>): seq<Signal> {
    if raw.Some? && Trim(raw.value) != "" then [PartialResult(Trim(raw.value))] else []
  }

  /** The status loadModel ends in once a path is known. */
  function LoadOutcome(modelAlloc: Ptr, recognizerAlloc: Ptr): Status {
    if modelAlloc == Null then ModelLoadFailed
    else if recognizerAlloc == Null then RecognizerCreationFailed
    else Ready
  }

  /** The signals loadModel emits after "Loading model...", once a path is
      known: the error and the status change on a failure, then
      isModelLoadedChanged; on success isModelLoadedChanged and "Ready". */
  function LoadSignals(path: string, modelAlloc: Ptr, recognizerAlloc: Ptr): seq<Signal> {
    if modelAlloc == Null then [ErrorOccurred(LoadFailed(path)), StatusChanged, IsModelLoadedChanged]
    else if recognizerAlloc == Null then [ErrorOccurred(RecognizerFailed), StatusChanged, IsModelLoadedChanged]
    else [IsModelLoadedChanged, StatusChanged]
  }

  /** The engine calls stopRecording makes: none unless recording; otherwise
      the flush of what is buffered, then the final-result call when a
      recognizer exists. */
  function StopCalls(recording: bool, recognizer: Ptr, buffer: seq<byte>, flush: EngineReply): seq<EngineCall> {
    if !recording then []
    else FeedCalls(recognizer, buffer, flush) + (if recognizer != Null then [GetFinalResult] else [])
  }

  /** processBuffer reaches the engine only with a recognizer and some bytes. */
  predicate Feeds(recognizer: Ptr, buffer: seq<byte>) {
    recognizer != Null && buffer != []
  }

  function FeedCalls(recognizer: Ptr, buffer: seq<byte>, reply: EngineReply): seq<EngineCall> {
    if Feeds(recognizer, buffer)
    then [AcceptWaveform(buffer), if reply.accepted != 0 then GetResult else GetPartialResult]
    else []
  }

  function FeedSegments(recognizer: Ptr, buffer: seq<byte>, reply: EngineReply): seq<string> {
    if Feeds(recognizer, buffer) && reply.accepted != 0 then Published(reply.text) else []
  }

  function FeedSignals(recognizer: Ptr, buffer: seq<byte>, reply: EngineReply): seq<Signal> {
    if !Feeds(recognizer, buffer) then []
    else if reply.accepted != 0 then FinalSignals(reply.text)
    else PartialSignals(reply.text)
  }

  /** Every recognizer in the log was created at SAMPLE_RATE. */
  predicate CreatedAtSampleRate(log: seq<EngineCall>) {
    forall i :: 0 <= i < |log| && log[i].RecognizerNew? ==> log[i].sampleRate == SAMPLE_RATE
  }

  /** The creation calls loadModel makes for a path, given what the two
      allocations return; a recognizer failure releases the new model. */
  function CreateCalls(path: string, modelAlloc: Ptr, recognizerAlloc: Ptr): seq<EngineCall> {
    [ModelNew(path, modelAlloc)]
    + if modelAlloc == Null then []
      else [RecognizerNew(SAMPLE_RATE, recognizerAlloc)] + if recognizerAlloc == Null then [ModelFree] else [SetWords(1)]
  }

  /** The release calls made for the handles held, recognizer first. */
  function Releases(recognizer: Ptr, model: Ptr): seq<EngineCall> {
    (if recognizer != Null then [RecognizerFree] else []) + (if model != Null then [ModelFree] else [])
  }

  class SpeechRecognizer {
    // Audio components
    var audioInput: Ptr
    var audioDevice: Ptr
    const audioBuffer: ByteBuffer
    var audioFormat: AudioFormat

    // Vosk handles
    var model: Ptr
    var recognizer: Ptr

    // State published to the UI
    var recording: bool
    var modelLoaded: bool
    var transcription: string
    var status: Status
    var recordingDuration: int

    // The periods of the processing timer and the duration timer, in milliseconds
    const processInterval: int
    const durationInterval: int

    // Whether the processing timer and the duration timer run
    var processTimerActive: bool
    var durationTimerActive: bool

    /** Every signal emitted so far. */
    ghost var signals: seq<Signal>
    /** Every Vosk call made so far. */
    ghost var engineLog: seq<EngineCall>
    /** The finalized texts the transcription is made of. */
    ghost var segments: seq<string>
    /** The bytes captured in the current recording session, in arrival order. */
    ghost var captured: seq<byte>
    /** The byte arrays handed to vosk_recognizer_accept_waveform in the current session. */
    ghost var fed: seq<byte>

    /** The handle discipline: the log replays without fault to exactly the
        handles held, both handles are held or neither, "loaded" means a
        recognizer is held, and every recognizer was created at SAMPLE_RATE. */
    ghost predicate HandlesValid()
      reads this`engineLog, this`model, this`recognizer, this`modelLoaded
    {
      Replay(engineLog) == Some(Live(model != Null, recognizer != Null))
      && (model != Null <==> recognizer != Null)
      && (modelLoaded <==> recognizer != Null)
      && CreatedAtSampleRate(engineLog)
    }

    /** The transcription is the one-space join of trimmed, non-empty results. */
    ghost predicate TranscriptValid()
      reads this`segments, this`transcription
    {
      Segments(segments) && transcription == Join(segments)
    }

    /** While recording, the buffer is open with its position at the end, and
        the bytes fed so far followed by the buffered ones are exactly the
        bytes captured, in order. */
    ghost predicate SessionValid()
      reads this`audioDevice, this`recording, this`processTimerActive, this`durationTimerActive,
        this`fed, this`captured, audioBuffer`data, audioBuffer`pos, audioBuffer`isOpen
    {
      audioBuffer.pos <= |audioBuffer.data|
      && (audioDevice != Null ==> recording)
      && processTimerActive == recording && durationTimerActive == recording
      && (recording ==>
            audioBuffer.isOpen && audioBuffer.pos == |audioBuffer.data|
            && fed + audioBuffer.data == captured)
    }

    ghost predicate Valid()
      reads this, audioBuffer
    {
      HandlesValid() && TranscriptValid() && SessionValid()
    }

    // The property getters: each reads one field and changes nothing.

    function IsRecording(): (r: bool)
      reads this
      ensures r == recording
    {
      recording
    }

    /** Under the handle discipline, "loaded" means a recognizer is held. */
    function IsModelLoaded(): (r: bool)
      reads this
      ensures r == modelLoaded
      ensures HandlesValid() ==> (r <==> recognizer != Null)
    {
      modelLoaded
    }

    /** Under the transcript invariant, the text is the join of the results kept. */
    function Transcription(): (r: string)
      reads this
      ensures r == transcription
      ensures TranscriptValid() ==> r == Join(segments)
    {
      transcription
    }

    /** The status text; empty only before the constructor's first setStatus. */
    function StatusText(): (r: string)
      reads this
      ensures r == Label(status)
      ensures r == "" <==> status == Unset
    {
      Label(status)
    }

    function RecordingDuration(): (r: int)
      reads this
      ensures r == recordingDuration
    {
      recordingDuration
    }

    /** The engine log alone already rules out a recognizer held without its model. */
    lemma RecognizerImpliesModel()
      requires Replay(engineLog) == Some(Live(model != Null, recognizer != Null))
      ensures recognizer != Null ==> model != Null
    {
      RecognizerNeedsModel(engineLog);
    }

    ghost method Record(call: EngineCall)
      modifies this`engineLog
      ensures engineLog == old(engineLog) + [call]
      ensures Replay(engineLog) == After(Replay(old(engineLog)), call)
      ensures CreatedAtSampleRate(old(engineLog)) && (call.RecognizerNew? ==> call.sampleRate == SAMPLE_RATE)
        ==> CreatedAtSampleRate(engineLog)
    {
      ReplaySnoc(engineLog, call);
      engineLog := engineLog + [call];
    }

    /** A call on the live recognizer (feeding, results, reset) keeps the discipline. */
    ghost method RecordUse(call: EngineCall)
      requires HandlesValid() && recognizer != Null
      requires call.AcceptWaveform? || call.GetResult? || call.GetPartialResult?
        || call.GetFinalResult? || call.RecognizerReset?
      modifies this`engineLog
      ensures engineLog == old(engineLog) + [call] && HandlesValid()
    {
      Record(call);
    }

    /** The constructor: fixed audio format, log level, status "Ready", then
        an automatic load when the search finds a model. */
    constructor (env: Environment, modelAlloc: Ptr, recognizerAlloc: Ptr)
      ensures Valid() && fresh(audioBuffer)
      ensures !recording && recordingDuration == 0 && audioInput == Null && audioDevice == Null
      ensures audioFormat == VoskFormat && transcription == "" && segments == []
      ensures processInterval == PROCESS_INTERVAL_MS && durationInterval == DURATION_INTERVAL_MS
      ensures !audioBuffer.isOpen && audioBuffer.data == []
      ensures var path := ModelPath(env);
        if path == "" then
          model == Null && recognizer == Null && !modelLoaded && status == Ready
          && engineLog == [SetLogLevel(QUIET_LOG_LEVEL)] && signals == [StatusChanged]
        else
          modelLoaded == (modelAlloc != Null && recognizerAlloc != Null)
          && (modelLoaded ==> model == modelAlloc && recognizer == recognizerAlloc)
          && (!modelLoaded ==> model == Null && recognizer == Null)
          && status == LoadOutcome(modelAlloc, recognizerAlloc)
          && engineLog == [SetLogLevel(QUIET_LOG_LEVEL)] + CreateCalls(path, modelAlloc, recognizerAlloc)
          && signals == [StatusChanged] + StatusSignal(Ready, LoadingModel) + LoadSignals(path, modelAlloc, recognizerAlloc)
    {
      audioInput, audioDevice := Null, Null;
      audioBuffer := new ByteBuffer();
      audioFormat := VoskFormat;
      model, recognizer := Null, Null;
      recording, modelLoaded := false, false;
      recordingDuration := 0;
      processInterval, durationInterval := PROCESS_INTERVAL_MS, DURATION_INTERVAL_MS;
      processTimerActive, durationTimerActive := false, false;
      segments, captured, fed := [], [], [];
      transcription := "";
      // vosk_set_log_level(-1) is the first engine call, and setStatus("Ready")
      // on the empty initial status stores it and notifies once.
      engineLog := [SetLogLevel(QUIET_LOG_LEVEL)];
      status, signals := Ready, StatusSignal(Unset, Ready);
      new;
      ReplayOne(SetLogLevel(QUIET_LOG_LEVEL));
      AutoLoad(env, modelAlloc, recognizerAlloc);
    }

    /** The constructor's automatic load: loadModel on the path the search
        finds, and nothing when it finds none. */
    method AutoLoad(env: Environment, modelAlloc: Ptr, recognizerAlloc: Ptr)
      requires Valid() && model == Null && recognizer == Null
      modifies this`model, this`recognizer, this`modelLoaded, this`status, this`signals, this`engineLog
      ensures Valid()
      ensures var path := ModelPath(env);
        if path == "" then
          model == Null && recognizer == Null && modelLoaded == old(modelLoaded) && status == old(status)
          && engineLog == old(engineLog) && signals == old(signals)
        else
          modelLoaded == (modelAlloc != Null && recognizerAlloc != Null)
          && (modelLoaded ==> model == modelAlloc && recognizer == recognizerAlloc)
          && (!modelLoaded ==> model == Null && recognizer == Null)
          && status == LoadOutcome(modelAlloc, recognizerAlloc)
          && engineLog == old(engineLog) + CreateCalls(path, modelAlloc, recognizerAlloc)
          && signals == old(signals) + StatusSignal(old(status), LoadingModel) + LoadSignals(path, modelAlloc, recognizerAlloc)
    {
      var path := FindModelPath(env);
      if path != "" {
        var loaded := LoadModel(env, modelAlloc, recognizerAlloc, path);
      }
    }

    /** The destructor: stop recording, then release the recognizer and then the model. */
    method Destroy(flush: EngineReply, finalText: Option<string>)
      requires Valid()
      modifies this`audioInput, this`audioDevice, this`recording, this`processTimerActive,
        this`durationTimerActive, this`status, this`signals, this`engineLog, this`fed,
        this`transcription, this`segments, this`model, this`recognizer, audioBuffer`pos, audioBuffer`isOpen
      ensures !recording && audioDevice == Null && (old(recording) ==> audioInput == Null)
      ensures model == Null && recognizer == Null && Replay(engineLog) == Some(Live(false, false))
      ensures engineLog == old(engineLog) + StopCalls(old(recording), old(recognizer), old(audioBuffer.data), flush)
        + Releases(old(recognizer), old(model))
    {
      ghost var stopped := StopCalls(recording, recognizer, audioBuffer.data, flush);
      ghost var released := Releases(recognizer, model);
      StopRecording(flush, finalText);
      ghost var afterStop := engineLog;
      assert afterStop == old(engineLog) + stopped;
      ReleaseHandles();
      assert engineLog == afterStop + released;
    }

    /** setStatus: store, and notify only when the value differs. */
    method SetStatus(s: Status)
      modifies this`status, this`signals
      ensures status == s
      ensures signals == old(signals) + StatusSignal(old(status), s)
      ensures old(status) == s ==> signals == old(signals)
    {
      if status != s {
        status := s;
        signals := signals + [StatusChanged];
      }
    }

    /** Releases the handles held: the recognizer first, then the model. */
    method ReleaseHandles()
      requires HandlesValid()
      modifies this`model, this`recognizer, this`engineLog
      ensures model == Null && recognizer == Null
      ensures engineLog == old(engineLog) + Releases(old(recognizer), old(model))
      ensures Replay(engineLog) == Some(Live(false, false)) && CreatedAtSampleRate(engineLog)
    {
      if recognizer != Null {
        Record(RecognizerFree);
        recognizer := Null;
      }
      if model != Null {
        Record(ModelFree);
        model := Null;
      }
    }

    /** Creates a model for `path` and a recognizer on it at SAMPLE_RATE with
        word timing on; when the recognizer cannot be created the model is
        released again, so either both handles exist or neither does. */
    method CreateHandles(path: string, modelAlloc: Ptr, recognizerAlloc: Ptr) returns (ok: bool)
      requires model == Null && recognizer == Null
      requires Replay(engineLog) == Some(Live(false, false)) && CreatedAtSampleRate(engineLog)
      modifies this`model, this`recognizer, this`engineLog
      ensures ok == (modelAlloc != Null && recognizerAlloc != Null)
      ensures ok ==> model == modelAlloc && recognizer == recognizerAlloc
      ensures !ok ==> model == Null && recognizer == Null
      ensures engineLog == old(engineLog) + CreateCalls(path, modelAlloc, recognizerAlloc)
      ensures Replay(engineLog) == Some(Live(model != Null, recognizer != Null)) && CreatedAtSampleRate(engineLog)
    {
      model := modelAlloc;
      Record(ModelNew(path, modelAlloc));
      if model == Null {
        return false;
      }
      recognizer := recognizerAlloc;
      Record(RecognizerNew(SAMPLE_RATE, recognizerAlloc));
      if recognizer == Null {
        Record(ModelFree);
        model := Null;
        return false;
      }
      Record(SetWords(1));
      return true;
    }

    /** loadModel: find or take a path, release the old handles (recognizer
        first), then create a model and a recognizer at SAMPLE_RATE; a failure
        leaves no handle behind. An empty path (the default) means automatic
        discovery. */
    method LoadModel(env: Environment, modelAlloc: Ptr, recognizerAlloc: Ptr, modelPath: string := "") returns (ok: bool)
      requires Valid()
      modifies this`model, this`recognizer, this`modelLoaded, this`status, this`signals, this`engineLog
      ensures Valid()
      ensures var path := if modelPath == "" then ModelPath(env) else modelPath;
        if path == "" then
          !ok && model == old(model) && recognizer == old(recognizer) && modelLoaded == old(modelLoaded)
          && status == NoModelFound && engineLog == old(engineLog)
          && signals == old(signals) + [ErrorOccurred(NoModel)] + StatusSignal(old(status), NoModelFound)
        else
          ok == (modelAlloc != Null && recognizerAlloc != Null) && modelLoaded == ok
          && (ok ==> model == modelAlloc && recognizer == recognizerAlloc)
          && (!ok ==> model == Null && recognizer == Null)
          && engineLog == old(engineLog) + Releases(old(recognizer), old(model)) + CreateCalls(path, modelAlloc, recognizerAlloc)
          && status == LoadOutcome(modelAlloc, recognizerAlloc)
          && signals == old(signals) + StatusSignal(old(status), LoadingModel) + LoadSignals(path, modelAlloc, recognizerAlloc)
    {
      var path := modelPath;
      if path == "" {
        path := FindModelPath(env);
      }
      ok := LoadPath(path, modelAlloc, recognizerAlloc);
    }

    /** loadModel once the path is settled: an empty one is reported as no
        model found, any other is loaded. */
    method LoadPath(path: string, modelAlloc: Ptr, recognizerAlloc: Ptr) returns (ok: bool)
      requires Valid()
      modifies this`model, this`recognizer, this`modelLoaded, this`status, this`signals, this`engineLog
      ensures Valid()
      ensures if path == "" then
          !ok && model == old(model) && recognizer == old(recognizer) && modelLoaded == old(modelLoaded)
          && status == NoModelFound && engineLog == old(engineLog)
          && signals == old(signals) + [ErrorOccurred(NoModel)] + StatusSignal(old(status), NoModelFound)
        else
          ok == (modelAlloc != Null && recognizerAlloc != Null) && modelLoaded == ok
          && (ok ==> model == modelAlloc && recognizer == recognizerAlloc)
          && (!ok ==> model == Null && recognizer == Null)
          && engineLog == old(engineLog) + Releases(old(recognizer), old(model)) + CreateCalls(path, modelAlloc, recognizerAlloc)
          && status == LoadOutcome(modelAlloc, recognizerAlloc)
          && signals == old(signals) + StatusSignal(old(status), LoadingModel) + LoadSignals(path, modelAlloc, recognizerAlloc)
    {
      if path == "" {
        signals := signals + [ErrorOccurred(NoModel)];
        SetStatus(NoModelFound);
        return false;
      }
      ok := Reload(path, modelAlloc, recognizerAlloc);
    }

    /** The part of loadModel after a path is known: release, create, report. */
    method Reload(path: string, modelAlloc: Ptr, recognizerAlloc: Ptr) returns (ok: bool)
      requires HandlesValid()
      modifies this`model, this`recognizer, this`modelLoaded, this`status, this`signals, this`engineLog
      ensures HandlesValid()
      ensures ok == (modelAlloc != Null && recognizerAlloc != Null) && modelLoaded == ok
      ensures ok ==> model == modelAlloc && recognizer == recognizerAlloc
      ensures !ok ==> model == Null && recognizer == Null
      ensures engineLog == old(engineLog) + Releases(old(recognizer), old(model)) + CreateCalls(path, modelAlloc, recognizerAlloc)
      ensures status == LoadOutcome(modelAlloc, recognizerAlloc)
      ensures signals == old(signals) + StatusSignal(old(status), LoadingModel) + LoadSignals(path, modelAlloc, recognizerAlloc)
    {
      SetStatus(LoadingModel);
      ReleaseHandles();
      ok := CreateHandles(path, modelAlloc, recognizerAlloc);
      Announce(path, modelAlloc, recognizerAlloc, ok);
    }

    /** The reporting at the end of loadModel: the error and the failure
        status, or "Ready", around isModelLoadedChanged. */
    method Announce(path: string, modelAlloc: Ptr, recognizerAlloc: Ptr, ok: bool)
      requires status == LoadingModel && ok == (modelAlloc != Null && recognizerAlloc != Null)
      modifies this`modelLoaded, this`status, this`signals
      ensures modelLoaded == ok && status == LoadOutcome(modelAlloc, recognizerAlloc)
      ensures signals == old(signals) + LoadSignals(path, modelAlloc, recognizerAlloc)
    {
      if !ok {
        if modelAlloc == Null {
          signals := signals + [ErrorOccurred(LoadFailed(path))];
          SetStatus(ModelLoadFailed);
        } else {
          signals := signals + [ErrorOccurred(RecognizerFailed)];
          SetStatus(RecognizerCreationFailed);
        }
        modelLoaded := false;
        signals := signals + [IsModelLoadedChanged];
      } else {
        modelLoaded := true;
        signals := signals + [IsModelLoadedChanged];
        SetStatus(Ready);
      }
    }

    /** vosk_recognizer_reset on the live recognizer. */
    method ResetRecognizer()
      requires Valid() && recognizer != Null
      modifies this`engineLog
      ensures Valid() && engineLog == old(engineLog) + [RecognizerReset]
    {
      RecordUse(RecognizerReset);
    }

    /** initAudio: drop any previous audio input, then open the default
        device, falling back to its nearest format when ours is unsupported. */
    method InitAudio(host: AudioHost)
      requires HandlesValid() && TranscriptValid()
      modifies this`audioInput, this`audioFormat, this`status, this`signals
      ensures HandlesValid() && TranscriptValid()
      ensures host.defaultDevice == Null ==>
        audioInput == Null && audioFormat == old(audioFormat) && status == NoMicrophone
        && signals == old(signals) + [ErrorOccurred(NoDevice)] + StatusSignal(old(status), NoMicrophone)
      ensures host.defaultDevice != Null ==>
        audioInput == Addr(host.inputAddress)
        && audioFormat == (if host.formatSupported then old(audioFormat) else host.nearestFormat)
        && status == old(status) && signals == old(signals)
    {
      if audioInput != Null {
        audioInput := Null;
      }
      if host.defaultDevice == Null {
        signals := signals + [ErrorOccurred(NoDevice)];
        SetStatus(NoMicrophone);
        return;
      }
      if !host.formatSupported {
        audioFormat := host.nearestFormat;
      }
      audioInput := Addr(host.inputAddress);
    }

    /** startRecording: ignored while recording; refused without a model;
        otherwise resets the recognizer, opens the audio input, empties the
        buffer and starts a new session. */
    method StartRecording(host: AudioHost)
      requires Valid()
      modifies this`audioInput, this`audioDevice, this`audioFormat, this`recording,
        this`recordingDuration, this`processTimerActive, this`durationTimerActive,
        this`status, this`signals, this`engineLog, this`captured, this`fed, audioBuffer
      ensures Valid()
      ensures old(recording) ==> unchanged(this, audioBuffer)
      ensures !old(recording) && !old(modelLoaded) ==>
        unchanged(audioBuffer) && !recording
        && audioInput == old(audioInput) && audioDevice == old(audioDevice) && audioFormat == old(audioFormat)
        && recordingDuration == old(recordingDuration) && status == old(status)
        && engineLog == old(engineLog) && captured == old(captured) && fed == old(fed)
        && signals == old(signals) + [ErrorOccurred(NotLoaded)]
      ensures !old(recording) && old(modelLoaded) && host.defaultDevice == Null ==>
        unchanged(audioBuffer) && !recording && audioInput == Null
        && audioDevice == old(audioDevice) && audioFormat == old(audioFormat)
        && recordingDuration == old(recordingDuration) && status == NoMicrophone
        && engineLog == old(engineLog) + [RecognizerReset] && captured == old(captured) && fed == old(fed)
        && signals == old(signals) + [ErrorOccurred(NoDevice)]
           + StatusSignal(old(status), NoMicrophone) + [ErrorOccurred(InitFailed)]
      ensures !old(recording) && old(modelLoaded) && host.defaultDevice != Null ==>
        engineLog == old(engineLog) + [RecognizerReset]
        && audioInput == Addr(host.inputAddress)
        && audioFormat == (if host.formatSupported then old(audioFormat) else host.nearestFormat)
        && audioBuffer.data == [] && audioBuffer.pos == 0 && audioBuffer.isOpen
        && audioDevice == host.startedDevice
        && recording == (host.startedDevice != Null)
        && (host.startedDevice == Null ==>
              recordingDuration == old(recordingDuration) && status == AudioError
              && captured == old(captured) && fed == old(fed)
              && signals == old(signals) + [ErrorOccurred(StartFailed)]
                 + StatusSignal(old(status), AudioError))
        && (host.startedDevice != Null ==>
              recordingDuration == 0 && status == Listening && captured == [] && fed == []
              && signals == old(signals) + [IsRecordingChanged, RecordingDurationChanged]
                 + StatusSignal(old(status), Listening))
    {
      if recording {
        return;
      }
      if !modelLoaded {
        signals := signals + [ErrorOccurred(NotLoaded)];
        return;
      }
      OpenSession(host);
    }

    /** startRecording past its guards: reset the recognizer, open the audio
        input, empty the buffer and start capturing. */
    method OpenSession(host: AudioHost)
      requires Valid() && !recording && modelLoaded
      modifies this`audioInput, this`audioDevice, this`audioFormat, this`recording,
        this`recordingDuration, this`processTimerActive, this`durationTimerActive,
        this`status, this`signals, this`engineLog, this`captured, this`fed, audioBuffer
      ensures Valid()
      ensures host.defaultDevice == Null ==>
        unchanged(audioBuffer) && !recording && audioInput == Null
        && audioDevice == old(audioDevice) && audioFormat == old(audioFormat)
        && recordingDuration == old(recordingDuration) && status == NoMicrophone
        && engineLog == old(engineLog) + [RecognizerReset] && captured == old(captured) && fed == old(fed)
        && signals == old(signals) + [ErrorOccurred(NoDevice)]
           + StatusSignal(old(status), NoMicrophone) + [ErrorOccurred(InitFailed)]
      ensures host.defaultDevice != Null ==>
        engineLog == old(engineLog) + [RecognizerReset]
        && audioInput == Addr(host.inputAddress)
        && audioFormat == (if host.formatSupported then old(audioFormat) else host.nearestFormat)
        && audioBuffer.data == [] && audioBuffer.pos == 0 && audioBuffer.isOpen
        && audioDevice == host.startedDevice
        && recording == (host.startedDevice != Null)
        && (host.startedDevice == Null ==>
              recordingDuration == old(recordingDuration) && status == AudioError
              && captured == old(captured) && fed == old(fed)
              && signals == old(signals) + [ErrorOccurred(StartFailed)]
                 + StatusSignal(old(status), AudioError))
        && (host.startedDevice != Null ==>
              recordingDuration == 0 && status == Listening && captured == [] && fed == []
              && signals == old(signals) + [IsRecordingChanged, RecordingDurationChanged]
                 + StatusSignal(old(status), Listening))
    {
      if recognizer != Null {
        ResetRecognizer();
      }
      OpenInput(host);
    }

    /** initAudio, and the capture once an audio input exists. */
    method OpenInput(host: AudioHost)
      requires Valid() && !recording
      modifies this`audioInput, this`audioDevice, this`audioFormat, this`recording,
        this`recordingDuration, this`processTimerActive, this`durationTimerActive,
        this`status, this`signals, this`captured, this`fed, audioBuffer
      ensures Valid()
      ensures host.defaultDevice == Null ==>
        unchanged(audioBuffer) && !recording && audioInput == Null
        && audioDevice == old(audioDevice) && audioFormat == old(audioFormat)
        && recordingDuration == old(recordingDuration) && status == NoMicrophone
        && captured == old(captured) && fed == old(fed)
        && signals == old(signals) + [ErrorOccurred(NoDevice)]
           + StatusSignal(old(status), NoMicrophone) + [ErrorOccurred(InitFailed)]
      ensures host.defaultDevice != Null ==>
        audioInput == Addr(host.inputAddress)
        && audioFormat == (if host.formatSupported then old(audioFormat) else host.nearestFormat)
        && audioBuffer.data == [] && audioBuffer.pos == 0 && audioBuffer.isOpen
        && audioDevice == host.startedDevice
        && recording == (host.startedDevice != Null)
        && (host.startedDevice == Null ==>
              recordingDuration == old(recordingDuration) && status == AudioError
              && captured == old(captured) && fed == old(fed)
              && signals == old(signals) + [ErrorOccurred(StartFailed)]
                 + StatusSignal(old(status), AudioError))
        && (host.startedDevice != Null ==>
              recordingDuration == 0 && status == Listening && captured == [] && fed == []
              && signals == old(signals) + [IsRecordingChanged, RecordingDurationChanged]
                 + StatusSignal(old(status), Listening))
    {
      InitAudio(host);
      if audioInput == Null {
        signals := signals + [ErrorOccurred(InitFailed)];
      } else {
        StartCapture(host.startedDevice);
      }
    }

    /** Close, empty and reopen the buffer. */
    method ClearBuffer()
      requires SessionValid() && !recording
      modifies audioBuffer
      ensures SessionValid()
      ensures audioBuffer.data == [] && audioBuffer.pos == 0 && audioBuffer.isOpen
    {
      audioBuffer.Close();
      audioBuffer.SetData([]);
      audioBuffer.Open();
    }

    /** The end of startRecording once the audio input exists: empty the
        buffer, keep the device QAudioInput::start returned and, when there
        is one, start a session. */
    method StartCapture(device: Ptr)
      requires Valid() && !recording
      modifies this`audioDevice, this`recording, this`recordingDuration, this`processTimerActive,
        this`durationTimerActive, this`status, this`signals, this`captured, this`fed, audioBuffer
      ensures Valid()
      ensures audioBuffer.data == [] && audioBuffer.pos == 0 && audioBuffer.isOpen
      ensures audioDevice == device && recording == (device != Null)
      ensures device == Null ==>
        recordingDuration == old(recordingDuration) && status == AudioError
        && captured == old(captured) && fed == old(fed)
        && signals == old(signals) + [ErrorOccurred(StartFailed)] + StatusSignal(old(status), AudioError)
      ensures device != Null ==>
        recordingDuration == 0 && status == Listening && captured == [] && fed == []
        && signals == old(signals) + [IsRecordingChanged, RecordingDurationChanged]
           + StatusSignal(old(status), Listening)
    {
      ClearBuffer();
      if device == Null {
        audioDevice := device;
        signals := signals + [ErrorOccurred(StartFailed)];
        SetStatus(AudioError);
      } else {
        BeginSession(device);
      }
    }

    /** A new session on the started device: nothing captured or fed yet,
        the timers running and the duration back at zero. */
    method BeginSession(device: Ptr)
      requires SessionValid() && !recording && device != Null
      requires audioBuffer.data == [] && audioBuffer.pos == 0 && audioBuffer.isOpen
      modifies this`audioDevice, this`recording, this`recordingDuration, this`processTimerActive,
        this`durationTimerActive, this`status, this`signals, this`captured, this`fed
      ensures SessionValid()
      ensures audioDevice == device && recording && recordingDuration == 0 && status == Listening
      ensures captured == [] && fed == []
      ensures signals == old(signals) + [IsRecordingChanged, RecordingDurationChanged]
        + StatusSignal(old(status), Listening)
    {
      audioDevice := device;
      captured, fed := [], [];
      recording := true;
      recordingDuration := 0;
      processTimerActive, durationTimerActive := true, true;
      signals := signals + [IsRecordingChanged, RecordingDurationChanged];
      SetStatus(Listening);
    }

    /** The readyRead handler: append whatever the device delivered. */
    method OnReadyRead(bytes: seq<byte>)
      requires Valid()
      modifies audioBuffer`data, audioBuffer`pos, this`captured
      ensures Valid()
      ensures if audioDevice != Null && bytes != [] then
          audioBuffer.data == old(audioBuffer.data) + bytes && captured == old(captured) + bytes
        else unchanged(audioBuffer) && captured == old(captured)
    {
      if audioDevice != Null {
        if bytes != [] {
          audioBuffer.Write(bytes);
          captured := captured + bytes;
        }
      }
    }

    /** Appends a final result: trimmed, dropped when NULL or blank, joined with one space. */
    method PublishFinal(raw: Option<string>)
      requires TranscriptValid()
      modifies this`transcription, this`segments, this`signals
      ensures TranscriptValid()
      ensures segments == old(segments) + Published(raw)
      ensures transcription ==
        if Published(raw) == [] then old(transcription)
        else if old(transcription) == "" then Published(raw)[0]
        else old(transcription) + " " + Published(raw)[0]
      ensures signals == old(signals) + FinalSignals(raw)
    {
      var text := if raw.Some? then Trim(raw.value) else "";
      if text != "" {
        ghost var joined := Join(segments + [text]);
        JoinSnoc(segments, text);
        JoinEmptyIff(segments);
        SegmentsSnoc(segments, text);
        if transcription != "" {
          transcription := transcription + " ";
        }
        transcription := transcription + text;
        assert transcription == joined;
        segments := segments + [text];
        signals := signals + [TranscriptionChanged, FinalResult(text)];
      }
    }

    /** processBuffer: one accept-waveform call, then the full result at an
        utterance boundary or the partial result otherwise. */
    method ProcessBuffer(buffer: seq<byte>, reply: EngineReply)
      requires HandlesValid() && TranscriptValid()
      modifies this`engineLog, this`fed, this`transcription, this`segments, this`signals
      ensures HandlesValid() && TranscriptValid()
      ensures engineLog == old(engineLog) + FeedCalls(recognizer, buffer, reply)
      ensures fed == old(fed) + (if Feeds(recognizer, buffer) then buffer else [])
      ensures segments == old(segments) + FeedSegments(recognizer, buffer, reply)
      ensures signals == old(signals) + FeedSignals(recognizer, buffer, reply)
      ensures reply.accepted == 0 ==> transcription == old(transcription)
    {
      if recognizer != Null && buffer != [] {
        RecordUse(AcceptWaveform(buffer));
        fed := fed + buffer;
        TakeResult(reply);
      }
    }

    /** The second half of processBuffer: the full result at an utterance
        boundary, the partial result otherwise. */
    method TakeResult(reply: EngineReply)
      requires HandlesValid() && TranscriptValid() && recognizer != Null
      modifies this`engineLog, this`transcription, this`segments, this`signals
      ensures HandlesValid() && TranscriptValid()
      ensures engineLog == old(engineLog) + [if reply.accepted != 0 then GetResult else GetPartialResult]
      ensures segments == old(segments) + (if reply.accepted != 0 then Published(reply.text) else [])
      ensures signals == old(signals)
        + (if reply.accepted != 0 then FinalSignals(reply.text) else PartialSignals(reply.text))
      ensures reply.accepted == 0 ==> transcription == old(transcription)
    {
      if reply.accepted != 0 {
        RecordUse(GetResult);
        PublishFinal(reply.text);
      } else {
        RecordUse(GetPartialResult);
        PublishPartial(reply.text);
      }
    }

    /** Reports a partial result: trimmed, dropped when NULL or blank. */
    method PublishPartial(raw: Option<string>)
      modifies this`signals
      ensures signals == old(signals) + PartialSignals(raw)
    {
      if raw.Some? {
        var text := Trim(raw.value);
        if text != "" {
          signals := signals + [PartialResult(text)];
        }
      }
    }

    /** processAudioData: while recording with a recognizer, move the whole
        buffer to the engine in one call and leave the buffer empty. */
    method ProcessAudioData(reply: EngineReply)
      requires Valid()
      modifies this`engineLog, this`fed, this`transcription, this`segments, this`signals, audioBuffer
      ensures Valid()
      ensures !recording || recognizer == Null || old(audioBuffer.data) == [] ==> unchanged(this, audioBuffer)
      ensures recording && recognizer != Null && old(audioBuffer.data) != [] ==>
        audioBuffer.data == [] && audioBuffer.pos == 0 && audioBuffer.isOpen
        && engineLog == old(engineLog) + FeedCalls(recognizer, old(audioBuffer.data), reply)
        && fed == old(fed) + old(audioBuffer.data)
        && segments == old(segments) + FeedSegments(recognizer, old(audioBuffer.data), reply)
        && signals == old(signals) + FeedSignals(recognizer, old(audioBuffer.data), reply)
    {
      if !recording || recognizer == Null {
        return;
      }
      var sought := audioBuffer.Seek(0);
      var data := audioBuffer.ReadAll();
      if data == [] {
        return;
      }
      audioBuffer.Close();
      audioBuffer.SetData([]);
      audioBuffer.Open();
      ProcessBuffer(data, reply);
    }

    /** stopRecording: ignored unless recording; otherwise closes the audio
        input, flushes the buffered audio into the engine, asks for the final
        result and returns to "Ready". */
    method StopRecording(flush: EngineReply, finalText: Option<string>)
      requires Valid()
      modifies this`audioInput, this`audioDevice, this`recording, this`processTimerActive,
        this`durationTimerActive, this`status, this`signals, this`engineLog, this`fed,
        this`transcription, this`segments, audioBuffer`pos, audioBuffer`isOpen
      ensures Valid()
      ensures !old(recording) ==> unchanged(this, audioBuffer)
      ensures old(recording) ==>
        !recording && audioInput == Null && audioDevice == Null && status == Ready
      ensures old(recording) ==> audioBuffer.pos == 0 && !audioBuffer.isOpen
      ensures engineLog == old(engineLog) + StopCalls(old(recording), recognizer, audioBuffer.data, flush)
      ensures old(recording) ==>
        fed == old(fed) + (if Feeds(recognizer, audioBuffer.data) then audioBuffer.data else [])
      ensures old(recording) && recognizer != Null ==> fed == captured
      ensures old(recording) ==>
        segments == old(segments) + FeedSegments(recognizer, audioBuffer.data, flush)
        + (if recognizer != Null then Published(finalText) else [])
      ensures old(recording) ==>
        signals == old(signals) + FeedSignals(recognizer, audioBuffer.data, flush)
        + (if recognizer != Null then FinalSignals(finalText) else [])
        + [IsRecordingChanged] + StatusSignal(old(status), Ready)
    {
      if recording {
        Shutdown(flush, finalText);
      }
    }

    /** stopRecording past its guard. */
    method Shutdown(flush: EngineReply, finalText: Option<string>)
      requires Valid() && recording
      modifies this`audioInput, this`audioDevice, this`recording, this`processTimerActive,
        this`durationTimerActive, this`status, this`signals, this`engineLog, this`fed,
        this`transcription, this`segments, audioBuffer`pos, audioBuffer`isOpen
      ensures Valid()
      ensures !recording && audioInput == Null && audioDevice == Null && status == Ready
      ensures audioBuffer.pos == 0 && !audioBuffer.isOpen
      ensures engineLog == old(engineLog) + FeedCalls(recognizer, audioBuffer.data, flush)
        + (if recognizer != Null then [GetFinalResult] else [])
      ensures fed == old(fed) + (if Feeds(recognizer, audioBuffer.data) then audioBuffer.data else [])
      ensures recognizer != Null ==> fed == captured
      ensures segments == old(segments) + FeedSegments(recognizer, audioBuffer.data, flush)
        + (if recognizer != Null then Published(finalText) else [])
      ensures signals == old(signals) + FeedSignals(recognizer, audioBuffer.data, flush)
        + (if recognizer != Null then FinalSignals(finalText) else [])
        + [IsRecordingChanged] + StatusSignal(old(status), Ready)
    {
      Halt();
      Drain(flush, finalText);
    }

    /** The start of stopRecording: both timers stop and the audio input
        and its device are dropped. */
    method Halt()
      modifies this`audioInput, this`audioDevice, this`processTimerActive, this`durationTimerActive
      ensures audioInput == Null && audioDevice == Null && !processTimerActive && !durationTimerActive
    {
      processTimerActive, durationTimerActive := false, false;
      if audioInput != Null {
        audioInput := Null;
      }
      audioDevice := Null;
    }

    /** The rest of stopRecording: flush the buffer, take the final result,
        close the session. */
    method Drain(flush: EngineReply, finalText: Option<string>)
      requires HandlesValid() && TranscriptValid() && audioBuffer.Valid() && audioBuffer.isOpen
      requires fed + audioBuffer.data == captured
      modifies this`recording, this`status, this`signals, this`engineLog, this`fed,
        this`transcription, this`segments, audioBuffer`pos, audioBuffer`isOpen
      ensures HandlesValid() && TranscriptValid() && audioBuffer.Valid()
      ensures !recording && status == Ready
      ensures audioBuffer.pos == 0 && !audioBuffer.isOpen
      ensures engineLog == old(engineLog) + FeedCalls(recognizer, audioBuffer.data, flush)
        + (if recognizer != Null then [GetFinalResult] else [])
      ensures fed == old(fed) + (if Feeds(recognizer, audioBuffer.data) then audioBuffer.data else [])
      ensures recognizer != Null ==> fed == captured
      ensures segments == old(segments) + FeedSegments(recognizer, audioBuffer.data, flush)
        + (if recognizer != Null then Published(finalText) else [])
      ensures signals == old(signals) + FeedSignals(recognizer, audioBuffer.data, flush)
        + (if recognizer != Null then FinalSignals(finalText) else [])
        + [IsRecordingChanged] + StatusSignal(old(status), Ready)
    {
      FlushBuffer(flush);
      FinishStop(finalText);
    }

    /** The end of stopRecording after the flush: the final result, then the
        session close. */
    method FinishStop(finalText: Option<string>)
      requires HandlesValid() && TranscriptValid() && audioBuffer.Valid()
      modifies this`recording, this`status, this`signals, this`engineLog,
        this`transcription, this`segments, audioBuffer`pos, audioBuffer`isOpen
      ensures HandlesValid() && TranscriptValid() && audioBuffer.Valid()
      ensures audioBuffer.data == old(audioBuffer.data)
      ensures !recording && status == Ready
      ensures audioBuffer.pos == 0 && !audioBuffer.isOpen
      ensures engineLog == old(engineLog) + (if recognizer != Null then [GetFinalResult] else [])
      ensures segments == old(segments) + (if recognizer != Null then Published(finalText) else [])
      ensures signals == old(signals) + (if recognizer != Null then FinalSignals(finalText) else [])
        + [IsRecordingChanged] + StatusSignal(old(status), Ready)
    {
      TakeFinalResult(finalText);
      EndSession();
    }

    /** The end of stopRecording: close the buffer, leave the recording state
        and return to "Ready". */
    method EndSession()
      requires audioBuffer.Valid()
      modifies audioBuffer`pos, audioBuffer`isOpen, this`recording, this`status, this`signals
      ensures audioBuffer.Valid() && audioBuffer.data == old(audioBuffer.data)
      ensures audioBuffer.pos == 0 && !audioBuffer.isOpen && !recording && status == Ready
      ensures signals == old(signals) + [IsRecordingChanged] + StatusSignal(old(status), Ready)
    {
      audioBuffer.Close();
      recording := false;
      signals := signals + [IsRecordingChanged];
      SetStatus(Ready);
    }

    /** The flush in stopRecording: whatever the open buffer holds goes to
        processBuffer in one piece. */
    method FlushBuffer(reply: EngineReply)
      requires HandlesValid() && TranscriptValid() && audioBuffer.Valid() && audioBuffer.isOpen
      requires fed + audioBuffer.data == captured
      modifies audioBuffer`pos, this`engineLog, this`fed, this`transcription, this`segments, this`signals
      ensures HandlesValid() && TranscriptValid() && audioBuffer.Valid()
      ensures audioBuffer.data == old(audioBuffer.data)
      ensures engineLog == old(engineLog) + FeedCalls(recognizer, audioBuffer.data, reply)
      ensures fed == old(fed) + (if Feeds(recognizer, audioBuffer.data) then audioBuffer.data else [])
      ensures recognizer != Null ==> fed == captured
      ensures segments == old(segments) + FeedSegments(recognizer, audioBuffer.data, reply)
      ensures signals == old(signals) + FeedSignals(recognizer, audioBuffer.data, reply)
    {
      if audioBuffer.Size() > 0 {
        var sought := audioBuffer.Seek(0);
        var remaining := audioBuffer.ReadAll();
        assert remaining == audioBuffer.data;
        if remaining != [] {
          ProcessBuffer(remaining, reply);
        }
      }
    }

    /** The final-result step of stopRecording. */
    method TakeFinalResult(finalText: Option<string>)
      requires HandlesValid() && TranscriptValid()
      modifies this`engineLog, this`transcription, this`segments, this`signals
      ensures HandlesValid() && TranscriptValid()
      ensures engineLog == old(engineLog) + (if recognizer != Null then [GetFinalResult] else [])
      ensures segments == old(segments) + (if recognizer != Null then Published(finalText) else [])
      ensures signals == old(signals) + (if recognizer != Null then FinalSignals(finalText) else [])
    {
      if recognizer != Null {
        RecordUse(GetFinalResult);
        PublishFinal(finalText);
      }
    }

    /** clearTranscription: always empties the text and notifies once. */
    method ClearTranscription()
      requires Valid()
      modifies this`transcription, this`segments, this`signals
      ensures Valid()
      ensures transcription == "" && segments == []
      ensures signals == old(signals) + [TranscriptionChanged]
    {
      transcription := "";
      segments := [];
      signals := signals + [TranscriptionChanged];
    }

    /** updateRecordingDuration: whole seconds elapsed, as a 32-bit int. */
    method UpdateRecordingDuration(elapsedMs: nat)
      requires Valid()
      modifies this`recordingDuration, this`signals
      ensures Valid()
      ensures recordingDuration == ToInt32(elapsedMs / 1000)
      ensures elapsedMs < 0x8000_0000 * 1000 ==> recordingDuration == elapsedMs / 1000
      ensures signals == old(signals) + [RecordingDurationChanged]
    {
      recordingDuration := ToInt32(elapsedMs / 1000);
      signals := signals + [RecordingDurationChanged];
    }
  }
}
