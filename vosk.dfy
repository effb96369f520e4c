/** The part of the Vosk C interface the recognizer calls, as a log of calls.
    The engine itself is opaque: allocations, the utterance-boundary flag and
    the JSON texts arrive as inputs. Replaying the log checks the handle
    discipline the wrapper promises: a recognizer exists only on a live
    model, is used only while it exists, and is freed before its model. */
module Vosk {
  import opened Native

  datatype EngineCall =
    | SetLogLevel(level: int)
    | ModelNew(path: string, result: Ptr)
    | ModelFree
    | RecognizerNew(sampleRate: int, result: Ptr)
    | RecognizerFree
    | SetWords(words: int)
    | RecognizerReset
    | AcceptWaveform(data: seq<byte>)
    | GetResult
    | GetPartialResult
    | GetFinalResult

  /** What one processBuffer round gets back from the engine: the value
      vosk_recognizer_accept_waveform returns, and the "text" (or "partial")
      field of the JSON that the following result call returns; None stands
      for a NULL result pointer, and a missing field reads as "". */
  datatype EngineReply = EngineReply(accepted: int, text: Option<string>)

  /** Which handles are alive: the wrapper holds at most one model and one recognizer. */
  datatype Live = Live(model: bool, recognizer: bool)

  /** The effect of one call on the live handles, or None when the call
      breaks the handle discipline. */
  function Step(st: Live, call: EngineCall): Option<Live> {
    match call
    case SetLogLevel(_) => Some(st)
    case ModelNew(_, r) =>
      if st.model || st.recognizer then None else Some(Live(r != Null, false))
    case ModelFree =>
      if !st.model || st.recognizer then None else Some(Live(false, false))
    case RecognizerNew(_, r) =>
      if !st.model || st.recognizer then None else Some(Live(true, r != Null))
    case RecognizerFree =>
      if !st.recognizer then None else Some(Live(st.model, false))
    case _ =>
      if !st.recognizer then None else Some(st)
  }

  function After(st: Option<Live>, call: EngineCall): Option<Live> {
    match st
    case None => None
    case Some(s) => Step(s, call)
  }

  /** The live handles after running a log from a given state. */
  function Run(st: Option<Live>, log: seq<EngineCall>): Option<Live>
    decreases |log|
  {
    if log == [] then st else Run(After(st, log[0]), log[1..])
  }

  /** The live handles after a whole log, starting from none. */
  function Replay(log: seq<EngineCall>): Option<Live> {
    Run(Some(Live(false, false)), log)
  }

  /** A broken discipline stays broken. */
  lemma {:induction false} RunNone(log: seq<EngineCall>)
    ensures Run(None, log) == None
  {
    if log != [] {
      RunNone(log[1..]);
    }
  }

  /** Running two logs one after the other is running their concatenation. */
  lemma {:induction false} RunAppend(st: Option<Live>, a: seq<EngineCall>, b: seq<EngineCall>)
    ensures Run(st, a + b) == Run(Run(st, a), b)
    decreases |a|
  {
    if a == [] {
      assert a + b == b;
    } else {
      assert (a + b)[0] == a[0];
      assert (a + b)[1..] == a[1..] + b;
      RunAppend(After(st, a[0]), a[1..], b);
    }
  }

  lemma ReplaySnoc(log: seq<EngineCall>, call: EngineCall)
    ensures Replay(log + [call]) == After(Replay(log), call)
  {
    RunAppend(Some(Live(false, false)), log, [call]);
    assert [call][1..] == [];
  }

  /** A log of one call replays to that call's effect on no handles. */
  lemma ReplayOne(call: EngineCall)
    ensures Replay([call]) == After(Some(Live(false, false)), call)
  {
    assert [call][1..] == [];
    assert Run(After(Some(Live(false, false)), call), []) == After(Some(Live(false, false)), call);
  }

  /** Each call keeps "a live recognizer implies a live model". */
  lemma {:induction false} RunKeepsModel(st: Option<Live>, log: seq<EngineCall>)
    requires st.Some? && (st.value.recognizer ==> st.value.model)
    requires Run(st, log).Some?
    ensures Run(st, log).value.recognizer ==> Run(st, log).value.model
    decreases |log|
  {
    if log != [] {
      var next := After(st, log[0]);
      if next.None? {
        RunNone(log[1..]);
      } else {
        RunKeepsModel(next, log[1..]);
      }
    }
  }

  /** In every log that keeps the discipline, a live recognizer implies a live model. */
  lemma RecognizerNeedsModel(log: seq<EngineCall>)
    requires Replay(log).Some?
    ensures Replay(log).value.recognizer ==> Replay(log).value.model
  {
    RunKeepsModel(Some(Live(false, false)), log);
  }

  /** A log that keeps the discipline does so in every prefix. */
  lemma PrefixKeepsDiscipline(log: seq<EngineCall>, n: nat)
    requires Replay(log).Some? && n <= |log|
    ensures Replay(log[..n]).Some?
  {
    assert log == log[..n] + log[n..];
    RunAppend(Some(Live(false, false)), log[..n], log[n..]);
    if Replay(log[..n]).None? {
      RunNone(log[n..]);
    }
  }

  /** In a log that keeps the discipline, a model is released only while it is
      alive and after every recognizer on it has been released. */
  lemma ModelFreedAfterRecognizer(log: seq<EngineCall>, k: nat)
    requires Replay(log).Some? && k < |log| && log[k] == ModelFree
    ensures Replay(log[..k]) == Some(Live(true, false))
  {
    var pre := log[..k];
    assert log[..k + 1] == pre + [ModelFree];
    ReplaySnoc(pre, ModelFree);
    PrefixKeepsDiscipline(log, k + 1);
  }
}
