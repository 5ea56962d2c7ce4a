/** The extension's background service worker: it seeds local storage when the extension is
    installed and answers three messages that set, clear and read the recording flag.

    The storage keys it touches are fields of `StorageState` (None: the key was never written).
    A storage write completes before the reply is sent, so each message is one step. */
module Background {
  import opened Common

  datatype Settings = Settings(autoRecord: bool, language: string)

  datatype StorageState = StorageState(isRecording: Option<bool>, transcriptHistory: Option<seq<string>>,
                                       settings: Option<Settings>)

  /** Storage before anything was written. */
  const EmptyStorage := StorageState(None, None, None)

  /** The defaults written by the `onInstalled` listener. */
  const DefaultSettings := Settings(false, "en-US")

  datatype Reply =
    | Done(message: string)           // `{ success: true, message }`
    | Status(isRecording: bool)       // `{ success: true, isRecording }`
    | Failed(error: string)           // `{ success: false, error }`

  /** The `onInstalled` listener: every key it writes is reset, whatever was stored before. */
  function AfterInstall(s: StorageState): (r: StorageState)
    ensures r.isRecording == Some(false) && r.transcriptHistory == Some([]) && r.settings == Some(DefaultSettings)
  {
    StorageState(Some(false), Some([]), Some(DefaultSettings))
  }

  /** The `onMessage` listener: the new storage, the reply sent, and the listener's return
      value (true: the reply is sent asynchronously). */
  function AfterMessage(s: StorageState, action: string): (r: (StorageState, Reply, bool))
    ensures r.2
    ensures action == "startRecording" ==> r.0 == s.(isRecording := Some(true)) && r.1 == Done("Recording started")
    ensures action == "stopRecording" ==> r.0 == s.(isRecording := Some(false)) && r.1 == Done("Recording stopped")
    // the status is the stored flag, false when it was never written, and reading writes nothing
    ensures action == "getStatus" ==> r.0 == s && r.1 == Status(s.isRecording == Some(true))
    ensures action !in {"startRecording", "stopRecording", "getStatus"} ==> r == (s, Failed("Unknown action"), true)
    // only the recording flag is ever written
    ensures r.0.transcriptHistory == s.transcriptHistory && r.0.settings == s.settings
    ensures r.1.Failed? <==> action !in {"startRecording", "stopRecording", "getStatus"}
  {
    if action == "startRecording" then (s.(isRecording := Some(true)), Done("Recording started"), true)
    else if action == "stopRecording" then (s.(isRecording := Some(false)), Done("Recording stopped"), true)
    else if action == "getStatus" then (s, Status(StatusOf(s)), true)
    else (s, Failed("Unknown action"), true)
  }

  /** `result.isRecording || false`. */
  function StatusOf(s: StorageState): bool {
    s.isRecording.Some? && s.isRecording.value
  }

  function AfterMessages(s: StorageState, actions: seq<string>): StorageState {
    if actions == [] then s else AfterMessage(AfterMessages(s, actions[..|actions| - 1]), actions[|actions| - 1]).0
  }

  /** Starting or stopping twice is the same as once, with the same reply. */
  lemma StartAndStopAreIdempotent(s: StorageState, action: string)
    requires action in {"startRecording", "stopRecording"}
    ensures var once := AfterMessage(s, action);
            AfterMessage(once.0, action) == once
  {
  }

  /** The status reports the last start or stop message, whatever came in between; before any,
      it reports what was stored. */
  lemma {:induction false} StatusFollowsLastCommand(s: StorageState, actions: seq<string>)
    ensures var last := LastCommand(actions);
            AfterMessage(AfterMessages(s, actions), "getStatus").1 ==
              Status(if last.Some? then last.value == "startRecording" else StatusOf(s))
  {
    if actions != [] {
      StatusFollowsLastCommand(s, actions[..|actions| - 1]);
    }
  }

  /** The last start or stop message in `actions`. */
  function LastCommand(actions: seq<string>): (r: Option<string>)
    ensures r.Some? ==> r.value in {"startRecording", "stopRecording"}
  {
    if actions == [] then None
    else if actions[|actions| - 1] in {"startRecording", "stopRecording"} then Some(actions[|actions| - 1])
    else LastCommand(actions[..|actions| - 1])
  }

  /** Freshly installed, the extension is not recording. */
  lemma InstalledIsNotRecording(s: StorageState)
    ensures AfterMessage(AfterInstall(s), "getStatus").1 == Status(false)
  {
  }

  /** The worker's view of `chrome.storage.local`. */
  class Worker {
    var isRecording: Option<bool>
    var transcriptHistory: Option<seq<string>>
    var settings: Option<Settings>

    function State(): StorageState
      reads this
    {
      StorageState(isRecording, transcriptHistory, settings)
    }

    constructor ()
      ensures State() == EmptyStorage
    {
      isRecording := None;
      transcriptHistory := None;
      settings := None;
    }

    method OnInstalled()
      modifies this
      ensures State() == AfterInstall(old(State()))
    {
      isRecording := Some(false);
      transcriptHistory := Some([]);
      settings := Some(DefaultSettings);
    }

    method OnMessage(action: string) returns (reply: Reply, keepOpen: bool)
      modifies this
      ensures (State(), reply, keepOpen) == AfterMessage(old(State()), action)
    {
      if action == "startRecording" {
        isRecording := Some(true);
        reply := Done("Recording started");
      } else if action == "stopRecording" {
        isRecording := Some(false);
        reply := Done("Recording stopped");
      } else if action == "getStatus" {
        reply := Status(isRecording.Some? && isRecording.value);
      } else {
        reply := Failed("Unknown action");
      }
      keepOpen := true;
    }
  }
}
