/** The browser-side gate to live speech-to-text: a module holding at most one speech-service
    client and at most one live connection. Starting opens a connection (creating the client on
    first use), stopping finishes and forgets it, and audio chunks are forwarded only to a
    connection that exists and reports itself open.

    The module's two variables are fields of `Gate`; the service is represented by what the
    model can observe of it: which clients and connections were created (by a fresh number
    each), which connections were finished and which chunks were sent to which connection.
    Whether `listen.live` throws, and a connection's `readyState`, are inputs. */
module LiveTranscription {
  import opened Common

  type Audio = seq<bv8>

  /** The options every live connection is opened with. */
  datatype LiveOptions = LiveOptions(language: string, punctuate: bool, smartFormat: bool, model: string,
                                     interimResults: bool, endpointing: int)

  const ConnectionOptions := LiveOptions("en-US", true, true, "nova-2", true, 300)

  /** `WebSocket.OPEN`. */
  const ReadyStateOpen := 1

  datatype Connection = Connection(id: nat, options: LiveOptions)

  /** The module state together with what the service has seen. */
  datatype GateState = GateState(apiKey: string, client: Option<nat>, live: Option<Connection>, nextId: nat,
                                 finished: seq<nat>, sent: seq<(nat, Audio)>)

  /** Identifiers handed out so far are below `nextId`. */
  predicate Fresh(g: GateState) {
    (g.client.Some? ==> g.client.value < g.nextId) && (g.live.Some? ==> g.live.value.id < g.nextId)
  }

  /** `initializeDeepgram`: with an empty key nothing is created (and the client variable is left
      as it was); otherwise a new client replaces it. */
  function AfterInitialize(g: GateState): (r: (GateState, Option<nat>))
    ensures g.apiKey == "" ==> r == (g, None)
    ensures g.apiKey != "" ==> r.1 == Some(g.nextId) && r.0 == g.(client := Some(g.nextId), nextId := g.nextId + 1)
    ensures Fresh(g) ==> Fresh(r.0)
  {
    if g.apiKey == "" then (g, None)
    else (g.(client := Some(g.nextId), nextId := g.nextId + 1), Some(g.nextId))
  }

  datatype StartResult = Started(connection: Connection) | StartFailed(errorReported: bool)

  /** `startLiveTranscription(onTranscript, onError)`. `hasOnError` says whether an error
      callback was passed; `listenThrows` whether `listen.live` throws. */
  function AfterStart(g: GateState, hasOnError: bool, listenThrows: bool): (r: (GateState, StartResult))
    // a client is created only when none exists
    ensures g.client.Some? ==> r.0.client == g.client
    ensures g.client.None? && g.apiKey != "" ==> r.0.client == Some(g.nextId)
    // with no client and no key: the error callback is called and nothing changes
    ensures g.client.None? && g.apiKey == "" ==> r == (g, StartFailed(hasOnError))
    // success: the fresh connection, opened with the fixed options, is the current one
    ensures r.1.Started? <==> (g.client.Some? || g.apiKey != "") && !listenThrows
    ensures r.1.Started? ==> r.0.live == Some(r.1.connection) && r.1.connection.options == ConnectionOptions &&
                             r.1.connection.id >= g.nextId
    // failure: the old connection, if any, stays current
    ensures r.1.StartFailed? ==> r.1.errorReported == hasOnError && r.0.live == g.live
    // starting never finishes a connection and never sends audio
    ensures r.0.finished == g.finished && r.0.sent == g.sent && r.0.apiKey == g.apiKey
    ensures Fresh(g) ==> Fresh(r.0)
  {
    var g1 := if g.client.None? then AfterInitialize(g).0 else g;
    if g1.client.None? || listenThrows then (g1, StartFailed(hasOnError))
    else
      var connection := Connection(g1.nextId, ConnectionOptions);
      (g1.(live := Some(connection), nextId := g1.nextId + 1), Started(connection))
  }

  /** `stopLiveTranscription`. */
  function AfterStop(g: GateState): (r: GateState)
    ensures r.live.None?
    ensures g.live.None? ==> r == g
    ensures g.live.Some? ==> r == g.(live := None, finished := g.finished + [g.live.value.id])
  {
    if g.live.Some? then g.(live := None, finished := g.finished + [g.live.value.id]) else g
  }

  /** `sendAudioToDeepgram(data)` while the connection reports `readyState`. */
  function AfterSend(g: GateState, data: Audio, readyState: int): (r: GateState)
    ensures g.live.Some? && readyState == ReadyStateOpen ==> r == g.(sent := g.sent + [(g.live.value.id, data)])
    ensures !(g.live.Some? && readyState == ReadyStateOpen) ==> r == g
  {
    if g.live.Some? && readyState == ReadyStateOpen then g.(sent := g.sent + [(g.live.value.id, data)]) else g
  }

  /** The `transcript` listener: the transcript reaches `onTranscript`, with its `is_final`
      flag, only when it is non-empty and a callback was passed. */
  function TranscriptDelivery(transcript: string, isFinal: bool, hasOnTranscript: bool): (r: Option<(string, bool)>)
    ensures r.Some? <==> transcript != "" && hasOnTranscript
    ensures r.Some? ==> r.value == (transcript, isFinal)
  {
    if TruthyString(Some(transcript)) && hasOnTranscript then Some((transcript, isFinal)) else None
  }

  /** Stopping twice is stopping once. */
  lemma StopIsIdempotent(g: GateState)
    ensures AfterStop(AfterStop(g)) == AfterStop(g)
  {
  }

  /** Any chunks sent after a stop, whatever the ready state, are dropped until the next start. */
  lemma {:induction false} SendsAfterStopAreDropped(g: GateState, chunks: seq<(Audio, int)>)
    ensures SendAll(AfterStop(g), chunks) == AfterStop(g)
  {
    if chunks != [] {
      SendsAfterStopAreDropped(g, chunks[..|chunks| - 1]);
    }
  }

  function SendAll(g: GateState, chunks: seq<(Audio, int)>): GateState {
    if chunks == [] then g
    else
      var last := chunks[|chunks| - 1];
      AfterSend(SendAll(g, chunks[..|chunks| - 1]), last.0, last.1)
  }

  /** Every chunk forwarded after a successful start goes to the connection it opened, and is
      forwarded exactly when the connection was open at that moment. */
  lemma {:induction false} SendsGoToTheCurrentConnection(g: GateState, chunks: seq<(Audio, int)>)
    requires g.live.Some?
    ensures SendAll(g, chunks).live == g.live
    ensures |SendAll(g, chunks).sent| == |g.sent| + |OpenChunks(chunks)|
    ensures SendAll(g, chunks).sent == g.sent + SentTo(g.live.value.id, OpenChunks(chunks))
  {
    if chunks != [] {
      var init := chunks[..|chunks| - 1];
      SendsGoToTheCurrentConnection(g, init);
      assert OpenChunks(chunks[..|chunks| - 1]) == OpenChunks(init);
    }
  }

  /** The chunks sent while the connection reported `OPEN`. */
  function OpenChunks(chunks: seq<(Audio, int)>): (r: seq<Audio>)
    ensures |r| <= |chunks|
  {
    if chunks == [] then []
    else
      var last := chunks[|chunks| - 1];
      OpenChunks(chunks[..|chunks| - 1]) + (if last.1 == ReadyStateOpen then [last.0] else [])
  }

  function SentTo(id: nat, data: seq<Audio>): (r: seq<(nat, Audio)>)
    ensures |r| == |data| && forall i :: 0 <= i < |r| ==> r[i] == (id, data[i])
  {
    seq(|data|, i requires 0 <= i < |data| => (id, data[i]))
  }

  /** Starting over a live connection replaces it without finishing it. */
  lemma RestartLeavesOldConnectionUnfinished(g: GateState, hasOnError: bool)
    requires Fresh(g) && g.live.Some? && g.client.Some?
    ensures var r := AfterStart(g, hasOnError, false);
            r.1.Started? && r.0.live != g.live && r.0.finished == g.finished
  {
  }

  /** The module's variables. */
  class Gate {
    const apiKey: string
    var client: Option<nat>
    var live: Option<Connection>
    var nextId: nat
    var finished: seq<nat>
    var sent: seq<(nat, Audio)>

    function State(): GateState
      reads this
    {
      GateState(apiKey, client, live, nextId, finished, sent)
    }

    /** The module is loaded with `REACT_APP_DEEPGRAM_API_KEY || ''`. */
    constructor (envApiKey: Option<string>)
      ensures State() == GateState(OrString(envApiKey, ""), None, None, 0, [], [])
    {
      apiKey := OrString(envApiKey, "");
      client := None;
      live := None;
      nextId := 0;
      finished := [];
      sent := [];
    }

    method Initialize() returns (r: Option<nat>)
      modifies this
      ensures (State(), r) == AfterInitialize(old(State()))
    {
      if apiKey == "" {
        return None;
      }
      client := Some(nextId);
      nextId := nextId + 1;
      r := client;
    }

    method Start(hasOnError: bool, listenThrows: bool) returns (r: StartResult)
      modifies this
      ensures (State(), r) == AfterStart(old(State()), hasOnError, listenThrows)
    {
      if client.None? {
        var _ := Initialize();
      }
      if client.None? || listenThrows {
        return StartFailed(hasOnError);
      }
      var connection := Connection(nextId, ConnectionOptions);
      nextId := nextId + 1;
      live := Some(connection);
      r := Started(connection);
    }

    method Stop()
      modifies this
      ensures State() == AfterStop(old(State()))
    {
      if live.Some? {
        finished := finished + [live.value.id];
        live := None;
      }
    }

    method Send(data: Audio, readyState: int)
      modifies this
      ensures State() == AfterSend(old(State()), data, readyState)
    {
      if live.Some? && readyState == ReadyStateOpen {
        sent := sent + [(live.value.id, data)];
      }
    }
  }
}
