/**
 * The session screen's view-model: the state machine idle, connecting,
 * listening and error; the transcript entries; the interim line; and how it
 * answers the speech client's notifications and the microphone's buffers.
 *
 * The backend calls (`getSessionAuth`, `translate`) are outcomes given as
 * arguments. Work the source hands to main-actor tasks runs here at once,
 * in the order the notifications arrive.
 */
module Session {
  import opened Wrappers
  import opened Text
  import opened Models
  import opened Pcm
  import Soniox
  import AudioCapture
  import Transcript

  datatype SessionState = Idle | Connecting | Listening | Error(message: string)

  /** What `getSessionAuth` returns: the speech service key and the stream configuration. */
  datatype SessionAuth = SessionAuth(sonioxApiKey: string, model: string, languageHints: seq<string>)

  /** What `translate` returns. */
  datatype Translation = Translation(jp: string, en: string)

  const ApiKeyName: string := "SONIOX_API_KEY"
  const MissingApiKeyMessage: string := "Backend is missing SONIOX_API_KEY."
  const ConnectionLostMessage: string := "Connection lost"

  /** `startErrorMessage`: any message naming the missing key becomes one fixed sentence. */
  function StartErrorMessage(message: string): (r: string)
    ensures Contains(message, ApiKeyName) ==> r == MissingApiKeyMessage
    ensures !Contains(message, ApiKeyName) ==> r == message
  {
    if Contains(message, ApiKeyName) then MissingApiKeyMessage else message
  }

  lemma MissingApiKeyMessageNamesKey()
    ensures Contains(MissingApiKeyMessage, ApiKeyName)
  {
    assert MissingApiKeyMessage[19..19 + |ApiKeyName|] == ApiKeyName;
    assert OccursAt(MissingApiKeyMessage, ApiKeyName, 19);
  }

  /** The rewritten message still names the key exactly when the original did, so rewriting twice changes nothing. */
  lemma StartErrorMessageIdempotent(message: string)
    ensures Contains(StartErrorMessage(message), ApiKeyName) <==> Contains(message, ApiKeyName)
    ensures StartErrorMessage(StartErrorMessage(message)) == StartErrorMessage(message)
  {
    MissingApiKeyMessageNamesKey();
  }

  /**
   * The state `startSession` ends in when it runs: the first of the backend,
   * the speech connection and the microphone to fail gives the error.
   */
  function StartState(auth: Result<SessionAuth, string>, sendError: Option<string>, reply: Soniox.Reply,
                      platform: AudioCapture.Platform): SessionState
  {
    if auth.Failure? then Error(StartErrorMessage(auth.error))
    else
      match Soniox.ConnectOutcome(sendError, reply)
      case Failure(e) => Error(StartErrorMessage(Soniox.ErrorDescription(e)))
      case Success(_) =>
        match AudioCapture.StartOutcome(platform)
        case Some(e) => Error(StartErrorMessage(AudioCapture.StartErrorDescription(e)))
        case None => Listening
  }

  /** A start ends listening exactly when all three steps succeed, and otherwise in an error. */
  lemma StartListeningIff(auth: Result<SessionAuth, string>, sendError: Option<string>, reply: Soniox.Reply,
                          platform: AudioCapture.Platform)
    ensures StartState(auth, sendError, reply, platform) == Listening <==>
      auth.Success? && Soniox.ConnectOutcome(sendError, reply).Success? && AudioCapture.StartOutcome(platform).None?
    ensures StartState(auth, sendError, reply, platform) != Listening ==> StartState(auth, sendError, reply, platform).Error?
    ensures auth.Failure? ==> StartState(auth, sendError, reply, platform) == Error(StartErrorMessage(auth.error))
  {
  }

  /** An entry for a final utterance: the translation, or the spoken text beside the bracketed error. */
  function FinalEntry(text: string, language: string, translation: Result<Translation, string>, now: int): (e: ConversationEntry)
    ensures e.detectedLanguage == language && e.timestamp == now
    ensures translation.Success? ==> e.jp == translation.value.jp && e.en == translation.value.en
  {
    match translation
    case Success(t) => ConversationEntry(t.jp, t.en, language, now)
    case Failure(description) =>
      var isJapanese := HasPrefix(language, "ja");
      var bracketed := "[" + description + "]";
      ConversationEntry(if isJapanese then text else bracketed, if isJapanese then bracketed else text, language, now)
  }

  /**
   * An entry made after a failed translation shows the spoken text as its
   * original and the error as its translation, on whichever side the
   * language puts them.
   */
  lemma FailedEntryShowsSpokenText(text: string, language: string, description: string, now: int)
    ensures Transcript.EntrySides(FinalEntry(text, language, Failure(description), now)) ==
      Transcript.Sides(text, "[" + description + "]")
    ensures HasPrefix(language, "ja") ==> FinalEntry(text, language, Failure(description), now).jp == text
    ensures !HasPrefix(language, "ja") ==> FinalEntry(text, language, Failure(description), now).en == text
  {
  }

  /** The fields the screen shows. */
  datatype View = View(state: SessionState, entries: seq<ConversationEntry>, interimText: string, interimLanguage: string)

  /** How a notification of the speech client changes what the screen shows. */
  function AfterEvent(v: View, e: Soniox.Event, translation: Result<Translation, string>, now: int): View {
    match e
    case Final(text, language) =>
      v.(entries := v.entries + [FinalEntry(text, language, translation, now)], interimText := "")
    case Interim(text, language) => v.(interimText := text, interimLanguage := language)
    case Failed(error) => v.(state := Error(Soniox.ErrorDescription(error)))
    case Disconnected => if v.state == Listening then v.(state := Error(ConnectionLostMessage)) else v
  }

  /** Entries are only appended: every notification keeps the old ones and adds at most one, for a final text only. */
  lemma EntriesOnlyGrow(v: View, e: Soniox.Event, translation: Result<Translation, string>, now: int)
    ensures var w := AfterEvent(v, e, translation, now);
      && w.entries[..|v.entries|] == v.entries
      && |w.entries| == |v.entries| + (if e.Final? then 1 else 0)
  {
  }

  /** No notification starts listening; only a start does. */
  lemma EventsNeverStartListening(v: View, e: Soniox.Event, translation: Result<Translation, string>, now: int)
    ensures AfterEvent(v, e, translation, now).state == Listening ==> v.state == Listening
    ensures AfterEvent(v, e, translation, now).state != v.state ==> AfterEvent(v, e, translation, now).state.Error?
  {
  }

  /**
   * A disconnection is noticed only while listening, and a second one
   * changes nothing; an error is shown in any state.
   */
  lemma DisconnectOnlyWhileListening(v: View, translation: Result<Translation, string>, now: int, err: Soniox.ClientError)
    ensures AfterEvent(v, Soniox.Disconnected, translation, now) ==
      if v.state == Listening then v.(state := Error(ConnectionLostMessage)) else v
    ensures var w := AfterEvent(v, Soniox.Disconnected, translation, now);
      AfterEvent(w, Soniox.Disconnected, translation, now) == w
    ensures AfterEvent(v, Soniox.Failed(err), translation, now).state == Error(Soniox.ErrorDescription(err))
  {
  }

  /** An interim notification changes only the interim line. */
  lemma InterimTouchesOnlyInterim(v: View, text: string, language: string, translation: Result<Translation, string>, now: int)
    ensures var w := AfterEvent(v, Soniox.Interim(text, language), translation, now);
      w.state == v.state && w.entries == v.entries && w.interimText == text && w.interimLanguage == language
  {
  }

  /** The handshake `connect` sends: only once the key was fetched, and only if the send went through. */
  function Handshake(auth: Result<SessionAuth, string>, sendError: Option<string>): seq<Soniox.Outgoing> {
    if auth.Success? && sendError.None?
    then [Soniox.Config(Soniox.HandshakeFor(auth.value.sonioxApiKey, auth.value.model, auth.value.languageHints))]
    else []
  }

  class SessionViewModel {
    var state: SessionState
    var entries: seq<ConversationEntry>
    var interimText: string
    var interimLanguage: string

    const audio: AudioCapture.AudioCaptureService
    const soniox: Soniox.SonioxClient

    /** The microphone is consistent, and the screen says listening only while it captures. */
    ghost predicate Valid()
      reads this, audio
    {
      audio.Valid() && (state == Listening ==> audio.isCapturing)
    }

    ghost function Screen(): View
      reads this
    {
      View(state, entries, interimText, interimLanguage)
    }

    constructor ()
      ensures Valid() && fresh(audio) && fresh(soniox)
      ensures state == Idle && entries == [] && interimText == "" && interimLanguage == ""
      ensures !audio.isCapturing && !soniox.isConnected && !soniox.hasTask
    {
      state, entries, interimText, interimLanguage := Idle, [], "", "";
      audio := new AudioCapture.AudioCaptureService();
      soniox := new Soniox.SonioxClient();
    }

    /**
     * `startSession`. Ignored while connecting or listening. Otherwise it
     * shows connecting, clears the interim line, resets the microphone and
     * the connection, and then fetches the key, connects and starts the
     * microphone, stopping at the first failure. It returns the
     * notifications parsed from the server's first reply. A microphone
     * failure leaves the connection open.
     */
    method StartSession(auth: Result<SessionAuth, string>, sendError: Option<string>, reply: Soniox.Reply,
                        platform: AudioCapture.Platform)
      returns (events: seq<Soniox.Event>)
      requires Valid()
      modifies this, audio, soniox
      ensures Valid()
      ensures old(state) == Connecting || old(state) == Listening ==>
        && events == [] && Screen() == old(Screen())
        && unchanged(audio) && unchanged(soniox)
      ensures old(state) != Connecting && old(state) != Listening ==>
        && state == StartState(auth, sendError, reply, platform)
        && entries == old(entries) && interimText == "" && interimLanguage == ""
        && audio.isCapturing == (state == Listening)
        && soniox.isConnected == (auth.Success? && Soniox.ConnectOutcome(sendError, reply).Success?)
        && soniox.hasTask == auth.Success?
        && soniox.outbox == old(soniox.outbox) + (if old(soniox.hasTask) then [Soniox.EndOfAudio] else [])
                            + Handshake(auth, sendError)
        && audio.hasInstalledTap ==
             (auth.Success? && Soniox.ConnectOutcome(sendError, reply).Success? && AudioCapture.ReachesTap(platform))
        && events == (if auth.Success? && Soniox.ConnectOutcome(sendError, reply).Success?
                      then Soniox.ConnectOutcome(sendError, reply).value else [])
    {
      events := [];
      if state == Connecting || state == Listening {
        return;
      }
      state := Connecting;
      interimText := "";
      interimLanguage := "";
      audio.Stop();
      soniox.Disconnect();
      events := ConnectAndCapture(auth, sendError, reply, platform);
    }

    /** The body of `startSession`'s `do` block, run from a reset microphone and connection. */
    method ConnectAndCapture(auth: Result<SessionAuth, string>, sendError: Option<string>, reply: Soniox.Reply,
                             platform: AudioCapture.Platform)
      returns (events: seq<Soniox.Event>)
      requires audio.Valid() && !audio.isCapturing && !audio.hasInstalledTap
      requires !soniox.isConnected && !soniox.hasTask
      modifies this, audio, soniox
      ensures Valid()
      ensures state == StartState(auth, sendError, reply, platform)
      ensures entries == old(entries) && interimText == old(interimText) && interimLanguage == old(interimLanguage)
      ensures audio.isCapturing == (state == Listening)
      ensures soniox.isConnected == (auth.Success? && Soniox.ConnectOutcome(sendError, reply).Success?)
      ensures soniox.hasTask == auth.Success?
      ensures soniox.outbox == old(soniox.outbox) + Handshake(auth, sendError)
      ensures audio.hasInstalledTap ==
        (auth.Success? && Soniox.ConnectOutcome(sendError, reply).Success? && AudioCapture.ReachesTap(platform))
      ensures events == (if auth.Success? && Soniox.ConnectOutcome(sendError, reply).Success?
                         then Soniox.ConnectOutcome(sendError, reply).value else [])
    {
      events := [];
      if auth.Failure? {
        state := Error(StartErrorMessage(auth.error));
        return;
      }
      var connected := soniox.Connect(auth.value.sonioxApiKey, auth.value.model, auth.value.languageHints, sendError, reply);
      if connected.Failure? {
        state := Error(StartErrorMessage(Soniox.ErrorDescription(connected.error)));
        return;
      }
      events := connected.value;
      var err := audio.Start(platform);
      if err.Some? {
        state := Error(StartErrorMessage(AudioCapture.StartErrorDescription(err.value)));
        return;
      }
      state := Listening;
    }

    /** `stopSession`: from any state, stops the microphone and the connection and shows idle. */
    method StopSession()
      requires Valid()
      modifies this, audio, soniox
      ensures Valid()
      ensures state == Idle && interimText == ""
      ensures entries == old(entries) && interimLanguage == old(interimLanguage)
      ensures !audio.isCapturing && !audio.hasInstalledTap
      ensures !soniox.isConnected && !soniox.hasTask
      ensures soniox.outbox == old(soniox.outbox) + (if old(soniox.hasTask) then [Soniox.EndOfAudio] else [])
    {
      audio.Stop();
      soniox.Disconnect();
      state := Idle;
      interimText := "";
    }

    /** `handleFinalUtterance`, with the translation's outcome: appends one entry and clears the interim line. */
    method HandleFinalUtterance(text: string, language: string, translation: Result<Translation, string>, now: int)
      modifies this
      ensures entries == old(entries) + [FinalEntry(text, language, translation, now)]
      ensures interimText == "" && state == old(state) && interimLanguage == old(interimLanguage)
    {
      entries := entries + [FinalEntry(text, language, translation, now)];
      interimText := "";
    }

    /** `sonioxDidReceiveInterim`. */
    method OnInterim(text: string, language: string)
      modifies this
      ensures interimText == text && interimLanguage == language
      ensures state == old(state) && entries == old(entries)
    {
      interimText := text;
      interimLanguage := language;
    }

    /** `sonioxDidEncounterError`: shows the error from any state. */
    method OnError(error: Soniox.ClientError)
      modifies this
      ensures state == Error(Soniox.ErrorDescription(error))
      ensures entries == old(entries) && interimText == old(interimText) && interimLanguage == old(interimLanguage)
    {
      state := Error(Soniox.ErrorDescription(error));
    }

    /** `sonioxDidDisconnect`: a lost connection is an error only while listening. */
    method OnDisconnect()
      modifies this
      ensures state == if old(state) == Listening then Error(ConnectionLostMessage) else old(state)
      ensures entries == old(entries) && interimText == old(interimText) && interimLanguage == old(interimLanguage)
    {
      if state == Listening {
        state := Error(ConnectionLostMessage);
      }
    }

    /** The delegate callbacks: one notification of the speech client, handled on the main actor. */
    method Dispatch(e: Soniox.Event, translation: Result<Translation, string>, now: int)
      requires Valid()
      modifies this
      ensures Valid()
      ensures Screen() == AfterEvent(old(Screen()), e, translation, now)
    {
      match e {
        case Final(text, language) => HandleFinalUtterance(text, language, translation, now);
        case Interim(text, language) => OnInterim(text, language);
        case Failed(error) => OnError(error);
        case Disconnected => OnDisconnect();
      }
    }

    /** `audioCaptureDidReceive`: forwards a microphone buffer to the connection and returns what it reports. */
    method OnAudioBuffer(buffer: seq<Byte>, sendError: Option<string>) returns (reported: seq<Soniox.Event>)
      modifies soniox
      ensures soniox.hasTask == old(soniox.hasTask)
      ensures old(soniox.isConnected && soniox.hasTask) ==>
        && soniox.outbox == old(soniox.outbox) + [Soniox.Audio(buffer)]
        && soniox.isConnected == sendError.None?
        && reported == if sendError.None? then [] else [Soniox.Failed(Soniox.Transport(sendError.value))]
      ensures !old(soniox.isConnected && soniox.hasTask) ==>
        reported == [] && soniox.outbox == old(soniox.outbox) && soniox.isConnected == old(soniox.isConnected)
    {
      reported := soniox.SendAudio(buffer, sendError);
    }
  }
}
