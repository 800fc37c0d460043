/**
 * The client side of the Soniox real-time speech-to-text socket: the
 * handshake that opens a connection, the audio frames sent on it, the loop
 * that receives server messages, and `parseResponse`, which turns one server
 * message into the notifications the app receives (final text, interim text,
 * errors, loss of connection).
 *
 * The socket itself is not modelled. What it delivers is given to each
 * operation as an argument: the outcome of a send, the first reply of the
 * server, the sequence of results the receive calls produce. JSON decoding is
 * not modelled either: a server message is its raw text together with the
 * token list that decoding its `tokens` field yields, if any.
 */
module Soniox {
  import opened Wrappers
  import opened Text
  import opened Pcm

  /** The socket endpoint. It is a well-formed URL, so `invalidURL` is never raised. */
  const WsUrl: string := "wss://stt-rt.soniox.com/transcribe-websocket"

  /** Substrings of a raw message that mark the end of the stream and an error. */
  const FinishedMarker: string := "\"finished\""
  const ErrorMarker: string := "\"error_code\""

  /** The language reported when no token carries one. */
  const DefaultLanguage: string := "en"

  /**
   * One entry of the `tokens` array. Each field is `None` when it is absent
   * or of the wrong JSON type.
   */
  datatype Token = Token(text: Option<string>, isFinal: Option<bool>, language: Option<string>)

  /** A server message: its raw text and, when it decodes, its `tokens` array. */
  datatype Message = Message(raw: string, tokens: Option<seq<Token>>)

  /** `SonioxError`, plus the errors the socket itself raises (`Transport`). */
  datatype ClientError =
    | InvalidURL
    | ConnectionTimeout
    | ServerError(message: string)
    | Transport(description: string)

  /** The notifications the client sends to its delegate, in the order sent. */
  datatype Event =
    | Final(text: string, language: string)
    | Interim(text: string, language: string)
    | Failed(error: ClientError)
    | Disconnected

  /** The JSON configuration message that opens a stream. */
  datatype Handshake = Handshake(
    apiKey: string,
    model: string,
    audioFormat: string,
    sampleRate: nat,
    numChannels: nat,
    languageHints: seq<string>,
    enableEndpointDetection: bool,
    enableLanguageIdentification: bool)

  /** What the client hands to a socket, in order. */
  datatype Outgoing =
    | Config(handshake: Handshake)
    | Audio(frame: seq<Byte>)
    | EndOfAudio  // the empty binary frame sent on disconnect

  /** The first thing the socket yields after the handshake was sent. */
  datatype Reply =
    | Received(message: Message)   // a text frame, or a binary frame that is valid UTF-8
    | Undecodable                  // a binary frame that is not UTF-8, or an unknown frame kind
    | TimedOut                     // nothing arrived within ten seconds
    | ReceiveFailed(description: string)

  /** One result of a receive call inside the receive loop. */
  datatype Incoming =
    | Delivered(message: Message)
    | UndecodableFrame
    | ReceiveError(description: string)
    | Cancelled  // `disconnect()` ran while this receive was pending, and the receive then failed

  /** `SonioxError.errorDescription`; a transport error describes itself. */
  function ErrorDescription(e: ClientError): string {
    match e
    case InvalidURL => "Invalid Soniox WebSocket URL"
    case ConnectionTimeout => "Connection timed out. Check your internet and try again."
    case ServerError(msg) => "Soniox error: " + msg
    case Transport(d) => d
  }

  function HandshakeFor(apiKey: string, model: string, languageHints: seq<string>): Handshake {
    Handshake(apiKey, model, "pcm_s16le", 16000, 1, languageHints, true, true)
  }

  // ---------------------------------------------------------------------
  // parseResponse, as functions over the token list

  function TokenText(t: Token): string { t.text.GetOr("") }

  predicate IsFinal(t: Token) { t.isFinal.GetOr(false) }

  predicate HasLanguage(t: Token) { t.language.Some? && t.language.value != "" }

  /**
   * The texts of the tokens whose finality is `final`, concatenated in
   * token order (defined from the last token, as the loop accumulates).
   */
  function BucketText(ts: seq<Token>, final: bool): string {
    if ts == [] then ""
    else
      var last := ts[|ts| - 1];
      BucketText(ts[..|ts| - 1], final) + (if IsFinal(last) == final then TokenText(last) else "")
  }

  function FinalText(ts: seq<Token>): string { BucketText(ts, true) }

  function InterimText(ts: seq<Token>): string { BucketText(ts, false) }

  predicate HasFinalToken(ts: seq<Token>) {
    exists i :: 0 <= i < |ts| && IsFinal(ts[i])
  }

  /** The language of the last token that has a non-empty one, else "en". */
  function DetectedLanguage(ts: seq<Token>): string {
    if ts == [] then DefaultLanguage
    else if HasLanguage(ts[|ts| - 1]) then ts[|ts| - 1].language.value
    else DetectedLanguage(ts[..|ts| - 1])
  }

  /**
   * What `parseResponse` sends once the tokens are sorted and their texts
   * trimmed: the final notification (if any) followed by the interim one
   * (if any).
   */
  function Notifications(hasFinalTokens: bool, trimmedFinal: string, trimmedInterim: string, language: string): seq<Event> {
    (if hasFinalTokens && trimmedFinal != "" then [Final(trimmedFinal, language)] else [])
    + (if trimmedInterim != "" then [Interim(trimmedInterim, language)] else [])
  }

  function TranscriptEvents(ts: seq<Token>): seq<Event> {
    Notifications(HasFinalToken(ts), Trim(Foundation, FinalText(ts)), Trim(Foundation, InterimText(ts)), DetectedLanguage(ts))
  }

  /** The notifications one server message produces. */
  function ResponseEvents(m: Message): seq<Event> {
    if Contains(m.raw, FinishedMarker) then []
    else if Contains(m.raw, ErrorMarker) then [Failed(ServerError(m.raw))]
    else if m.tokens.None? then []
    else TranscriptEvents(m.tokens.value)
  }

  /**
   * The loop of `parseResponse`: one pass over the tokens that sorts their
   * text into the final and the interim bucket and remembers the last
   * non-empty language.
   */
  method SortTokens(tokens: seq<Token>)
    returns (finalText: string, interimText: string, detectedLanguage: string, hasFinalTokens: bool)
    ensures finalText == FinalText(tokens) && interimText == InterimText(tokens)
    ensures detectedLanguage == DetectedLanguage(tokens)
    ensures hasFinalTokens == HasFinalToken(tokens)
  {
    finalText, interimText := "", "";
    detectedLanguage := DefaultLanguage;
    hasFinalTokens := false;
    var i := 0;
    while i < |tokens|
      invariant 0 <= i <= |tokens|
      invariant finalText == FinalText(tokens[..i])
      invariant interimText == InterimText(tokens[..i])
      invariant detectedLanguage == DetectedLanguage(tokens[..i])
      invariant hasFinalTokens == HasFinalToken(tokens[..i])
    {
      var token := tokens[i];
      var tokenText := token.text.GetOr("");
      var isFinal := token.isFinal.GetOr(false);
      if token.language.Some? && token.language.value != "" {
        detectedLanguage := token.language.value;
      }
      if isFinal {
        finalText := finalText + tokenText;
        hasFinalTokens := true;
      } else {
        interimText := interimText + tokenText;
      }
      assert tokens[..i + 1][..i] == tokens[..i];
      assert hasFinalTokens ==> tokens[..i + 1][i] == token;
      i := i + 1;
    }
    assert tokens[..i] == tokens;
  }

  /** `parseResponse`: the guards on the raw text, then the token pass, then the notifications. */
  method ParseResponse(m: Message) returns (events: seq<Event>)
    ensures events == ResponseEvents(m)
  {
    if Contains(m.raw, FinishedMarker) {
      return [];
    }
    if Contains(m.raw, ErrorMarker) {
      return [Failed(ServerError(m.raw))];
    }
    if m.tokens.None? {
      return [];
    }
    var finalText, interimText, detectedLanguage, hasFinalTokens := SortTokens(m.tokens.value);
    var trimmedFinal, trimmedInterim := Trim(Foundation, finalText), Trim(Foundation, interimText);
    events := [];
    if hasFinalTokens && trimmedFinal != "" {
      events := events + [Final(trimmedFinal, detectedLanguage)];
    }
    if trimmedInterim != "" {
      events := events + [Interim(trimmedInterim, detectedLanguage)];
    }
  }

  // ---------------------------------------------------------------------
  // Properties of parseResponse

  /** Each bucket's text of a concatenation is the concatenation of the buckets' texts. */
  lemma {:induction false} BucketTextAppend(a: seq<Token>, b: seq<Token>, final: bool)
    ensures BucketText(a + b, final) == BucketText(a, final) + BucketText(b, final)
  {
    if b == [] {
      assert a + b == a;
    } else {
      var b' := b[..|b| - 1];
      assert (a + b)[..|a + b| - 1] == a + b';
      BucketTextAppend(a, b', final);
    }
  }

  /** One token contributes its text to exactly the bucket of its own finality. */
  lemma BucketTextSingle(t: Token, final: bool)
    ensures BucketText([t], final) == if IsFinal(t) == final then TokenText(t) else ""
  {
    assert [t][..0] == [];
  }

  /** Final text can only be non-empty if some token was final: the source's extra guard never decides. */
  lemma {:induction false} FinalTextNeedsFinalToken(ts: seq<Token>)
    ensures FinalText(ts) != "" ==> HasFinalToken(ts)
  {
    if ts != [] {
      var ts' := ts[..|ts| - 1];
      FinalTextNeedsFinalToken(ts');
      if HasFinalToken(ts') {
        var i :| 0 <= i < |ts'| && IsFinal(ts'[i]);
        assert ts[i] == ts'[i];
      }
    }
  }

  predicate IsLastLanguage(ts: seq<Token>, i: int) {
    0 <= i < |ts| && HasLanguage(ts[i]) && forall j :: i < j < |ts| ==> !HasLanguage(ts[j])
  }

  /** With no token carrying a language, the reported language is the default. */
  lemma {:induction false} DetectedLanguageDefault(ts: seq<Token>)
    requires forall j :: 0 <= j < |ts| ==> !HasLanguage(ts[j])
    ensures DetectedLanguage(ts) == DefaultLanguage
  {
    if ts != [] {
      var ts' := ts[..|ts| - 1];
      assert forall j :: 0 <= j < |ts'| ==> ts'[j] == ts[j];
      DetectedLanguageDefault(ts');
    }
  }

  /** The reported language is that of the last token that carries one. */
  lemma {:induction false} DetectedLanguageIsLast(ts: seq<Token>, i: int)
    requires IsLastLanguage(ts, i)
    ensures DetectedLanguage(ts) == ts[i].language.value
  {
    var n := |ts| - 1;
    if i < n {
      var ts' := ts[..n];
      forall k | i < k < |ts'|
        ensures !HasLanguage(ts'[k])
      {
        assert ts'[k] == ts[k];
      }
      assert ts'[i] == ts[i];
      DetectedLanguageIsLast(ts', i);
    }
  }

  /** Whenever some token carries a language, there is a last one that does. */
  lemma {:induction false} LastLanguageExists(ts: seq<Token>, j: int)
    requires 0 <= j < |ts| && HasLanguage(ts[j])
    ensures exists i :: IsLastLanguage(ts, i)
    decreases |ts| - j
  {
    if IsLastLanguage(ts, j) {
      assert IsLastLanguage(ts, j);
    } else {
      var k :| j < k < |ts| && HasLanguage(ts[k]);
      LastLanguageExists(ts, k);
    }
  }

  /** A transcript notification's text is non-empty, with no whitespace at either end. */
  ghost predicate IsTranscriptText(s: string) {
    s != [] && !IsWhitespace(Foundation, s[0]) && !IsWhitespace(Foundation, s[|s| - 1])
  }

  /**
   * The notifications for sorted token text, as a table over whether the
   * final and interim texts are empty: a final notification comes exactly
   * when the final text is non-empty, an interim one exactly when the
   * interim text is, the final one first, both with the same language.
   * Non-empty final text implies a final token was seen, so
   * `hasFinalTokens` never decides.
   */
  lemma NotificationsTable(hasFinalTokens: bool, trimmedFinal: string, trimmedInterim: string, language: string)
    requires trimmedFinal != "" ==> hasFinalTokens
    ensures var r, f, i := Notifications(hasFinalTokens, trimmedFinal, trimmedInterim, language), trimmedFinal, trimmedInterim;
      && (f != "" && i != "" ==> r == [Final(f, language), Interim(i, language)])
      && (f != "" && i == "" ==> r == [Final(f, language)])
      && (f == "" && i != "" ==> r == [Interim(i, language)])
      && (f == "" && i == "" ==> r == [])
  {
    var f, i := trimmedFinal, trimmedInterim;
    var r := Notifications(hasFinalTokens, f, i, language);
    if f != "" {
      if i != "" {
        assert r == [Final(f, language)] + [Interim(i, language)];
      } else {
        assert r == [Final(f, language)] + [];
      }
    } else {
      if i != "" {
        assert r == [] + [Interim(i, language)];
      } else {
        assert r == [] + [];
      }
    }
  }

  /**
   * The same table for a token list: the texts are the trimmed bucket texts
   * and the language is the detected one. Every text carried is non-empty
   * with no whitespace at either end.
   */
  lemma TranscriptEventsTable(ts: seq<Token>)
    ensures var r := TranscriptEvents(ts);
      var f, i, lang := Trim(Foundation, FinalText(ts)), Trim(Foundation, InterimText(ts)), DetectedLanguage(ts);
      && (f != "" && i != "" ==> r == [Final(f, lang), Interim(i, lang)])
      && (f != "" && i == "" ==> r == [Final(f, lang)])
      && (f == "" && i != "" ==> r == [Interim(i, lang)])
      && (f == "" && i == "" ==> r == [])
      && (f != "" ==> IsTranscriptText(f))
      && (i != "" ==> IsTranscriptText(i))
  {
    FinalTextNeedsFinalToken(ts);
    NotificationsTable(HasFinalToken(ts), Trim(Foundation, FinalText(ts)), Trim(Foundation, InterimText(ts)), DetectedLanguage(ts));
  }

  /**
   * What one message produces. A message that contains the finished marker
   * produces nothing, even if it also contains an error code. Otherwise an
   * error code produces exactly one error and no text. Otherwise a message
   * without a token list produces nothing, and one with a token list
   * produces its transcript notifications.
   */
  lemma ResponseEventsCases(m: Message)
    ensures Contains(m.raw, FinishedMarker) ==> ResponseEvents(m) == []
    ensures !Contains(m.raw, FinishedMarker) && Contains(m.raw, ErrorMarker) ==>
      ResponseEvents(m) == [Failed(ServerError(m.raw))]
    ensures !Contains(m.raw, FinishedMarker) && !Contains(m.raw, ErrorMarker) ==>
      ResponseEvents(m) == if m.tokens.None? then [] else TranscriptEvents(m.tokens.value)
  {
  }

  /** Sorted token text only ever yields final and interim notifications. */
  lemma NotificationsAreTranscript(hasFinalTokens: bool, trimmedFinal: string, trimmedInterim: string, language: string)
    ensures forall e :: e in Notifications(hasFinalTokens, trimmedFinal, trimmedInterim, language) ==> e.Final? || e.Interim?
  {
  }

  /** No message ever produces a disconnection notice, and its only possible error is a server error. */
  lemma ResponseEventsNeverDisconnect(m: Message)
    ensures Disconnected !in ResponseEvents(m)
    ensures forall e :: e in ResponseEvents(m) && e.Failed? ==> e.error == ServerError(m.raw)
  {
    if !Contains(m.raw, FinishedMarker) && !Contains(m.raw, ErrorMarker) && m.tokens.Some? {
      var ts := m.tokens.value;
      NotificationsAreTranscript(HasFinalToken(ts), Trim(Foundation, FinalText(ts)), Trim(Foundation, InterimText(ts)), DetectedLanguage(ts));
    }
  }

  // ---------------------------------------------------------------------
  // The receive loop, as a function of what the socket delivers

  /** The notifications the receive loop sends for the given receive results. */
  function LoopEvents(incoming: seq<Incoming>): seq<Event> {
    if incoming == [] then []
    else match incoming[0]
      case Delivered(m) => ResponseEvents(m) + LoopEvents(incoming[1..])
      case UndecodableFrame => LoopEvents(incoming[1..])
      case ReceiveError(d) => [Failed(Transport(d)), Disconnected]
      case Cancelled => []
  }

  /** The loop ends because `disconnect()` cancelled a pending receive. */
  predicate EndsCancelled(incoming: seq<Incoming>) {
    if incoming == [] then false
    else match incoming[0]
      case Delivered(_) => EndsCancelled(incoming[1..])
      case UndecodableFrame => EndsCancelled(incoming[1..])
      case ReceiveError(_) => false
      case Cancelled => true
  }

  /**
   * A receive failure is reported as one error followed by one
   * disconnection notice, and nothing follows them; a cancellation by
   * `disconnect()` is never reported.
   */
  lemma {:induction false} LoopReportsFailureLast(incoming: seq<Incoming>, k: nat)
    requires k < |incoming| && incoming[k].ReceiveError?
    requires forall j :: 0 <= j < k ==> incoming[j].Delivered? || incoming[j].UndecodableFrame?
    ensures |LoopEvents(incoming)| >= 2
    ensures LoopEvents(incoming)[|LoopEvents(incoming)| - 2..]
         == [Failed(Transport(incoming[k].description)), Disconnected]
    ensures !EndsCancelled(incoming)
  {
    if k > 0 {
      LoopReportsFailureLast(incoming[1..], k - 1);
    }
  }

  lemma {:induction false} CancelledLoopReportsNoFailure(incoming: seq<Incoming>)
    requires EndsCancelled(incoming)
    ensures Disconnected !in LoopEvents(incoming)
    ensures forall e :: e in LoopEvents(incoming) && e.Failed? ==> e.error.ServerError?
  {
    if incoming != [] && !incoming[0].Cancelled? {
      CancelledLoopReportsNoFailure(incoming[1..]);
      if incoming[0].Delivered? {
        ResponseEventsNeverDisconnect(incoming[0].message);
      }
    }
  }

  // ---------------------------------------------------------------------
  // The connection

  /**
   * How `connect` ends for a given send outcome and first reply: the
   * notifications parsed from the reply, or the error it throws.
   */
  function ConnectOutcome(sendError: Option<string>, reply: Reply): (r: Result<seq<Event>, ClientError>)
    ensures r.Success? <==> sendError.None? && (reply.Undecodable? || (reply.Received? && !Contains(reply.message.raw, ErrorMarker)))
    ensures r.Success? && reply.Received? ==> r.value == ResponseEvents(reply.message)
  {
    if sendError.Some? then Failure(Transport(sendError.value))
    else
      match reply
      case TimedOut => Failure(ConnectionTimeout)
      case ReceiveFailed(d) => Failure(Transport(d))
      case Received(m) => if Contains(m.raw, ErrorMarker) then Failure(ServerError(m.raw)) else Success(ResponseEvents(m))
      case Undecodable => Success([])
  }

  class SonioxClient {
    /** `isConnected`: set once the server accepted the handshake. */
    var isConnected: bool
    /** `webSocketTask != nil` */
    var hasTask: bool
    /** Everything handed to a socket task so far, in order. */
    var outbox: seq<Outgoing>

    constructor ()
      ensures !isConnected && !hasTask && outbox == []
    {
      isConnected, hasTask, outbox := false, false, [];
    }

    /**
     * `connect`: opens a new socket task, sends the handshake, and waits for
     * the server's first reply. A reply that contains an error code aborts
     * with `ServerError`; a timeout or a socket error aborts too. Otherwise
     * the reply is parsed like any other message (its notifications are
     * returned) and the client counts as connected.
     */
    method Connect(apiKey: string, model: string, languageHints: seq<string>,
                   sendError: Option<string>, reply: Reply)
      returns (r: Result<seq<Event>, ClientError>)
      modifies this
      ensures hasTask
      ensures outbox == old(outbox) + (if sendError.None? then [Config(HandshakeFor(apiKey, model, languageHints))] else [])
      ensures r == ConnectOutcome(sendError, reply)
      ensures sendError.Some? ==> r == Failure(Transport(sendError.value))
      ensures sendError.None? ==>
        match reply
        case TimedOut => r == Failure(ConnectionTimeout)
        case ReceiveFailed(d) => r == Failure(Transport(d))
        case Received(m) =>
          r == if Contains(m.raw, ErrorMarker) then Failure(ServerError(m.raw)) else Success(ResponseEvents(m))
        case Undecodable => r == Success([])
      ensures r.Success? ==> isConnected
      ensures r.Failure? ==> isConnected == old(isConnected)
    {
      hasTask := true;
      if sendError.Some? {
        return Failure(Transport(sendError.value));
      }
      outbox := outbox + [Config(HandshakeFor(apiKey, model, languageHints))];
      var events: seq<Event> := [];
      match reply {
        case TimedOut =>
          return Failure(ConnectionTimeout);
        case ReceiveFailed(d) =>
          return Failure(Transport(d));
        case Received(m) =>
          if Contains(m.raw, ErrorMarker) {
            return Failure(ServerError(m.raw));
          }
          events := ParseResponse(m);
        case Undecodable =>
      }
      isConnected := true;
      r := Success(events);
    }

    /**
     * `sendAudio`: hands a frame to the socket only while connected; otherwise
     * the frame is dropped. A failed send marks the client disconnected and
     * reports the error once.
     */
    method SendAudio(frame: seq<Byte>, sendError: Option<string>) returns (reported: seq<Event>)
      modifies this
      ensures hasTask == old(hasTask)
      ensures !(old(isConnected) && old(hasTask)) ==>
        reported == [] && isConnected == old(isConnected) && outbox == old(outbox)
      ensures old(isConnected) && old(hasTask) ==>
        && outbox == old(outbox) + [Audio(frame)]
        && isConnected == sendError.None?
        && reported == if sendError.None? then [] else [Failed(Transport(sendError.value))]
    {
      reported := [];
      if !isConnected || !hasTask {
        return;
      }
      outbox := outbox + [Audio(frame)];
      if sendError.Some? {
        isConnected := false;
        reported := [Failed(Transport(sendError.value))];
      }
    }

    /** `disconnect`: safe in any state; ends the audio stream if there is a task. */
    method Disconnect()
      modifies this
      ensures !isConnected && !hasTask
      ensures outbox == old(outbox) + (if old(hasTask) then [EndOfAudio] else [])
    {
      isConnected := false;
      if hasTask {
        outbox := outbox + [EndOfAudio];
      }
      hasTask := false;
    }

    /**
     * `receiveLoop`: while connected, parses every message received. A
     * receive error while still connected is reported as an error and a
     * disconnection, and ends the loop without clearing `isConnected`.
     */
    method ReceiveLoop(incoming: seq<Incoming>) returns (events: seq<Event>)
      modifies this
      ensures !(old(hasTask) && old(isConnected)) ==>
        events == [] && isConnected == old(isConnected) && hasTask == old(hasTask) && outbox == old(outbox)
      ensures old(hasTask) && old(isConnected) ==>
        && events == LoopEvents(incoming)
        && isConnected == !EndsCancelled(incoming)
        && hasTask == !EndsCancelled(incoming)
        && outbox == old(outbox) + (if EndsCancelled(incoming) then [EndOfAudio] else [])
    {
      events := [];
      if !hasTask || !isConnected {
        return;
      }
      var i := 0;
      while i < |incoming|
        invariant 0 <= i <= |incoming|
        invariant isConnected && hasTask && outbox == old(outbox)
        invariant events + LoopEvents(incoming[i..]) == LoopEvents(incoming)
        invariant EndsCancelled(incoming[i..]) == EndsCancelled(incoming)
      {
        assert incoming[i..][1..] == incoming[i + 1..];
        match incoming[i] {
          case Delivered(m) =>
            var batch := ParseResponse(m);
            events := events + batch;
          case UndecodableFrame =>
          case ReceiveError(d) =>
            if isConnected {
              events := events + [Failed(Transport(d)), Disconnected];
            }
            return;
          case Cancelled =>
            Disconnect();
            return;
        }
        i := i + 1;
      }
    }
  }
}
