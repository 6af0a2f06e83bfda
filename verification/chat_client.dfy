/**
 * The decisions the browser client makes around one voice message
 * (`App`): the microphone-permission error, the short-recording guard,
 * the classification of request errors into chat text, and the chat
 * history, which only ever grows by appending (`[...prev, x]`).
 *
 * The network exchange itself is an input: either the server's audio
 * reply arrived (as an object URL) or the request failed with an error
 * message. Message ids and timestamps come from the clock and are not
 * part of the model.
 */
module ChatClient {
  import opened Strings

  /** Recordings below this many bytes are not sent. */
  const MinRecordingBytes: nat := 1000
  const ApiUrl: string := "http://localhost:8000/echo"

  const MicrophoneErrorText: string := "Could not access microphone. Please check permissions."
  const TooShortText: string := "Recording was too short. Please press and hold to record."
  const ServerTooShortText: string := "Recording was too short." + " Please press and hold."
  const CannotConnectText: string := "Cannot connect to server at " + ApiUrl + ". Is it running?"

  /** Substrings of an error message that select a friendlier text. */
  const TooSmallMarker: string := "Audio file is too small"
  const FailedFetchMarker: string := "Failed to fetch"

  /** A chat bubble: the user's recording, the assistant's audio reply, or
      an error note. */
  datatype Message =
    | UserRecording(audioUrl: string, duration: nat)
    | AiReply(audioUrl: string)
    | ErrorNote(error: string)

  /** The part of the component state these handlers change. */
  datatype ChatState = ChatState(messages: seq<Message>, isProcessing: bool)

  /** How the request to the server ended. */
  datatype Exchange = Delivered(replyUrl: string) | Failed(errorMessage: string)

  /** The state after a recording was handled, and whether a request went out. */
  datatype Handled = Handled(state: ChatState, requestSent: bool)

  /** `setMessages((prev) => [...prev, m])`: one new entry at the end,
      every earlier entry where it was. */
  function Append(messages: seq<Message>, m: Message): (r: seq<Message>)
    ensures |r| == |messages| + 1
    ensures r[..|messages|] == messages
    ensures r[|messages|] == m
  {
    messages + [m]
  }

  /** The error text shown for a failed request: the first matching
      marker decides, otherwise the error's own message is shown. */
  function FriendlyError(errorMessage: string): string
  {
    if Contains(errorMessage, TooSmallMarker) then ServerTooShortText
    else if Contains(errorMessage, FailedFetchMarker) then CannotConnectText
    else errorMessage
  }

  /** Getting the microphone failed (the `catch` of `startRecording`):
      one error note is appended, nothing else changes. */
  function MicrophoneDenied(st: ChatState): ChatState
  {
    st.(messages := Append(st.messages, ErrorNote(MicrophoneErrorText)))
  }

  /** The guard's branch: an error note, and processing switched off. */
  function RejectShortRecording(st: ChatState): ChatState
  {
    ChatState(Append(st.messages, ErrorNote(TooShortText)), false)
  }

  /** Before the request: the user's recording is shown and processing
      is switched on. */
  function SubmitRecording(st: ChatState, audioUrl: string, duration: nat): ChatState
  {
    ChatState(Append(st.messages, UserRecording(audioUrl, duration)), true)
  }

  /** After the request: the reply or the classified error is shown, and
      the `finally` switches processing off. */
  function Settle(st: ChatState, exchange: Exchange): ChatState
  {
    var m := match exchange
      case Delivered(url) => AiReply(url)
      case Failed(e) => ErrorNote(FriendlyError(e));
    ChatState(Append(st.messages, m), false)
  }

  /** `handleRecordingComplete(audioBlob, duration)`. */
  function HandleRecordingComplete(st: ChatState, blobSize: nat, audioUrl: string,
                                   duration: nat, exchange: Exchange): Handled
  {
    if blobSize < MinRecordingBytes then Handled(RejectShortRecording(st), false)
    else Handled(Settle(SubmitRecording(st, audioUrl, duration), exchange), true)
  }

  // ---------------------------------------------------------------------
  // Properties
  // ---------------------------------------------------------------------

  /** A character that does not occur in `s` rules out every string
      containing it. */
  lemma AbsentCharRulesOut(s: string, sub: string, k: nat)
    requires k < |sub| && sub[k] !in s
    ensures !Contains(s, sub)
  {
    ContainsIff(s, sub);
  }

  /** Neither `A` nor `F`, the first letters of the markers, occurs. */
  predicate LacksMarkerCapitals(s: string)
  {
    'A' !in s && 'F' !in s
  }

  /** A text without the markers' first letters contains neither marker. */
  lemma NoMarkerWithoutCapitals(s: string)
    requires LacksMarkerCapitals(s)
    ensures !Contains(s, TooSmallMarker) && !Contains(s, FailedFetchMarker)
  {
    AbsentCharRulesOut(s, TooSmallMarker, 0);
    AbsentCharRulesOut(s, FailedFetchMarker, 0);
  }

  /** The two replacement texts contain neither marker. */
  lemma ReplacementsCarryNoMarker()
    ensures !Contains(ServerTooShortText, TooSmallMarker)
    ensures !Contains(ServerTooShortText, FailedFetchMarker)
    ensures !Contains(CannotConnectText, TooSmallMarker)
    ensures !Contains(CannotConnectText, FailedFetchMarker)
  {
    NoCapitalsInPieces();
    NoMarkerWithoutCapitals(ServerTooShortText);
    NoMarkerWithoutCapitals(CannotConnectText);
  }

  /** The pieces of the two replacement texts, one literal at a time. */
  lemma NoCapitalsInPieces()
    ensures LacksMarkerCapitals("Recording was too short.")
    ensures LacksMarkerCapitals(" Please press and hold.")
    ensures LacksMarkerCapitals("Cannot connect to server at ")
    ensures LacksMarkerCapitals(ApiUrl)
    ensures LacksMarkerCapitals(". Is it running?")
  {
    NoCapitalsInRecordingWas();
    NoCapitalsInPleasePress();
    NoCapitalsInCannotConnect();
    NoCapitalsInApiUrl();
    NoCapitalsInIsItRunning();
  }

  // One lemma per literal: a single literal per proof keeps the solver's cost low.
  lemma NoCapitalsInRecordingWas() ensures LacksMarkerCapitals("Recording was too short.") {}
  lemma NoCapitalsInPleasePress() ensures LacksMarkerCapitals(" Please press and hold.") {}
  lemma NoCapitalsInCannotConnect() ensures LacksMarkerCapitals("Cannot connect to server at ") {}
  lemma NoCapitalsInApiUrl() ensures LacksMarkerCapitals(ApiUrl) {}
  lemma NoCapitalsInIsItRunning() ensures LacksMarkerCapitals(". Is it running?") {}

  /** The error classification: "too small" wins over "failed to fetch",
      and the message is passed through exactly when it has neither marker. */
  lemma FriendlyErrorCases(e: string)
    ensures Contains(e, TooSmallMarker) ==> FriendlyError(e) == ServerTooShortText
    ensures !Contains(e, TooSmallMarker) && Contains(e, FailedFetchMarker)
            ==> FriendlyError(e) == CannotConnectText
    ensures FriendlyError(e) == e
            <==> !Contains(e, TooSmallMarker) && !Contains(e, FailedFetchMarker)
  {
    ReplacementsCarryNoMarker();
  }

  /** Classifying an already friendly text changes nothing. */
  lemma FriendlyErrorIdempotent(e: string)
    ensures FriendlyError(FriendlyError(e)) == FriendlyError(e)
  {
    ReplacementsCarryNoMarker();
  }

  /** A recording under 1000 bytes adds exactly one error note, leaves
      processing off and sends nothing, whatever the server would have
      done; a larger one is always sent. */
  lemma ShortRecordingGuard(st: ChatState, blobSize: nat, audioUrl: string,
                            duration: nat, exchange: Exchange, other: Exchange)
    ensures var r := HandleRecordingComplete(st, blobSize, audioUrl, duration, exchange);
            (!r.requestSent <==> blobSize < MinRecordingBytes)
            && (blobSize < MinRecordingBytes ==>
                  r.state == ChatState(st.messages + [ErrorNote(TooShortText)], false)
                  && r == HandleRecordingComplete(st, blobSize, audioUrl, duration, other))
  {
  }

  /** A recording that is sent shows the user's bubble and then exactly one
      answer bubble — the reply or the classified error — and processing
      ends switched off. */
  lemma SentRecordingOutcome(st: ChatState, blobSize: nat, audioUrl: string,
                             duration: nat, exchange: Exchange)
    requires blobSize >= MinRecordingBytes
    ensures var r := HandleRecordingComplete(st, blobSize, audioUrl, duration, exchange);
            var answer := match exchange
              case Delivered(url) => AiReply(url)
              case Failed(e) => ErrorNote(FriendlyError(e));
            r.state.messages == st.messages + [UserRecording(audioUrl, duration), answer]
            && !r.state.isProcessing
            && SubmitRecording(st, audioUrl, duration).isProcessing
  {
    var mid := SubmitRecording(st, audioUrl, duration);
    assert st.messages + [UserRecording(audioUrl, duration)] + [mid.messages[|mid.messages| - 1]]
           == st.messages + [UserRecording(audioUrl, duration), mid.messages[|mid.messages| - 1]];
  }

  /** The history only grows: every earlier entry stays in place, and one
      handled recording adds one entry (not sent) or two (sent). */
  lemma HistoryIsAppendOnly(st: ChatState, blobSize: nat, audioUrl: string,
                            duration: nat, exchange: Exchange)
    ensures var r := HandleRecordingComplete(st, blobSize, audioUrl, duration, exchange);
            |r.state.messages| == |st.messages| + (if r.requestSent then 2 else 1)
            && r.state.messages[..|st.messages|] == st.messages
  {
    var r := HandleRecordingComplete(st, blobSize, audioUrl, duration, exchange);
    if r.requestSent {
      var mid := SubmitRecording(st, audioUrl, duration);
      assert r.state.messages[..|st.messages|] == mid.messages[..|st.messages|];
    }
  }

  /** A microphone failure adds exactly the permission error note and
      leaves processing as it was. */
  lemma MicrophoneDeniedAppends(st: ChatState)
    ensures MicrophoneDenied(st).messages == st.messages + [ErrorNote(MicrophoneErrorText)]
    ensures MicrophoneDenied(st).isProcessing == st.isProcessing
  {
  }
}
