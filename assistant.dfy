/** pages/AssistantPage.tsx: a chat list that starts with a greeting and only
    grows at its end; a send is accepted when the input is not blank and no reply
    is outstanding; a message mentioning a place keyword goes through geolocation
    and the grounded (maps) call, any other through the plain chat call with the
    conversation so far as history. The two AI calls and the geolocation request
    are external: their outcomes arrive as separate method calls. */
module Assistant {
  import opened Wrappers
  import Strings

  const LocationKeywords: seq<string> := ["nearby", "near me", "around here", "closest", "where can i find"]

  /** `keywords.some(k => text.includes(k))` */
  function AnyKeyword(text: string, keywords: seq<string>): (r: bool)
    ensures r <==> exists k :: 0 <= k < |keywords| && Strings.Contains(text, keywords[k])
    decreases |keywords|
  {
    if keywords == [] then false
    else if Strings.Contains(text, keywords[0]) then true
    else
      var r := AnyKeyword(text, keywords[1..]);
      assert forall k :: 1 <= k < |keywords| ==> keywords[k] == keywords[1..][k - 1];
      r
  }

  /** A message is a location query iff its lower-cased text contains one of the
      five keywords. */
  function IsLocationQuery(input: string): (r: bool)
    ensures r <==> exists k :: 0 <= k < |LocationKeywords| && Strings.Contains(Strings.ToLower(input), LocationKeywords[k])
  {
    AnyKeyword(Strings.ToLower(input), LocationKeywords)
  }

  /** The detection ignores case: a message and its lower-cased form are
      classified alike. */
  lemma LocationQueryIgnoresCase(input: string)
    ensures IsLocationQuery(Strings.ToLower(input)) == IsLocationQuery(input)
  {
    Strings.ToLowerIdempotent(input);
  }

  /** For instance "Any parks NEAR ME?" is a location query. */
  lemma ShoutedKeywordDetected()
    ensures IsLocationQuery("Any parks NEAR ME?")
  {
    var t := Strings.ToLower("Any parks NEAR ME?");
    assert t[10..17] == "near me";
    assert Strings.OccursAt(t, LocationKeywords[1], 10);
  }

  datatype Sender = User | Model
  {
    /** The value of the `sender` field. */
    function Name(): string
    {
      match this
      case User => "user"
      case Model => "model"
    }
  }

  /** One of `groundingChunks`; the page shows `chunk.maps.uri` and `chunk.maps.title`. */
  datatype GroundingChunk = GroundingChunk(uri: string, title: string)

  /** `{ sender, text, groundingChunks? }` */
  datatype ChatMessage = ChatMessage(sender: Sender, text: string, groundingChunks: Option<seq<GroundingChunk>>)

  const Greeting: ChatMessage := ChatMessage(Model,
    "Hello! I'm BalanceAI. How can I help you on your wellness journey today? You can ask me for nearby places to walk or relax!",
    None)
  const LocationErrorMessage: string := "Couldn't get your location. Please enable location services to find nearby places."
  const NoLocationReply: string := "I can't find nearby places without your location. You can enable it in your browser settings."
  const ConnectionApology: string := "Sorry, I'm having a little trouble connecting right now. Please try again in a moment."

  /** `${msg.sender}: ${msg.text}` */
  function HistoryLine(m: ChatMessage): string
  {
    m.sender.Name() + ": " + m.text
  }

  function HistoryLines(ms: seq<ChatMessage>): (lines: seq<string>)
    ensures |lines| == |ms|
    ensures forall i :: 0 <= i < |ms| ==> lines[i] == HistoryLine(ms[i])
  {
    seq(|ms|, i requires 0 <= i < |ms| => HistoryLine(ms[i]))
  }

  /** `messages.map(...).join('\n')` */
  function History(ms: seq<ChatMessage>): string
  {
    Strings.Join(HistoryLines(ms), "\n")
  }

  /** One more message adds exactly one line, after a newline, at the end of the
      history: the history is the conversation in order. */
  lemma HistoryAppend(ms: seq<ChatMessage>, m: ChatMessage)
    requires |ms| > 0
    ensures History(ms + [m]) == History(ms) + "\n" + m.sender.Name() + ": " + m.text
  {
    assert HistoryLines(ms + [m]) == HistoryLines(ms) + [HistoryLine(m)];
    Strings.JoinSnoc(HistoryLines(ms), HistoryLine(m), "\n");
  }

  /** The history at the first send is the greeting alone. */
  lemma FirstHistory()
    ensures History([Greeting]) == "model: " + Greeting.text
  {
    assert HistoryLines([Greeting]) == [HistoryLine(Greeting)];
  }

  /** What `handleSendMessage` is waiting for. `Abandoned` is a grounded call
      whose rejection nothing handles. */
  datatype Pending =
    | Idle
    | AwaitingLocation(query: string)
    | AwaitingGrounded(query: string, latitude: real, longitude: real)
    | AwaitingChat(history: string, query: string)
    | Abandoned

  class AssistantPage {
    var messages: seq<ChatMessage>
    var input: string
    var isLoading: bool
    var error: Option<string>
    var pending: Pending

    ghost predicate Valid()
      reads this
    {
      && |messages| >= 1 && messages[0] == Greeting
      && (isLoading <==> !pending.Idle?)
    }

    constructor ()
      ensures Valid()
      ensures messages == [Greeting] && input == "" && !isLoading && error == None
    {
      messages := [Greeting];
      input := "";
      isLoading := false;
      error := None;
      pending := Idle;
    }

    /** The input's `onChange`. */
    method SetInput(text: string)
      requires Valid()
      modifies this
      ensures Valid()
      ensures input == text
      ensures messages == old(messages) && isLoading == old(isLoading) && error == old(error) && pending == old(pending)
    {
      input := text;
    }

    /** `handleSendMessage` up to the external call it starts. A blank input (only
        white space) or an outstanding reply changes nothing. Otherwise the input
        as typed is appended as the user's message, the input is cleared, loading
        is set, the error cleared, and the page waits either for the location
        (keyword found) or for the chat reply, whose history is the conversation
        before this message. */
    method Send()
      requires Valid()
      modifies this
      ensures Valid()
      ensures Strings.IsBlank(old(input)) || old(isLoading) ==>
                messages == old(messages) && input == old(input) && isLoading == old(isLoading)
                && error == old(error) && pending == old(pending)
      ensures !Strings.IsBlank(old(input)) && !old(isLoading) ==>
                && messages == old(messages) + [ChatMessage(User, old(input), None)]
                && input == "" && isLoading && error == None
                && pending == (if IsLocationQuery(old(input)) then AwaitingLocation(old(input))
                               else AwaitingChat(History(old(messages)), old(input)))
    {
      Strings.TrimEmptyIffBlank(input);
      if Strings.Trim(input) == "" || isLoading {
        return;
      }
      var history := History(messages);
      messages := messages + [ChatMessage(User, input, None)];
      var currentInput := input;
      input := "";
      isLoading := true;
      error := None;
      if IsLocationQuery(currentInput) {
        pending := AwaitingLocation(currentInput);
      } else {
        pending := AwaitingChat(history, currentInput);
      }
    }

    /** The position callback: the grounded call starts with the query and the
        coordinates. */
    method LocationFound(latitude: real, longitude: real)
      requires Valid() && pending.AwaitingLocation?
      modifies this
      ensures Valid()
      ensures pending == AwaitingGrounded(old(pending).query, latitude, longitude)
      ensures messages == old(messages) && isLoading && error == old(error) && input == old(input)
    {
      pending := AwaitingGrounded(pending.query, latitude, longitude);
    }

    /** The geolocation error callback: error text, one explanatory model
        message, loading cleared. */
    method LocationDenied()
      requires Valid() && pending.AwaitingLocation?
      modifies this
      ensures Valid()
      ensures messages == old(messages) + [ChatMessage(Model, NoLocationReply, None)]
      ensures error == Some(LocationErrorMessage) && !isLoading && input == old(input)
    {
      error := Some(LocationErrorMessage);
      messages := messages + [ChatMessage(Model, NoLocationReply, None)];
      isLoading := false;
      pending := Idle;
    }

    /** The grounded call resolved: one model message with the reply and its
        grounding chunks, which default to none; loading cleared. */
    method GroundedReply(text: string, chunks: Option<seq<GroundingChunk>>)
      requires Valid() && pending.AwaitingGrounded?
      modifies this
      ensures Valid()
      ensures messages == old(messages) + [ChatMessage(Model, text, Some(chunks.GetOr([])))]
      ensures !isLoading && error == old(error) && input == old(input)
    {
      messages := messages + [ChatMessage(Model, text, Some(chunks.GetOr([])))];
      isLoading := false;
      pending := Idle;
    }

    /** The grounded call rejected, as the code stands: the rejection escapes
        the geolocation callback, so no message is added and loading is never
        cleared. */
    method GroundedFailedAsWritten()
      requires Valid() && pending.AwaitingGrounded?
      modifies this
      ensures Valid()
      ensures messages == old(messages) && isLoading && error == old(error) && input == old(input)
      ensures pending == Abandoned
    {
      pending := Abandoned;
    }

    /** The grounded call rejected, handled as every other failure is: one
        apology message and loading cleared. */
    method GroundedFailed()
      requires Valid() && pending.AwaitingGrounded?
      modifies this
      ensures Valid()
      ensures messages == old(messages) + [ChatMessage(Model, ConnectionApology, None)]
      ensures !isLoading && error == old(error) && input == old(input)
    {
      messages := messages + [ChatMessage(Model, ConnectionApology, None)];
      isLoading := false;
      pending := Idle;
    }

    /** The chat call resolved: one model message with the reply; loading cleared. */
    method ChatReply(text: string)
      requires Valid() && pending.AwaitingChat?
      modifies this
      ensures Valid()
      ensures messages == old(messages) + [ChatMessage(Model, text, None)]
      ensures !isLoading && error == old(error) && input == old(input)
    {
      messages := messages + [ChatMessage(Model, text, None)];
      isLoading := false;
      pending := Idle;
    }

    /** The chat call rejected: the `catch` adds one apology; loading cleared. */
    method ChatFailed()
      requires Valid() && pending.AwaitingChat?
      modifies this
      ensures Valid()
      ensures messages == old(messages) + [ChatMessage(Model, ConnectionApology, None)]
      ensures !isLoading && error == old(error) && input == old(input)
    {
      messages := messages + [ChatMessage(Model, ConnectionApology, None)];
      isLoading := false;
      pending := Idle;
    }
  }

  /** After the unhandled rejection the page is stuck: every later send is
      ignored, whatever is typed. */
  method StuckAfterGroundedFailure(page: AssistantPage, typed: string)
    requires page.Valid() && page.pending.AwaitingGrounded?
    modifies page
    ensures page.isLoading && page.pending == Abandoned
    ensures page.messages == old(page.messages)
  {
    page.GroundedFailedAsWritten();
    page.SetInput(typed);
    page.Send();
  }
}
