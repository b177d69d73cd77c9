/** The `ChatApp` class: its conversation state and the event handlers that change it.
    `sendMessage` awaits the network once, so it is split at that await into
    `BeginSend` (everything before it) and `CompleteSend` (everything after);
    other handlers may run between the two. Of the DOM only two things are kept:
    the value of the input box and the list of message bubbles the container shows. */
module ChatWidget {
  import opened JsText
  import opened ChatApi
  import opened Welcome

  /** How the awaited `sendToAPI` call settled inside `sendMessage`'s `try`:
      it resolved with the classification of an HTTP exchange, or something
      in the `try` block threw. */
  datatype Settlement = Settled(outcome: HttpOutcome) | Threw

  /** The result `sendMessage` acts on: the catch-all turns a throw into the
      connection error. */
  function Completion(s: Settlement): (r: ApiResult)
    ensures s.Threw? ==> r == Failed(ConnectionError)
    ensures s.Settled? ==> r == Classify(s.outcome)
    ensures r.Failed? ==> r.error != []
  {
    match s
    case Threw => Failed(ConnectionError)
    case Settled(outcome) => Classify(outcome)
  }

  /** The language-change heuristic: the conversation is a single assistant message. */
  predicate IsLoneWelcome(ms: seq<Message>) {
    |ms| == 1 && ms[0].kind == "assistant"
  }

  class ChatApp {
    /** `this.messages`: the conversation the requests carry as history. */
    var messages: seq<Message>
    var isLoading: bool
    /** `this.error`: `None` is `null`. */
    var error: Option<string>
    var language: string
    /** The value of the message input box. */
    var input: string
    /** The message bubbles in the messages container, oldest first. */
    var shown: seq<Message>

    /** What holds in every state the handlers leave behind. No handler ever
        appends to `messages`, so it is always empty; and an error can only be
        set once a request has settled. */
    ghost predicate Valid()
      reads this
    {
      messages == [] && (isLoading ==> error == None)
    }

    constructor ()
      ensures Valid()
      ensures messages == [] && !isLoading && error == None && language == "en"
      ensures input == [] && shown == []
    {
      messages := [];
      isLoading := false;
      error := None;
      language := "en";
      input := [];
      shown := [];
    }

    /** `addMessage`: renders a bubble. It does not record the message in `messages`. */
    method AddMessage(m: Message)
      modifies this`shown
      ensures shown == old(shown) + [m]
    {
      shown := shown + [m];
    }

    method SetLoading(loading: bool)
      modifies this`isLoading
      ensures isLoading == loading
    {
      isLoading := loading;
    }

    method ShowError(message: string)
      modifies this`error
      ensures error == Some(message)
    {
      error := Some(message);
    }

    /** Also the handler of the error banner's close button. */
    method ClearError()
      modifies this`error
      ensures error == None
    {
      error := None;
    }

    /** `addWelcomeMessage`: renders the welcome of the current language. */
    method AddWelcomeMessage()
      modifies this`shown
      ensures shown == old(shown) + [WelcomeMessage(language)]
    {
      AddMessage(WelcomeMessage(language));
    }

    /** `sendMessage` up to the await, together with the request `sendToAPI`
        builds before calling `fetch`. A blank input or a request in flight makes
        it a no-op; otherwise the trimmed text is rendered as a user bubble, the
        input is emptied, loading starts, the error is cleared and the request is
        returned. Its history is empty, because `messages` always is. */
    method BeginSend() returns (request: Option<ChatRequest>)
      requires Valid()
      modifies this
      ensures Valid()
      ensures request.Some? <==> Trim(old(input)) != [] && !old(isLoading)
      ensures request.Some? ==>
                && request.value.message == Trim(old(input))
                && request.value.chatHistory == ToHistory(old(messages)) == []
                && request.value.language == old(language)
                && isLoading && error == None && input == []
                && shown == old(shown) + [Message("user", Trim(old(input)), [])]
      ensures request.None? ==>
                isLoading == old(isLoading) && error == old(error)
                && input == old(input) && shown == old(shown)
      ensures messages == old(messages) && language == old(language)
    {
      var message := Trim(input);
      if message == [] || isLoading {
        return None;
      }
      AddMessage(Message("user", message, []));
      input := [];
      SetLoading(true);
      ClearError();
      request := Some(ChatRequest(message, ToHistory(messages), language));
    }

    /** `sendMessage` after the await: an error result (never empty, so the
        truthiness test on it is exact) or a throw sets the error; an answer is
        rendered as an assistant bubble with its quick replies; loading ends in
        every case. */
    method CompleteSend(s: Settlement)
      requires Valid() && isLoading
      modifies this
      ensures Valid() && !isLoading
      ensures Completion(s).Failed? ==> error == Some(Completion(s).error) && shown == old(shown)
      ensures Completion(s).Answered? ==>
                error == None
                && shown == old(shown) + [Message("assistant", Completion(s).message,
                                                  Completion(s).quickReplyOptions)]
      ensures messages == old(messages) && language == old(language) && input == old(input)
    {
      match s {
        case Threw =>
          ShowError(ConnectionError);
        case Settled(outcome) =>
          var response := Classify(outcome);
          if response.Failed? {
            ShowError(response.error);
          } else {
            AddMessage(Message("assistant", response.message, response.quickReplyOptions));
          }
      }
      SetLoading(false);
    }

    /** A quick-reply button: its reply replaces the input, then `sendMessage` runs. */
    method ClickQuickReply(reply: string) returns (request: Option<ChatRequest>)
      requires Valid()
      modifies this
      ensures Valid()
      ensures request.Some? <==> Trim(reply) != [] && !old(isLoading)
      ensures request.Some? ==>
                && request.value == ChatRequest(Trim(reply), [], old(language))
                && isLoading && error == None && input == []
                && shown == old(shown) + [Message("user", Trim(reply), [])]
      ensures request.None? ==>
                isLoading == old(isLoading) && error == old(error)
                && input == reply && shown == old(shown)
      ensures messages == old(messages) && language == old(language)
    {
      input := reply;
      request := BeginSend();
    }

    /** The language selector's change handler: the language always changes; the
        conversation is reset to the new welcome only when it is a lone assistant
        message. From a valid state, `messages` being empty, that never happens. */
    method ChangeLanguage(code: string)
      modifies this
      ensures language == code
      ensures IsLoneWelcome(old(messages)) ==> messages == [] && shown == [WelcomeMessage(code)]
      ensures !IsLoneWelcome(old(messages)) ==> messages == old(messages) && shown == old(shown)
      ensures old(Valid()) ==> Valid() && shown == old(shown)
      ensures isLoading == old(isLoading) && error == old(error) && input == old(input)
    {
      language := code;
      if IsLoneWelcome(messages) {
        shown := [];
        messages := [];
        AddWelcomeMessage();
      }
    }

    /** `clearChatHistory`: forgets the conversation and shows the welcome again. */
    method ClearChatHistory()
      requires Valid()
      modifies this
      ensures Valid()
      ensures messages == [] && shown == [WelcomeMessage(language)]
      ensures language == old(language) && isLoading == old(isLoading)
      ensures error == old(error) && input == old(input)
    {
      messages := [];
      shown := [];
      AddWelcomeMessage();
    }
  }

  /** The page-load handler: the widget is built and, once the welcome timer
      fires, greets in its default language. */
  method LoadPage() returns (app: ChatApp)
    ensures fresh(app) && app.Valid()
    ensures app.shown == [WelcomeMessage("en")] && app.language == "en"
    ensures !app.isLoading && app.error == None && app.input == []
  {
    app := new ChatApp();
    app.AddWelcomeMessage();
  }

  /** Page load followed by a language switch: the welcome that was shown stays
      in English, whatever language is chosen. */
  method SwitchAfterWelcome(code: string) returns (before: seq<Message>, after: seq<Message>)
    ensures before == [WelcomeMessage("en")]
    ensures after == before
  {
    var app := LoadPage();
    before := app.shown;
    app.ChangeLanguage(code);
    after := app.shown;
  }

  /** A quick reply clicked while the first request is in flight: no second
      request starts, and the reply stays behind in the input box. */
  method QuickReplyDuringSend(typed: string, reply: string)
    returns (first: Option<ChatRequest>, second: Option<ChatRequest>, leftInInput: string)
    requires Trim(typed) != []
    ensures first == Some(ChatRequest(Trim(typed), [], "en"))
    ensures second == None
    ensures leftInInput == reply
  {
    var app := new ChatApp();
    app.input := typed;
    first := app.BeginSend();
    second := app.ClickQuickReply(reply);
    leftInInput := app.input;
  }

  /** Two turns, the first answered: the second request still carries an empty
      history, although the first exchange is on screen by then. */
  method TwoTurns(q1: string, a1: HttpOutcome, q2: string)
    returns (second: Option<ChatRequest>, bubbles: nat, loading: bool)
    requires Trim(q1) != [] && Trim(q2) != []
    requires Classify(a1).Answered?
    ensures second == Some(ChatRequest(Trim(q2), [], "en"))
    ensures bubbles == 3 && loading
  {
    var app := new ChatApp();
    app.input := q1;
    var first := app.BeginSend();
    app.CompleteSend(Settled(a1));
    app.input := q2;
    second := app.BeginSend();
    bubbles := |app.shown|;
    loading := app.isLoading;
  }

  /** One turn from a fresh page, whatever the exchange: loading is over, and
      either the answer is on screen or the error is set, never both. */
  method OneTurn(typed: string, s: Settlement)
    returns (loading: bool, error: Option<string>, bubbles: seq<Message>)
    requires Trim(typed) != []
    ensures !loading
    ensures Completion(s).Failed? ==>
              error == Some(Completion(s).error) && bubbles == [Message("user", Trim(typed), [])]
    ensures Completion(s).Answered? ==>
              error == None
              && bubbles == [Message("user", Trim(typed), []),
                             Message("assistant", Completion(s).message, Completion(s).quickReplyOptions)]
  {
    var app := new ChatApp();
    app.input := typed;
    var request := app.BeginSend();
    app.CompleteSend(s);
    loading, error, bubbles := app.isLoading, app.error, app.shown;
  }
}
