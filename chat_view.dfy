/** The chat panel's text field and its submit handler, which is the only
    place a chat turn starts from. */
module Chat {
  import opened BillTypes
  import opened Text
  import opened Session

  /** The handler goes on exactly when the input is not blank and no turn is
      in progress. */
  function CanSubmit(input: string, isProcessing: bool): (r: bool)
    ensures r <==> !AllWhitespace(input) && !isProcessing
  {
    TrimEmptyIffBlank(input);
    Trim(input) != [] && !isProcessing
  }

  /** The send button's `disabled` attribute. */
  function ButtonDisabled(input: string, isProcessing: bool): bool
  {
    Trim(input) == [] || isProcessing
  }

  /** The button is enabled exactly when pressing it would start a turn. */
  lemma ButtonMatchesHandler(input: string, isProcessing: bool)
    ensures !ButtonDisabled(input, isProcessing) <==> CanSubmit(input, isProcessing)
  {
  }

  class ChatView {
    var input: string

    constructor()
      ensures input == ""
    {
      input := "";
    }

    /** The field's `onChange`. */
    method Type(text: string)
      modifies this
      ensures input == text
    {
      input := text;
    }

    /** `handleSubmit`: a blank input or a turn in progress makes it return
        with nothing changed; otherwise the input goes to the app as typed,
        untrimmed, and the field is cleared. */
    method HandleSubmit(app: App, now: int) returns (accepted: bool)
      modifies this, app
      ensures accepted <==> CanSubmit(old(input), old(app.isProcessing))
      ensures !accepted ==> input == old(input) && unchanged(app)
      ensures accepted ==> input == ""
      ensures accepted ==> app.bill == old(app.bill) && app.isAnalyzing == old(app.isAnalyzing)
      ensures accepted && old(app.bill).Some? ==>
        && app.messages == old(app.messages) + [Request(old(input), now)]
        && app.isProcessing && app.turnsInFlight == old(app.turnsInFlight) + 1
      ensures accepted && old(app.bill).None? ==>
        app.messages == old(app.messages) && !app.isProcessing && app.turnsInFlight == old(app.turnsInFlight)
      ensures old(app.Serialized()) ==> app.Serialized()
    {
      if !CanSubmit(input, app.isProcessing) {
        return false;
      }
      var _ := app.BeginSendMessage(input, now);
      input := "";
      accepted := true;
    }
  }

  /** An upload followed by one typed message and its answer. A blank message
      starts no turn; any other is logged as typed, then answered, and the
      bill is whatever the answer carries or, on failure, the uploaded one. */
  method OneTurn(parsed: BillData, totalText: string, typed: string, outcome: ChatOutcome, t0: int, t1: int, t2: int)
    returns (accepted: bool, log: seq<ChatMessage>, finalBill: Option<BillData>, processing: bool)
    ensures accepted <==> !AllWhitespace(typed)
    ensures accepted ==> log == [Greeting(parsed, totalText, t0), Request(typed, t1), Reply(outcome, t2)]
    ensures accepted ==> finalBill == if outcome.Replied? then Some(outcome.response.updatedBill) else Some(parsed)
    ensures !accepted ==> log == [Greeting(parsed, totalText, t0)] && finalBill == Some(parsed)
    ensures !processing
  {
    var app := new App();
    app.Upload(Parsed(parsed), t0, totalText);
    var view := new ChatView();
    view.Type(typed);
    accepted := view.HandleSubmit(app, t1);
    if accepted {
      app.FinishSendMessage(outcome, t2);
    }
    log, finalBill, processing := app.messages, app.bill, app.isProcessing;
  }

  /** While a turn is in flight the view refuses a second message, so the log
      holds the greeting and the first message only. */
  method SecondSubmitRefused(parsed: BillData, totalText: string, first: string, second: string, t0: int, t1: int, t2: int)
    returns (secondAccepted: bool, log: seq<ChatMessage>, fieldText: string)
    requires !AllWhitespace(first)
    ensures !secondAccepted
    ensures log == [Greeting(parsed, totalText, t0), Request(first, t1)]
    ensures fieldText == second
  {
    var app := new App();
    app.Upload(Parsed(parsed), t0, totalText);
    var view := new ChatView();
    view.Type(first);
    var accepted := view.HandleSubmit(app, t1);
    view.Type(second);
    secondAccepted := view.HandleSubmit(app, t2);
    log, fieldText := app.messages, view.input;
  }

  /** The app itself does not refuse a second turn: started directly, two
      overlapping turns log both messages, and the first answer turns the
      indicator off while the second is still unanswered. */
  method OverlappingTurns(parsed: BillData, totalText: string, a: string, b: string, outcome: ChatOutcome,
                          t0: int, t1: int, t2: int, t3: int)
    returns (log: seq<ChatMessage>, processing: bool)
    ensures log == [Greeting(parsed, totalText, t0), Request(a, t1), Request(b, t2), Reply(outcome, t3)]
    ensures !processing
  {
    var app := new App();
    app.Upload(Parsed(parsed), t0, totalText);
    var _ := app.BeginSendMessage(a, t1);
    var _ := app.BeginSendMessage(b, t2);
    app.FinishSendMessage(outcome, t3);
    log, processing := app.messages, app.isProcessing;
  }

  /** Reset while a turn is in flight does not stick: the answer installs its
      bill again. */
  method ResetDuringTurn(parsed: BillData, totalText: string, typed: string, response: UpdateResponse,
                         t0: int, t1: int, t2: int)
    returns (finalBill: Option<BillData>)
    requires !AllWhitespace(typed)
    ensures finalBill == Some(response.updatedBill)
  {
    var app := new App();
    app.Upload(Parsed(parsed), t0, totalText);
    var view := new ChatView();
    view.Type(typed);
    var accepted := view.HandleSubmit(app, t1);
    app.Reset();
    app.FinishSendMessage(Replied(response), t2);
    finalBill := app.bill;
  }
}
