/** The app's session state and its handlers. The two calls to the receipt
    and chat interpretation service are asynchronous: each handler runs up to
    its `await` (the `Begin` half), other events may happen meanwhile, and the
    rest runs when the service answers (the `Finish` half). What the service
    answers is a parameter, and so is every clock reading. */
module Session {
  import opened BillTypes
  import opened Text

  /** What `parseReceiptImage` resolves to: a bill, or a rejection. */
  datatype ParseOutcome = Parsed(bill: BillData) | ParseFailed

  /** What `processChatCommand` resolves to: an updated bill with a reply, or a rejection. */
  datatype ChatOutcome = Replied(response: UpdateResponse) | ChatFailed

  const Apology: string := "Sorry, I had trouble updating the bill. Could you try rephrasing that?"

  const WelcomeOpening: string := "I've analyzed your receipt! I found "
  const WelcomeCount: string := " items totaling "
  const WelcomeClosing: string :=
    ". Tell me who had what (e.g., \"Mike had the steak\" or \"Alice and Bob shared the wine\")."

  /** The greeting after a successful upload. `totalText` is the bill total as
      JavaScript renders a number in a template literal. */
  function WelcomeText(b: BillData, totalText: string): string
  {
    WelcomeOpening + NatToString(|b.items|) + WelcomeCount + b.currency + totalText + WelcomeClosing
  }

  /** The greeting opens with the fixed words, and the number after them reads
      back as the number of items on the receipt. */
  lemma WelcomeReportsCount(b: BillData, totalText: string)
    ensures var w := WelcomeText(b, totalText);
      var k := |WelcomeOpening|;
      var digits := NatToString(|b.items|);
      && w[..k] == WelcomeOpening
      && ReadDecimal(w[k..k + |digits|]) == |b.items|
  {
    var w := WelcomeText(b, totalText);
    var k := |WelcomeOpening|;
    var digits := NatToString(|b.items|);
    assert w == WelcomeOpening + digits + (WelcomeCount + b.currency + totalText + WelcomeClosing);
    assert w[..k] == WelcomeOpening;
    assert w[k..k + |digits|] == digits;
    NatToStringReadsBack(|b.items|);
  }

  /** The log's only entry after an upload: the greeting, with the fixed id 'init'. */
  function Greeting(b: BillData, totalText: string, now: int): ChatMessage
  {
    ChatMessage(InitId, Model, WelcomeText(b, totalText), now)
  }

  /** The message a turn's answer adds to the log, stamped with the clock
      reading `now` taken when the answer arrives. */
  function Reply(outcome: ChatOutcome, now: int): (m: ChatMessage)
    ensures m.role == Model && m.id == ClockId(now + 1) && m.timestamp == now
    ensures outcome.ChatFailed? ==> m.text == Apology
    ensures outcome.Replied? ==> m.text == outcome.response.responseText
  {
    match outcome
    case Replied(response) => ChatMessage(ClockId(now + 1), Model, response.responseText, now)
    case ChatFailed => ChatMessage(ClockId(now + 1), Model, Apology, now)
  }

  /** The user's own message, stamped with the clock reading `now` at submission. */
  function Request(text: string, now: int): ChatMessage
  {
    ChatMessage(ClockId(now), User, text, now)
  }

  class App {
    var bill: Option<BillData>
    var messages: seq<ChatMessage>
    var isProcessing: bool
    var isAnalyzing: bool
    /** Chat turns started and not yet answered. */
    ghost var turnsInFlight: nat

    /** At most one turn is in flight, and `isProcessing` says whether one is. */
    ghost predicate Serialized()
      reads this
    {
      turnsInFlight <= 1 && (isProcessing <==> turnsInFlight == 1)
    }

    constructor()
      ensures bill == None && messages == [] && !isProcessing && !isAnalyzing
      ensures turnsInFlight == 0 && Serialized()
    {
      bill, messages, isProcessing, isAnalyzing := None, [], false, false;
      turnsInFlight := 0;
    }

    /** `handleUpload` up to its `await`: the welcome screen shows the spinner. */
    method BeginUpload()
      modifies this
      ensures isAnalyzing
      ensures bill == old(bill) && messages == old(messages) && isProcessing == old(isProcessing)
      ensures turnsInFlight == old(turnsInFlight)
      ensures old(Serialized()) ==> Serialized()
    {
      isAnalyzing := true;
    }

    /** `handleUpload` after its `await`: a parsed bill replaces the bill and
        the whole log becomes the greeting; a failure changes neither. Both
        paths clear `isAnalyzing`. */
    method FinishUpload(outcome: ParseOutcome, now: int, totalText: string)
      modifies this
      ensures outcome.Parsed? ==> bill == Some(outcome.bill)
      ensures outcome.Parsed? ==> messages == [Greeting(outcome.bill, totalText, now)]
      ensures outcome.ParseFailed? ==> bill == old(bill) && messages == old(messages)
      ensures !isAnalyzing
      ensures isProcessing == old(isProcessing) && turnsInFlight == old(turnsInFlight)
      ensures old(Serialized()) ==> Serialized()
    {
      if outcome.Parsed? {
        bill := Some(outcome.bill);
        messages := [Greeting(outcome.bill, totalText, now)];
      }
      isAnalyzing := false;
    }

    /** The whole of `handleUpload` when nothing happens while the service works. */
    method Upload(outcome: ParseOutcome, now: int, totalText: string)
      modifies this
      ensures outcome.Parsed? ==> bill == Some(outcome.bill)
      ensures outcome.Parsed? ==> messages == [Greeting(outcome.bill, totalText, now)]
      ensures outcome.ParseFailed? ==> bill == old(bill) && messages == old(messages)
      ensures !isAnalyzing
      ensures isProcessing == old(isProcessing) && turnsInFlight == old(turnsInFlight)
      ensures old(Serialized()) ==> Serialized()
    {
      BeginUpload();
      FinishUpload(outcome, now, totalText);
    }

    /** `handleSendMessage` up to its `await`. With no bill it returns at once
        and changes nothing; otherwise the user's message is logged before the
        answer is known and the chat shows the thinking indicator. */
    method BeginSendMessage(text: string, now: int) returns (started: bool)
      modifies this
      ensures started <==> old(bill).Some?
      ensures started ==> messages == old(messages) + [Request(text, now)]
      ensures started ==> isProcessing && turnsInFlight == old(turnsInFlight) + 1
      ensures !started ==> messages == old(messages) && isProcessing == old(isProcessing)
      ensures !started ==> turnsInFlight == old(turnsInFlight)
      ensures bill == old(bill) && isAnalyzing == old(isAnalyzing)
    {
      if bill.None? {
        return false;
      }
      messages := messages + [Request(text, now)];
      isProcessing := true;
      turnsInFlight := turnsInFlight + 1;
      started := true;
    }

    /** `handleSendMessage` after its `await`: an answer installs the returned
        bill as it is and logs its reply, a failure keeps the bill and logs the
        apology; either way the indicator goes off. */
    method FinishSendMessage(outcome: ChatOutcome, now: int)
      requires turnsInFlight > 0
      modifies this
      ensures messages == old(messages) + [Reply(outcome, now)]
      ensures bill == (if outcome.Replied? then Some(outcome.response.updatedBill) else old(bill))
      ensures !isProcessing && turnsInFlight == old(turnsInFlight) - 1
      ensures isAnalyzing == old(isAnalyzing)
      ensures old(Serialized()) ==> Serialized()
    {
      if outcome.Replied? {
        bill := Some(outcome.response.updatedBill);
      }
      messages := messages + [Reply(outcome, now)];
      isProcessing := false;
      turnsInFlight := turnsInFlight - 1;
    }

    /** A whole chat turn when nothing happens while the service works: with a
        bill the log grows by exactly the user's message and the answer. */
    method SendMessage(text: string, now: int, outcome: ChatOutcome, later: int) returns (started: bool)
      modifies this
      ensures started <==> old(bill).Some?
      ensures !started ==> bill == old(bill) && messages == old(messages) && isProcessing == old(isProcessing)
      ensures started ==> messages == old(messages) + [Request(text, now), Reply(outcome, later)]
      ensures started ==> bill == (if outcome.Replied? then Some(outcome.response.updatedBill) else old(bill))
      ensures started ==> !isProcessing
      ensures isAnalyzing == old(isAnalyzing) && turnsInFlight == old(turnsInFlight)
      ensures old(Serialized()) && !old(isProcessing) ==> Serialized()
    {
      started := BeginSendMessage(text, now);
      if started {
        FinishSendMessage(outcome, later);
      }
    }

    /** The header's Reset button: back to the upload screen; the log stays. */
    method Reset()
      modifies this
      ensures bill == None
      ensures messages == old(messages) && isProcessing == old(isProcessing) && isAnalyzing == old(isAnalyzing)
      ensures turnsInFlight == old(turnsInFlight)
      ensures old(Serialized()) ==> Serialized()
    {
      bill := None;
    }
  }
}
