# Bill splitter: cost allocation and chat session

The model covers a receipt-splitting web app. The user uploads a photo of a receipt. The receipt
interpretation service turns it into a bill of items. The user then tells a chat who had what,
and the chat service answers with an updated bill. The bill view works out what each person owes.

Three parts of the app are modelled:

- **The cost breakdown** (`components/BillView.tsx`):
  - Each assigned item's price is split equally among the names listed on it.
  - Names are trimmed and kept in first-seen order in a map.
  - Items nobody is assigned to are set aside.
  - Tax and tip are shared in proportion to each person's items total over the sum of all items
    totals.
  - `AllocationSpec` gives this as functions on values (`Breakdown`, `Unassigned`) and proves its
    properties as lemmas.
  - `Allocation.Summarize` follows the source's loops, with the JavaScript `Map` as an
    insertion-ordered key sequence beside a `map`, and is proved to compute exactly those
    functions.
- **The app's session** (`App.tsx`):
  - The bill, the chat log and the two busy flags are fields of the class `Session.App`.
  - Each asynchronous handler is split at its `await`: a `Begin` half runs before the service
    call, and a `Finish` half runs when the service answers. Other events can be placed between
    the two halves.
- **The chat panel's submit guard** (`components/ChatView.tsx`): the class `Chat.ChatView` holds
  the text field. Small scenario methods put the app and the view together.

Amounts are mathematical reals. Strings are character sequences. `Text.Trim` is JavaScript's
`String.prototype.trim`, and it removes exactly the characters of `Text.IsWhitespace`.

Three behaviours of the code are worth stating outright:

- Names are matched exactly after trimming. Letter case still distinguishes two people: "tom" and
  "Tom" are two entries (`AllocationExamples.PaddingMergesCaseSeparates`).
- No check is made on the bill the chat service returns. `FinishSendMessage` installs it as it is.
- When the assigned items total is positive, the whole tax and tip go to the assigned people,
  unassigned items or not, and only the unassigned items' prices go unpaid
  (`AllocationSpec.TaxAndTipDistributed`). When it is not (for instance before anything is
  assigned), nobody is charged tax or tip (`AllocationSpec.OwedTotal`).

## Model

| member | source | states |
|---|---|---|
| AllocationSpec.UnassignedExactly | components/BillView.tsx:16-20 | an item is set aside exactly when it is on the bill and has no names |
| AllocationSpec.UnassignedConcat | components/BillView.tsx:16-20 | the set-aside items keep receipt order: setting aside over two runs of items concatenates the results |
| AllocationSpec.EntriesExactly | components/BillView.tsx:25-26 | a name is an entry exactly when some item lists a name that trims to it |
| AllocationSpec.PeopleFirstSeen | components/BillView.tsx:27-35 | the people list has no duplicates, holds exactly the trimmed entries, and keeps each name where it first appears |
| AllocationSpec.DedupExtends | components/BillView.tsx:27-35 | keys only grow at the end: later items never reorder the people found earlier, and every newly added person is a name not seen before |
| AllocationSpec.ItemSharesSumToPrice | components/BillView.tsx:22-38 | over any duplicate-free list holding every name of an assigned item, the per-person shares of that item add up to its price |
| AllocationSpec.CopiesOfPricePerPerson | components/BillView.tsx:22-23 | for an assigned item, `splitCount` shares of `price / splitCount` add back up to its price |
| AllocationSpec.ItemsTotalConservation | components/BillView.tsx:16-45 | the sum of everyone's items total is the sum of the assigned items' prices |
| AllocationSpec.SettleRecord | components/BillView.tsx:47-54 | settling keeps the name and items total; tax and tip are the record's share when the subtotal is positive and 0 otherwise; `totalOwed` is the sum of the three parts |
| AllocationSpec.BreakdownItemsTotals | components/BillView.tsx:45-57 | the items totals of the breakdown add up to the assigned items' prices |
| AllocationSpec.TaxAndTipDistributed | components/BillView.tsx:45-54 | with a positive assigned subtotal the tax shares add up to the tax and the tip shares to the tip, even when items are unassigned; otherwise all are 0 |
| AllocationSpec.OwedTotal | components/BillView.tsx:45-54 | everyone's `totalOwed` together is the assigned subtotal plus the full tax and tip when that subtotal is positive, the subtotal alone otherwise |
| AllocationSpec.ItemsTotalUnseen | components/BillView.tsx:27-37 | a name that is on no item accrues nothing |
| Allocation.AccrueItem | components/BillView.tsx:22-38 | the inner loop over one item's names yields the people and records of the items so far plus this one |
| Allocation.AccrueItems | components/BillView.tsx:13-39 | the outer loop leaves exactly the first-seen trimmed names as keys, each with its accrued items total and zero shares, and the unassigned items in receipt order |
| Allocation.ReduceItemsTotals | components/BillView.tsx:45 | the reduce over the records yields the total assigned subtotal |
| Allocation.SettleAll | components/BillView.tsx:47-54 | after the second loop every record is that person's settled summary, and the keys are unchanged |
| Allocation.Values | components/BillView.tsx:57 | `Array.from(peopleMap.values())` lists the records in key order |
| Allocation.Summarize | components/BillView.tsx:12-60 | the whole computation returns exactly `Breakdown(bill)` and `Unassigned(bill.items)` |
| AllocationExamples.DuplicateEntryPaysTwice | components/BillView.tsx:22-37 | a name listed twice on one item pays the full price |
| AllocationExamples.PeopleOfTwo | components/BillView.tsx:25-35 | two one-name items give one person when the names trim alike and two otherwise, in receipt order |
| AllocationExamples.PaddingMergesCaseSeparates | components/BillView.tsx:26-27 | " Tom" and "Tom" are one person; "tom" and "Tom" are two |
| AllocationExamples.TwoDiners | components/BillView.tsx:12-60 | a 10 burger for one diner and a 20 wine for two, with tax 3 and tip 5, give 20+2+10/3 and 10+1+5/3 |
| Text.TrimEmptyIffBlank | components/ChatView.tsx:26 | `input.trim()` is empty exactly when every character is whitespace |
| Text.TrimUnique | components/BillView.tsx:26 | the trimmed string is the one whitespace-free-ended core obtained by dropping only whitespace from both ends |
| Text.TrimIgnoresPadding | components/BillView.tsx:26 | whitespace added around a name does not change its trimmed form |
| Text.TrimKeepsTrimmed | components/BillView.tsx:26 | a name without whitespace at its ends trims to itself |
| Text.NatToStringReadsBack | App.tsx:65 | the decimal rendering of an item count is all digits, has no leading zero, and reads back as the count |
| Session.WelcomeReportsCount | App.tsx:61-68 | the greeting opens with the fixed words, followed by the number of items on the receipt |
| Session.Reply | App.tsx:95-111 | the answer's message is from the model, with id one past the clock reading; it carries the service's text or, on failure, the apology |
| Session.App.constructor | App.tsx:51-54 | no bill, empty log, neither flag set |
| Session.App.BeginUpload | App.tsx:57 | the analyzing flag goes on and nothing else changes; the at-most-one-turn invariant is kept |
| Session.App.FinishUpload | App.tsx:59-74 | a parsed bill replaces the bill and the log becomes the greeting alone; a failure changes neither; the analyzing flag goes off; the at-most-one-turn invariant is kept |
| Session.App.Upload | App.tsx:56-75 | the whole upload, with nothing happening while the service works; the at-most-one-turn invariant is kept |
| Session.App.BeginSendMessage | App.tsx:78-88 | without a bill nothing changes; with one the user's message is logged as typed and the processing flag goes on |
| Session.App.FinishSendMessage | App.tsx:90-114 | an answer installs the returned bill and logs its reply; a failure keeps the bill and logs the apology; the processing flag goes off; the at-most-one-turn invariant is kept |
| Session.App.SendMessage | App.tsx:77-115 | one uninterrupted turn grows the log by exactly the user's message and the answer; started with no turn in flight, it keeps the at-most-one-turn invariant |
| Session.App.Reset | App.tsx:129 | the bill is dropped; the log and flags stay; the at-most-one-turn invariant is kept |
| Chat.CanSubmit | components/ChatView.tsx:26 | a message goes through exactly when the input is not all whitespace and no turn is in progress |
| Chat.ButtonMatchesHandler | components/ChatView.tsx:85 | the send button is enabled exactly when pressing it would start a turn |
| Chat.ChatView.constructor | components/ChatView.tsx:13 | the field starts empty |
| Chat.ChatView.Type | components/ChatView.tsx:78 | typing replaces the field's text |
| Chat.ChatView.HandleSubmit | components/ChatView.tsx:24-29 | a blank input or a turn in progress changes nothing; otherwise the untrimmed input starts a turn and the field clears; at most one turn is ever in flight |
| Chat.OneTurn | components/ChatView.tsx:24-29 | upload, then one message: a blank one starts nothing; otherwise the log is greeting, message, answer, and the bill is the answer's or the uploaded one |
| Chat.SecondSubmitRefused | components/ChatView.tsx:26 | while a turn is in flight a second message is refused and stays in the field |
| Chat.OverlappingTurns | App.tsx:77-115 | the app alone does not serialize turns: two overlapping turns log both messages, and the first answer clears the processing flag |
| Chat.ResetDuringTurn | App.tsx:93 | a Reset while a turn is in flight is undone when the answer installs its bill |

## Left out

- The receipt and chat interpretation service (`services/geminiService.ts`) is not part of this
  model. Its network calls, the file reading and the JSON it returns appear only as the outcome
  parameters `ParseOutcome` and `ChatOutcome`.
- Clock readings (`Date.now()`, `new Date()`) are integer parameters. Each message takes a single
  reading for both its id and its timestamp. The source reads the clock separately for each.
- Ids are kept as a datatype (`InitId`, or a clock reading) rather than as their decimal string.
- Session.WelcomeText: the bill total as JavaScript prints a number is passed in as `totalText`,
  because number-to-string conversion of floating point is not modelled.
- Amounts are reals, not IEEE doubles, so rounding in the divisions and sums is not modelled.
- `console.error` and `alert` on a failed upload or chat turn have no effect on the state and are
  left out.
- Rendering is left out: JSX, `formatMoney`, scrolling and the disabled text field.
- React's state is modelled as direct field updates. Two things are not captured: a handler seeing
  a stale `bill` from an earlier render, and batched or functional updates other than appends to
  the log. Interleavings are modelled only at each handler's single `await`.
- The chat view's lifetime is not modelled: in the app the view unmounts while there is no bill,
  so its text field starts empty again after the next upload, whereas `Chat.ChatView` outlives a
  `Reset`.
- Chat.SecondSubmitRefused: it shows the submit handler's own guard; in the app the field and the
  button are also disabled during a turn, so typing a second message then cannot happen.
- The person records in the `Map` are mutated through shared references in the source. The model
  replaces the record value in the map instead, and no record is reachable any other way.
