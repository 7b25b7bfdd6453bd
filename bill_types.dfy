/** The records shared by the bill view, the chat view and the app state.
    Amounts are exact rationals (`real`) in place of JavaScript numbers. */
module BillTypes {

  /** `BillData | null` */
  datatype Option<T> = None | Some(value: T)

  /** One receipt line; `assignedTo` lists the names sharing it, empty while unassigned. */
  datatype BillItem = BillItem(id: string, description: string, price: real, assignedTo: seq<string>)

  /** A parsed receipt: its items in receipt order and the printed amounts. */
  datatype BillData = BillData(
    items: seq<BillItem>,
    subtotal: real,
    tax: real,
    tip: real,
    total: real,
    currency: string)

  /** What one person owes, as the cost breakdown shows it. */
  datatype PersonSummary = PersonSummary(
    name: string,
    itemsTotal: real,
    taxShare: real,
    tipShare: real,
    totalOwed: real)

  datatype Role = User | Model

  /** Message ids are either the literal 'init' or a clock reading rendered as text;
      the rendering itself is not modelled, only which reading it came from. */
  datatype MessageId = InitId | ClockId(ms: int)

  /** A chat log entry; `timestamp` is the clock reading in milliseconds. */
  datatype ChatMessage = ChatMessage(id: MessageId, role: Role, text: string, timestamp: int)

  /** What the interpretation service returns for one chat command. */
  datatype UpdateResponse = UpdateResponse(updatedBill: BillData, responseText: string)
}
