/** How the account page shows one entry of the transaction history: the
    label chosen by its type, the colours, the signed amount text and the
    counterparty line. */
module History {
  import opened Common
  import opened Api
  import opened Text

  const SentLabel := "TRANSFERENCIA ENVIADA"
  const ReceivedLabel := "TRANSFERENCIA RECIBIDA"

  /** The lookup `tipo[kind] || kind`: the table's label for the three known
      types, the raw type string for any other. */
  function TypeLabel(kind: string): (title: string)
    ensures kind == "sent" ==> title == SentLabel
    ensures kind == "received" || kind == "award" ==> title == ReceivedLabel
    ensures kind != "sent" && kind != "received" && kind != "award" ==> title == kind
  {
    if kind == "sent" then SentLabel
    else if kind == "received" || kind == "award" then ReceivedLabel
    else kind
  }

  datatype Colour = ErrorMain | SuccessMain | Green | Red

  /** `{amount >= 0 ? '+' : ''}{amount} R$`. */
  function AmountText(amount: int): (t: string)
    ensures |t| >= 5 && t[|t| - 3..] == " R$"
    ensures t[0] == '+' <==> amount >= 0
    ensures t[0] == '-' <==> amount < 0
    ensures AllDigits(t[1..|t| - 3])
    ensures ParseDigits(t[1..|t| - 3]) == if amount < 0 then -amount else amount
  {
    var n := IntToString(amount);
    var t := (if amount >= 0 then "+" else "") + n + " R$";
    assert amount >= 0 ==> t[1..|t| - 3] == n;
    assert amount < 0 ==> t[1..|t| - 3] == n[1..];
    t
  }

  /** The line naming the other party, shown for the three known types only. */
  function CounterpartyLine(m: Movement): (line: Option<string>)
    ensures line.Some? <==> m.kind in {"sent", "received", "award"}
    ensures m.kind == "sent" ==> line == Some("Enviado a: " + m.toName)
    ensures m.kind == "received" ==> line == Some("Recibido de: " + m.fromName)
    ensures m.kind == "award" ==> line == Some("Recibido de: " + MessageOr(m.awardedBy, "Sistema"))
  {
    match m.kind
    case "sent" => Some("Enviado a: " + m.toName)
    case "received" => Some("Recibido de: " + m.fromName)
    case "award" => Some("Recibido de: " + MessageOr(m.awardedBy, "Sistema"))
    case _ => None
  }

  /** Everything the page derives from one entry. */
  datatype EntryView = EntryView(
    title: string,
    border: Colour,
    amountColour: Colour,
    amountText: string,
    counterparty: Option<string>)

  function Render(m: Movement): (v: EntryView)
    ensures v.title == TypeLabel(m.kind)
    ensures v.border == ErrorMain <==> m.kind == "sent"
    ensures v.border == SuccessMain <==> m.kind != "sent"
    ensures v.amountColour == Green <==> m.amount >= 0
    ensures v.amountColour == Red <==> m.amount < 0
    ensures v.amountText == AmountText(m.amount)
    ensures v.counterparty == CounterpartyLine(m)
  {
    EntryView(
      TypeLabel(m.kind),
      if m.kind == "sent" then ErrorMain else SuccessMain,
      if m.amount >= 0 then Green else Red,
      AmountText(m.amount),
      CounterpartyLine(m))
  }

  /** The history the page lists after a fetch: the reply's `transactions`,
      or nothing when the request failed or the field is missing. */
  function HistoryFrom(reply: Reply<TransactionsData>): (entries: seq<Movement>)
    ensures reply.Ok? && reply.data.transactions.Some? ==> entries == reply.data.transactions.value
    ensures !(reply.Ok? && reply.data.transactions.Some?) ==> entries == []
  {
    match reply
    case Ok(TransactionsData(Some(ts))) => ts
    case _ => []
  }
}
