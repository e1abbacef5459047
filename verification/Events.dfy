/** Outbox entries as the scripts write them, and the typed events read back from them. */
module Events {
  import opened Base
  import opened Text
  import opened Payout

  datatype Event =
    | WagerPlaced(room: string, round: string, user: string, key: string,
                  outcome: int, amount: int, balance: int)
    | RoundSettled(room: string, round: string, key: string, winningOutcome: int,
                   total: int, dust: int, payouts: seq<Payment>, refunded: bool)

  /** What the JSON of a payouts field decodes to. */
  datatype Json = Missing | Malformed | List(payments: seq<Payment>)

  /** The field names of a stream entry. */
  datatype Field = TypeField | UserField | OutcomeField | AmountField | BalanceField | KeyField | RoomField | RoundField
                 | TotalField | DustField | WinnerField | PayoutsField

  /** A stream entry: its text fields, and its one JSON field. */
  datatype Entry = Entry(fields: map<Field, string>, payouts: Json)

  datatype DecodeError =
    UnknownType | MissingField(name: Field) | NotAnInteger(name: Field) | BadJson | RefundWithWinner

  // ---------- what the scripts append ----------

  /** Lua prints numbers with 14 significant digits, so integers below this come out exactly. */
  const LUA_EXACT := 100_000_000_000_000

  function EntryOf(ev: Event): Entry
  {
    match ev
    case WagerPlaced(room, round, user, key, outcome, amount, balance) =>
      Entry(map[TypeField := "wager_placed", UserField := user, OutcomeField := Itoa(outcome),
                AmountField := Itoa(amount), BalanceField := Itoa(balance), KeyField := key,
                RoomField := room, RoundField := round], Missing)
    case RoundSettled(room, round, key, winner, total, dust, payouts, refunded) =>
      Entry(map[TypeField := if refunded then "round_refunded" else "round_settled",
                RoundField := round, RoomField := room, TotalField := Itoa(total), DustField := Itoa(dust),
                WinnerField := if refunded then "" else Itoa(winner), KeyField := key],
            List(payouts))
  }

  // ---------- Decode ----------

  function Require(e: Entry, name: Field): Result<string, DecodeError>
  {
    if name in e.fields then Ok(e.fields[name]) else Err(MissingField(name))
  }

  function RequireInt(e: Entry, name: Field): Result<int, DecodeError>
  {
    match Require(e, name)
    case Err(x) => Err(x)
    case Ok(text) =>
      match ParseInt(text)
      case None => Err(NotAnInteger(name))
      case Some(n) => Ok(n)
  }

  function Decode(e: Entry): Result<Event, DecodeError>
  {
    if TypeField !in e.fields then Err(UnknownType)
    else if e.fields[TypeField] == "wager_placed" then DecodeWagerPlaced(e)
    else if e.fields[TypeField] == "round_settled" then DecodeRoundSettled(e, false)
    else if e.fields[TypeField] == "round_refunded" then DecodeRoundSettled(e, true)
    else Err(UnknownType)
  }

  function DecodeWagerPlaced(e: Entry): Result<Event, DecodeError>
  {
    var room, round := Require(e, RoomField), Require(e, RoundField);
    var user, key := Require(e, UserField), Require(e, KeyField);
    var outcome, amount := RequireInt(e, OutcomeField), RequireInt(e, AmountField);
    var balance := RequireInt(e, BalanceField);
    if room.Err? then Err(room.error) else
    if round.Err? then Err(round.error) else
    if user.Err? then Err(user.error) else
    if key.Err? then Err(key.error) else
    if outcome.Err? then Err(outcome.error) else
    if amount.Err? then Err(amount.error) else
    if balance.Err? then Err(balance.error) else
    Ok(WagerPlaced(room.value, round.value, user.value, key.value, outcome.value, amount.value, balance.value))
  }

  function DecodeWinner(e: Entry, refunded: bool): Result<int, DecodeError>
  {
    if !refunded then RequireInt(e, WinnerField)
    else if WinnerField in e.fields && e.fields[WinnerField] != "" then Err(RefundWithWinner)
    else Ok(-1)
  }

  function DecodeRoundSettled(e: Entry, refunded: bool): Result<Event, DecodeError>
  {
    var room, round, key := Require(e, RoomField), Require(e, RoundField), Require(e, KeyField);
    var winner, total, dust := DecodeWinner(e, refunded), RequireInt(e, TotalField), RequireInt(e, DustField);
    if room.Err? then Err(room.error) else
    if round.Err? then Err(round.error) else
    if key.Err? then Err(key.error) else
    if winner.Err? then Err(winner.error) else
    if total.Err? then Err(total.error) else
    if dust.Err? then Err(dust.error) else
    match e.payouts
    case Missing => Err(MissingField(PayoutsField))
    case Malformed => Err(BadJson)
    case List(ps) =>
      Ok(RoundSettled(room.value, round.value, key.value, winner.value, total.value, dust.value, ps, refunded))
  }

  /** The entry has the field, and it is a number. */
  predicate HasInt(e: Entry, name: Field)
  {
    name in e.fields && ParseInt(e.fields[name]).Some?
  }

  /** An entry decodes exactly if it has a known type and all the fields of that type, numbers where numbers belong. */
  lemma DecodesIff(e: Entry)
    ensures Decode(e).Ok?
       <==> && TypeField in e.fields && RoomField in e.fields && RoundField in e.fields && KeyField in e.fields
            && if e.fields[TypeField] == "wager_placed"
               then && UserField in e.fields
                    && HasInt(e, OutcomeField) && HasInt(e, AmountField) && HasInt(e, BalanceField)
               else && HasInt(e, TotalField) && HasInt(e, DustField) && e.payouts.List?
                    && (|| (e.fields[TypeField] == "round_settled" && HasInt(e, WinnerField))
                        || (e.fields[TypeField] == "round_refunded"
                            && (WinnerField !in e.fields || e.fields[WinnerField] == "")))
    ensures Decode(e).Ok? ==> Reads(e, Decode(e).value)
    ensures Decode(e).Err? ==> Blames(e, Decode(e).error)
  {
    assert "wager_placed"[0] != "round_settled"[0] && "round_settled"[6] != "round_refunded"[6];
  }

  /** The error is something that is wrong with the entry. */
  predicate Blames(e: Entry, error: DecodeError)
  {
    match error
    case UnknownType =>
      TypeField in e.fields ==> e.fields[TypeField] !in {"wager_placed", "round_settled", "round_refunded"}
    case MissingField(name) => if name == PayoutsField then e.payouts.Missing? else name !in e.fields
    case NotAnInteger(name) => name in e.fields && ParseInt(e.fields[name]).None?
    case BadJson => e.payouts.Malformed?
    case RefundWithWinner => TypeField in e.fields && e.fields[TypeField] == "round_refunded"
                             && WinnerField in e.fields && e.fields[WinnerField] != ""
  }

  /** What the event says is what the entry's fields say. */
  predicate Reads(e: Entry, ev: Event)
  {
    && RoomField in e.fields && e.fields[RoomField] == ev.room
    && RoundField in e.fields && e.fields[RoundField] == ev.round
    && KeyField in e.fields && e.fields[KeyField] == ev.key && TypeField in e.fields
    && match ev
       case WagerPlaced(_, _, user, _, outcome, amount, balance) =>
         && e.fields[TypeField] == "wager_placed" && UserField in e.fields && e.fields[UserField] == user
         && HasInt(e, OutcomeField) && ParseInt(e.fields[OutcomeField]).value == outcome
         && HasInt(e, AmountField) && ParseInt(e.fields[AmountField]).value == amount
         && HasInt(e, BalanceField) && ParseInt(e.fields[BalanceField]).value == balance
       case RoundSettled(_, _, _, winner, total, dust, payouts, refunded) =>
         && e.fields[TypeField] == (if refunded then "round_refunded" else "round_settled")
         && e.payouts == List(payouts)
         && HasInt(e, TotalField) && ParseInt(e.fields[TotalField]).value == total
         && HasInt(e, DustField) && ParseInt(e.fields[DustField]).value == dust
         && (if refunded then winner == -1
             else HasInt(e, WinnerField) && ParseInt(e.fields[WinnerField]).value == winner)
  }

  predicate Fits(n: int) { MIN_INT64 <= n <= MAX_INT64 }

  /** The numbers of an event that the scripts print exactly, and the mark of a refund. */
  predicate Printable(ev: Event)
  {
    match ev
    case WagerPlaced(_, _, _, _, outcome, amount, balance) =>
      Fits(outcome) && 0 <= amount < LUA_EXACT && 0 <= balance < LUA_EXACT
    case RoundSettled(_, _, _, winner, total, dust, _, refunded) =>
      Fits(winner) && Fits(total) && Fits(dust) && (refunded ==> winner == -1)
  }

  lemma IntFieldReads(e: Entry, name: Field, n: int)
    requires name in e.fields && e.fields[name] == Itoa(n) && Fits(n)
    ensures RequireInt(e, name) == Ok(n)
  {
    ParseFormatted(n);
  }

  lemma WagerEntryDecodes(ev: Event)
    requires Printable(ev) && ev.WagerPlaced?
    ensures DecodeWagerPlaced(EntryOf(ev)) == Ok(ev)
  {
    var e := EntryOf(ev);
    IntFieldReads(e, OutcomeField, ev.outcome);
    IntFieldReads(e, AmountField, ev.amount);
    IntFieldReads(e, BalanceField, ev.balance);
  }

  lemma WinnerReads(ev: Event)
    requires Printable(ev) && ev.RoundSettled?
    ensures DecodeWinner(EntryOf(ev), ev.refunded) == Ok(ev.winningOutcome)
  {
    var e := EntryOf(ev);
    if ev.refunded {
      assert e.fields[WinnerField] == "";
    } else {
      IntFieldReads(e, WinnerField, ev.winningOutcome);
    }
  }

  lemma SettledEntryDecodes(ev: Event)
    requires Printable(ev) && ev.RoundSettled?
    ensures DecodeRoundSettled(EntryOf(ev), ev.refunded) == Ok(ev)
  {
    var e := EntryOf(ev);
    WinnerReads(ev);
    IntFieldReads(e, TotalField, ev.total);
    IntFieldReads(e, DustField, ev.dust);
  }

  /** Decoding an entry gives back the event it was written for. */
  lemma EntryDecodes(ev: Event)
    requires Printable(ev)
    ensures Decode(EntryOf(ev)) == Ok(ev)
  {
    if ev.WagerPlaced? {
      WagerEntryDecodes(ev);
    } else {
      SettledEntryDecodes(ev);
    }
  }

  // ---------- validation after the Kafka hop ----------

  const MAX_PAYOUTS := 10_000

  predicate Valid(ev: Event)
  {
    && ev.room != "" && ev.round != "" && ev.key != ""
    && match ev
       case WagerPlaced(_, _, user, _, outcome, amount, balance) =>
         user != "" && amount > 0 && outcome >= 0 && balance >= 0
       case RoundSettled(_, _, _, winner, total, dust, payouts, refunded) =>
         && total >= 0 && dust >= 0 && |payouts| <= MAX_PAYOUTS
         && (forall p :: p in payouts ==> p.user != "" && p.amount > 0)
         && (if refunded then winner == -1 && dust == 0 else winner >= 0)
  }
}
