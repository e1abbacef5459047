/** The double-entry ledger: events as balanced transactions, posted once per idempotency key. */
module Ledger {
  import opened Base
  import opened Payout
  import opened Events

  datatype Account = UserWallet(user: string) | RoundPool(room: string) | SystemDust

  datatype Direction = Debit | Credit

  datatype Line = Line(account: Account, direction: Direction, amount: int)

  datatype Kind = WagerKind | SettlementKind | RefundKind

  datatype Transaction = Transaction(key: string, kind: Kind, room: string, round: string, lines: seq<Line>)

  datatype MappingError = Unbalanced

  // ---------- events to transactions ----------

  function PayoutLine(p: Payment): Line { Line(UserWallet(p.user), Credit, p.amount) }

  function PayoutLines(payouts: seq<Payment>): seq<Line>
  {
    seq(|payouts|, i requires 0 <= i < |payouts| => PayoutLine(payouts[i]))
  }

  function SettlementLines(ev: Event): seq<Line>
    requires ev.RoundSettled?
  {
    (if ev.total > 0 then [Line(RoundPool(ev.room), Debit, ev.total)] else [])
    + PayoutLines(ev.payouts)
    + (if ev.dust > 0 then [Line(SystemDust, Credit, ev.dust)] else [])
  }

  function TransactionFor(ev: Event): Result<Transaction, MappingError>
  {
    match ev
    case WagerPlaced(room, round, user, key, _, amount, _) =>
      Ok(Transaction(key, WagerKind, room, round,
                     [Line(UserWallet(user), Debit, amount), Line(RoundPool(room), Credit, amount)]))
    case RoundSettled(room, round, key, _, total, dust, payouts, refunded) =>
      if dust + SumBy(payouts, Paid()) != total then Err(Unbalanced)
      else Ok(Transaction(key, if refunded then RefundKind else SettlementKind, room, round, SettlementLines(ev)))
  }

  method TransactionForSettlement(ev: Event) returns (r: Result<Transaction, MappingError>)
    requires ev.RoundSettled?
    ensures r == TransactionFor(ev)
    ensures r.Err? <==> ev.dust + SumBy(ev.payouts, Paid()) != ev.total
    ensures r.Ok? ==>
              var lines, k := r.value.lines, if ev.total > 0 then 1 else 0;
              && |lines| == k + |ev.payouts| + (if ev.dust > 0 then 1 else 0)
              && (k == 1 ==> lines[0] == Line(RoundPool(ev.room), Debit, ev.total))
              && (forall i :: 0 <= i < |ev.payouts| ==>
                    lines[k..][i] == Line(UserWallet(ev.payouts[i].user), Credit, ev.payouts[i].amount))
              && (ev.dust > 0 ==> lines[|lines| - 1] == Line(SystemDust, Credit, ev.dust))
  {
    var sum := ev.dust;
    for i := 0 to |ev.payouts|
      invariant sum == ev.dust + SumBy(ev.payouts[..i], Paid())
    {
      assert ev.payouts[..i + 1][..i] == ev.payouts[..i];
      sum := sum + ev.payouts[i].amount;
    }
    assert ev.payouts[..|ev.payouts|] == ev.payouts;
    if sum != ev.total {
      return Err(Unbalanced);
    }
    var lines := [];
    if ev.total > 0 {
      lines := lines + [Line(RoundPool(ev.room), Debit, ev.total)];
    }
    ghost var opening := lines;
    for i := 0 to |ev.payouts|
      invariant lines == opening + PayoutLines(ev.payouts)[..i]
    {
      lines := lines + [PayoutLine(ev.payouts[i])];
    }
    assert PayoutLines(ev.payouts)[..|ev.payouts|] == PayoutLines(ev.payouts);
    if ev.dust > 0 {
      lines := lines + [Line(SystemDust, Credit, ev.dust)];
    }
    assert lines == SettlementLines(ev);
    r := Ok(Transaction(ev.key, if ev.refunded then RefundKind else SettlementKind, ev.room, ev.round, lines));
  }

  // ---------- balanced transactions ----------

  function Sign(l: Line): int
  {
    if l.direction == Credit then l.amount else -l.amount
  }

  function Signed(): Line -> int { (l: Line) => Sign(l) }

  /** What the database insists on: positive lines, debits equal to credits. */
  ghost predicate Sound(t: Transaction)
  {
    (forall l :: l in t.lines ==> l.amount > 0) && SumBy(t.lines, Signed()) == 0
  }

  lemma {:induction false} PayoutLinesSum(payouts: seq<Payment>, f: Line -> int, g: Payment -> int)
    requires forall p: Payment :: f(PayoutLine(p)) == g(p)
    ensures SumBy(PayoutLines(payouts), f) == SumBy(payouts, g)
  {
    if payouts != [] {
      var n := |payouts| - 1;
      PayoutLinesSum(payouts[..n], f, g);
      assert PayoutLines(payouts)[..n] == PayoutLines(payouts[..n]);
    }
  }

  lemma SettlementLinesSum(ev: Event, f: Line -> int, g: Payment -> int)
    requires ev.RoundSettled? && ev.total >= 0 && ev.dust >= 0
    requires forall p: Payment :: f(PayoutLine(p)) == g(p)
    requires f(Line(RoundPool(ev.room), Debit, 0)) == 0 && f(Line(SystemDust, Credit, 0)) == 0
    ensures SumBy(SettlementLines(ev), f) ==
              f(Line(RoundPool(ev.room), Debit, ev.total)) + SumBy(ev.payouts, g) + f(Line(SystemDust, Credit, ev.dust))
  {
    var a := if ev.total > 0 then [Line(RoundPool(ev.room), Debit, ev.total)] else [];
    var c := if ev.dust > 0 then [Line(SystemDust, Credit, ev.dust)] else [];
    PayoutLinesSum(ev.payouts, f, g);
    SumByConcat(a, PayoutLines(ev.payouts), f);
    SumByConcat(a + PayoutLines(ev.payouts), c, f);
  }

  lemma Pair<T>(x: T, y: T, f: T -> int)
    ensures SumBy([x, y], f) == f(x) + f(y)
  {
    assert [x, y] == [x] + [y];
    SumBySnoc([x], y, f);
  }

  lemma SettlementLinesArePositive(ev: Event)
    requires Valid(ev) && ev.RoundSettled?
    ensures forall l :: l in SettlementLines(ev) ==> l.amount > 0
  {
    forall l | l in PayoutLines(ev.payouts) ensures l.amount > 0 {
      var i :| 0 <= i < |ev.payouts| && l == PayoutLine(ev.payouts[i]);
      assert ev.payouts[i] in ev.payouts;
    }
  }

  /** An event that passed validation maps to a sound transaction, unless its sum is wrong. */
  lemma ValidEventsBalance(ev: Event)
    requires Valid(ev) && TransactionFor(ev).Ok?
    ensures Sound(TransactionFor(ev).value)
  {
    var t := TransactionFor(ev).value;
    if ev.WagerPlaced? {
      Pair(t.lines[0], t.lines[1], Signed());
    } else {
      SettlementLinesSum(ev, Signed(), Paid());
      SettlementLinesArePositive(ev);
    }
  }

  // ---------- what an event moves ----------

  /** The three balances the ledger is queried for. */
  datatype View = WalletIn(room: string, user: string) | PoolIn(room: string) | DustIn(room: string)

  function Weight(v: View, l: Line): int
  {
    match v
    case WalletIn(_, user) => if l.account == UserWallet(user) then Sign(l) else 0
    case PoolIn(room) => if l.account == RoundPool(room) then Sign(l) else 0
    case DustIn(_) => if l.account == SystemDust then l.amount else 0
  }

  function LineWeight(v: View): Line -> int { (l: Line) => Weight(v, l) }

  /** A transaction's part of a queried balance; pools are scoped by account, the rest by room. */
  function Part(t: Transaction, v: View): int
  {
    if v.PoolIn? || t.room == v.room then SumBy(t.lines, LineWeight(v)) else 0
  }

  /** What an event does to a balance. */
  function Effect(ev: Event, v: View): int
  {
    if ev.room != v.room then 0 else
    match (ev, v)
    case (WagerPlaced(_, _, user, _, _, amount, _), WalletIn(_, u)) => if user == u then -amount else 0
    case (WagerPlaced(_, _, _, _, _, amount, _), PoolIn(_)) => amount
    case (WagerPlaced(_, _, _, _, _, _, _), DustIn(_)) => 0
    case (RoundSettled(_, _, _, _, _, _, payouts, _), WalletIn(_, u)) => SumBy(payouts, PaidTo(u))
    case (RoundSettled(_, _, _, _, total, _, _, _), PoolIn(_)) => -total
    case (RoundSettled(_, _, _, _, _, dust, _, _), DustIn(_)) => dust
  }

  lemma {:induction false} NothingPaid(payouts: seq<Payment>)
    ensures SumBy(payouts, Nothing()) == 0
  {
    if payouts != [] { NothingPaid(payouts[..|payouts| - 1]); }
  }

  function Nothing(): Payment -> int { (p: Payment) => 0 }

  /** The ledger's transaction bears its event's names, and moves every queried balance exactly as the event does. */
  lemma TransactionsMirrorEvents(ev: Event, v: View)
    requires Valid(ev) && TransactionFor(ev).Ok?
    ensures Part(TransactionFor(ev).value, v) == Effect(ev, v)
    ensures var t := TransactionFor(ev).value;
            && t.key == ev.key && t.room == ev.room && t.round == ev.round
            && t.kind == if ev.WagerPlaced? then WagerKind else if ev.refunded then RefundKind else SettlementKind
  {
    var t := TransactionFor(ev).value;
    match ev
    case WagerPlaced(_, _, _, _, _, _, _) =>
      Pair(t.lines[0], t.lines[1], LineWeight(v));
    case RoundSettled(_, _, _, _, _, _, payouts, _) =>
      NothingPaid(payouts);
      var g := if v.WalletIn? then PaidTo(v.user) else Nothing();
      forall p: Payment ensures LineWeight(v)(PayoutLine(p)) == g(p) {}
      SettlementLinesSum(ev, LineWeight(v), g);
  }

  // ---------- posting batches ----------

  /** The transactions table: one row per idempotency key. */
  type Book = map<string, Transaction>

  function PostOne(book: Book, t: Transaction): Book
  {
    if t.key in book then book else book[t.key := t]
  }

  function Post(book: Book, txns: seq<Transaction>): Book
  {
    if txns == [] then book else PostOne(Post(book, txns[..|txns| - 1]), txns[|txns| - 1])
  }

  ghost predicate AllSound(book: Book)
  {
    forall k :: k in book ==> Sound(book[k])
  }

  /** Every row that `after` adds to `before` is sound. */
  ghost predicate SoundBeyond(before: Book, after: Book)
  {
    forall k :: k in after && k !in before ==> Sound(after[k])
  }

  datatype WriteError = ConstraintViolated | DatabaseDown

  /** Debits equal to credits and positive amounts, as the table constraints compute it. */
  method CheckLines(t: Transaction) returns (ok: bool)
    ensures ok <==> Sound(t)
  {
    var net := 0;
    ok := true;
    for i := 0 to |t.lines|
      invariant net == SumBy(t.lines[..i], Signed())
      invariant ok <==> forall j :: 0 <= j < i ==> t.lines[j].amount > 0
    {
      assert t.lines[..i + 1][..i] == t.lines[..i];
      ok := ok && t.lines[i].amount > 0;
      net := net + if t.lines[i].direction == Credit then t.lines[i].amount else -t.lines[i].amount;
    }
    assert t.lines[..|t.lines|] == t.lines;
    ok := ok && net == 0;
  }

  class Repo {
    var transactions: Book

    constructor ()
      ensures transactions == map[]
    {
      transactions := map[];
    }

    /**
     * One database transaction: either every new key of the batch is posted, or nothing is.
     * `up` says whether the database stays reachable up to the commit.
     */
    method WriteBatch(txns: seq<Transaction>, up: bool) returns (r: Result<nat, WriteError>)
      modifies this
      ensures r.Ok? ==> transactions == Post(old(transactions), txns)
                        && r.value == |transactions| - |old(transactions)|
      ensures r.Err? ==> transactions == old(transactions)
      ensures r.Ok? <==> up && SoundBeyond(old(transactions), Post(old(transactions), txns))
      ensures r == Err(ConstraintViolated) <==> !SoundBeyond(old(transactions), Post(old(transactions), txns))
    {
      var tx, written := transactions, 0;
      for i := 0 to |txns|
        invariant transactions == old(transactions)
        invariant tx == Post(transactions, txns[..i])
        invariant written == |tx| - |transactions|
        invariant forall k :: k in transactions ==> k in tx
        invariant SoundBeyond(transactions, tx)
      {
        assert txns[..i + 1][..i] == txns[..i];
        var t := txns[i];
        if t.key in tx {
          continue;
        }
        var ok := CheckLines(t);
        if !ok {
          PostKeeps(transactions, txns, i + 1, t.key);
          return Err(ConstraintViolated);
        }
        tx := tx[t.key := t];
        written := written + 1;
      }
      assert txns[..|txns|] == txns;
      if !up {
        return Err(DatabaseDown);
      }
      transactions := tx;
      r := Ok(written);
    }
  }

  /** Once posted, a row stays as it is. */
  lemma {:induction false} PostKeeps(book: Book, txns: seq<Transaction>, i: nat, k: string)
    requires i <= |txns| && k in Post(book, txns[..i])
    ensures k in Post(book, txns) && Post(book, txns)[k] == Post(book, txns[..i])[k]
    decreases |txns|
  {
    if i < |txns| {
      assert txns[..|txns| - 1][..i] == txns[..i];
      PostKeeps(book, txns[..|txns| - 1], i, k);
    } else {
      assert txns[..i] == txns;
    }
  }
}
