/** What the ledger holds after any delivery history, and how its balances follow from the events. */
module LedgerLaws {
  import opened Base
  import opened Payout
  import opened Events
  import opened Ledger

  // ---------- convergence ----------

  /** One WriteBatch call: the batch it was given, and whether it committed or rolled back. */
  datatype Attempt = Attempt(batch: seq<Transaction>, committed: bool)

  function After(history: seq<Attempt>): Book
  {
    if history == [] then map[] else
    var book, last := After(history[..|history| - 1]), history[|history| - 1];
    if last.committed then Post(book, last.batch) else book
  }

  /** The key was in some batch that committed. */
  ghost predicate Delivered(history: seq<Attempt>, k: string)
  {
    exists i, j ::
      && 0 <= i < |history| && history[i].committed && 0 <= j < |history[i].batch|
      && history[i].batch[j].key == k
  }

  /** All deliveries of a key carry the transaction `source` has for it. */
  ghost predicate From(txns: seq<Transaction>, source: Book)
  {
    forall t :: t in txns ==> t.key in source && source[t.key] == t
  }

  ghost predicate Within(book: Book, source: Book)
  {
    forall k :: k in book ==> k in source && source[k] == book[k]
  }

  lemma {:induction false} PostAdds(book: Book, txns: seq<Transaction>, source: Book)
    requires Within(book, source) && From(txns, source)
    ensures Within(Post(book, txns), source)
    ensures forall k :: k in Post(book, txns) <==> k in book || exists j :: 0 <= j < |txns| && txns[j].key == k
  {
    if txns != [] {
      var n := |txns| - 1;
      PostAdds(book, txns[..n], source);
      assert txns[n] in txns;
      forall k ensures k in Post(book, txns) <==> k in book || exists j :: 0 <= j < |txns| && txns[j].key == k {
        if j :| 0 <= j < |txns| && txns[j].key == k {
          if j < n { assert txns[..n][j].key == k; }
        }
        if j :| 0 <= j < n && txns[..n][j].key == k { assert txns[j].key == k; }
      }
    }
  }

  lemma {:induction false} Convergence(history: seq<Attempt>, source: Book)
    requires forall i :: 0 <= i < |history| ==> From(history[i].batch, source)
    ensures Within(After(history), source)
    ensures forall k :: k in After(history) <==> Delivered(history, k)
  {
    if history != [] {
      var n := |history| - 1;
      var h := history[..n];
      Convergence(h, source);
      PostAdds(After(h), history[n].batch, source);
      forall k ensures k in After(history) <==> Delivered(history, k) {
        if i, j :|
          && 0 <= i < |history| && history[i].committed && 0 <= j < |history[i].batch|
          && history[i].batch[j].key == k
        {
          if i < n { assert h[i].committed && h[i].batch[j].key == k; }
        }
        if i, j :| 0 <= i < |h| && h[i].committed && 0 <= j < |h[i].batch| && h[i].batch[j].key == k {
          assert history[i].committed && history[i].batch[j].key == k;
        }
      }
    }
  }

  /**
   * However the messages are reordered, repeated, rebatched or rolled back and retried: once
   * every key has been delivered, the ledger is one application of each distinct transaction.
   */
  lemma {:induction false} LedgerConverges(history: seq<Attempt>, source: Book)
    requires forall i :: 0 <= i < |history| ==> From(history[i].batch, source)
    ensures (forall k :: k in source ==> Delivered(history, k)) <==> After(history) == source
  {
    Convergence(history, source);
  }

  // ---------- the books balance ----------

  function For(a: Account): Line -> int
  {
    (l: Line) => if l.account == a then Sign(l) else 0
  }

  ghost function LineSumsOf(book: Book, a: Account): map<string, int>
  {
    map k | k in book :: SumBy(book[k].lines, For(a))
  }

  ghost function AccountBalance(book: Book): Account -> int
  {
    (a: Account) => MapSum(LineSumsOf(book, a))
  }

  ghost function LineSums(lines: seq<Line>): Account -> int
  {
    (a: Account) => SumBy(lines, For(a))
  }

  function OneLine(l: Line): Account -> int
  {
    (a: Account) => if l.account == a then Sign(l) else 0
  }

  ghost predicate Covers(accounts: seq<Account>, book: Book)
  {
    && (forall i, j :: 0 <= i < j < |accounts| ==> accounts[i] != accounts[j])
    && (forall k, l :: k in book && l in book[k].lines ==> l.account in accounts)
  }

  lemma {:induction false} OneLineOnce(accounts: seq<Account>, l: Line)
    requires forall i, j :: 0 <= i < j < |accounts| ==> accounts[i] != accounts[j]
    ensures SumBy(accounts, OneLine(l)) == if l.account in accounts then Sign(l) else 0
  {
    if accounts != [] { OneLineOnce(accounts[..|accounts| - 1], l); }
  }

  lemma {:induction false} SumOfZeros<T>(s: seq<T>, f: T -> int)
    requires forall x :: x in s ==> f(x) == 0
    ensures SumBy(s, f) == 0
  {
    if s != [] { SumOfZeros(s[..|s| - 1], f); }
  }

  /** Adding a transaction's lines up by account gives its debits and credits netted. */
  lemma {:induction false} LinesByAccount(accounts: seq<Account>, lines: seq<Line>)
    requires forall i, j :: 0 <= i < j < |accounts| ==> accounts[i] != accounts[j]
    requires forall l :: l in lines ==> l.account in accounts
    ensures SumBy(accounts, LineSums(lines)) == SumBy(lines, Signed())
  {
    if lines == [] {
      SumOfZeros(accounts, LineSums(lines));
    } else {
      var n := |lines| - 1;
      LinesByAccount(accounts, lines[..n]);
      assert lines[n] in lines;
      OneLineOnce(accounts, lines[n]);
      SumByAdd(accounts, LineSums(lines[..n]), OneLine(lines[n]), LineSums(lines));
    }
  }

  lemma TakeOutOne(book: Book, k: string, a: Account)
    requires k in book
    ensures AccountBalance(book)(a) == LineSums(book[k].lines)(a) + AccountBalance(book - {k})(a)
  {
    MapSumRemove(LineSumsOf(book, a), k);
    assert LineSumsOf(book, a) - {k} == LineSumsOf(book - {k}, a);
  }

  /** The balances of all accounts always add up to nothing. */
  lemma {:induction false} LedgerSumsToZero(book: Book, accounts: seq<Account>)
    requires AllSound(book) && Covers(accounts, book)
    ensures SumBy(accounts, AccountBalance(book)) == 0
    decreases |book.Keys|
  {
    if book == map[] {
      forall a ensures AccountBalance(book)(a) == 0 {
        assert LineSumsOf(book, a) == map[];
      }
      SumOfZeros(accounts, AccountBalance(book));
    } else {
      var k :| k in book;
      var rest := book - {k};
      assert rest.Keys == book.Keys - {k};
      LedgerSumsToZero(rest, accounts);
      LinesByAccount(accounts, book[k].lines);
      forall a { TakeOutOne(book, k, a); }
      SumByAdd(accounts, LineSums(book[k].lines), AccountBalance(rest), AccountBalance(book));
    }
  }

  // ---------- balances as sums of event effects ----------

  /** WalletBalancesForRoom, PoolBalance and DustForRoom, one balance at a time. */
  ghost function Balance(book: Book, v: View): int
  {
    MapSum(Parts(book, v))
  }

  ghost function Parts(book: Book, v: View): map<string, int>
  {
    map k | k in book :: Part(book[k], v)
  }

  function EffectOn(v: View): Event -> int { (ev: Event) => Effect(ev, v) }

  ghost function Outstanding(book: Book, v: View): Event -> int
  {
    (ev: Event) => if ev.key in book then 0 else Effect(ev, v)
  }

  /** Every row was posted from the event `origin` names for its key. */
  ghost predicate PostedFrom(book: Book, evs: seq<Event>, origin: map<string, nat>)
  {
    && origin.Keys == book.Keys
    && forall k :: k in book ==> origin[k] < |evs| && evs[origin[k]].key == k && Valid(evs[origin[k]])
                                 && TransactionFor(evs[origin[k]]) == Ok(book[k])
  }

  ghost predicate DistinctEventKeys(evs: seq<Event>)
  {
    forall i, j :: 0 <= i < j < |evs| ==> evs[i].key != evs[j].key
  }

  predicate IsOrigin(evs: seq<Event>, origin: map<string, nat>, i: nat)
    requires i < |evs|
  {
    evs[i].key in origin && origin[evs[i].key] == i
  }

  /** Effects of the first `n` events that are not the origin of a row. */
  ghost function Missed(evs: seq<Event>, origin: map<string, nat>, v: View, n: nat): int
    requires n <= |evs|
  {
    if n == 0 then 0
    else Missed(evs, origin, v, n - 1) + if IsOrigin(evs, origin, n - 1) then 0 else Effect(evs[n - 1], v)
  }

  ghost function PostedUpTo(book: Book, origin: map<string, nat>, v: View, n: nat): map<string, int>
    requires origin.Keys == book.Keys
  {
    map k | k in book && origin[k] < n :: Part(book[k], v)
  }

  lemma PostedStep(book: Book, evs: seq<Event>, origin: map<string, nat>, v: View, n: nat)
    requires PostedFrom(book, evs, origin) && 0 < n <= |evs|
    ensures MapSum(PostedUpTo(book, origin, v, n)) ==
              MapSum(PostedUpTo(book, origin, v, n - 1))
              + if IsOrigin(evs, origin, n - 1) then Effect(evs[n - 1], v) else 0
  {
    var ev := evs[n - 1];
    var before, now := PostedUpTo(book, origin, v, n - 1), PostedUpTo(book, origin, v, n);
    assert forall k :: k in book ==> evs[origin[k]].key == k;
    if IsOrigin(evs, origin, n - 1) {
      TransactionsMirrorEvents(ev, v);
      assert now == before[ev.key := Part(book[ev.key], v)];
      MapSumSet(before, ev.key, Part(book[ev.key], v));
    } else {
      assert now == before;
    }
  }

  lemma {:induction false} BalancePlusMissed(book: Book, evs: seq<Event>, origin: map<string, nat>, v: View, n: nat)
    requires PostedFrom(book, evs, origin) && n <= |evs|
    ensures MapSum(PostedUpTo(book, origin, v, n)) + Missed(evs, origin, v, n) == SumBy(evs[..n], EffectOn(v))
  {
    if n == 0 {
      assert PostedUpTo(book, origin, v, 0) == map[];
    } else {
      BalancePlusMissed(book, evs, origin, v, n - 1);
      assert evs[..n][..n - 1] == evs[..n - 1];
      PostedStep(book, evs, origin, v, n);
    }
  }

  /** A ledger balance is the sum of all event effects but those that were not posted. */
  lemma BalanceIsTotalLessMissed(book: Book, evs: seq<Event>, origin: map<string, nat>, v: View)
    requires PostedFrom(book, evs, origin)
    ensures Balance(book, v) + Missed(evs, origin, v, |evs|) == SumBy(evs, EffectOn(v))
  {
    BalancePlusMissed(book, evs, origin, v, |evs|);
    assert evs[..|evs|] == evs;
    assert PostedUpTo(book, origin, v, |evs|) == Parts(book, v);
  }

  lemma {:induction false} MissedIsOutstanding(book: Book, evs: seq<Event>, origin: map<string, nat>, v: View, n: nat)
    requires PostedFrom(book, evs, origin) && DistinctEventKeys(evs) && n <= |evs|
    ensures Missed(evs, origin, v, n) == SumBy(evs[..n], Outstanding(book, v))
  {
    if n > 0 {
      MissedIsOutstanding(book, evs, origin, v, n - 1);
      assert evs[..n][..n - 1] == evs[..n - 1];
      if evs[n - 1].key in book {
        assert evs[origin[evs[n - 1].key]].key == evs[n - 1].key;
      }
    }
  }

  /**
   * With distinct keys, the effects of all events are the ledger's balance plus the effects of
   * the events that are not in it yet.
   */
  lemma {:induction false} BalancePlusOutstanding(book: Book, evs: seq<Event>, origin: map<string, nat>, v: View)
    requires PostedFrom(book, evs, origin) && DistinctEventKeys(evs)
    ensures SumBy(evs, EffectOn(v)) == Balance(book, v) + SumBy(evs, Outstanding(book, v))
  {
    BalanceIsTotalLessMissed(book, evs, origin, v);
    MissedIsOutstanding(book, evs, origin, v, |evs|);
    assert evs[..|evs|] == evs;
  }
}
