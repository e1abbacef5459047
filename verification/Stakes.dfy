/** Reading a round's wagers hash into an ordered list of stakes, and summing it per user. */
module Stakes {
  import opened Base
  import opened Text
  import opened Keys
  import opened Payout
  import opened PayoutLaws

  /** A round's wagers: tokens per user and outcome. */
  type Wagers = map<(string, int), int>

  function Key(s: Stake): (string, int) { (s.user, s.outcome) }

  /** The order stakes are read in: by user, then by outcome. */
  predicate StakeLess(a: Stake, b: Stake)
  {
    if a.user != b.user then Less(a.user, b.user) else a.outcome < b.outcome
  }

  predicate Ascending(stakes: seq<Stake>)
  {
    forall i, j :: 0 <= i < j < |stakes| ==> StakeLess(stakes[i], stakes[j])
  }

  /** `stakes` is the ordered listing of `w`: every wager once, nothing else. */
  ghost predicate Lists(stakes: seq<Stake>, w: Wagers)
  {
    && Ascending(stakes)
    && (forall s :: s in stakes <==> Key(s) in w && w[Key(s)] == s.amount)
  }

  lemma StakeLessTransitive(a: Stake, b: Stake, c: Stake)
    requires StakeLess(a, b) && StakeLess(b, c)
    ensures StakeLess(a, c)
  {
    if a.user != b.user && b.user != c.user {
      LessTransitive(a.user, b.user, c.user);
      LessIrreflexive(a.user);
      if a.user == c.user { LessTransitive(a.user, b.user, a.user); }
    }
  }

  lemma StakeLessAsymmetric(a: Stake, b: Stake)
    ensures !(StakeLess(a, b) && StakeLess(b, a))
  {
    LessIrreflexive(a.user);
    if Less(a.user, b.user) && Less(b.user, a.user) {
      LessTransitive(a.user, b.user, a.user);
    }
  }

  lemma StakeLessTotal(a: Stake, b: Stake)
    ensures Key(a) == Key(b) || StakeLess(a, b) || StakeLess(b, a)
  {
    LessTotal(a.user, b.user);
  }

  lemma LastIsGreatest(a: seq<Stake>, b: seq<Stake>)
    requires a != [] && b != [] && Ascending(a) && Ascending(b)
    requires forall s :: s in a <==> s in b
    ensures a[|a| - 1] == b[|b| - 1]
  {
    var x, y := a[|a| - 1], b[|b| - 1];
    assert x in b && y in a;
    StakeLessAsymmetric(x, y);
  }

  lemma SameEmptiness(a: seq<Stake>, b: seq<Stake>)
    requires forall s :: s in a <==> s in b
    ensures a == [] <==> b == []
  {
    if a != [] { assert a[0] in b; }
    if b != [] { assert b[0] in a; }
  }

  lemma FrontOf(a: seq<Stake>, front: seq<Stake>, x: Stake)
    requires Ascending(a) && a == front + [x]
    ensures Ascending(front)
    ensures forall s :: s in front <==> s in a && s != x
  {
    assert forall i :: 0 <= i < |front| ==> front[i] == a[i];
    forall i | 0 <= i < |front| ensures front[i] != x {
      StakeLessAsymmetric(x, x);
      assert StakeLess(a[i], a[|front|]);
    }
  }

  lemma {:induction false} AscendingIsUnique(a: seq<Stake>, b: seq<Stake>)
    requires Ascending(a) && Ascending(b) && forall s :: s in a <==> s in b
    ensures a == b
  {
    SameEmptiness(a, b);
    if a != [] {
      LastIsGreatest(a, b);
      var x, a', b' := a[|a| - 1], a[..|a| - 1], b[..|b| - 1];
      FrontOf(a, a', x);
      FrontOf(b, b', x);
      AscendingIsUnique(a', b');
    }
  }

  /** A wagers hash has exactly one listing. */
  lemma ListingIsUnique(a: seq<Stake>, b: seq<Stake>, w: Wagers)
    requires Lists(a, w) && Lists(b, w)
    ensures a == b
  {
    AscendingIsUnique(a, b);
  }

  // ---------- sorting ----------

  function Insert(stakes: seq<Stake>, s: Stake): seq<Stake>
  {
    if stakes == [] then [s]
    else if StakeLess(s, stakes[|stakes| - 1])
    then Insert(stakes[..|stakes| - 1], s) + [stakes[|stakes| - 1]]
    else stakes + [s]
  }

  function Sort(stakes: seq<Stake>): seq<Stake>
  {
    if stakes == [] then [] else Insert(Sort(stakes[..|stakes| - 1]), stakes[|stakes| - 1])
  }

  lemma {:induction false} InsertKeeps(stakes: seq<Stake>, s: Stake)
    requires Ascending(stakes) && forall t :: t in stakes ==> Key(t) != Key(s)
    ensures forall t :: t in Insert(stakes, s) <==> t == s || t in stakes
    ensures Ascending(Insert(stakes, s))
  {
    if stakes != [] {
      var n := |stakes| - 1;
      var last := stakes[n];
      assert stakes == stakes[..n] + [last];
      assert last in stakes;
      if StakeLess(s, last) {
        InsertKeeps(stakes[..n], s);
        var r := Insert(stakes[..n], s);
        forall i | 0 <= i < |r| ensures StakeLess(r[i], last) {
          assert r[i] in r;
        }
      } else {
        StakeLessTotal(s, last);
        forall i | 0 <= i < n ensures StakeLess(stakes[i], s) {
          StakeLessTransitive(stakes[i], last, s);
        }
      }
    }
  }

  ghost predicate DistinctKeys(stakes: seq<Stake>)
  {
    forall i, j :: 0 <= i < j < |stakes| ==> Key(stakes[i]) != Key(stakes[j])
  }

  lemma {:induction false} SortKeeps(stakes: seq<Stake>)
    requires DistinctKeys(stakes)
    ensures forall t :: t in Sort(stakes) <==> t in stakes
    ensures Ascending(Sort(stakes))
  {
    if stakes != [] {
      var n := |stakes| - 1;
      SortKeeps(stakes[..n]);
      assert stakes == stakes[..n] + [stakes[n]];
      InsertKeeps(Sort(stakes[..n]), stakes[n]);
    }
  }

  // ---------- ReadStakes ----------

  datatype ReadError = MalformedField(field: string) | MalformedAmount(field: string)

  function StakeOf(field: string, text: string): Result<Stake, ReadError>
  {
    match ParseWagerField(field)
    case Err(_) => Err(MalformedField(field))
    case Ok((user, outcome)) =>
      match ParseInt(text)
      case None => Err(MalformedAmount(field))
      case Some(amount) => Ok(Stake(user, outcome, amount))
  }

  /** `order` is one of the orders HGETALL may return the hash in. */
  ghost predicate Enumerates(order: seq<string>, hash: map<string, string>)
  {
    && (forall i, j :: 0 <= i < j < |order| ==> order[i] != order[j])
    && (forall f :: f in order <==> f in hash)
  }

  function FieldOf(): ((string, int)) -> string
  {
    (k: (string, int)) => WagerField(k.0, k.1)
  }

  /** `hash` holds `w` under the field names that `field` gives. */
  ghost predicate HoldsUnder<K(!new)>(hash: map<string, string>, w: map<K, int>, field: K -> string)
  {
    && (forall j :: j in w ==> field(j) in hash && hash[field(j)] == Itoa(w[j]))
    && (forall f :: f in hash ==> HasName(w, field, f))
  }

  ghost predicate HasName<K(!new)>(w: map<K, int>, field: K -> string, f: string)
  {
    exists j :: j in w && f == field(j)
  }

  /** The Redis hash that the wagers are kept in. */
  ghost predicate Holds(hash: map<string, string>, w: Wagers)
  {
    && (forall k :: k in w ==> FitsField(k) && MIN_INT64 <= w[k] <= MAX_INT64)
    && HoldsUnder(hash, w, FieldOf())
  }

  predicate FitsField(k: (string, int)) { MIN_INT64 <= k.1 <= MAX_INT64 }

  lemma ReadsOneMore(hash: map<string, string>, order: seq<string>, i: nat, stakes: seq<Stake>, s: Stake)
    requires i < |order| && Reads(hash, order[..i], stakes)
    requires order[i] in hash && StakeOf(order[i], hash[order[i]]) == Ok(s)
    ensures Reads(hash, order[..i + 1], stakes + [s])
  {
    assert order[..i + 1] == order[..i] + [order[i]];
  }

  method ReadFields(hash: map<string, string>, order: seq<string>) returns (r: Result<seq<Stake>, ReadError>)
    requires Enumerates(order, hash)
    ensures r.Err? ==> exists f :: f in hash && StakeOf(f, hash[f]) == Err(r.error)
    ensures r.Ok? ==> Reads(hash, order, r.value)
  {
    var stakes: seq<Stake> := [];
    for i := 0 to |order|
      invariant Reads(hash, order[..i], stakes)
    {
      assert order[i] in order;
      var s := StakeOf(order[i], hash[order[i]]);
      if s.Err? {
        return Err(s.error);
      }
      ReadsOneMore(hash, order, i, stakes, s.value);
      stakes := stakes + [s.value];
    }
    assert order[..|order|] == order;
    r := Ok(stakes);
  }

  method ReadStakes(hash: map<string, string>, order: seq<string>)
    returns (r: Result<seq<Stake>, ReadError>, ghost read: seq<Stake>)
    requires Enumerates(order, hash)
    ensures r.Err? ==> exists f :: f in hash && StakeOf(f, hash[f]) == Err(r.error)
    ensures r.Ok? ==> Reads(hash, order, read) && r.value == Sort(read)
  {
    r := ReadFields(hash, order);
    read := [];
    if r.Ok? {
      read := r.value;
      r := Ok(Sort(r.value));
    }
  }

  ghost predicate Reads(hash: map<string, string>, order: seq<string>, stakes: seq<Stake>)
  {
    |stakes| == |order| &&
    forall i :: 0 <= i < |order| ==> order[i] in hash && StakeOf(order[i], hash[order[i]]) == Ok(stakes[i])
  }

  lemma FieldReads(hash: map<string, string>, w: Wagers, k: (string, int))
    requires Holds(hash, w) && k in w
    ensures StakeOf(WagerField(k.0, k.1), hash[WagerField(k.0, k.1)]) == Ok(Stake(k.0, k.1, w[k]))
  {
    WagerFieldRoundTrip(k.0, k.1);
    ParseFormatted(w[k]);
  }

  /** Whatever order the hash comes in, reading and sorting gives the listing of its wagers. */
  lemma AnyOrderLists(hash: map<string, string>, w: Wagers, order: seq<string>, read: seq<Stake>)
    requires Holds(hash, w) && Enumerates(order, hash) && Reads(hash, order, read)
    ensures Lists(Sort(read), w)
  {
    forall i | 0 <= i < |order| ensures Key(read[i]) in w && w[Key(read[i])] == read[i].amount
                                     && order[i] == WagerField(read[i].user, read[i].outcome)
    {
      assert order[i] in order;
      var k :| k in w && order[i] == WagerField(k.0, k.1);
      FieldReads(hash, w, k);
    }
    SortKeeps(read);
    forall s | Key(s) in w && w[Key(s)] == s.amount ensures s in read {
      FieldReads(hash, w, Key(s));
      assert WagerField(s.user, s.outcome) in order;
    }
  }

  lemma {:induction false} SetHoldsUnder<K(!new)>(hash: map<string, string>, w: map<K, int>, field: K -> string, k: K,
                                                  v: int)
    requires HoldsUnder(hash, w, field) && forall j :: j in w && field(j) == field(k) ==> j == k
    ensures HoldsUnder(hash[field(k) := Itoa(v)], w[k := v], field)
    ensures (field(k) in hash <==> k in w) && (k in w ==> hash[field(k)] == Itoa(w[k]))
  {
  }

  lemma {:induction false} FieldsDiffer(w: Wagers, k: (string, int))
    requires FitsField(k) && forall j :: j in w ==> FitsField(j)
    ensures forall j :: j in w && FieldOf()(j) == FieldOf()(k) ==> j == k
  {
    forall j | j in w && FieldOf()(j) == FieldOf()(k) ensures j == k {
      OneFieldEach(j, k);
    }
  }

  lemma {:induction false} OneFieldEach(j: (string, int), k: (string, int))
    requires FitsField(j) && FitsField(k) && FieldOf()(j) == FieldOf()(k)
    ensures j == k
  {
    WagerFieldInjective(j.0, j.1, k.0, k.1);
  }

  /**
   * HINCRBY on a wager's text field keeps the hash in step with the wagers it stands for: the
   * field is there exactly when the wager is, holds its amount, and holds the sum afterwards.
   */
  lemma {:induction false} HashKeepsInStep(hash: map<string, string>, w: Wagers, user: string, outcome: int,
                                           amount: int)
    requires Holds(hash, w) && MIN_INT64 <= outcome <= MAX_INT64
    requires MIN_INT64 <= Get(w, (user, outcome)) + amount <= MAX_INT64
    ensures (WagerField(user, outcome) in hash <==> (user, outcome) in w)
    ensures (user, outcome) in w ==> hash[WagerField(user, outcome)] == Itoa(w[(user, outcome)])
    ensures Holds(hash[WagerField(user, outcome) := Itoa(Get(w, (user, outcome)) + amount)],
                  Bump(w, (user, outcome), amount))
  {
    var k := (user, outcome);
    FieldsDiffer(w, k);
    SetHoldsUnder(hash, w, FieldOf(), k, Get(w, k) + amount);
    assert FieldOf()(k) == WagerField(user, outcome);
  }

  lemma HeldWagersRead(hash: map<string, string>, w: Wagers)
    requires Holds(hash, w)
    ensures forall f :: f in hash ==> StakeOf(f, hash[f]).Ok?
  {
    forall f | f in hash ensures StakeOf(f, hash[f]).Ok? {
      var k :| k in w && f == WagerField(k.0, k.1);
      FieldReads(hash, w, k);
    }
  }

  /** ReadStakes on a hash holding `w` cannot fail, and its answer is the one listing of `w`. */
  method ReadHeld(hash: map<string, string>, order: seq<string>, ghost w: Wagers) returns (stakes: seq<Stake>)
    requires Holds(hash, w) && Enumerates(order, hash)
    ensures Lists(stakes, w)
  {
    var r;
    ghost var read;
    r, read := ReadStakes(hash, order);
    HeldWagersRead(hash, w);
    AnyOrderLists(hash, w, order, read);
    stakes := r.value;
  }

  // ---------- sums over a listing ----------

  function Weigh(w: Wagers, f: Stake -> int): Wagers
  {
    map k | k in w :: f(Stake(k.0, k.1, w[k]))
  }

  lemma ListingOfSome(stakes: seq<Stake>, w: Wagers)
    requires Lists(stakes, w)
    ensures w != map[] ==> stakes != []
  {
    if k :| k in w {
      assert Stake(k.0, k.1, w[k]) in stakes;
    }
  }

  lemma {:induction false} ListingSum(stakes: seq<Stake>, w: Wagers, f: Stake -> int)
    requires Lists(stakes, w)
    ensures SumBy(stakes, f) == MapSum(Weigh(w, f))
  {
    if stakes == [] {
      ListingOfSome(stakes, w);
      assert Weigh(w, f) == map[];
    } else {
      var n := |stakes| - 1;
      var s := stakes[n];
      var w' := w - {Key(s)};
      assert s in stakes;
      ListingDropLast(stakes, w);
      ListingSum(stakes[..n], w', f);
      MapSumRemove(Weigh(w, f), Key(s));
      assert Weigh(w, f) - {Key(s)} == Weigh(w', f);
      assert Stake(s.user, s.outcome, w[Key(s)]) == s;
    }
  }

  lemma ListingDropLast(stakes: seq<Stake>, w: Wagers)
    requires Lists(stakes, w) && stakes != []
    ensures Lists(stakes[..|stakes| - 1], w - {Key(stakes[|stakes| - 1])})
  {
    var n := |stakes| - 1;
    var s := stakes[n];
    assert stakes == stakes[..n] + [s];
    assert s in stakes;
    forall t | t in stakes[..n] ensures Key(t) != Key(s) {
      StakeLessAsymmetric(t, s);
      assert StakeLess(t, s);
      LessIrreflexive(t.user);
    }
  }

  lemma ListingTotal(stakes: seq<Stake>, w: Wagers)
    requires Lists(stakes, w)
    ensures Total(stakes) == MapSum(w)
  {
    ListingSum(stakes, w, Amount());
    assert Weigh(w, Amount()) == w;
  }

  // ---------- aggregateStakes ----------

  /** One payment per staker, in the order they first appear. */
  function Aggregate(stakes: seq<Stake>): seq<Payment>
  {
    var us := Players(stakes);
    seq(|us|, i requires 0 <= i < |us| => Payment(us[i], SumBy(stakes, By(us[i]))))
  }

  /** The same payments as a 64-bit machine adds them up. */
  function Narrow(payouts: seq<Payment>): seq<Payment>
  {
    seq(|payouts|, i requires 0 <= i < |payouts| => Payment(payouts[i].user, Wrap(payouts[i].amount)))
  }

  ghost predicate Aggregates(payouts: seq<Payment>, users: seq<string>, stakes: seq<Stake>)
  {
    |payouts| == |users| &&
    forall j :: 0 <= j < |users| ==> payouts[j] == Payment(users[j], SumBy(stakes, By(users[j])))
  }

  ghost predicate NarrowAggregates(payouts: seq<Payment>, users: seq<string>, stakes: seq<Stake>)
  {
    |payouts| == |users| &&
    forall j :: 0 <= j < |users| ==> payouts[j] == Payment(users[j], Wrap(SumBy(stakes, By(users[j]))))
  }

  function AddTo(payouts: seq<Payment>, j: nat, amount: int): seq<Payment>
    requires j < |payouts|
  {
    payouts[j := payouts[j].(amount := Wrap(payouts[j].amount + amount))]
  }

  lemma AddStake(payouts: seq<Payment>, users: seq<string>, before: seq<Stake>, s: Stake, j: nat)
    requires NarrowAggregates(payouts, users, before) && At(users, j, s.user)
    ensures NarrowAggregates(AddTo(payouts, j, s.amount), users, before + [s])
  {
    WrapSum(SumBy(before, By(s.user)), s.amount);
    forall k | 0 <= k < |users| { SumBySnoc(before, s, By(users[k])); }
  }

  lemma NewSlot(payouts: seq<Payment>, before: seq<Stake>, u: string)
    requires NarrowAggregates(payouts, Players(before), before) && u !in Players(before)
    ensures NarrowAggregates(payouts + [Payment(u, 0)], Players(before) + [u], before)
  {
    NotAStaker(before, u);
  }

  /** Add one stake to its user's payment, opening one for a user not seen before. */
  method AddOne(index: map<string, nat>, payouts: seq<Payment>, ghost before: seq<Stake>, s: Stake)
    returns (index': map<string, nat>, payouts': seq<Payment>)
    requires Indexes(index, Players(before)) && NarrowAggregates(payouts, Players(before), before)
    ensures Indexes(index', Players(before + [s])) && NarrowAggregates(payouts', Players(before + [s]), before + [s])
  {
    IndexStep(index, before, s);
    index', payouts' := index, payouts;
    if s.user !in index {
      NewSlot(payouts, before, s.user);
      index' := index[s.user := |payouts|];
      payouts' := payouts + [Payment(s.user, 0)];
    }
    var j := index'[s.user];
    AddStake(payouts', Players(before + [s]), before, s, j);
    payouts' := AddTo(payouts', j, s.amount);
  }

  method AggregateStakes(stakes: seq<Stake>) returns (payouts: seq<Payment>, total: int)
    ensures payouts == Narrow(Aggregate(stakes)) && total == Wrap(Total(stakes))
  {
    var index: map<string, nat> := map[];
    payouts, total := [], 0;
    for i := 0 to |stakes|
      invariant Indexes(index, Players(stakes[..i]))
      invariant NarrowAggregates(payouts, Players(stakes[..i]), stakes[..i])
      invariant total == Wrap(Total(stakes[..i]))
    {
      assert stakes[..i + 1] == stakes[..i] + [stakes[i]];
      index, payouts := AddOne(index, payouts, stakes[..i], stakes[i]);
      total := Wrap(total + stakes[i].amount);
    }
    assert stakes[..|stakes|] == stakes;
  }

  /** As long as the total fits the machine, so does everything the refund adds up. */
  lemma SmallRefundsAreExact(stakes: seq<Stake>, count: int)
    requires ValidStakes(stakes, count) && Total(stakes) <= MAX_INT64
    ensures Narrow(Aggregate(stakes)) == Aggregate(stakes) && Wrap(Total(stakes)) == Total(stakes)
  {
    forall u ensures 0 <= SumBy(stakes, By(u)) <= Total(stakes) {
      StakersStaked(stakes, count, u);
      SumByMonotone(stakes, By(u), Amount());
    }
    assert SumBy(stakes, By("")) >= 0;
  }

  lemma {:induction false} SinglePayment(payouts: seq<Payment>, users: seq<string>, stakes: seq<Stake>, u: string)
    requires Aggregates(payouts, users, stakes) && Distinct(users)
    ensures SumBy(payouts, PaidTo(u)) == if u in users then SumBy(stakes, By(u)) else 0
  {
    if payouts != [] {
      var n := |payouts| - 1;
      SinglePayment(payouts[..n], users[..n], stakes, u);
      assert users == users[..n] + [users[n]];
    }
  }

  /** Both refund paths give every user the same amount, and give back the whole total. */
  lemma RefundPathsAgree(stakes: seq<Stake>, u: string)
    ensures SumBy(Aggregate(stakes), PaidTo(u)) == SumBy(Refunds(stakes), PaidTo(u)) == SumBy(stakes, By(u))
    ensures SumBy(Aggregate(stakes), Paid()) == SumBy(Refunds(stakes), Paid()) == Total(stakes)
  {
    var us := Players(stakes);
    PlayersAreTheStakers(stakes);
    RefundsMatchStakes(stakes, u);
    forall v ensures Owed(Aggregate(stakes))(v) == Owed(Refunds(stakes))(v) == SumBy(stakes, By(v)) {
      SinglePayment(Aggregate(stakes), us, stakes, v);
      RefundsMatchStakes(stakes, v);
      if v !in us { NotAStaker(stakes, v); }
    }
    Regroup(us, Aggregate(stakes));
    RefundsAreForStakers(stakes);
    Regroup(us, Refunds(stakes));
    SumByMonotone(us, Owed(Aggregate(stakes)), Owed(Refunds(stakes)));
    SumByMonotone(us, Owed(Refunds(stakes)), Owed(Aggregate(stakes)));
  }

  /** Refund payments are positive, go to stakers, and come in ascending order of user. */
  lemma AggregateIsOrdered(stakes: seq<Stake>, count: int)
    requires ValidStakes(stakes, count)
    ensures var ps := Aggregate(stakes);
            && |ps| <= |stakes| && ForStakers(ps, stakes)
            && (forall p :: p in ps ==> p.amount > 0)
            && (Ascending(stakes) ==> forall i, j :: 0 <= i < j < |ps| ==> Less(ps[i].user, ps[j].user))
  {
    forall u | u in Players(stakes) ensures SumBy(stakes, By(u)) > 0 {
      StakersStaked(stakes, count, u);
    }
    if Ascending(stakes) {
      PlayersAscend(stakes);
    }
    FewerPlayers(stakes);
  }

  lemma {:induction false} FewerPlayers(stakes: seq<Stake>)
    ensures |Players(stakes)| <= |stakes|
  {
    if stakes != [] { FewerPlayers(stakes[..|stakes| - 1]); }
  }

  lemma {:induction false} StakersStaked(stakes: seq<Stake>, count: int, u: string)
    requires ValidStakes(stakes, count)
    ensures SumBy(stakes, By(u)) >= 0 && (u in Players(stakes) ==> SumBy(stakes, By(u)) > 0)
  {
    if stakes != [] { StakersStaked(stakes[..|stakes| - 1], count, u); }
  }

  lemma {:induction false} PlayersAscend(stakes: seq<Stake>)
    requires Ascending(stakes)
    ensures forall i, j :: 0 <= i < j < |Players(stakes)| ==> Less(Players(stakes)[i], Players(stakes)[j])
  {
    if stakes != [] {
      var rest, s := stakes[..|stakes| - 1], stakes[|stakes| - 1];
      PlayersAscend(rest);
      PlayersAreTheStakers(rest);
      if s.user !in Players(rest) {
        forall i | 0 <= i < |Players(rest)| ensures Less(Players(rest)[i], s.user) {
          assert Players(rest)[i] in Players(rest);
          var k :| 0 <= k < |rest| && rest[k].user == Players(rest)[i];
          assert StakeLess(stakes[k], s);
        }
      }
    }
  }
}
