/** Composite names: the fields of a round's wagers hash, and the grace-window key. */
module Keys {
  import opened Base
  import opened Text

  datatype FieldError = NoColon | BadOutcome

  function WagerField(user: string, outcome: int): string
  {
    user + ":" + Itoa(outcome)
  }

  /** strings.LastIndex for a single byte; -1 when it does not occur. */
  function LastIndex(s: string, c: char): (i: int)
    ensures -1 <= i < |s|
    ensures i >= 0 ==> s[i] == c
    ensures forall j :: i < j < |s| ==> s[j] != c
  {
    if s == "" then -1
    else if s[|s| - 1] == c then |s| - 1
    else LastIndex(s[..|s| - 1], c)
  }

  function ParseWagerField(field: string): Result<(string, int), FieldError>
  {
    var i := LastIndex(field, ':');
    if i < 0 then Err(NoColon) else
    match ParseInt(field[i + 1..])
    case None => Err(BadOutcome)
    case Some(outcome) => Ok((field[..i], outcome))
  }

  lemma {:induction false} LastIndexAfter(a: string, c: char, b: string)
    requires c !in b
    ensures LastIndex(a + [c] + b, c) == |a|
  {
    var s := a + [c] + b;
    assert s[|a|] == c;
    assert forall j :: |a| < j < |s| ==> s[j] == b[j - |a| - 1];
  }

  /** A field name parses back to the pair it was built from, colons in the user ID included. */
  lemma {:induction false} WagerFieldRoundTrip(user: string, outcome: int)
    requires MIN_INT64 <= outcome <= MAX_INT64
    ensures ParseWagerField(WagerField(user, outcome)) == Ok((user, outcome))
  {
    var f, text := WagerField(user, outcome), Itoa(outcome);
    FormattedHasNo(outcome, ':');
    LastIndexAfter(user, ':', text);
    assert f == user + [':'] + text;
    assert f[..|user|] == user && f[|user| + 1..] == text;
    ParseFormatted(outcome);
  }

  lemma {:induction false} WagerFieldInjective(u1: string, o1: int, u2: string, o2: int)
    requires MIN_INT64 <= o1 <= MAX_INT64 && MIN_INT64 <= o2 <= MAX_INT64
    requires WagerField(u1, o1) == WagerField(u2, o2)
    ensures u1 == u2 && o1 == o2
  {
    WagerFieldRoundTrip(u1, o1);
    WagerFieldRoundTrip(u2, o2);
  }

  function SessionKey(room: string, user: string): string
  {
    room + ['\0'] + user
  }

  /**
   * Two pairs share a session key exactly when one room name continues the other with the
   * separator inside it; so names without the separator never collide.
   */
  lemma SessionKeyCollides(r1: string, u1: string, r2: string, u2: string)
    requires |r1| <= |r2|
    ensures SessionKey(r1, u1) == SessionKey(r2, u2) <==>
            (r1 == r2 && u1 == u2) || (exists x :: r2 == r1 + ['\0'] + x && u1 == x + ['\0'] + u2)
  {
    var k1, k2 := SessionKey(r1, u1), SessionKey(r2, u2);
    if k1 == k2 {
      assert r1 == k1[..|r1|] && r2 == k2[..|r2|];
      assert u1 == k1[|r1| + 1..] && u2 == k2[|r2| + 1..];
      if |r1| < |r2| {
        var x := r2[|r1| + 1..];
        assert r2[|r1|] == k1[|r1|] == '\0';
        assert r2 == r1 + ['\0'] + x;
        assert u1 == x + ['\0'] + u2;
      }
    }
    if x :| r2 == r1 + ['\0'] + x && u1 == x + ['\0'] + u2 {
      assert k1 == r1 + ['\0'] + x + ['\0'] + u2 == k2;
    }
  }

  lemma SessionKeyInjective(r1: string, u1: string, r2: string, u2: string)
    requires '\0' !in r1 && '\0' !in r2
    requires SessionKey(r1, u1) == SessionKey(r2, u2)
    ensures r1 == r2 && u1 == u2
  {
    var k1, k2 := SessionKey(r1, u1), SessionKey(r2, u2);
    assert k1[|r1|] == '\0' && k2[|r2|] == '\0';
    assert forall j :: 0 <= j < |r1| ==> k1[j] == r1[j];
    assert forall j :: 0 <= j < |r2| ==> k2[j] == r2[j];
    assert r1 == k1[..|r1|] && r2 == k2[..|r2|];
    assert u1 == k1[|r1| + 1..] && u2 == k2[|r2| + 1..];
  }
}
