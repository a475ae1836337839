/**
 Money: the two balance operations with their ledger rows, and the integer
 arithmetic of charges.
 */
module Billing {
  import opened Sums
  import opened Tables
  import opened Text

  // ---- Balance operations ----

  function AddTxn(db: Database, key: string, delta: int, reason: string, ref: string): Database {
    db.(txns := db.txns + [BillingTxn(key, delta, reason, ref)])
  }

  function AddToBalance(db: Database, key: string, delta: int): Database {
    if key !in db.apiKeys then db
    else
      var row := db.apiKeys[key];
      db.(apiKeys := db.apiKeys[key := row.(balanceMicros := row.balanceMicros + delta)])
  }

  /** TopupAPIKeyBalance: a ledger row is written whether or not the key exists. */
  function Topup(db: Database, key: string, delta: int, reason: string, ref: string): Database {
    if delta == 0 then db
    else AddTxn(AddToBalance(db, key, delta), key, delta, DefaultStr(reason, "topup"), ref)
  }

  predicate CanDeduct(db: Database, key: string, delta: int) {
    key in db.apiKeys && db.apiKeys[key].balanceMicros >= delta
  }

  /** DeductAPIKeyBalance: the conditional update and its ledger row, or nothing. */
  function Deduct(db: Database, key: string, delta: int, reason: string, ref: string): Database {
    if delta <= 0 || !CanDeduct(db, key, delta) then db
    else AddTxn(AddToBalance(db, key, -delta), key, -delta, DefaultStr(reason, "usage"), ref)
  }

  // ---- Conservation ----

  function DeltaOn(key: string): BillingTxn -> int {
    (t: BillingTxn) => if t.apiKey == key then t.deltaMicros else 0
  }

  /** The sum of a key's ledger rows. */
  function Ledger(db: Database, key: string): int {
    Sum(db.txns, DeltaOn(key))
  }

  /** What conservation keeps fixed: the balance a key had before its first ledger row. */
  function Opening(db: Database, key: string): int
    requires key in db.apiKeys
  {
    db.apiKeys[key].balanceMicros - Ledger(db, key)
  }

  /** A top-up of any amount keeps every existing key's opening balance, and with a positive amount its sign. */
  lemma TopupConserves(db: Database, key: string, delta: int, reason: string, ref: string, k: string)
    requires k in db.apiKeys
    ensures var after := Topup(db, key, delta, reason, ref);
            k in after.apiKeys && Opening(after, k) == Opening(db, k)
            && (delta >= 0 ==> after.apiKeys[k].balanceMicros >= db.apiKeys[k].balanceMicros)
  {
    SumSnoc(db.txns, BillingTxn(key, delta, DefaultStr(reason, "topup"), ref), DeltaOn(k));
  }

  /** A deduction keeps every key's opening balance and never takes a balance below zero. */
  lemma DeductConserves(db: Database, key: string, delta: int, reason: string, ref: string, k: string)
    requires k in db.apiKeys
    ensures var after := Deduct(db, key, delta, reason, ref);
            k in after.apiKeys && Opening(after, k) == Opening(db, k)
            && (db.apiKeys[k].balanceMicros >= 0 ==> after.apiKeys[k].balanceMicros >= 0)
  {
    SumSnoc(db.txns, BillingTxn(key, -delta, DefaultStr(reason, "usage"), ref), DeltaOn(k));
  }

  function DebitRow(t: BillingTxn): int { if t.deltaMicros < 0 then 1 else 0 }

  /** The number of ledger rows that take money. */
  function Debits(db: Database): int { Sum(db.txns, DebitRow) }

  // ---- Charges ----

  const MILLION: int := 1_000_000

  /** Go's integer division, towards zero. */
  function Quotient(a: int, b: int): int
    requires b > 0
  {
    if a >= 0 then a / b else -((-a) / b)
  }

  /** Micros for a number of tokens at a price per million. */
  function Charge(tokens: int, price: int): int {
    Quotient(tokens * price, MILLION)
  }

  /** A charge is positive exactly when the quotient is, and then is that quotient. */
  lemma PositiveCharge(tokens: int, price: int)
    ensures var cost := tokens * price / 1_000_000;
            (Charge(tokens, price) > 0 <==> cost > 0) && (cost > 0 ==> Charge(tokens, price) == cost)
  {
  }

  function Max(a: int, b: int): int { if a > b then a else b }

  lemma ChargeMonotone(small: int, large: int, price: int)
    requires 0 <= small <= large && price >= 0
    ensures 0 <= Charge(small, price) <= Charge(large, price)
  {
    assert 0 <= small * price <= large * price;
    QuotientMonotone(small * price, large * price);
  }

  lemma QuotientMonotone(a: int, b: int)
    requires 0 <= a <= b
    ensures 0 <= Quotient(a, MILLION) <= Quotient(b, MILLION)
  {
  }

  /** What is charged for max(estimate, reported) is never less than the estimate that was checked. */
  lemma ChargeCoversEstimate(estimate: int, reported: int, price: int)
    requires estimate >= 1 && price >= 0
    ensures Charge(Max(estimate, reported), price) >= Charge(estimate, price)
  {
    ChargeMonotone(estimate, Max(estimate, reported), price);
  }

  /** Micros lost to rounding over a sequence of charges at one price, in millionths. */
  function Lost(tokens: seq<int>, price: int): int {
    price * Sum(tokens, (t: int) => t) - MILLION * Sum(tokens, (t: int) => Charge(t, price))
  }

  /** Over any run, rounding never charges too much, and loses less than one micro for each request. */
  lemma {:induction false} RoundingIsBounded(tokens: seq<int>, price: int)
    requires price >= 0 && forall t :: t in tokens ==> t >= 0
    ensures 0 <= Lost(tokens, price)
    ensures tokens != [] ==> Lost(tokens, price) < MILLION * |tokens|
  {
    if tokens != [] {
      assert forall t :: t in tokens[1..] ==> t in tokens;
      RoundingIsBounded(tokens[1..], price);
      var t, all := tokens[0], tokens[1..];
      assert t in tokens && t * price >= 0;
      assert 0 <= t * price - MILLION * Charge(t, price) < MILLION;
      LostStep(tokens, price);
    }
  }

  lemma LostStep(tokens: seq<int>, price: int)
    requires tokens != []
    ensures Lost(tokens, price) == tokens[0] * price - MILLION * Charge(tokens[0], price) + Lost(tokens[1..], price)
  {
    var t, rest := tokens[0], Sum(tokens[1..], (t: int) => t);
    assert Sum(tokens, (t: int) => t) == t + rest;
    assert price * (t + rest) == t * price + price * rest;
    var c, others := Charge(t, price), Sum(tokens[1..], (t: int) => Charge(t, price));
    assert Sum(tokens, (t: int) => Charge(t, price)) == c + others;
  }
}
