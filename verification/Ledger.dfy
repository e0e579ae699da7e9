/** The owners' ledger (api/src/modules/transactions/transactions.service.ts): rows are only ever appended, and an
    owner's balance is never stored but summed. */
module Ledger {
  import opened Digits

  type Id = string

  datatype Direction = CREDIT | DEBIT
  datatype RowType = BOOKING_CREDIT | WITHDRAWAL_DEBIT | REFUND_CREDIT | REFUND_DEBIT

  /** What a row was written for: the id column of another table. Withdrawals and cancellation requests are numbered
      by their place in their table. A commission's row carries the id that unlocked it; its place in its table is
      history. */
  datatype Source = FromPayment(id: Id) | FromBooking(id: Id) | FromWithdrawal(n: nat) | FromOwner(id: Id)
                  | FromRefund(n: nat) | FromCommission(id: Id, n: nat)

  datatype Row = Row(owner: Id, rowType: RowType, direction: Direction, amount: int, before: int, after: int,
                     reference: string, source: Source)

  /** The arguments of createTransaction. */
  datatype Posting = Posting(owner: Id, rowType: RowType, direction: Direction, amount: int, balanceBefore: int,
                             source: Source)

  /** A day as generateReference prints it, YYYYMMDD. */
  type Today = s: string | |s| == 8 witness "20260101"

  function Signed(r: Row): int {
    if r.direction == CREDIT then r.amount else -r.amount
  }

  /** `computeOwnerBalance` */
  function Balance(rows: seq<Row>, owner: Id): int {
    if rows == [] then 0
    else
      Balance(rows[..|rows| - 1], owner) + if rows[|rows| - 1].owner == owner then Signed(rows[|rows| - 1]) else 0
  }

  /** `generateReference`, given the number of rows there are. */
  function Reference(today: Today, count: nat): string {
    "TXN-" + today + "-" + PadStart(Decimal(count + 1), 4)
  }

  /** `createTransaction` */
  function Post(rows: seq<Row>, today: Today, p: Posting): (posted: seq<Row>)
    ensures |posted| == |rows| + 1 && posted[..|rows|] == rows
  {
    var after := if p.direction == CREDIT then p.balanceBefore + p.amount else p.balanceBefore - p.amount;
    rows + [Row(p.owner, p.rowType, p.direction, p.amount, p.balanceBefore, after, Reference(today, |rows|), p.source)]
  }

  /** Every caller passes the balance it has just computed. */
  function Enter(rows: seq<Row>, today: Today, owner: Id, rowType: RowType, direction: Direction, amount: int,
                 source: Source): seq<Row>
  {
    Post(rows, today, Posting(owner, rowType, direction, amount, Balance(rows, owner), source))
  }

  lemma BalanceOfPost(rows: seq<Row>, today: Today, p: Posting, owner: Id)
    ensures Balance(Post(rows, today, p), owner)
         == Balance(rows, owner)
            + if p.owner != owner then 0 else if p.direction == CREDIT then p.amount else -p.amount
  {
  }

  // ---- the audit trail -----------------------------------------------------------------------------------------

  /** The i-th row carries its owner's balance before and after it, and the i-th reference of some day. */
  ghost predicate RowAudited(rows: seq<Row>, i: nat)
    requires i < |rows|
  {
    && rows[i].before == Balance(rows[..i], rows[i].owner)
    && rows[i].after == Balance(rows[..i + 1], rows[i].owner)
    && exists today: Today :: rows[i].reference == Reference(today, i)
  }

  ghost predicate Audited(rows: seq<Row>) {
    forall i :: 0 <= i < |rows| ==> RowAudited(rows, i)
  }

  /** Appending a row keeps the trail exactly when the caller passed the owner's true balance. */
  lemma PostKeepsAudit(rows: seq<Row>, today: Today, p: Posting)
    requires Audited(rows)
    ensures Audited(Post(rows, today, p)) <==> p.balanceBefore == Balance(rows, p.owner)
  {
    var posted, n := Post(rows, today, p), |rows|;
    BalanceOfPost(rows, today, p, p.owner);
    forall i | 0 <= i < n
      ensures RowAudited(posted, i)
    {
      assert RowAudited(rows, i);
      assert posted[..i] == rows[..i] && posted[..i + 1] == rows[..i + 1];
    }
    assert posted[..n] == rows && posted[..n + 1] == posted;
    assert posted[n].reference == Reference(today, n);
    assert RowAudited(posted, n) <==> p.balanceBefore == Balance(rows, p.owner);
  }

  /** No two rows share a reference, whatever the days they were written on. */
  lemma ReferencesDistinct(rows: seq<Row>, i: nat, j: nat)
    requires Audited(rows) && i < j < |rows|
    ensures rows[i].reference != rows[j].reference
  {
    assert RowAudited(rows, i) && RowAudited(rows, j);
    var d1: Today :| rows[i].reference == Reference(d1, i);
    var d2: Today :| rows[j].reference == Reference(d2, j);
    ReferenceNumber(d1, i);
    ReferenceNumber(d2, j);
  }

  /** TXN, the day and the number of the row, in at least four digits. */
  lemma ReferenceNumber(today: Today, count: nat)
    ensures
      var r := Reference(today, count);
      && |r| >= 17 && r[..4] == "TXN-" && r[4..12] == today && r[12] == '-'
      && AllDigits(r[13..]) && Value(r[13..]) == count + 1
  {
    PaddedRoundTrip(count + 1, 4);
    assert Reference(today, count)[13..] == PadStart(Decimal(count + 1), 4);
  }

  /** Between two rows of one owner with none of theirs in between, the balance does not move: the trail links up. */
  lemma {:induction false} TrailLinks(rows: seq<Row>, i: nat, j: nat)
    requires Audited(rows) && i < j < |rows| && rows[i].owner == rows[j].owner
    requires forall k :: i < k < j ==> rows[k].owner != rows[i].owner
    ensures rows[j].before == rows[i].after
  {
    assert RowAudited(rows, i) && RowAudited(rows, j);
    QuietRows(rows, i + 1, j, rows[i].owner);
  }

  lemma {:induction false} QuietRows(rows: seq<Row>, i: nat, j: nat, owner: Id)
    requires i <= j <= |rows|
    requires forall k :: i <= k < j ==> rows[k].owner != owner
    ensures Balance(rows[..j], owner) == Balance(rows[..i], owner)
  {
    if i < j {
      QuietRows(rows, i, j - 1, owner);
      assert rows[..j][..j - 1] == rows[..j - 1];
    }
  }

  // ---- credits and refunds, counted by what they were written for ------------------------------------------------

  /** What the BOOKING_CREDIT rows were written for, each as often as it was credited. */
  ghost function CreditedSources(rows: seq<Row>): multiset<Source> {
    if rows == [] then multiset{}
    else
      CreditedSources(rows[..|rows| - 1])
      + if rows[|rows| - 1].rowType == BOOKING_CREDIT then multiset{rows[|rows| - 1].source} else multiset{}
  }

  /** The sum of an owner's BOOKING_CREDIT rows. */
  ghost function CreditSum(rows: seq<Row>, owner: Id): int {
    if rows == [] then 0
    else
      var r := rows[|rows| - 1];
      CreditSum(rows[..|rows| - 1], owner) + if r.owner == owner && r.rowType == BOOKING_CREDIT then Signed(r) else 0
  }
}
