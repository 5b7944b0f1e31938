/** The wallet and transaction ledger of transactions/: a user's wallet
    (created on first use), funding it with a completed deposit, the
    per-type summary and the newest-first listing of a user's records.
    Amounts are integer cents. */
module Transactions {
  import opened Wrappers
  import opened Numeric
  import opened Collections
  import opened Serializers
  import M = MarketModels

  type Id = M.Id
  type Instant = M.Instant

  /** `TransactionRecord.TRANSACTION_TYPES`. */
  datatype TransactionType = OrderPayment | Deposit | Withdrawal | Refund | Transfer

  /** `TransactionRecord.STATUS_CHOICES`. */
  datatype TransactionStatus = Pending | Completed | Failed | Cancelled

  datatype TransactionRecord = TransactionRecord(
    id: Id,
    userId: Id,
    amount: int,
    kind: TransactionType,
    status: TransactionStatus,
    reference: Option<string>,
    description: Option<string>,
    createdAt: Instant)

  /** A record with only its required fields: an order payment, pending,
      without reference or description. */
  function NewTransaction(id: Id, userId: Id, amount: int, now: Instant): (r: TransactionRecord)
    ensures r.id == id && r.userId == userId && r.amount == amount && r.createdAt == now
    ensures r.kind == OrderPayment && r.status == Pending && r.reference.None? && r.description.None?
  {
    TransactionRecord(id, userId, amount, OrderPayment, Pending, None, None, now)
  }

  /** One wallet per user. */
  datatype Wallet = Wallet(id: Id, userId: Id, balance: int, isActive: bool)

  /** A wallet as `get_or_create` makes it: empty and active. */
  function NewWallet(id: Id, userId: Id): (w: Wallet)
    ensures w.id == id && w.userId == userId && w.balance == 0 && w.isActive
  {
    Wallet(id, userId, 0, true)
  }

  /* ---------------- wallets ---------------- */

  /** The row of the user's wallet. */
  function WalletRow(wallets: seq<Wallet>, userId: Id): (k: Option<nat>)
    ensures k.Some? ==> k.value < |wallets| && wallets[k.value].userId == userId
    ensures k.None? <==> forall i :: 0 <= i < |wallets| ==> wallets[i].userId != userId
  {
    if wallets == [] then None
    else if wallets[|wallets| - 1].userId == userId then Some(|wallets| - 1)
    else WalletRow(wallets[..|wallets| - 1], userId)
  }

  /** The user's balance; 0 for a user without a wallet, which is what the
      wallet `get_or_create` would make holds. */
  function BalanceOf(wallets: seq<Wallet>, userId: Id): int {
    match WalletRow(wallets, userId)
    case Some(k) => wallets[k].balance
    case None => 0
  }

  /** `Wallet.objects.get_or_create(user=...)` on the table. */
  function WithWallet(wallets: seq<Wallet>, userId: Id, newId: Id): (w: seq<Wallet>)
    ensures WalletRow(w, userId).Some?
    ensures WalletRow(wallets, userId).Some? ==> w == wallets
    ensures WalletRow(wallets, userId).None? ==> w == wallets + [NewWallet(newId, userId)]
  {
    if WalletRow(wallets, userId).Some? then wallets
    else
      var w := wallets + [NewWallet(newId, userId)];
      assert w[|w| - 1].userId == userId;
      w
  }

  /** `wallet.balance += amount; wallet.save()` on the user's wallet. */
  function Credit(wallets: seq<Wallet>, userId: Id, amount: int): (w: seq<Wallet>)
    requires WalletRow(wallets, userId).Some?
    ensures |w| == |wallets|
  {
    var k := WalletRow(wallets, userId).value;
    wallets[k := wallets[k].(balance := wallets[k].balance + amount)]
  }

  /** Creating a wallet changes no balance, and crediting one adds exactly
      the amount to its owner's balance and leaves every other user's
      balance alone. */
  lemma {:induction false} CreditAddsAmount(wallets: seq<Wallet>, userId: Id, newId: Id, amount: int, other: Id)
    ensures BalanceOf(WithWallet(wallets, userId, newId), userId) == BalanceOf(wallets, userId)
    ensures BalanceOf(Credit(WithWallet(wallets, userId, newId), userId, amount), userId)
            == BalanceOf(wallets, userId) + amount
    ensures other != userId ==>
              BalanceOf(Credit(WithWallet(wallets, userId, newId), userId, amount), other) == BalanceOf(wallets, other)
  {
    var withWallet := WithWallet(wallets, userId, newId);
    var k := WalletRow(withWallet, userId).value;
    var credited := Credit(withWallet, userId, amount);
    if WalletRow(wallets, userId).None? {
      assert WalletRow(withWallet, userId) == Some(|wallets|);
    }
    RowAfterUpdate(withWallet, k, credited, userId);
    if other != userId {
      RowAfterUpdate(withWallet, k, credited, other);
      if WalletRow(wallets, userId).None? {
        assert withWallet[..|wallets|] == wallets;
        assert WalletRow(withWallet, other) == WalletRow(wallets, other);
      }
    }
  }

  /** Crediting the user's wallet found at row `k` updates that row. */
  lemma CreditAt(wallets: seq<Wallet>, userId: Id, k: nat, amount: int)
    requires WalletRow(wallets, userId) == Some(k)
    ensures Credit(wallets, userId, amount) == wallets[k := wallets[k].(balance := wallets[k].balance + amount)]
    ensures BalanceOf(wallets, userId) == wallets[k].balance
  {
  }

  /** Crediting the wallet `get_or_create` answered at row `k` is `Credit`,
      and the balance it leaves is the old balance plus the amount. */
  lemma CreditOpenedWallet(wallets: seq<Wallet>, userId: Id, newId: Id, k: nat, amount: int)
    requires WalletRow(WithWallet(wallets, userId, newId), userId) == Some(k)
    ensures var w := WithWallet(wallets, userId, newId);
      var credited := w[k := w[k].(balance := w[k].balance + amount)];
      && credited == Credit(w, userId, amount)
      && w[k].balance == BalanceOf(wallets, userId)
      && BalanceOf(credited, userId) == BalanceOf(wallets, userId) + amount
  {
    CreditAt(WithWallet(wallets, userId, newId), userId, k, amount);
    CreditAddsAmount(wallets, userId, newId, amount, userId);
  }

  /** Replacing row `k` by a row of the same owner keeps every user's row. */
  lemma {:induction false} RowAfterUpdate(wallets: seq<Wallet>, k: nat, updated: seq<Wallet>, userId: Id)
    requires k < |wallets| && |updated| == |wallets|
    requires updated[k].userId == wallets[k].userId
    requires forall i :: 0 <= i < |wallets| && i != k ==> updated[i] == wallets[i]
    ensures WalletRow(updated, userId) == WalletRow(wallets, userId)
    decreases |wallets|
  {
    var n := |wallets| - 1;
    if wallets[n].userId != userId && n > 0 {
      if k < n {
        RowAfterUpdate(wallets[..n], k, updated[..n], userId);
      } else {
        assert updated[..n] == wallets[..n];
      }
    }
  }

  /* ---------------- funding ---------------- */

  datatype FundInput = FundInput(amount: Option<int>, paymentMethod: Option<string>)

  datatype FundRequest = FundRequest(amount: nat, paymentMethod: string)

  const FundNonPositiveMessage := "Amount must be greater than zero"

  /** `WalletFundSerializer`, given the amount in cents: a two-place decimal
      of at most eight whole digits that is positive, and a payment method
      of at most 50 characters once stripped. */
  function ValidateFund(input: FundInput): (r: Result<FundRequest>)
    ensures r.Ok? <==>
              && input.amount.Some? && FitsDecimalField(input.amount.value) && input.amount.value > 0
              && input.paymentMethod.Some? && Strip(input.paymentMethod.value) != ""
              && |Strip(input.paymentMethod.value)| <= 50
    ensures r.Ok? ==>
              r.value.amount == input.amount.value && r.value.paymentMethod == Strip(input.paymentMethod.value)
    ensures input.amount.Some? && FitsDecimalField(input.amount.value) && input.amount.value <= 0 ==>
              r == Err(FundNonPositiveMessage)
  {
    if input.amount.None? then Err(RequiredMessage)
    else if !FitsDecimalField(input.amount.value) then Err(DecimalFieldMessage)
    else if input.amount.value <= 0 then Err(FundNonPositiveMessage)
    else if input.paymentMethod.None? then Err(RequiredMessage)
    else
      match CharField(input.paymentMethod.value, Some(50))
      case Err(e) => Err(e)
      case Ok(pm) => Ok(FundRequest(input.amount.value, pm))
  }

  /** The reference of a funding deposit, `FUND-<user>-<amount>`. */
  function FundReference(userId: Id, amount: nat): (s: string)
    ensures |s| >= 11 && s[..5] == "FUND-"
  {
    "FUND-" + DecimalText(userId) + "-" + CentsText(amount)
  }

  /** How many decimal digits a text starts with. */
  function LeadingDigits(t: string): nat {
    if t != [] && '0' <= t[0] <= '9' then 1 + LeadingDigits(t[1..]) else 0
  }

  lemma {:induction false} LeadingDigitsBeforeDash(d: string, c: string)
    requires forall i :: 0 <= i < |d| ==> '0' <= d[i] <= '9'
    ensures LeadingDigits(d + "-" + c) == |d|
  {
    if d != [] {
      assert (d + "-" + c)[1..] == d[1..] + "-" + c;
      LeadingDigitsBeforeDash(d[1..], c);
    }
  }

  /** Two digit runs each followed by a dash split a text the same way. */
  lemma SplitAtDash(d1: string, c1: string, d2: string, c2: string)
    requires forall i :: 0 <= i < |d1| ==> '0' <= d1[i] <= '9'
    requires forall i :: 0 <= i < |d2| ==> '0' <= d2[i] <= '9'
    requires d1 + "-" + c1 == d2 + "-" + c2
    ensures d1 == d2 && c1 == c2
  {
    var t := d1 + "-" + c1;
    LeadingDigitsBeforeDash(d1, c1);
    LeadingDigitsBeforeDash(d2, c2);
    assert d1 == t[..|d1|] == d2;
    assert c1 == t[|d1| + 1..] == c2;
  }

  lemma FundReferenceTail(userId: Id, amount: nat)
    ensures FundReference(userId, amount)[5..] == DecimalText(userId) + "-" + CentsText(amount)
  {
    var tail := DecimalText(userId) + "-" + CentsText(amount);
    assert FundReference(userId, amount) == "FUND-" + tail;
  }

  /** A funding reference names its deposit: it gives back the user and the
      amount it was made from. */
  lemma FundReferenceIdentifiesDeposit(u1: Id, a1: nat, u2: Id, a2: nat)
    requires FundReference(u1, a1) == FundReference(u2, a2)
    ensures u1 == u2 && a1 == a2
  {
    FundReferenceTail(u1, a1);
    FundReferenceTail(u2, a2);
    SplitAtDash(DecimalText(u1), CentsText(a1), DecimalText(u2), CentsText(a2));
    DecimalTextInjective(u1, u2);
    CentsTextInjective(a1, a2);
  }

  /** The record `fund` creates: a completed deposit of the amount. */
  function FundingRecord(id: Id, userId: Id, req: FundRequest, now: Instant): (r: TransactionRecord)
    ensures r.id == id && r.userId == userId && r.amount == req.amount && r.createdAt == now
    ensures r.kind == Deposit && r.status == Completed
    ensures r.reference == Some(FundReference(userId, req.amount))
    ensures r.description == Some("Wallet funding via " + req.paymentMethod)
  {
    TransactionRecord(id, userId, req.amount, Deposit, Completed,
                      Some(FundReference(userId, req.amount)),
                      Some("Wallet funding via " + req.paymentMethod), now)
  }

  datatype Funded = Funded(transactionId: Id, newBalance: int)

  /* ---------------- summary and listing ---------------- */

  /** `Sum('amount')` over the user's records of one type, with
      `or 0` for none. */
  function TypeTotal(records: seq<TransactionRecord>, userId: Id, kind: TransactionType): int {
    if records == [] then 0
    else
      var last := records[|records| - 1];
      TypeTotal(records[..|records| - 1], userId, kind)
        + (if last.userId == userId && last.kind == kind then last.amount else 0)
  }

  /** The number of the user's records. */
  function OwnCount(records: seq<TransactionRecord>, userId: Id): nat {
    if records == [] then 0
    else
      OwnCount(records[..|records| - 1], userId)
        + (if records[|records| - 1].userId == userId then 1 else 0)
  }

  datatype Summary = Summary(deposits: int, withdrawals: int, orders: int, transactionCount: nat)

  /** `summary`: per-type totals of deposits, withdrawals and order
      payments, and the count of all of the user's records. */
  function SummaryOf(records: seq<TransactionRecord>, userId: Id): (s: Summary)
    ensures s.transactionCount <= |records|
    ensures s.transactionCount == 0 ==> s.deposits == 0 && s.withdrawals == 0 && s.orders == 0
  {
    CountBounds(records, userId);
    Summary(TypeTotal(records, userId, Deposit), TypeTotal(records, userId, Withdrawal),
            TypeTotal(records, userId, OrderPayment), OwnCount(records, userId))
  }

  /** No records of the user means every total is zero. */
  lemma {:induction false} CountBounds(records: seq<TransactionRecord>, userId: Id)
    ensures OwnCount(records, userId) <= |records|
    ensures OwnCount(records, userId) == 0 ==>
              forall kind :: TypeTotal(records, userId, kind) == 0
  {
    if records != [] {
      CountBounds(records[..|records| - 1], userId);
    }
  }

  /** Appending a record adds its amount to its owner's total of its type,
      and one to its owner's count; every other total is unchanged. */
  lemma AppendRecordSummary(records: seq<TransactionRecord>, r: TransactionRecord, userId: Id)
    ensures var before := SummaryOf(records, userId);
            var after := SummaryOf(records + [r], userId);
            && (r.userId != userId ==> after == before)
            && (r.userId == userId ==>
                  && after.transactionCount == before.transactionCount + 1
                  && after.deposits == before.deposits + (if r.kind == Deposit then r.amount else 0)
                  && after.withdrawals == before.withdrawals + (if r.kind == Withdrawal then r.amount else 0)
                  && after.orders == before.orders + (if r.kind == OrderPayment then r.amount else 0))
  {
    assert (records + [r])[..|records|] == records;
  }

  /** A funding deposit raises the user's deposit total by the amount. */
  lemma FundingRaisesDeposits(records: seq<TransactionRecord>, id: Id, userId: Id, req: FundRequest, now: Instant)
    ensures SummaryOf(records + [FundingRecord(id, userId, req, now)], userId)
            == SummaryOf(records, userId).(deposits := SummaryOf(records, userId).deposits + req.amount,
                                          transactionCount := SummaryOf(records, userId).transactionCount + 1)
  {
    AppendRecordSummary(records, FundingRecord(id, userId, req, now), userId);
  }

  /** `filter(user=...)`. */
  function OwnedBy(userId: Id): TransactionRecord -> bool {
    (r: TransactionRecord) => r.userId == userId
  }

  /** The key of `order_by('-created_at')`. */
  function NewestFirst(): TransactionRecord -> real {
    (r: TransactionRecord) => -(r.createdAt as real)
  }

  /** `get_queryset` of the listing: the user's records, newest first. */
  function History(records: seq<TransactionRecord>, userId: Id): seq<TransactionRecord> {
    SortByKey(Filter(records, OwnedBy(userId)), NewestFirst())
  }

  /** The listing holds exactly the user's records, each as often as in the
      table, with creation times never increasing. */
  lemma HistoryNewestFirst(records: seq<TransactionRecord>, userId: Id)
    ensures forall r :: r in History(records, userId) <==> r in records && r.userId == userId
    ensures forall r :: multiset(History(records, userId))[r]
                          == if r.userId == userId then multiset(records)[r] else 0
    ensures forall i, j :: 0 <= i < j < |History(records, userId)| ==>
              History(records, userId)[j].createdAt <= History(records, userId)[i].createdAt
  {
    var own := Filter(records, OwnedBy(userId));
    var key := NewestFirst();
    SortByKeySortsAndPermutes(own, key);
    FilterCounts(records, OwnedBy(userId));
    var h := History(records, userId);
    forall r ensures r in h <==> r in records && r.userId == userId {
      assert r in h <==> r in multiset(h);
      assert r in own <==> r in multiset(own);
    }
    forall i, j | 0 <= i < j < |h| ensures h[j].createdAt <= h[i].createdAt {
      assert key(h[i]) <= key(h[j]);
    }
  }

  /* ---------------- the ledger ---------------- */

  class WalletLedger {
    var wallets: seq<Wallet>
    var records: seq<TransactionRecord>

    constructor ()
      ensures wallets == [] && records == []
    {
      wallets := [];
      records := [];
    }

    /** `get_or_create` of the user's wallet; answers its row. */
    method OpenWallet(userId: Id, newId: Id) returns (k: nat)
      modifies this
      ensures wallets == WithWallet(old(wallets), userId, newId) && records == old(records)
      ensures WalletRow(wallets, userId) == Some(k)
    {
      var row := WalletRow(wallets, userId);
      if row.Some? {
        return row.value;
      }
      wallets := wallets + [NewWallet(newId, userId)];
      k := |wallets| - 1;
      assert WalletRow(wallets, userId) == Some(k);
    }

    /** `balance`: the user's balance, opening a wallet if there is none. */
    method Balance(userId: Id, newWalletId: Id) returns (balance: int)
      modifies this
      ensures wallets == WithWallet(old(wallets), userId, newWalletId) && records == old(records)
      ensures balance == BalanceOf(old(wallets), userId) && balance == BalanceOf(wallets, userId)
    {
      var k := OpenWallet(userId, newWalletId);
      balance := wallets[k].balance;
    }

    /** `fund`: an invalid request changes nothing; otherwise the wallet is
        opened if needed, a completed deposit is recorded, and the balance,
        which the answer reports, rises by the amount. */
    method Fund(userId: Id, input: FundInput, transactionId: Id, newWalletId: Id, now: Instant)
      returns (resp: Response<Funded>)
      modifies this
      ensures ValidateFund(input).Err? ==>
                resp == Failure(HTTP_400, ValidateFund(input).error)
                && wallets == old(wallets) && records == old(records)
      ensures ValidateFund(input).Ok? ==>
                var req := ValidateFund(input).value;
                && records == old(records) + [FundingRecord(transactionId, userId, req, now)]
                && wallets == Credit(WithWallet(old(wallets), userId, newWalletId), userId, req.amount)
                && resp == Success(HTTP_200, Funded(transactionId, BalanceOf(old(wallets), userId) + req.amount))
                && resp.body.newBalance == BalanceOf(wallets, userId)
    {
      var v := ValidateFund(input);
      if v.Err? {
        return Failure(HTTP_400, v.error);
      }
      var req := v.value;
      ghost var before := wallets;
      var k := OpenWallet(userId, newWalletId);
      var w := wallets;
      var credited := w[k := w[k].(balance := w[k].balance + req.amount)];
      CreditOpenedWallet(before, userId, newWalletId, k, req.amount);
      wallets := credited;
      records := records + [FundingRecord(transactionId, userId, req, now)];
      resp := Success(HTTP_200, Funded(transactionId, w[k].balance + req.amount));
    }

    /** `summary` for the requesting user. */
    function Summary(userId: Id): Summary
      reads this
    {
      SummaryOf(records, userId)
    }

    /** The transaction listing for the requesting user. */
    function Listing(userId: Id): seq<TransactionRecord>
      reads this
    {
      History(records, userId)
    }
  }
}
