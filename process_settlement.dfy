/**
 * The process-settlement edge function (supabase/functions/process-settlement/index.ts):
 * admin-only payout creation against a wallet's balance, settlement of a payout, and
 * the payout report.
 */
module ProcessSettlement {
  import opened Records
  import opened Tables
  import opened Aggregates
  import opened Store

  datatype Action = CreatePayoutAction | SettlePayoutAction | PayoutReportAction

  /** The request body; an empty string is a missing (falsy) value. `settlementNotes` is
      None when the field is absent, in which case the update leaves the column alone. */
  datatype Request = Request(action: string, vendorId: Id, payoutId: Id, settlementNotes: Option<string>)

  datatype ReportTotals = ReportTotals(pendingAmount: Paise, completedAmount: Paise, totalPayouts: nat)

  datatype Result =
    | PayoutCreated(payout: Row<Payout>)
    | PayoutSettled(settled: Payout, wallet: Option<Wallet>)
    | PayoutReport(payouts: seq<Row<Payout>>, totals: ReportTotals)

  function ParseAction(text: string): (a: Option<Action>)
    ensures a.Some? <==> text in {"create_payout", "settle_payout", "get_payout_report"}
  {
    if text == "create_payout" then Some(CreatePayoutAction)
    else if text == "settle_payout" then Some(SettlePayoutAction)
    else if text == "get_payout_report" then Some(PayoutReportAction)
    else None
  }

  /** index.ts:27-62: a user, an admin (the `is_admin` RPC), and an action field, in that order. */
  function Gate(caller: Option<Id>, isAdmin: bool, action: string): (g: Outcome<Id>)
    ensures caller.None? ==> g == Err(401, AuthRequired)
    ensures caller.Some? && !isAdmin ==> g == Err(403, AdminRequired)
    ensures caller.Some? && isAdmin && action == "" ==> g == Err(400, MissingFields)
    ensures g.Ok? <==> caller.Some? && isAdmin && action != ""
    ensures g.Ok? ==> caller == Some(g.value)
  {
    if caller.None? then Err(401, AuthRequired)
    else if !isAdmin then Err(403, AdminRequired)
    else if action == "" then Err(400, MissingFields)
    else Ok(caller.value)
  }

  // ------------------------------------------------------------------
  // create_payout (index.ts:65-149)
  // ------------------------------------------------------------------

  function CreatePayoutGuard(vendorId: Id, wallets: seq<Row<Wallet>>): (g: Outcome<Wallet>)
    ensures vendorId == "" ==> g == Err(400, MissingFields)
    ensures vendorId != "" && !Has(wallets, vendorId) ==> g == Err(404, WalletNotFound)
    ensures g.Ok? <==> vendorId != "" && Get(wallets, vendorId).Some? && Get(wallets, vendorId).value.balance > 0
    ensures g.Ok? ==> Get(wallets, vendorId) == Some(g.value)
    ensures g == Err(400, NoBalance) <==>
              vendorId != "" && Get(wallets, vendorId).Some? && Get(wallets, vendorId).value.balance <= 0
  {
    if vendorId == "" then Err(400, MissingFields)
    else match Get(wallets, vendorId) {
      case None => Err(404, WalletNotFound)
      case Some(w) => if w.balance <= 0 then Err(400, NoBalance) else Ok(w)
    }
  }

  /** The payout row inserted by index.ts:106-116: the whole current balance, pending. */
  function InitiatedPayout(vendorId: Id, balance: Paise, admin: Id): (p: Payout)
    ensures p.amount == balance && p.status == PayoutPending && p.vendorId == vendorId
    ensures p.settledBy == Some(admin) && p.settledAt.None?
  {
    Payout(vendorId, balance, PayoutPending, Some(admin), None, None, None, None)
  }

  /** A notification to the vendor's user when its vendor row exists (index.ts:122-136). */
  function VendorNotice(vendors: seq<Row<Vendor>>, vendorId: Id, title: string): (ns: seq<Notification>)
    ensures |ns| == (if Has(vendors, vendorId) then 1 else 0)
    ensures |ns| == 1 ==>
              ns[0].userId == Some(Get(vendors, vendorId).value.userId)
              && ns[0].kind == PayoutProcessed && ns[0].relatedVendor == Some(vendorId)
  {
    match Get(vendors, vendorId) {
      case None => []
      case Some(v) => [Notification(Some(v.userId), PayoutProcessed, title, None, Some(vendorId))]
    }
  }

  /** create_payout. Existing payouts are never consulted, so a second pending payout of the
      same balance is accepted; the wallet is not touched. */
  method CreatePayout(db: Db, admin: Id, vendorId: Id, newId: Id) returns (resp: Outcome<Result>)
    modifies db`payouts, db`notifications
    ensures var g := CreatePayoutGuard(vendorId, db.wallets);
      && (g.Err? ==> resp == Err(g.status, g.reason)
                     && db.payouts == old(db.payouts) && db.notifications == old(db.notifications))
      && (g.Ok? ==> var row := Row(newId, InitiatedPayout(vendorId, g.value.balance, admin));
                    && resp == Ok(PayoutCreated(row))
                    && db.payouts == old(db.payouts) + [row]
                    && db.notifications == old(db.notifications) + VendorNotice(db.vendors, vendorId, "Payout Initiated"))
  {
    if vendorId == "" {
      return Err(400, MissingFields);
    }
    var wallet := Get(db.wallets, vendorId);
    if wallet.None? {
      return Err(404, WalletNotFound);
    }
    if wallet.value.balance <= 0 {
      return Err(400, NoBalance);
    }
    var row := Row(newId, InitiatedPayout(vendorId, wallet.value.balance, admin));
    db.payouts := db.payouts + [row];
    db.notifications := db.notifications + VendorNotice(db.vendors, vendorId, "Payout Initiated");
    resp := Ok(PayoutCreated(row));
  }

  // ------------------------------------------------------------------
  // settle_payout (index.ts:152-265)
  // ------------------------------------------------------------------

  /** index.ts:218-224 as written: `existing || 0 + amount` parses as `existing || (0 + amount)`,
      so a wallet that has been paid out before keeps its old total. */
  function PaidOutAsWritten(existing: Option<Paise>, amount: Paise): (t: Paise)
    ensures existing.Some? && existing.value != 0 ==> t == existing.value
    ensures existing.None? || existing.value == 0 ==> t == amount
  {
    if existing.Some? && existing.value != 0 then existing.value else 0 + amount
  }

  /** The evidently intended `(existing || 0) + amount`: the total grows by the amount paid. */
  function PaidOutIntended(existing: Option<Paise>, amount: Paise): (t: Paise)
    ensures t - amount == (if existing.Some? then existing.value else 0)
  {
    (if existing.Some? then existing.value else 0) + amount
  }

  /** The two agree only on a first payout; afterwards the as-written total stops growing. */
  lemma PaidOutAsWrittenLosesPayouts(existing: Paise, amount: Paise)
    requires existing != 0 && amount != 0
    ensures PaidOutAsWritten(Some(existing), amount) == existing
    ensures PaidOutIntended(Some(existing), amount) == existing + amount
    ensures PaidOutAsWritten(Some(existing), amount) != PaidOutIntended(Some(existing), amount)
    ensures PaidOutAsWritten(None, amount) == PaidOutIntended(None, amount)
    ensures PaidOutAsWritten(Some(0), amount) == PaidOutIntended(Some(0), amount)
  {
  }

  /** The concrete case: a wallet that has paid out 5000 paise before settles a payout of 3000. */
  lemma PaidOutSecondPayoutExample()
    ensures PaidOutAsWritten(Some(5000), 3000) == 5000
    ensures PaidOutIntended(Some(5000), 3000) == 8000
  {
  }

  function SettleGuard(payoutId: Id, payouts: seq<Row<Payout>>): (g: Outcome<Payout>)
    ensures payoutId == "" ==> g == Err(400, MissingFields)
    ensures payoutId != "" && !Has(payouts, payoutId) ==> g == Err(404, PayoutNotFound)
    ensures g.Ok? <==> payoutId != "" && Get(payouts, payoutId).Some?
                       && Get(payouts, payoutId).value.status != PayoutCompleted
    ensures g == Err(400, AlreadySettled) <==>
              payoutId != "" && Get(payouts, payoutId).Some? && Get(payouts, payoutId).value.status == PayoutCompleted
    ensures g.Ok? ==> Get(payouts, payoutId) == Some(g.value)
  {
    if payoutId == "" then Err(400, MissingFields)
    else match Get(payouts, payoutId) {
      case None => Err(404, PayoutNotFound)
      case Some(p) => if p.status == PayoutCompleted then Err(400, AlreadySettled) else Ok(p)
    }
  }

  /** The payout after index.ts:189-193: completed, stamped, notes written when given. */
  function SettledPayout(p: Payout, notes: Option<string>, now: Time): (q: Payout)
    ensures q.status == PayoutCompleted && q.settledAt == Some(now)
    ensures q.settlementNotes == (if notes.Some? then notes else p.settlementNotes)
    ensures q.amount == p.amount && q.vendorId == p.vendorId && q.settledBy == p.settledBy
  {
    p.(status := PayoutCompleted, settledAt := Some(now),
       settlementNotes := if notes.Some? then notes else p.settlementNotes)
  }

  /** The wallet after index.ts:214-228: balance zeroed and the paid-out total raised. */
  function SettledWallet(w: Wallet, amount: Paise): (v: Wallet)
    ensures v.balance == 0
    ensures v.totalPaidOut == w.totalPaidOut + amount
    ensures v.totalEarned == w.totalEarned && v.totalCommission == w.totalCommission
  {
    w.(balance := 0, totalPaidOut := PaidOutIntended(Some(w.totalPaidOut), amount))
  }

  /** The debit recorded by index.ts:203-211. */
  function PayoutDebit(p: Payout, payoutId: Id, now: Time): (t: SettlementTx)
    ensures t.txType == PayoutTx && t.grossAmount == 0 && t.commissionAmount == 0
    ensures t.netAmount == -p.amount && t.vendorId == p.vendorId && t.payoutId == Some(payoutId)
  {
    SettlementTx(p.vendorId, None, PayoutTx, 0, 0, -p.amount, Some(payoutId), Some(now))
  }

  /** settle_payout. Every status but completed settles (pending, processing and failed alike).
      The wallet update uses the intended paid-out total (see PaidOutAsWritten). */
  method SettlePayout(db: Db, payoutId: Id, notes: Option<string>, now: Time) returns (resp: Outcome<Result>)
    modifies db`payouts, db`txs, db`wallets, db`notifications
    ensures var g := SettleGuard(payoutId, old(db.payouts));
      && (g.Err? ==> resp == Err(g.status, g.reason)
                     && db.payouts == old(db.payouts) && db.txs == old(db.txs)
                     && db.wallets == old(db.wallets) && db.notifications == old(db.notifications))
      && (g.Ok? ==>
            var p := g.value;
            var w := Get(old(db.wallets), p.vendorId);
            && db.payouts == Put(old(db.payouts), payoutId, SettledPayout(p, notes, now))
            && db.txs == old(db.txs) + [PayoutDebit(p, payoutId, now)]
            && db.wallets == (if w.Some? then Put(old(db.wallets), p.vendorId, SettledWallet(w.value, p.amount))
                              else old(db.wallets))
            && db.notifications == old(db.notifications) + VendorNotice(db.vendors, p.vendorId, "Payout Completed")
            && resp == Ok(PayoutSettled(SettledPayout(p, notes, now),
                                        if w.Some? then Some(SettledWallet(w.value, p.amount)) else None)))
  {
    if payoutId == "" {
      return Err(400, MissingFields);
    }
    var payout := Get(db.payouts, payoutId);
    if payout.None? {
      return Err(404, PayoutNotFound);
    }
    var p := payout.value;
    if p.status == PayoutCompleted {
      return Err(400, AlreadySettled);
    }
    var settled := SettledPayout(p, notes, now);
    db.payouts := Put(db.payouts, payoutId, settled);
    db.txs := db.txs + [PayoutDebit(p, payoutId, now)];
    var wallet := Get(db.wallets, p.vendorId);
    var updated: Option<Wallet> := None;
    if wallet.Some? {
      updated := Some(SettledWallet(wallet.value, p.amount));
      db.wallets := Put(db.wallets, p.vendorId, updated.value);
    }
    db.notifications := db.notifications + VendorNotice(db.vendors, p.vendorId, "Payout Completed");
    resp := Ok(PayoutSettled(settled, updated));
  }

  /** Settling zeroes the balance rather than subtracting the amount: earnings credited to the
      wallet after the payout was created are wiped out with it. */
  lemma SettleZeroesLaterEarnings(w: Wallet, amount: Paise)
    requires w.balance > amount
    ensures SettledWallet(w, amount).balance == 0
    ensures SettledWallet(w, amount).balance != w.balance - amount
  {
  }

  // ------------------------------------------------------------------
  // get_payout_report (index.ts:268-295)
  // ------------------------------------------------------------------

  /** `.match(vendor_id ? { vendor_id } : {})`. */
  function ReportRows(payouts: seq<Row<Payout>>, vendorId: Id): (r: seq<Row<Payout>>)
    ensures vendorId == "" ==> r == payouts
    ensures vendorId != "" ==> forall i :: 0 <= i < |r| ==> r[i].val.vendorId == vendorId && r[i] in payouts
    ensures vendorId != "" ==> forall i :: 0 <= i < |payouts| && payouts[i].val.vendorId == vendorId ==> payouts[i] in r
  {
    if vendorId == "" then payouts else Filter(payouts, (r: Row<Payout>) => r.val.vendorId == vendorId)
  }

  function PendingAmount(r: Row<Payout>): Paise { if r.val.status == PayoutPending then r.val.amount else 0 }
  function CompletedAmount(r: Row<Payout>): Paise { if r.val.status == PayoutCompleted then r.val.amount else 0 }
  function AmountOf(r: Row<Payout>): Paise { r.val.amount }

  /** The `forEach` of index.ts:288-295 over the fetched rows. */
  method ReportTotalsOf(rows: seq<Row<Payout>>) returns (totals: ReportTotals)
    ensures totals.pendingAmount == Sum(rows, PendingAmount)
    ensures totals.completedAmount == Sum(rows, CompletedAmount)
    ensures totals.totalPayouts == |rows|
  {
    totals := ReportTotals(0, 0, 0);
    var i := 0;
    while i < |rows|
      invariant 0 <= i <= |rows|
      invariant totals.pendingAmount == Sum(rows[..i], PendingAmount)
      invariant totals.completedAmount == Sum(rows[..i], CompletedAmount)
      invariant totals.totalPayouts == i
    {
      var p := rows[i];
      SumStep(rows, i, PendingAmount);
      SumStep(rows, i, CompletedAmount);
      if p.val.status == PayoutPending {
        totals := totals.(pendingAmount := totals.pendingAmount + p.val.amount);
      } else if p.val.status == PayoutCompleted {
        totals := totals.(completedAmount := totals.completedAmount + p.val.amount);
      }
      totals := totals.(totalPayouts := totals.totalPayouts + 1);
      i := i + 1;
    }
    assert rows[..|rows|] == rows;
  }

  /** With non-negative amounts, pending and completed together never exceed all payouts:
      processing and failed ones are counted but their amounts go into neither total. */
  lemma {:induction false} ReportAmountsBounded(rows: seq<Row<Payout>>)
    requires forall i :: 0 <= i < |rows| ==> rows[i].val.amount >= 0
    ensures 0 <= Sum(rows, PendingAmount) && 0 <= Sum(rows, CompletedAmount)
    ensures Sum(rows, PendingAmount) + Sum(rows, CompletedAmount) <= Sum(rows, AmountOf)
  {
    if |rows| > 0 {
      ReportAmountsBounded(rows[..|rows| - 1]);
    }
  }

  // ------------------------------------------------------------------
  // The dispatcher
  // ------------------------------------------------------------------

  /** The whole function: the gate, then the named action; an unknown action gives 400 and
      changes nothing. */
  method ProcessSettlementHandler(db: Db, caller: Option<Id>, isAdmin: bool, req: Request, newId: Id, now: Time)
    returns (resp: Outcome<Result>)
    modifies db`payouts, db`txs, db`wallets, db`notifications
    ensures var g := Gate(caller, isAdmin, req.action);
      g.Err? ==> resp == Err(g.status, g.reason)
    ensures Gate(caller, isAdmin, req.action).Err? || (ParseAction(req.action) != Some(CreatePayoutAction)
        && ParseAction(req.action) != Some(SettlePayoutAction))
      ==> db.payouts == old(db.payouts) && db.txs == old(db.txs)
          && db.wallets == old(db.wallets) && db.notifications == old(db.notifications)
    ensures Gate(caller, isAdmin, req.action).Ok? && ParseAction(req.action).None? ==> resp == Err(400, InvalidAction)
    ensures Gate(caller, isAdmin, req.action).Ok? && ParseAction(req.action) == Some(PayoutReportAction) ==>
      var rows := ReportRows(db.payouts, req.vendorId);
      resp == Ok(PayoutReport(rows, ReportTotals(Sum(rows, PendingAmount), Sum(rows, CompletedAmount), |rows|)))
    ensures Gate(caller, isAdmin, req.action).Ok? && ParseAction(req.action) == Some(CreatePayoutAction) ==>
      var c := CreatePayoutGuard(req.vendorId, db.wallets);
      && db.txs == old(db.txs) && db.wallets == old(db.wallets)
      && (c.Err? ==> resp == Err(c.status, c.reason)
                     && db.payouts == old(db.payouts) && db.notifications == old(db.notifications))
      && (c.Ok? ==> var row := Row(newId, InitiatedPayout(req.vendorId, c.value.balance, Gate(caller, isAdmin, req.action).value));
                    && resp == Ok(PayoutCreated(row))
                    && db.payouts == old(db.payouts) + [row]
                    && db.notifications == old(db.notifications) + VendorNotice(db.vendors, req.vendorId, "Payout Initiated"))
    ensures Gate(caller, isAdmin, req.action).Ok? && ParseAction(req.action) == Some(SettlePayoutAction) ==>
      var g := SettleGuard(req.payoutId, old(db.payouts));
      && (g.Err? ==> resp == Err(g.status, g.reason)
                     && db.payouts == old(db.payouts) && db.txs == old(db.txs)
                     && db.wallets == old(db.wallets) && db.notifications == old(db.notifications))
      && (g.Ok? ==>
            var p := g.value;
            var w := Get(old(db.wallets), p.vendorId);
            && db.payouts == Put(old(db.payouts), req.payoutId, SettledPayout(p, req.settlementNotes, now))
            && db.txs == old(db.txs) + [PayoutDebit(p, req.payoutId, now)]
            && db.wallets == (if w.Some? then Put(old(db.wallets), p.vendorId, SettledWallet(w.value, p.amount))
                              else old(db.wallets))
            && db.notifications == old(db.notifications) + VendorNotice(db.vendors, p.vendorId, "Payout Completed")
            && resp == Ok(PayoutSettled(SettledPayout(p, req.settlementNotes, now),
                                        if w.Some? then Some(SettledWallet(w.value, p.amount)) else None)))
  {
    var g := Gate(caller, isAdmin, req.action);
    if g.Err? {
      return Err(g.status, g.reason);
    }
    var action := ParseAction(req.action);
    if action == Some(CreatePayoutAction) {
      resp := CreatePayout(db, g.value, req.vendorId, newId);
    } else if action == Some(SettlePayoutAction) {
      resp := SettlePayout(db, req.payoutId, req.settlementNotes, now);
    } else if action == Some(PayoutReportAction) {
      var rows := ReportRows(db.payouts, req.vendorId);
      var totals := ReportTotalsOf(rows);
      resp := Ok(PayoutReport(rows, totals));
    } else {
      resp := Err(400, InvalidAction);
    }
  }
}
