/** The payment ledger: the tracker of per-customer payment records, the
    ledger view built from the aggregate and the tracker, the "Save All
    Changes" upsert, and the final amount printed on a bill. */
module Ledger {
  import opened Phones
  import opened Receipts
  import opened Aggregation

  datatype PaymentStatus = Due | Partial | Settled | Advance

  /** One entry of the payment tracker, a JSON object keyed by phone. A field
      the object lacks is None. `customerName` and `lastUpdated` are written
      but never read back. Amounts are in paise. */
  datatype TrackerRecord = TrackerRecord(
    customerName: Option<string>,
    address: Option<string>,
    previousBalance: Option<int>,
    advanceAmount: Option<int>,
    paymentStatus: Option<PaymentStatus>,
    amountPaid: Option<int>,
    paymentMode: Option<string>,
    receivedOn: Option<string>,
    cashCollected: Option<bool>,
    cashDeposited: Option<bool>,
    remarks: Option<string>,
    advanceCF: Option<int>,
    lastUpdated: Option<string>)

  type Tracker = map<string, TrackerRecord>

  /** `payment_tracker.get(phone, {})`: the stored record, or one with every
      field absent. */
  function EntryFor(tracker: Tracker, phone: string): (e: TrackerRecord)
    ensures phone in tracker ==> e == tracker[phone]
    ensures phone !in tracker ==>
      && e.customerName.None? && e.address.None? && e.previousBalance.None?
      && e.advanceAmount.None? && e.paymentStatus.None? && e.amountPaid.None?
      && e.paymentMode.None? && e.receivedOn.None? && e.cashCollected.None?
      && e.cashDeposited.None? && e.remarks.None? && e.advanceCF.None? && e.lastUpdated.None?
  {
    if phone in tracker then tracker[phone]
    else TrackerRecord(None, None, None, None, None, None, None, None, None, None, None, None, None)
  }

  /** One row of the customer payment table. */
  datatype ViewRow = ViewRow(
    name: Option<string>,
    phone: string,
    address: string,
    amountDue: int,
    previousBalance: int,
    advanceGiven: string,
    advanceAmount: int,
    paymentStatus: PaymentStatus,
    amountPaid: int,
    remainingAmount: int,
    paymentMode: string,
    receivedOn: string,
    cashCollected: bool,
    cashDeposited: bool,
    remarks: string,
    advanceCF: int)

  /** What a customer still owes: the amount due plus the previous balance,
      less the advance and what has been paid. */
  function Remaining(amountDue: int, previousBalance: int, advanceAmount: int, amountPaid: int): int {
    amountDue + previousBalance - advanceAmount - amountPaid
  }

  /** The columns of a row that Save All writes to the tracker and a later
      reconciliation reads back. */
  predicate SameTrackedFields(a: ViewRow, b: ViewRow) {
    && a.address == b.address
    && a.previousBalance == b.previousBalance
    && a.advanceAmount == b.advanceAmount
    && a.paymentStatus == b.paymentStatus
    && a.amountPaid == b.amountPaid
    && a.paymentMode == b.paymentMode
    && a.receivedOn == b.receivedOn
    && a.cashCollected == b.cashCollected
    && a.cashDeposited == b.cashDeposited
    && a.remarks == b.remarks
    && a.advanceCF == b.advanceCF
  }

  /** True of a row whose derived columns agree with its own inputs. */
  predicate Derived(v: ViewRow) {
    && v.remainingAmount == Remaining(v.amountDue, v.previousBalance, v.advanceAmount, v.amountPaid)
    && v.advanceGiven == (if v.advanceAmount > 0 then "Yes" else "No")
  }

  /** The ledger-view row of one aggregated customer: its name, phone and
      amount due come from the aggregate, every tracked column from the
      tracker entry with its default when absent, and the remaining amount
      and the advance flag are derived. */
  function ViewOf(s: Summary, tracker: Tracker): (v: ViewRow)
    ensures v.name == s.name && v.phone == s.phone && v.amountDue == s.amountDue
    ensures Derived(v)
  {
    var info := EntryFor(tracker, s.phone);
    var previousBalance := info.previousBalance.GetOr(0);
    var advanceAmount := info.advanceAmount.GetOr(0);
    var amountPaid := info.amountPaid.GetOr(0);
    ViewRow(
      s.name,
      s.phone,
      info.address.GetOr(""),
      s.amountDue,
      previousBalance,
      if advanceAmount > 0 then "Yes" else "No",
      advanceAmount,
      info.paymentStatus.GetOr(Due),
      amountPaid,
      Remaining(s.amountDue, previousBalance, advanceAmount, amountPaid),
      info.paymentMode.GetOr(""),
      info.receivedOn.GetOr(""),
      info.cashCollected.GetOr(false),
      info.cashDeposited.GetOr(false),
      info.remarks.GetOr(""),
      info.advanceCF.GetOr(0))
  }

  /** Each tracked column of a payment row is the stored value when the
      customer has a tracker entry holding that field, and the column's
      default otherwise, field by field: an entry that lacks some fields
      still supplies the ones it has. */
  lemma ViewOfStoredOrDefault(s: Summary, tracker: Tracker)
    ensures ViewOf(s, tracker).address ==
      (if s.phone in tracker && tracker[s.phone].address.Some? then tracker[s.phone].address.value else "")
    ensures ViewOf(s, tracker).previousBalance ==
      (if s.phone in tracker && tracker[s.phone].previousBalance.Some? then tracker[s.phone].previousBalance.value else 0)
    ensures ViewOf(s, tracker).advanceAmount ==
      (if s.phone in tracker && tracker[s.phone].advanceAmount.Some? then tracker[s.phone].advanceAmount.value else 0)
    ensures ViewOf(s, tracker).paymentStatus ==
      (if s.phone in tracker && tracker[s.phone].paymentStatus.Some? then tracker[s.phone].paymentStatus.value else Due)
    ensures ViewOf(s, tracker).amountPaid ==
      (if s.phone in tracker && tracker[s.phone].amountPaid.Some? then tracker[s.phone].amountPaid.value else 0)
    ensures ViewOf(s, tracker).paymentMode ==
      (if s.phone in tracker && tracker[s.phone].paymentMode.Some? then tracker[s.phone].paymentMode.value else "")
    ensures ViewOf(s, tracker).receivedOn ==
      (if s.phone in tracker && tracker[s.phone].receivedOn.Some? then tracker[s.phone].receivedOn.value else "")
    ensures ViewOf(s, tracker).cashCollected ==
      (if s.phone in tracker && tracker[s.phone].cashCollected.Some? then tracker[s.phone].cashCollected.value else false)
    ensures ViewOf(s, tracker).cashDeposited ==
      (if s.phone in tracker && tracker[s.phone].cashDeposited.Some? then tracker[s.phone].cashDeposited.value else false)
    ensures ViewOf(s, tracker).remarks ==
      (if s.phone in tracker && tracker[s.phone].remarks.Some? then tracker[s.phone].remarks.value else "")
    ensures ViewOf(s, tracker).advanceCF ==
      (if s.phone in tracker && tracker[s.phone].advanceCF.Some? then tracker[s.phone].advanceCF.value else 0)
  {
  }

  /** A stored entry holding only a previous balance: that balance is read
      back, every other column takes its default, and the remaining amount
      is the amount due plus the balance. */
  lemma PartialEntry(s: Summary, tracker: Tracker, balance: int)
    requires s.phone in tracker
    requires tracker[s.phone] == TrackerRecord(None, None, Some(balance), None, None, None, None, None, None, None, None, None, None)
    ensures ViewOf(s, tracker).previousBalance == balance
    ensures ViewOf(s, tracker).paymentStatus == Due && ViewOf(s, tracker).advanceGiven == "No"
    ensures ViewOf(s, tracker).remainingAmount == s.amountDue + balance
  {
    ViewOfStoredOrDefault(s, tracker);
  }

  /** The tracker entry Save All writes for an edited row: every field taken
      from the row, stamped with `now`. */
  function RecordOf(row: ViewRow, now: string): (e: TrackerRecord)
    ensures e.lastUpdated == Some(now)
    ensures forall s: Summary :: s.phone == row.phone ==>
      SameTrackedFields(ViewOf(s, map[row.phone := e]), row)
  {
    TrackerRecord(
      row.name,
      Some(row.address),
      Some(row.previousBalance),
      Some(row.advanceAmount),
      Some(row.paymentStatus),
      Some(row.amountPaid),
      Some(row.paymentMode),
      Some(row.receivedOn),
      Some(row.cashCollected),
      Some(row.cashDeposited),
      Some(row.remarks),
      Some(row.advanceCF),
      Some(now))
  }

  /** The tracker after Save All has written the edited rows in order. */
  function Saved(tracker: Tracker, rows: seq<ViewRow>, now: string): (saved: Tracker)
    ensures tracker.Keys <= saved.Keys
    ensures forall i :: 0 <= i < |rows| ==> rows[i].phone in saved
  {
    if rows == [] then tracker
    else
      var last := rows[|rows| - 1];
      Saved(tracker, rows[..|rows| - 1], now)[last.phone := RecordOf(last, now)]
  }

  /** The receipts a bill is printed from: those whose customer number is the
      selected phone, compared as strings. */
  function BillTotal(rs: seq<Receipt>, phone: string): (total: int)
    ensures (forall i :: 0 <= i < |rs| ==> !(rs[i].customerNumber.Text? && rs[i].customerNumber.digits == phone)) ==>
      total == 0
  {
    if rs == [] then 0
    else
      var selected := rs[0].customerNumber.Text? && rs[0].customerNumber.digits == phone;
      (if selected then rs[0].total else 0) + BillTotal(rs[1..], phone)
  }

  /** The "FINAL AMOUNT DUE" of a bill: the receipts' total plus the selected
      row's previous balance, less its advance and payments. */
  function FinalAmount(rs: seq<Receipt>, row: ViewRow): (amount: int)
    ensures Derived(row) && BillTotal(rs, row.phone) == row.amountDue ==> amount == row.remainingAmount
  {
    Remaining(BillTotal(rs, row.phone), row.previousBalance, row.advanceAmount, row.amountPaid)
  }

  // ---------------------------------------------------------------------
  // The session state the application keeps between interactions

  class Session {
    var receipts: Option<seq<Receipt>>
    var items: Option<seq<ItemRow>>
    var paymentTracker: Tracker
    var customerPaymentData: Option<seq<ViewRow>>

    /** Session start: the saved receipts and items and the saved tracker are
        loaded; the payment table is built later. */
    constructor (savedReceipts: Option<seq<Receipt>>, savedItems: Option<seq<ItemRow>>, savedTracker: Tracker)
      ensures receipts == savedReceipts && items == savedItems
      ensures paymentTracker == savedTracker && customerPaymentData == None
    {
      receipts := savedReceipts;
      items := savedItems;
      paymentTracker := savedTracker;
      customerPaymentData := None;
    }

    /** Builds the payment table from the stored receipts and the tracker:
        one row per aggregated customer, in the aggregate's order. Nothing is
        written, to the tracker or elsewhere. */
    method InitializeCustomerPaymentData() returns (data: Option<seq<ViewRow>>)
      ensures data.None? <==> receipts.None?
      ensures receipts.Some? ==>
        var summary := Aggregate(receipts.value);
        |data.value| == |summary| &&
        forall i :: 0 <= i < |summary| ==> data.value[i] == ViewOf(summary[i], paymentTracker)
    {
      if receipts.None? {
        return None;
      }
      var summary := Aggregate(receipts.value);
      var rows: seq<ViewRow> := [];
      var i := 0;
      while i < |summary|
        invariant 0 <= i <= |summary|
        invariant |rows| == i
        invariant forall j :: 0 <= j < i ==> rows[j] == ViewOf(summary[j], paymentTracker)
      {
        rows := rows + [ViewOf(summary[i], paymentTracker)];
        i := i + 1;
      }
      return Some(rows);
    }

    /** Upload of a point-of-sale export: credit receipts with normalised
        customer numbers, their item lines, and a fresh payment table. The
        tracker is left as it is. */
    method Upload(rawReceipts: seq<Receipt>, rawItems: seq<ItemRow>)
      modifies this
      ensures receipts == Some(CreditReceipts(rawReceipts))
      ensures items == Some(ImportItems(rawItems, CreditReceipts(rawReceipts)))
      ensures paymentTracker == old(paymentTracker)
      ensures customerPaymentData.Some?
      ensures var summary := Aggregate(CreditReceipts(rawReceipts));
        |customerPaymentData.value| == |summary| &&
        forall i :: 0 <= i < |summary| ==> customerPaymentData.value[i] == ViewOf(summary[i], paymentTracker)
    {
      var kept := CreditReceipts(rawReceipts);
      receipts := Some(kept);
      items := Some(ImportItems(rawItems, kept));
      customerPaymentData := InitializeCustomerPaymentData();
    }

    /** "Save All Changes": each edited row replaces the tracker entry of its
        phone, and the edited rows become the payment table as they are. */
    method SaveAll(edited: seq<ViewRow>, now: string)
      modifies this
      ensures paymentTracker == Saved(old(paymentTracker), edited, now)
      ensures customerPaymentData == Some(edited)
      ensures receipts == old(receipts) && items == old(items)
    {
      var i := 0;
      while i < |edited|
        invariant 0 <= i <= |edited|
        invariant paymentTracker == Saved(old(paymentTracker), edited[..i], now)
        invariant receipts == old(receipts) && items == old(items)
      {
        assert edited[..i + 1][..i] == edited[..i];
        paymentTracker := paymentTracker[edited[i].phone := RecordOf(edited[i], now)];
        i := i + 1;
      }
      assert edited[..i] == edited;
      customerPaymentData := Some(edited);
    }

    /** "Clear Saved Data": receipts, items and the payment table are dropped;
        the tracker is kept. */
    method ClearSavedData()
      modifies this
      ensures receipts == None && items == None && customerPaymentData == None
      ensures paymentTracker == old(paymentTracker)
    {
      receipts := None;
      items := None;
      customerPaymentData := None;
    }
  }

  // ---------------------------------------------------------------------
  // Reconciliation

  /** A customer the tracker does not know owes exactly the aggregated amount,
      with every tracked column at its default. */
  lemma UntrackedCustomer(s: Summary, tracker: Tracker)
    requires s.phone !in tracker
    ensures var v := ViewOf(s, tracker);
      && v.remainingAmount == s.amountDue
      && v.previousBalance == 0 && v.advanceAmount == 0 && v.amountPaid == 0 && v.advanceCF == 0
      && v.paymentStatus == Due && v.advanceGiven == "No"
      && v.address == "" && v.paymentMode == "" && v.receivedOn == "" && v.remarks == ""
      && !v.cashCollected && !v.cashDeposited
  {
  }

  /** A tracked customer shows the stored columns, and only the aggregate
      decides the amount due. */
  lemma TrackedCustomer(s: Summary, tracker: Tracker, e: ViewRow, now: string)
    requires s.phone in tracker && tracker[s.phone] == RecordOf(e, now)
    ensures SameTrackedFields(ViewOf(s, tracker), e)
    ensures ViewOf(s, tracker).remainingAmount ==
      Remaining(s.amountDue, e.previousBalance, e.advanceAmount, e.amountPaid)
  {
  }

  /** The payment table covers the aggregate: every row has its own phone,
      owes its group's total less what the tracker records, and the amounts
      due add up to the totals of the receipts that have a customer number. */
  lemma PaymentTableSpec(rs: seq<Receipt>, tracker: Tracker, data: seq<ViewRow>)
    requires |data| == |Aggregate(rs)|
    requires forall i :: 0 <= i < |data| ==> data[i] == ViewOf(Aggregate(rs)[i], tracker)
    ensures forall i, j :: 0 <= i < j < |data| ==> data[i].phone != data[j].phone
    ensures forall i :: 0 <= i < |data| ==>
      && HasKey(rs, data[i].phone) && Derived(data[i])
      && data[i].name == FirstName(rs, data[i].phone) && data[i].amountDue == GroupTotal(rs, data[i].phone)
    ensures forall k: DigitString :: HasKey(rs, k) ==> exists i :: 0 <= i < |data| && data[i].phone == k
    ensures SumDueOf(data) == KeyedTotal(rs)
  {
    var agg := Aggregate(rs);
    AggregateRows(rs);
    AggregateConserves(rs);
    forall i | 0 <= i < |data|
      ensures HasKey(rs, data[i].phone) && data[i].name == FirstName(rs, data[i].phone)
      ensures data[i].amountDue == GroupTotal(rs, data[i].phone)
    {
      assert data[i].phone == agg[i].phone;
    }
    forall k: DigitString | HasKey(rs, k) ensures exists i :: 0 <= i < |data| && data[i].phone == k {
      var i :| 0 <= i < |agg| && agg[i].phone == k;
      assert data[i].phone == k;
    }
    SumDueOfViews(agg, tracker, data);
  }

  /** `SumDue` of the aggregation, over payment rows instead of groups. */
  function SumDueOf(rows: seq<ViewRow>): int {
    if rows == [] then 0 else rows[0].amountDue + SumDueOf(rows[1..])
  }

  lemma {:induction false} SumDueOfViews(agg: seq<Summary>, tracker: Tracker, data: seq<ViewRow>)
    requires |data| == |agg|
    requires forall i :: 0 <= i < |data| ==> data[i] == ViewOf(agg[i], tracker)
    ensures SumDueOf(data) == SumDue(agg)
  {
    if data != [] {
      SumDueOfViews(agg[1..], tracker, data[1..]);
    }
  }

  // ---------------------------------------------------------------------
  // Save All

  /** Tracker entries of phones that were not edited are untouched. */
  lemma {:induction false} SavedFrame(tracker: Tracker, rows: seq<ViewRow>, now: string, p: string)
    requires forall i :: 0 <= i < |rows| ==> rows[i].phone != p
    ensures p in Saved(tracker, rows, now) <==> p in tracker
    ensures p in tracker ==> Saved(tracker, rows, now)[p] == tracker[p]
  {
    if rows != [] {
      SavedFrame(tracker, rows[..|rows| - 1], now, p);
    }
  }

  /** An edited phone holds the record built from the last edited row with
      that phone. */
  lemma {:induction false} SavedLast(tracker: Tracker, rows: seq<ViewRow>, now: string, i: nat)
    requires i < |rows|
    requires forall j :: i < j < |rows| ==> rows[j].phone != rows[i].phone
    ensures rows[i].phone in Saved(tracker, rows, now)
    ensures Saved(tracker, rows, now)[rows[i].phone] == RecordOf(rows[i], now)
  {
    if i < |rows| - 1 {
      SavedLast(tracker, rows[..|rows| - 1], now, i);
    }
  }

  /** The tracker's phones after Save All: those it had, and the edited ones. */
  lemma {:induction false} SavedKeys(tracker: Tracker, rows: seq<ViewRow>, now: string)
    ensures Saved(tracker, rows, now).Keys == tracker.Keys + set i | 0 <= i < |rows| :: rows[i].phone
  {
    if rows != [] {
      var front := rows[..|rows| - 1];
      SavedKeys(tracker, front, now);
      var s := set i | 0 <= i < |rows| :: rows[i].phone;
      var s' := set i | 0 <= i < |front| :: front[i].phone;
      assert s == s' + {rows[|rows| - 1].phone} by {
        forall x | x in s ensures x in s' + {rows[|rows| - 1].phone} {
          var i :| 0 <= i < |rows| && rows[i].phone == x;
          if i < |front| {
            assert front[i].phone == x;
          }
        }
        forall x | x in s' ensures x in s {
          var i :| 0 <= i < |front| && front[i].phone == x;
          assert rows[i].phone == x;
        }
      }
    }
  }

  /** Manual edits survive: after Save All, reconciling an edited customer
      shows every edited tracked column, the amount due of the current
      aggregate, and a remaining amount recomputed from both. */
  lemma EditsSurviveReconciliation(tracker: Tracker, rows: seq<ViewRow>, now: string, i: nat, s: Summary)
    requires i < |rows| && s.phone == rows[i].phone
    requires forall j :: i < j < |rows| ==> rows[j].phone != rows[i].phone
    ensures SameTrackedFields(ViewOf(s, Saved(tracker, rows, now)), rows[i])
    ensures ViewOf(s, Saved(tracker, rows, now)).remainingAmount ==
      Remaining(s.amountDue, rows[i].previousBalance, rows[i].advanceAmount, rows[i].amountPaid)
  {
    SavedLast(tracker, rows, now, i);
    TrackedCustomer(s, Saved(tracker, rows, now), rows[i], now);
  }

  /** Saving the payment table unedited changes nothing a later
      reconciliation shows, though it writes a full record for every row. */
  lemma SaveUneditedIsInvisible(summary: seq<Summary>, tracker: Tracker, now: string, k: nat)
    requires forall i, j :: 0 <= i < j < |summary| ==> summary[i].phone != summary[j].phone
    requires k < |summary|
    ensures var table := seq(|summary|, i requires 0 <= i < |summary| => ViewOf(summary[i], tracker));
      ViewOf(summary[k], Saved(tracker, table, now)) == ViewOf(summary[k], tracker)
  {
    var table := seq(|summary|, i requires 0 <= i < |summary| => ViewOf(summary[i], tracker));
    EditsSurviveReconciliation(tracker, table, now, k, summary[k]);
  }

  // ---------------------------------------------------------------------
  // The bill

  /** Receipts whose key is already normalised (a digit string with no leading
      zero, or missing) group exactly as a bill selects them. */
  ghost predicate StableKeys(rs: seq<Receipt>) {
    forall i :: 0 <= i < |rs| ==>
      rs[i].customerNumber.Missing? ||
      (rs[i].customerNumber.Text? && KeyOf(rs[i]) == Some(rs[i].customerNumber.digits))
  }

  lemma {:induction false} BillTotalIsGroupTotal(rs: seq<Receipt>, phone: string)
    requires StableKeys(rs)
    ensures BillTotal(rs, phone) == GroupTotal(rs, phone)
  {
    if rs != [] {
      assert StableKeys(rs[1..]) by {
        forall i | 0 <= i < |rs| - 1 ensures rs[1..][i] == rs[i + 1] {}
      }
      BillTotalIsGroupTotal(rs[1..], phone);
    }
  }

  /** Normalisation is stable on the imported receipts when no key begins
      with a 0. */
  lemma ImportedKeysStable(raw: seq<Receipt>)
    requires forall r :: r in raw && r.paymentMode == Credit && Normalize(r.customerNumber).Some? ==>
      Canonical(Normalize(r.customerNumber).value)
    ensures StableKeys(CreditReceipts(raw))
  {
    var kept := CreditReceipts(raw);
    CreditReceiptsOrigin(raw);
    forall i | 0 <= i < |kept|
      ensures kept[i].customerNumber.Missing? ||
        (kept[i].customerNumber.Text? && KeyOf(kept[i]) == Some(kept[i].customerNumber.digits))
    {
      assert kept[i] in kept;
      var r :| r in raw && r.paymentMode == Credit && kept[i] == WithKey(r);
      if Normalize(r.customerNumber).Some? {
        NormalizeIdempotent(r.customerNumber);
      }
    }
  }

  /** A bill printed from a freshly reconciled row asks for exactly that row's
      remaining amount, when no key begins with a 0. */
  lemma BillMatchesPaymentTable(raw: seq<Receipt>, tracker: Tracker, i: nat)
    requires forall r :: r in raw && r.paymentMode == Credit && Normalize(r.customerNumber).Some? ==>
      Canonical(Normalize(r.customerNumber).value)
    requires i < |Aggregate(CreditReceipts(raw))|
    ensures var row := ViewOf(Aggregate(CreditReceipts(raw))[i], tracker);
      FinalAmount(CreditReceipts(raw), row) == row.remainingAmount
  {
    var kept := CreditReceipts(raw);
    ImportedKeysStable(raw);
    AggregateRows(kept);
    BillTotalIsGroupTotal(kept, Aggregate(kept)[i].phone);
  }

  /** With a key that begins with 0 the bill finds no receipt: the number
      910123456789 is stored as 0123456789 but listed under 123456789. */
  lemma BillMissesLeadingZeroKey(r: Receipt)
    requires r.customerNumber == Numeric(910_123_456_789.0) && r.paymentMode == Credit && r.total == 500
    ensures var agg := Aggregate(CreditReceipts([r]));
      |agg| == 1 && agg[0].phone == "123456789" && agg[0].amountDue == 500
    ensures BillTotal(CreditReceipts([r]), "123456789") == 0
  {
    RenormalizeDropsLeadingZero(r.customerNumber);
    var kept := CreditReceipts([r]);
    assert kept == [WithKey(r)];
    assert kept[0].customerNumber == Text("0123456789");
    assert Aggregate(kept) == Absorb([], kept[0]) by {
      assert kept[..0] == [];
    }
  }

  /** Save All stores the edited rows as the payment table without
      recomputing them: a payment entered in the editor leaves the stored
      remaining amount as it was, while the bill recomputes it. */
  lemma SavedTableKeepsStaleRemaining(s: Summary, tracker: Tracker, rs: seq<Receipt>, now: string)
    requires s.phone !in tracker && s.amountDue == 15000
    requires BillTotal(rs, s.phone) == 15000
    ensures var edited := ViewOf(s, tracker).(amountPaid := 6000);
      && edited.remainingAmount == 15000
      && FinalAmount(rs, edited) == 9000
      && ViewOf(s, Saved(tracker, [edited], now)).remainingAmount == 9000
  {
    var edited := ViewOf(s, tracker).(amountPaid := 6000);
    EditsSurviveReconciliation(tracker, [edited], now, 0, s);
  }

  // ---------------------------------------------------------------------
  // Worked scenarios, amounts in paise

  /** A subscriber billed once with the country code and once without is one
      customer owing both totals. */
  lemma TwoFormsOneCustomer(r1: Receipt, r2: Receipt)
    requires r1.customerNumber == Numeric(919_876_543_210.0) && r2.customerNumber == Text("9876543210")
    requires r1.paymentMode == Credit && r2.paymentMode == Credit
    requires r1.total == 10000 && r2.total == 5000
    ensures var agg := Aggregate(CreditReceipts([r1, r2]));
      |agg| == 1 && agg[0].phone == "9876543210" && agg[0].amountDue == 15000
  {
    SameSubscriberSameKey(r1.customerNumber, r2.customerNumber);
    SharedKeyOneCustomer(r1, r2, "9876543210");
  }

  lemma SharedKeyOneCustomer(r1: Receipt, r2: Receipt, k: DigitString)
    requires r1.paymentMode == Credit && r2.paymentMode == Credit
    requires Normalize(r1.customerNumber) == Some(k) == Normalize(r2.customerNumber) && Canonical(k)
    ensures var agg := Aggregate(CreditReceipts([r1, r2]));
      |agg| == 1 && agg[0].phone == k && agg[0].amountDue == r1.total + r2.total
  {
    NormalizeIdempotent(r1.customerNumber);
    CreditPair(r1, r2);
    var kept := CreditReceipts([r1, r2]);
    assert KeyOf(kept[0]) == Some(k) == KeyOf(kept[1]);
    PairTotal(kept, k);
    var agg := Aggregate(kept);
    AggregateRows(kept);
    assert HasKey(kept, k);
    forall i | 0 <= i < |agg| ensures agg[i].phone == k {
      var j :| 0 <= j < |kept| && KeyOf(kept[j]) == Some(agg[i].phone);
    }
    OnlyRow(agg, k);
  }

  lemma OnlyRow(agg: seq<Summary>, k: string)
    requires forall i, j :: 0 <= i < j < |agg| ==> agg[i].phone != agg[j].phone
    requires forall i :: 0 <= i < |agg| ==> agg[i].phone == k
    requires exists i :: 0 <= i < |agg| && agg[i].phone == k
    ensures |agg| == 1
  {
    if |agg| > 1 {
      FirstTwoDiffer(agg);
      assert false;
    }
  }

  lemma FirstTwoDiffer(agg: seq<Summary>)
    requires |agg| > 1
    requires forall i, j :: 0 <= i < j < |agg| ==> agg[i].phone != agg[j].phone
    ensures agg[0].phone != agg[1].phone
  {
  }

  lemma CreditPair(r1: Receipt, r2: Receipt)
    requires r1.paymentMode == Credit && r2.paymentMode == Credit
    ensures CreditReceipts([r1, r2]) == [WithKey(r1), WithKey(r2)]
  {
    assert [r1, r2][1..] == [r2];
    assert [r2][1..] == [];
  }

  lemma PairTotal(kept: seq<Receipt>, k: string)
    requires |kept| == 2 && KeyOf(kept[0]) == Some(k) == KeyOf(kept[1])
    ensures GroupTotal(kept, k) == kept[0].total + kept[1].total
  {
    assert kept[1..][0] == kept[1] && kept[1..][1..] == [];
    assert GroupTotal(kept[1..], k) == kept[1].total;
  }

  /** A previous balance of 20.00 and an advance of 10.00 saved against a
      customer owing 150.00 with nothing paid leave 160.00 to pay. */
  lemma BulkUpsertScenario(s: Summary, tracker: Tracker, row: ViewRow, now: string)
    requires s.amountDue == 15000 && row.phone == s.phone
    requires row.previousBalance == 2000 && row.advanceAmount == 1000 && row.amountPaid == 0
    ensures var v := ViewOf(s, Saved(tracker, [row], now));
      v.remainingAmount == 16000 && v.advanceGiven == "Yes" && SameTrackedFields(v, row)
  {
    EditsSurviveReconciliation(tracker, [row], now, 0, s);
  }
}
