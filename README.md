# Customer credit ledger: a Dafny model

A shop's point-of-sale export lists receipts and their item lines. The
Streamlit application `streamlit_app.py` turns that export into a
credit-customer ledger. This project models the ledger's core and proves
properties of it. The core has five parts.

- **Phone normalisation** (`normalize_phone`). A customer-number cell is
  truncated to an integer and written out in decimal. A 12-digit result that
  begins with `91` loses that country code. This string is the customer's
  key.
- **Upload filters.** Only `Credit` receipts are kept, each with its
  customer number replaced by its key. Only `Item` lines of kept receipts
  are kept.
- **Aggregation.** Receipts are grouped by key. Each group has its first
  non-missing name and the sum of its totals. Groups are in ascending key
  order, and receipts without a key are dropped.
- **Reconciliation.** Each group is joined with its payment-tracker entry,
  with a default for every absent field. The remaining amount is derived as
  `amount due + previous balance - advance - paid`.
- **"Save All Changes".** Every edited row replaces its phone's tracker
  entry wholesale.

The bill's final amount uses the same formula, with the amount due replaced
by the sum of the receipts whose stored customer number equals the selected
phone.

The model has four modules:

- `Phones` (`phones.dfy`): raw cells, the decimal-string arithmetic and
  normalisation.
- `Receipts` (`receipts.dfy`): the upload filters.
- `Aggregation` (`aggregation.dfy`): the group-by, as a left fold that
  inserts into ascending rows. It is proved against a definition on the
  receipts themselves: every key's group total and first name.
- `Ledger` (`ledger.dfy`): tracker records, the reconciled row, the Save All
  upsert, the bill total, and the `Session` class. `Session` holds the
  session state: receipts, items, tracker and payment table. Its methods
  update that state in place.

Amounts are whole paise (`int`). A phone cell is `Missing`, `Numeric` (a
non-negative real, as Excel supplies numbers) or `Text` (a digit string).

Three behaviours of the source are stated as lemmas.

- `Phones.RenormalizeDropsLeadingZero`: normalisation is applied twice, once
  at upload and again when the payment table is built. The second pass
  changes a key that begins with `0`. The number 910123456789 is stored as
  `0123456789`, but its group's key is `123456789`.
- `Ledger.BillMissesLeadingZeroKey`: the bill selects receipts by the group
  key. For such a customer it therefore finds none.
- `Ledger.SavedTableKeepsStaleRemaining`: Save All stores the edited rows
  as the payment table without recomputing their remaining amount. The
  bill, and a later reconciliation, recompute it.

## Model

| member | source | states |
|---|---|---|
| Phones.Normalize | streamlit_app.py:55-71 | A missing cell gives no key and every other cell gives one. A key never still has the shape of a 12-digit number beginning with 91. |
| Phones.Coerce | streamlit_app.py:61 | `str(int(float(phone)))` of a present cell is a digit string without leading zeros; `NormalizeTruncates`, `NormalizeTextAsNumber` and `ToDecimalParse` state its value. |
| Phones.ToDecimal | streamlit_app.py:60 | `str(int(...))` writes a number without leading zeros. |
| Phones.ToDecimalParse | streamlit_app.py:60 | Writing out the value of a digit string with no leading zero gives that string back. |
| Phones.CountryCodeRange | streamlit_app.py:63-64 | A truncated number has the country-code shape (12 digits, starting 91) exactly when it lies in 910000000000..919999999999. |
| Phones.NormalizeStripsCountryCode | streamlit_app.py:63-65 | A number in that range gives its last ten digits, zero-padded. |
| Phones.NormalizeKeepsOtherNumbers | streamlit_app.py:67-71 | Any other number gives its own decimal digits, whatever their length. |
| Phones.NormalizeTruncates | streamlit_app.py:60 | The fractional part of a number is dropped before anything else. |
| Phones.NormalizeTextAsNumber | streamlit_app.py:60 | A text cell of digits normalises as the number it spells. |
| Phones.NormalizeIdempotent | streamlit_app.py:142 | Normalising a key again gives the same key when the key does not begin with 0. |
| Phones.RenormalizeDropsLeadingZero | streamlit_app.py:142 | 910123456789 gives the key 0123456789, and normalising that again gives 123456789. |
| Phones.HelpTextExample | streamlit_app.py:823 | 917234002022 gives the key 7234002022. |
| Phones.SameSubscriberSameKey | streamlit_app.py:63-65 | 919876543210 as a number and 9876543210 as text get the same key. |
| Receipts.CreditReceipts | streamlit_app.py:500-510 | Every kept receipt is a credit receipt carrying a key cell, every credit receipt of the input is kept with its key written in, and nothing is added. |
| Receipts.CreditReceiptsOrigin | streamlit_app.py:503-508 | Every kept receipt is some credit receipt of the input with its key written in. |
| Receipts.CreditHead | streamlit_app.py:503-508 | Of one receipt the filter keeps at most one, and keeps it, with its key written in, exactly when it is a credit receipt. |
| Receipts.WithKey | streamlit_app.py:508 | The customer number is overwritten by the normalised key (missing when normalisation gives none), which is missing exactly when the number was missing and is otherwise a digit string; the receipt id, name, total and payment mode are unchanged. |
| Receipts.ItemsOfReceipts | streamlit_app.py:512-515 | An item line is kept exactly when its receipt id is among the kept receipts' ids. |
| Receipts.ItemLines | streamlit_app.py:516-518 | An item line is kept exactly when its entry type is `Item`. |
| Receipts.ImportItems | streamlit_app.py:512-519 | An item line is kept exactly when it is an `Item` entry whose receipt id is that of a kept receipt, and no line is added. |
| Receipts.ImportItemsSpec | streamlit_app.py:503-519 | An item line survives upload exactly when it is an `Item` entry of some credit receipt of the input. |
| Aggregation.BelowTransitive | streamlit_app.py:146 | The key order used by the group-by is transitive. |
| Aggregation.BelowTotal | streamlit_app.py:146 | Any two distinct keys are ordered. |
| Aggregation.BelowIrreflexive | streamlit_app.py:146 | No key is below itself. |
| Aggregation.Aggregate | streamlit_app.py:146-150 | There are never more groups than receipts; `AggregateSpec` states what each group holds. |
| Aggregation.AggregateSpec | streamlit_app.py:146-150 | The groups are in strictly ascending key order. A key has a group exactly when some receipt has that key, and the group holds the first present name and the sum of the totals of the receipts with that key. |
| Aggregation.AggregateRows | streamlit_app.py:146-150 | Each group's key is distinct. Each group carries its key's first name and total. Every key of the receipts has a group. |
| Aggregation.AggregateConserves | streamlit_app.py:146-150 | The groups' amounts add up to the totals of all receipts that have a key; only keyless receipts are lost. |
| Aggregation.UploadedGroups | streamlit_app.py:503-510 | Grouping the uploaded receipts sees the export's credit receipts in input order, each once: each key's total and first name, and the keyed total, are those of the export's credit receipts with that key. |
| Aggregation.UploadConserves | streamlit_app.py:146-150 | The groups' amounts after an upload add up to the totals of the export's credit receipts that have a key. |
| Aggregation.Find | streamlit_app.py:146-150 | Looking a key up returns a group with that key, and returns none only when no group has it. |
| Ledger.EntryFor | streamlit_app.py:160 | A phone's tracker entry is the stored one, or one with every one of its thirteen fields absent. |
| Ledger.ViewOf | streamlit_app.py:153-186 | A payment row keeps the group's name, phone and amount due. Its remaining amount follows the formula and its advance flag is "Yes" exactly when the advance is positive. |
| Ledger.ViewOfStoredOrDefault | streamlit_app.py:160-185 | Each tracked column is the stored value when the customer has a tracker entry holding that field, and otherwise its default (empty text, zero, "Due", false), field by field. |
| Ledger.PartialEntry | streamlit_app.py:160-167 | An entry that stores only a previous balance yields that balance, status "Due", advance flag "No" and a remaining amount of the amount due plus the balance. |
| Ledger.UntrackedCustomer | streamlit_app.py:160-186 | A customer absent from the tracker shows every default and owes exactly the amount due. |
| Ledger.TrackedCustomer | streamlit_app.py:160-186 | A customer with a saved record shows every saved column, and the remaining amount combines them with the current amount due. |
| Ledger.PaymentTableSpec | streamlit_app.py:146-188 | The payment table has exactly one row per key: phones are distinct, every row's phone is a key of the receipts, and every key has a row. Every row is derived and carries its key's first name and group total. The amounts due add up to the keyed receipts' totals. |
| Ledger.Session.constructor | streamlit_app.py:74-87 | A session starts from the saved receipts, items and tracker, with no payment table yet. |
| Ledger.Session.InitializeCustomerPaymentData | streamlit_app.py:135-188 | Without receipts there is no table. Otherwise row i is the reconciled row of group i, and nothing is written. |
| Ledger.Session.Upload | streamlit_app.py:496-522 | Receipts, items and payment table are replaced by the filtered export and its reconciliation. The tracker is unchanged. |
| Ledger.Session.SaveAll | streamlit_app.py:671-699 | The tracker becomes the old tracker with every edited row's phone replaced by that row's record. The edited rows become the payment table. Receipts and items are unchanged. |
| Ledger.Session.ClearSavedData | streamlit_app.py:537-546 | Receipts, items and payment table are dropped. The tracker is kept. |
| Ledger.RecordOf | streamlit_app.py:676-691 | The record written for a row is stamped with the save time, and reading it back for that phone shows every tracked column of the row; `EditsSurviveReconciliation` states the consequence for a whole save. |
| Ledger.Saved | streamlit_app.py:673-691 | A save removes no phone and leaves every edited phone present; `SavedFrame`, `SavedLast` and `SavedKeys` state the rest of its meaning. |
| Ledger.SavedFrame | streamlit_app.py:674-691 | A phone no edited row carries is neither added, removed nor changed. |
| Ledger.SavedLast | streamlit_app.py:674-691 | An edited phone holds the record of the last edited row with that phone, stamped with the save time. |
| Ledger.SavedKeys | streamlit_app.py:674-691 | After a save, the tracker's phones are the old phones plus the edited ones. |
| Ledger.EditsSurviveReconciliation | streamlit_app.py:674-691 | Reconciling after a save shows every edited tracked column and recomputes the remaining amount from them and the current amount due. |
| Ledger.SaveUneditedIsInvisible | streamlit_app.py:674-691 | Saving the table unedited leaves every customer's reconciled row exactly as it was. |
| Ledger.BillTotal | streamlit_app.py:756-758 | A phone that no stored customer number equals gets a total of 0; `BillTotalIsGroupTotal` relates it to the groups. |
| Ledger.FinalAmount | streamlit_app.py:440 | For a derived row whose amount due equals the bill's receipt total, the final amount is the row's remaining amount; `BillMatchesPaymentTable` says when that holds. |
| Ledger.BillTotalIsGroupTotal | streamlit_app.py:756-758 | When every stored customer number equals its key, the bill's receipt total for a phone is that phone's group total. |
| Ledger.ImportedKeysStable | streamlit_app.py:142 | If no credit receipt's key begins with 0, every stored customer number is missing or equal to its own key. |
| Ledger.BillMatchesPaymentTable | streamlit_app.py:440 | Under that proviso, a bill printed from a freshly reconciled row asks for exactly that row's remaining amount. |
| Ledger.BillMissesLeadingZeroKey | streamlit_app.py:756-758 | A credit receipt of 910123456789 forms the group 123456789 owing 500, while the bill for that phone finds receipts worth 0. |
| Ledger.SavedTableKeepsStaleRemaining | streamlit_app.py:694 | After a payment of 60.00 is entered against 150.00 due and saved, the stored row still shows 150.00 remaining, while the bill and a new reconciliation give 90.00. |
| Ledger.TwoFormsOneCustomer | streamlit_app.py:146-150 | Receipts of 100.00 on 919876543210 and 50.00 on 9876543210 form one customer 9876543210 owing 150.00. |
| Ledger.SharedKeyOneCustomer | streamlit_app.py:146-150 | Two credit receipts with the same key, which does not begin with 0, form one group owing both totals. |
| Ledger.BulkUpsertScenario | streamlit_app.py:167 | A saved previous balance of 20.00 and an advance of 10.00 against 150.00 due with nothing paid leave 160.00, and the advance flag reads "Yes". |

## Left out

- Password gate, Excel reading, pickle and JSON persistence, logo upload, PDF layout, the dashboard and the table's search filters: user interface and file I/O. The saved receipts, items and tracker are constructor parameters.
- `datetime.now()` in Save All is a parameter `now`. It is taken once per save, whereas the source reads the clock once per row.
- Ledger.Session.SaveAll: the edited rows are arbitrary rows. Rows the editor adds with no phone, and the JSON conversion of a `None` key to `"null"`, are not modelled.
- Phones.Normalize: numbers are exact reals. Float rounding at 2^53 and above and negative numbers are not modelled. Text cells that are not pure digit strings (with spaces, a sign, a decimal point or an exponent, which `float()` accepts, or text it rejects) are not modelled either.
- Amounts are integer paise. Floating-point totals and NaN totals, which pandas' `sum` skips, are not modelled.
- The aggregation's `'CustomerNumber': 'first'` column is computed by the source but never read, so it is not modelled.
- Tracker fields are absent or present values, and an absent field reads as its default. A row with a cleared editor cell makes Save All store a JSON `null` or NaN. The source's `.get` then returns that value rather than the default, so the remaining amount becomes NaN or line 167 raises. Cleared editor cells and stored null or NaN values are not modelled.
- The source has no operation that records a single payment. Save All is the only write to the tracker that is saved to its file.
- Bill generation (`streamlit_app.py:777-782`) updates the tracker entry it reads in place, overwriting its previous balance, advance and paid amount with the selected row's. The write is not saved and the tracker is reloaded from its file on the next run; this aliasing is not modelled, and the model's bill reads those three amounts from the row.
- Clearing saved data keeps the payment tracker and its file, as the source does.
- The lazy initialisation of the payment table on a rerun (`streamlit_app.py:597-598`) is the same call as `InitializeCustomerPaymentData` and is not modelled separately.
