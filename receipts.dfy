/** The credit/item filters applied when a point-of-sale export is uploaded:
    only credit receipts are kept, each with its customer number replaced by
    the normalised key, and only the item lines of kept receipts. */
module Receipts {
  import opened Phones

  const Credit: string := "Credit"
  const ItemEntry: string := "Item"

  /** One row of the `receipts` sheet; `total` is in paise. */
  datatype Receipt = Receipt(
    receiptId: string,
    customerName: Option<string>,
    customerNumber: RawPhone,
    total: int,
    paymentMode: string)

  /** One row of the `receiptsWithItems` sheet. */
  datatype ItemRow = ItemRow(
    receiptId: string,
    entryType: string,
    itemName: string,
    quantity: int,
    amount: int)

  /** The cell a normalised key is written back as: missing, or a digit string. */
  function KeyCell(k: Option<DigitString>): (c: RawPhone)
    ensures c.Missing? <==> k.None?
    ensures k.Some? ==> c == Text(k.value)
  {
    match k
    case None => Missing
    case Some(t) => Text(t)
  }

  /** The receipt with its customer number overwritten by its normalised key. */
  function WithKey(r: Receipt): (w: Receipt)
    ensures w.receiptId == r.receiptId && w.customerName == r.customerName
    ensures w.total == r.total && w.paymentMode == r.paymentMode
    ensures w.customerNumber == KeyCell(Normalize(r.customerNumber))
    ensures IsKeyCell(w.customerNumber) && (w.customerNumber.Missing? <==> r.customerNumber.Missing?)
  {
    r.(customerNumber := KeyCell(Normalize(r.customerNumber)))
  }

  /** True of a cell written back by the import: missing or a digit string. */
  predicate IsKeyCell(c: RawPhone) { c.Missing? || c.Text? }

  /** What the filter keeps of one receipt: the receipt with its key
      written in if it is a credit receipt, and nothing otherwise. */
  function CreditHead(r: Receipt): (h: seq<Receipt>)
    ensures |h| <= 1
    ensures h != [] <==> r.paymentMode == Credit
    ensures h != [] ==> h[0] == WithKey(r)
  {
    if r.paymentMode == Credit then [WithKey(r)] else []
  }

  /** The receipts kept at upload, in input order. */
  function CreditReceipts(raw: seq<Receipt>): (kept: seq<Receipt>)
    ensures |kept| <= |raw|
    ensures forall x :: x in kept ==> x.paymentMode == Credit && IsKeyCell(x.customerNumber)
    ensures forall r :: r in raw && r.paymentMode == Credit ==> WithKey(r) in kept
  {
    if raw == [] then []
    else
      CreditHead(raw[0]) + CreditReceipts(raw[1..])
  }

  /** Every kept receipt is a credit receipt of the input with its key
      written in. */
  lemma {:induction false} CreditReceiptsOrigin(raw: seq<Receipt>)
    ensures forall x :: x in CreditReceipts(raw) ==>
      exists r :: r in raw && r.paymentMode == Credit && x == WithKey(r)
  {
    if raw != [] {
      CreditReceiptsOrigin(raw[1..]);
      forall x | x in CreditReceipts(raw)
        ensures exists r :: r in raw && r.paymentMode == Credit && x == WithKey(r)
      {
        if x != WithKey(raw[0]) || raw[0].paymentMode != Credit {
          assert x in CreditReceipts(raw[1..]);
          var r :| r in raw[1..] && r.paymentMode == Credit && x == WithKey(r);
          assert r in raw;
        }
      }
    }
  }

  function ReceiptIds(rs: seq<Receipt>): (ids: set<string>)
    ensures forall r :: r in rs ==> r.receiptId in ids
    ensures forall id :: id in ids ==> exists r :: r in rs && r.receiptId == id
  {
    set r | r in rs :: r.receiptId
  }

  /** `items[items.ReceiptId.isin(ids)]`, in input order. */
  function ItemsOfReceipts(items: seq<ItemRow>, ids: set<string>): (out: seq<ItemRow>)
    ensures |out| <= |items|
    ensures forall x :: x in out <==> x in items && x.receiptId in ids
  {
    if items == [] then []
    else
      var rest := ItemsOfReceipts(items[1..], ids);
      if items[0].receiptId in ids then [items[0]] + rest else rest
  }

  /** `items[items.EntryType == 'Item']`, in input order. */
  function ItemLines(items: seq<ItemRow>): (out: seq<ItemRow>)
    ensures |out| <= |items|
    ensures forall x :: x in out <==> x in items && x.entryType == ItemEntry
  {
    if items == [] then []
    else
      var rest := ItemLines(items[1..]);
      if items[0].entryType == ItemEntry then [items[0]] + rest else rest
  }

  /** The item lines kept at upload, given the kept receipts. */
  function ImportItems(items: seq<ItemRow>, kept: seq<Receipt>): (out: seq<ItemRow>)
    ensures |out| <= |items|
    ensures forall x :: x in out <==> x in items && x.entryType == ItemEntry && x.receiptId in ReceiptIds(kept)
  {
    ItemLines(ItemsOfReceipts(items, ReceiptIds(kept)))
  }

  /** An item line is kept exactly when it is an `Item` entry of a kept credit
      receipt, so every kept line joins back to a customer through its
      receipt id. */
  lemma ImportItemsSpec(items: seq<ItemRow>, raw: seq<Receipt>, x: ItemRow)
    ensures x in ImportItems(items, CreditReceipts(raw)) <==>
      x in items && x.entryType == ItemEntry &&
      exists r :: r in raw && r.paymentMode == Credit && r.receiptId == x.receiptId
  {
    var kept := CreditReceipts(raw);
    if x in items && x.entryType == ItemEntry {
      if r :| r in raw && r.paymentMode == Credit && r.receiptId == x.receiptId {
        assert WithKey(r) in kept;
      }
    }
    if x in ImportItems(items, kept) {
      var k :| k in kept && k.receiptId == x.receiptId;
      CreditReceiptsOrigin(raw);
      var r :| r in raw && r.paymentMode == Credit && k == WithKey(r);
    }
  }
}
