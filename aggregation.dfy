/** Per-customer aggregation of the credit receipts: pandas
    `groupby('NormalizedPhone', dropna=True).agg({'CustomerName': 'first',
    'Total': 'sum'})`. Groups come out ordered by key, as pandas sorts group
    keys; `first` takes the first name that is not missing. */
module Aggregation {
  import opened Phones
  import opened Receipts

  /** One aggregated customer; `amountDue` is in paise. */
  datatype Summary = Summary(phone: DigitString, name: Option<string>, amountDue: int)

  /** The group key of a receipt: its customer number normalised (again). */
  function KeyOf(r: Receipt): Option<DigitString> {
    Normalize(r.customerNumber)
  }

  /** Python's `<` on strings: lexicographic by code point. */
  predicate Below(a: string, b: string) {
    if a == [] then b != []
    else if b == [] then false
    else if a[0] != b[0] then a[0] < b[0]
    else Below(a[1..], b[1..])
  }

  lemma {:induction false} BelowIrreflexive(a: string)
    ensures !Below(a, a)
  {
    if a != [] {
      BelowIrreflexive(a[1..]);
    }
  }

  lemma {:induction false} BelowTransitive(a: string, b: string, c: string)
    requires Below(a, b) && Below(b, c)
    ensures Below(a, c)
  {
    if a != [] && b != [] && c != [] && a[0] == b[0] == c[0] {
      BelowTransitive(a[1..], b[1..], c[1..]);
    }
  }

  lemma {:induction false} BelowTotal(a: string, b: string)
    requires a != b
    ensures Below(a, b) || Below(b, a)
  {
    if a != [] && b != [] && a[0] == b[0] {
      assert a == [a[0]] + a[1..] && b == [b[0]] + b[1..];
      BelowTotal(a[1..], b[1..]);
    }
  }

  /** Rows strictly ascending by phone, hence one row per phone. */
  ghost predicate Ascending(rows: seq<Summary>) {
    forall i, j :: 0 <= i < j < |rows| ==> Below(rows[i].phone, rows[j].phone)
  }

  /** The first row for phone `k`, if any. */
  function Find(rows: seq<Summary>, k: string): (r: Option<Summary>)
    ensures r.Some? ==> r.value in rows && r.value.phone == k
    ensures r.None? <==> forall i :: 0 <= i < |rows| ==> rows[i].phone != k
  {
    if rows == [] then None
    else if rows[0].phone == k then Some(rows[0])
    else Find(rows[1..], k)
  }

  /** `first` on a column: the earlier value unless it is missing. */
  function FirstPresent(earlier: Option<string>, later: Option<string>): Option<string> {
    if earlier.Some? then earlier else later
  }

  /** The group `k` after one more receipt with that key. */
  function Added(group: Option<Summary>, k: DigitString, name: Option<string>, total: int): Summary {
    match group
    case None => Summary(k, name, total)
    case Some(s) => Summary(k, FirstPresent(s.name, name), s.amountDue + total)
  }

  /** Adds one receipt with key `k` to rows kept in ascending order. */
  function Merge(rows: seq<Summary>, k: DigitString, name: Option<string>, total: int): (merged: seq<Summary>)
    ensures |merged| == |rows| || |merged| == |rows| + 1
  {
    if rows == [] then [Summary(k, name, total)]
    else if rows[0].phone == k then [Added(Some(rows[0]), k, name, total)] + rows[1..]
    else if Below(k, rows[0].phone) then [Summary(k, name, total)] + rows
    else [rows[0]] + Merge(rows[1..], k, name, total)
  }

  /** The aggregation, as a left fold over the receipts in input order;
      receipts without a key are dropped. */
  function Aggregate(rs: seq<Receipt>): (groups: seq<Summary>)
    ensures |groups| <= |rs|
  {
    if rs == [] then [] else Absorb(Aggregate(rs[..|rs| - 1]), rs[|rs| - 1])
  }

  /** One step of the fold: a receipt with a key joins its group; one without
      is dropped. */
  function Absorb(rows: seq<Summary>, r: Receipt): seq<Summary> {
    match KeyOf(r)
    case None => rows
    case Some(k) => Merge(rows, k, r.customerName, r.total)
  }

  // ---------------------------------------------------------------------
  // The meaning of the aggregation, defined on the receipts directly

  ghost predicate HasKey(rs: seq<Receipt>, k: string) {
    exists i :: 0 <= i < |rs| && KeyOf(rs[i]) == Some(k)
  }

  /** Sum of `Total` over the receipts whose key is `k`. */
  function GroupTotal(rs: seq<Receipt>, k: string): int {
    if rs == [] then 0
    else (if KeyOf(rs[0]) == Some(k) then rs[0].total else 0) + GroupTotal(rs[1..], k)
  }

  /** The first name present among the receipts whose key is `k`. */
  function FirstName(rs: seq<Receipt>, k: string): Option<string> {
    if rs == [] then None
    else if KeyOf(rs[0]) == Some(k) && rs[0].customerName.Some? then rs[0].customerName
    else FirstName(rs[1..], k)
  }

  /** Sum of `Total` over the receipts that have a key. */
  function KeyedTotal(rs: seq<Receipt>): int {
    if rs == [] then 0
    else (if KeyOf(rs[0]).Some? then rs[0].total else 0) + KeyedTotal(rs[1..])
  }

  function SumDue(rows: seq<Summary>): int {
    if rows == [] then 0 else rows[0].amountDue + SumDue(rows[1..])
  }

  // ---------------------------------------------------------------------
  // The reference functions, one receipt at the end

  lemma {:induction false} GroupTotalSnoc(rs: seq<Receipt>, r: Receipt, k: string)
    ensures GroupTotal(rs + [r], k) == GroupTotal(rs, k) + (if KeyOf(r) == Some(k) then r.total else 0)
  {
    if rs != [] {
      assert (rs + [r])[1..] == rs[1..] + [r];
      GroupTotalSnoc(rs[1..], r, k);
    }
  }

  lemma {:induction false} FirstNameSnoc(rs: seq<Receipt>, r: Receipt, k: string)
    ensures FirstName(rs + [r], k) ==
      FirstPresent(FirstName(rs, k), if KeyOf(r) == Some(k) then r.customerName else None)
  {
    if rs != [] {
      assert (rs + [r])[1..] == rs[1..] + [r];
      FirstNameSnoc(rs[1..], r, k);
    }
  }

  lemma {:induction false} KeyedTotalSnoc(rs: seq<Receipt>, r: Receipt)
    ensures KeyedTotal(rs + [r]) == KeyedTotal(rs) + (if KeyOf(r).Some? then r.total else 0)
  {
    if rs != [] {
      assert (rs + [r])[1..] == rs[1..] + [r];
      KeyedTotalSnoc(rs[1..], r);
    }
  }

  // ---------------------------------------------------------------------
  // Merge

  /** Merge keeps the rows ascending. */
  lemma {:induction false} MergeAscending(rows: seq<Summary>, k: DigitString, name: Option<string>, total: int)
    requires Ascending(rows)
    ensures Ascending(Merge(rows, k, name, total))
    ensures forall i :: 0 <= i < |Merge(rows, k, name, total)| ==>
      Merge(rows, k, name, total)[i].phone == k || Merge(rows, k, name, total)[i] in rows
  {
    var m := Merge(rows, k, name, total);
    if rows == [] {
    } else if rows[0].phone == k {
      assert m[1..] == rows[1..];
    } else if Below(k, rows[0].phone) {
      forall j | 1 <= j < |m| ensures Below(m[0].phone, m[j].phone) {
        if j > 1 {
          BelowTransitive(k, rows[0].phone, rows[j - 1].phone);
        }
      }
    } else {
      var tail := Merge(rows[1..], k, name, total);
      MergeAscending(rows[1..], k, name, total);
      BelowTotal(k, rows[0].phone);
      forall j | 0 < j < |m| ensures Below(m[0].phone, m[j].phone) {
        assert m[j] == tail[j - 1];
        if tail[j - 1].phone != k {
          assert tail[j - 1] in rows[1..];
        }
      }
    }
  }

  /** After Merge, the group `k` has absorbed the receipt and every other group
      is as it was. */
  lemma {:induction false} MergeFind(rows: seq<Summary>, k: DigitString, name: Option<string>, total: int, q: string)
    requires Ascending(rows)
    ensures Find(Merge(rows, k, name, total), q) ==
      if q == k then Some(Added(Find(rows, k), k, name, total)) else Find(rows, q)
  {
    if rows == [] {
    } else if rows[0].phone == k {
    } else if Below(k, rows[0].phone) {
      if q == k {
        assert Find(rows, k) == None by {
          forall i | 0 <= i < |rows| ensures rows[i].phone != k {
            if i > 0 {
              BelowTransitive(k, rows[0].phone, rows[i].phone);
            }
            BelowIrreflexive(k);
          }
        }
      }
    } else {
      MergeFind(rows[1..], k, name, total, q);
    }
  }

  lemma {:induction false} MergeSum(rows: seq<Summary>, k: DigitString, name: Option<string>, total: int)
    ensures SumDue(Merge(rows, k, name, total)) == SumDue(rows) + total
  {
    if rows != [] && rows[0].phone != k && !Below(k, rows[0].phone) {
      MergeSum(rows[1..], k, name, total);
    }
  }

  // ---------------------------------------------------------------------
  // The aggregation

  /** The row the aggregate must hold for key `k`, if any. */
  ghost function ExpectedGroup(rs: seq<Receipt>, k: DigitString): Option<Summary> {
    if HasKey(rs, k) then Some(Summary(k, FirstName(rs, k), GroupTotal(rs, k))) else None
  }

  /** The aggregate holds, for each key present among the receipts, exactly one
      row, whose name is the group's first present name and whose amount is
      the group's total; it holds no other row. */
  lemma {:induction false} AggregateSpec(rs: seq<Receipt>)
    ensures Ascending(Aggregate(rs))
    ensures forall k: DigitString :: Find(Aggregate(rs), k) == ExpectedGroup(rs, k)
  {
    if rs != [] {
      var front, r := rs[..|rs| - 1], rs[|rs| - 1];
      assert rs == front + [r];
      AggregateSpec(front);
      forall k: DigitString ensures Find(Aggregate(rs), k) == ExpectedGroup(rs, k) {
        AggregateStep(front, r, k);
      }
      match KeyOf(r)
      case None =>
      case Some(kr) =>
        MergeAscending(Aggregate(front), kr, r.customerName, r.total);
    }
  }

  /** One receipt more, seen from group `k`. */
  lemma AggregateStep(front: seq<Receipt>, r: Receipt, k: DigitString)
    requires Ascending(Aggregate(front))
    requires Find(Aggregate(front), k) == ExpectedGroup(front, k)
    ensures Find(Aggregate(front + [r]), k) == ExpectedGroup(front + [r], k)
  {
    var rs := front + [r];
    assert rs[..|rs| - 1] == front && rs[|rs| - 1] == r;
    AbsorbFind(Aggregate(front), r, k);
    ExpectedSnoc(front, r, k);
  }

  lemma AbsorbFind(rows: seq<Summary>, r: Receipt, k: DigitString)
    requires Ascending(rows)
    ensures Find(Absorb(rows, r), k) ==
      if KeyOf(r) == Some(k) then Some(Added(Find(rows, k), k, r.customerName, r.total)) else Find(rows, k)
  {
    match KeyOf(r)
    case None =>
    case Some(kr) =>
      MergeFind(rows, kr, r.customerName, r.total, k);
  }

  lemma ExpectedSnoc(front: seq<Receipt>, r: Receipt, k: DigitString)
    ensures ExpectedGroup(front + [r], k) ==
      if KeyOf(r) == Some(k) then Some(Added(ExpectedGroup(front, k), k, r.customerName, r.total))
      else ExpectedGroup(front, k)
  {
    GroupTotalSnoc(front, r, k);
    FirstNameSnoc(front, r, k);
    HasKeySnoc(front, r, k);
    if !HasKey(front, k) {
      NoKeyNoGroup(front, k);
    }
  }

  lemma HasKeySnoc(rs: seq<Receipt>, r: Receipt, k: string)
    ensures HasKey(rs + [r], k) <==> HasKey(rs, k) || KeyOf(r) == Some(k)
  {
    if HasKey(rs + [r], k) {
      var i :| 0 <= i < |rs + [r]| && KeyOf((rs + [r])[i]) == Some(k);
      if i < |rs| {
        assert (rs + [r])[i] == rs[i];
      }
    }
    if HasKey(rs, k) {
      var i :| 0 <= i < |rs| && KeyOf(rs[i]) == Some(k);
      assert (rs + [r])[i] == rs[i];
    }
    if KeyOf(r) == Some(k) {
      assert (rs + [r])[|rs|] == r;
    }
  }

  lemma {:induction false} NoKeyNoGroup(rs: seq<Receipt>, k: string)
    requires !HasKey(rs, k)
    ensures GroupTotal(rs, k) == 0 && FirstName(rs, k) == None
  {
    if rs != [] {
      assert KeyOf(rs[0]) != Some(k);
      forall i | 0 <= i < |rs| - 1 ensures KeyOf(rs[1..][i]) != Some(k) {
        assert rs[1..][i] == rs[i + 1];
      }
      NoKeyNoGroup(rs[1..], k);
    }
  }

  /** In ascending rows, each row is the one Find returns for its phone. */
  lemma FindAt(rows: seq<Summary>, i: nat)
    requires Ascending(rows) && i < |rows|
    ensures Find(rows, rows[i].phone) == Some(rows[i])
  {
    if i > 0 {
      BelowIrreflexive(rows[i].phone);
      assert rows[0].phone != rows[i].phone;
      assert Ascending(rows[1..]);
      FindAt(rows[1..], i - 1);
    }
  }

  /** Row by row: phones are distinct; each row is a key present among the
      receipts, named by its first present name, owing its group's total; and
      every key present among the receipts has a row. */
  lemma AggregateRows(rs: seq<Receipt>)
    ensures forall i, j :: 0 <= i < j < |Aggregate(rs)| ==> Aggregate(rs)[i].phone != Aggregate(rs)[j].phone
    ensures forall i :: 0 <= i < |Aggregate(rs)| ==>
      var row := Aggregate(rs)[i];
      HasKey(rs, row.phone) && row.name == FirstName(rs, row.phone) && row.amountDue == GroupTotal(rs, row.phone)
    ensures forall k: DigitString :: HasKey(rs, k) ==> exists i :: 0 <= i < |Aggregate(rs)| && Aggregate(rs)[i].phone == k
  {
    var agg := Aggregate(rs);
    AggregateSpec(rs);
    forall i, j | 0 <= i < j < |agg| ensures agg[i].phone != agg[j].phone {
      BelowIrreflexive(agg[i].phone);
    }
    forall i | 0 <= i < |agg|
      ensures HasKey(rs, agg[i].phone) && agg[i].name == FirstName(rs, agg[i].phone) && agg[i].amountDue == GroupTotal(rs, agg[i].phone)
    {
      FindAt(agg, i);
      assert Find(agg, agg[i].phone) == ExpectedGroup(rs, agg[i].phone);
    }
    forall k: DigitString | HasKey(rs, k) ensures exists i :: 0 <= i < |agg| && agg[i].phone == k {
      assert Find(agg, k) == ExpectedGroup(rs, k);
    }
  }

  /** Conservation of totals: the amounts due add up to the totals of all
      receipts that have a customer number. */
  lemma {:induction false} AggregateConserves(rs: seq<Receipt>)
    ensures SumDue(Aggregate(rs)) == KeyedTotal(rs)
  {
    if rs != [] {
      var front, r := rs[..|rs| - 1], rs[|rs| - 1];
      assert rs == front + [r];
      AggregateConserves(front);
      KeyedTotalSnoc(front, r);
      assert Aggregate(rs) == Absorb(Aggregate(front), r);
      match KeyOf(r)
      case None =>
      case Some(k) =>
        MergeSum(Aggregate(front), k, r.customerName, r.total);
    }
  }

  // ---------------------------------------------------------------------
  // From the uploaded export to the groups

  /** The credit receipts of an export whose key after upload is `k`, summed
      in input order. */
  function CreditTotal(raw: seq<Receipt>, k: string): int {
    if raw == [] then 0
    else
      var counted := raw[0].paymentMode == Credit && KeyOf(WithKey(raw[0])) == Some(k);
      (if counted then raw[0].total else 0) + CreditTotal(raw[1..], k)
  }

  /** The name of the first credit receipt of an export, in input order,
      whose key after upload is `k` and whose name is present. */
  function CreditFirstName(raw: seq<Receipt>, k: string): Option<string> {
    if raw == [] then None
    else if raw[0].paymentMode == Credit && KeyOf(WithKey(raw[0])) == Some(k) && raw[0].customerName.Some? then
      raw[0].customerName
    else CreditFirstName(raw[1..], k)
  }

  /** The credit receipts of an export that have a key after upload, summed. */
  function CreditKeyedTotal(raw: seq<Receipt>): int {
    if raw == [] then 0
    else
      var counted := raw[0].paymentMode == Credit && KeyOf(WithKey(raw[0])).Some?;
      (if counted then raw[0].total else 0) + CreditKeyedTotal(raw[1..])
  }

  /** Grouping the uploaded receipts sees the export's credit receipts in
      their input order, each once: a group's total and first name, and the
      sum over all groups, are those of the credit receipts of the export. */
  lemma {:induction false} UploadedGroups(raw: seq<Receipt>, k: string)
    ensures GroupTotal(CreditReceipts(raw), k) == CreditTotal(raw, k)
    ensures FirstName(CreditReceipts(raw), k) == CreditFirstName(raw, k)
    ensures KeyedTotal(CreditReceipts(raw)) == CreditKeyedTotal(raw)
  {
    if raw != [] {
      UploadedGroups(raw[1..], k);
      var rest := CreditReceipts(raw[1..]);
      if raw[0].paymentMode == Credit {
        var kept := [WithKey(raw[0])] + rest;
        assert CreditReceipts(raw) == kept;
        assert kept[0] == WithKey(raw[0]) && kept[1..] == rest;
      } else {
        assert CreditReceipts(raw) == rest;
      }
    }
  }

  /** The payment table's amounts add up to the export's keyed credit
      receipts. */
  lemma UploadConserves(raw: seq<Receipt>)
    ensures SumDue(Aggregate(CreditReceipts(raw))) == CreditKeyedTotal(raw)
  {
    AggregateConserves(CreditReceipts(raw));
    UploadedGroups(raw, "");
  }
}
