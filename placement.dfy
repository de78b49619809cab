/**
 * The item placement screen: receiving goods against a purchase order. The form numbers the
 * delivery trip, works out how much of the order line has been received and is outstanding,
 * validates its fields, and on submission records the placement in the list of recent ones.
 */
module ItemPlacement {
  import opened Wrappers
  import opened Text
  import opened Seqs

  datatype Status = Open | Closed

  /** The form's state; `trip`, `qtyOutstanding`, `totalReceived` and `status` are calculated fields. */
  datatype PlacementForm = PlacementForm(
    dateReceived: string,
    locationRack: string,
    poNumber: string,
    vendor: string,
    sku: string,
    qtyPo: int,
    trip: int,
    noSuratJalan: string,
    qtyPallet: int,
    qtyPcs: int,
    qtyOutstanding: int,
    totalReceived: int,
    status: Status)

  /** An entry of the recent placements list. */
  datatype PlacementRecord = PlacementRecord(
    id: int,
    dateReceived: string,
    location: string,
    poNumber: string,
    vendor: string,
    sku: string,
    qtyPo: int,
    trip: int,
    noSuratJalan: string,
    qtyPallet: int,
    qtyPcs: int,
    qtyOutstanding: int,
    totalReceived: int,
    status: Status)

  datatype PoLine = PoLine(code: string, name: string, qty: int)
  datatype PurchaseOrder = PurchaseOrder(number: string, vendor: string, skus: seq<PoLine>)

  /** The purchase orders the screen offers. */
  const PurchaseOrders: seq<PurchaseOrder> := [
    PurchaseOrder("PO224662", "PT TRESNO BUKO", [PoLine("99001A", "THERMAL SUGAR WATER", 300)]),
    PurchaseOrder("PO224663", "PT THERMAL INDO", [PoLine("99002B", "THERMAL SUGAR WATER+", 500)]),
    PurchaseOrder("PO224664", "PT SUGAR WORKS", [PoLine("99003C", "THERMAL WATER", 250)])
  ]

  /** The placement the recent list starts with. */
  const SeedRecord := PlacementRecord(
    1, "2025-01-03", "SA366", "PO224662", "PT TRESNO BUKO", "99001A",
    300, 1, "5001", 1, 300, 0, 300, Closed)

  /** The form as the screen opens on `today`: nothing chosen, so it is not valid and shows trip 1 and no quantities. */
  function InitialForm(today: string): (r: PlacementForm)
    ensures r.dateReceived == today && r.poNumber == "" && r.sku == ""
    ensures !IsValid(r)
    ensures forall recent :: Synced(r, recent)
  {
    PlacementForm(today, "", "", "", "", 0, 1, "", 0, 0, 0, 0, Open)
  }

  /** `find` on orders: the first order of `orders` with this number, if any. */
  function FindPO(orders: seq<PurchaseOrder>, number: string): (r: Option<PurchaseOrder>)
    ensures r.Some? ==> r.value in orders && r.value.number == number
    ensures r.Some? ==> exists i :: 0 <= i < |orders| && orders[i] == r.value && forall j :: 0 <= j < i ==> orders[j].number != number
    ensures r.None? <==> forall po :: po in orders ==> po.number != number
  {
    if orders == [] then None
    else if orders[0].number == number then Some(orders[0])
    else
      var r := FindPO(orders[1..], number);
      assert r.Some? ==> exists i :: 0 <= i < |orders| && orders[i] == r.value && forall j :: 0 <= j < i ==> orders[j].number != number by {
        if r.Some? {
          var i :| 0 <= i < |orders[1..]| && orders[1..][i] == r.value && forall j :: 0 <= j < i ==> orders[1..][j].number != number;
          assert orders[i + 1] == r.value;
          assert forall j :: 0 <= j < i + 1 ==> orders[j].number != number by {
            forall j | 0 < j < i + 1 ensures orders[j].number != number {
              assert orders[j] == orders[1..][j - 1];
            }
          }
        }
      }
      assert forall po :: po in orders ==> po == orders[0] || po in orders[1..];
      r
  }

  /** `find` on lines: the first line of `lines` with this sku code, if any. */
  function FindLine(lines: seq<PoLine>, code: string): (r: Option<PoLine>)
    ensures r.Some? ==> r.value in lines && r.value.code == code
    ensures r.Some? ==> exists i :: 0 <= i < |lines| && lines[i] == r.value && forall j :: 0 <= j < i ==> lines[j].code != code
    ensures r.None? <==> forall l :: l in lines ==> l.code != code
  {
    if lines == [] then None
    else if lines[0].code == code then Some(lines[0])
    else
      var r := FindLine(lines[1..], code);
      assert r.Some? ==> exists i :: 0 <= i < |lines| && lines[i] == r.value && forall j :: 0 <= j < i ==> lines[j].code != code by {
        if r.Some? {
          var i :| 0 <= i < |lines[1..]| && lines[1..][i] == r.value && forall j :: 0 <= j < i ==> lines[1..][j].code != code;
          assert lines[i + 1] == r.value;
          assert forall j :: 0 <= j < i + 1 ==> lines[j].code != code by {
            forall j | 0 < j < i + 1 ensures lines[j].code != code {
              assert lines[j] == lines[1..][j - 1];
            }
          }
        }
      }
      assert forall l :: l in lines ==> l == lines[0] || l in lines[1..];
      r
  }

  /** Some order in the table with this number has `line`. */
  predicate OnOrder(poNumber: string, line: PoLine) {
    exists po :: po in PurchaseOrders && po.number == poNumber && line in po.skus
  }

  /** No two orders of the table share a number, and no order has two lines for one sku. */
  lemma OnOrderUnique(poNumber: string, a: PoLine, b: PoLine)
    requires OnOrder(poNumber, a) && OnOrder(poNumber, b) && a.code == b.code
    ensures a == b
  {
  }

  /** `currentPO` and then `currentSKU`: the line with this sku code of the first order with this number. */
  function OrderLine(poNumber: string, code: string): (r: Option<PoLine>)
    ensures r.Some? ==> r.value.code == code
  {
    match FindPO(PurchaseOrders, poNumber)
    case None => None
    case Some(po) => FindLine(po.skus, code)
  }

  /** The line found is the order's line with that code, and none is found exactly when the order has no such line. */
  lemma OrderLineIsOnOrder(poNumber: string, code: string)
    ensures OrderLine(poNumber, code).Some? ==> OnOrder(poNumber, OrderLine(poNumber, code).value)
    ensures OrderLine(poNumber, code).None? <==> forall l :: OnOrder(poNumber, l) ==> l.code != code
  {
    var po := FindPO(PurchaseOrders, poNumber);
    if po.Some? && OrderLine(poNumber, code).None? {
      forall l | OnOrder(poNumber, l) ensures l.code != code {
        var other :| other in PurchaseOrders && other.number == poNumber && l in other.skus;
        assert other == po.value;
      }
    }
  }

  /** The order line the form refers to: the form's sku within the form's purchase order. */
  function CurrentLine(form: PlacementForm): Option<PoLine> {
    OrderLine(form.poNumber, form.sku)
  }

  /** `reduce((sum, p) => sum + p.qtyPcs, 0)`: the pieces of the records, added up from the first. */
  function SumPcs(records: seq<PlacementRecord>): (r: int)
    ensures (forall x :: x in records ==> x.qtyPcs >= 0) ==> r >= 0
    decreases |records|
  {
    if records == [] then 0
    else
      var init := records[..|records| - 1];
      assert forall x :: x in init ==> x in records;
      SumPcs(init) + records[|records| - 1].qtyPcs
  }

  /** A record put in front of the list adds its pieces to the sum. */
  lemma {:induction false} SumPcsPrepend(x: PlacementRecord, s: seq<PlacementRecord>)
    ensures SumPcs([x] + s) == x.qtyPcs + SumPcs(s)
    decreases |s|
  {
    if s != [] {
      var init := s[..|s| - 1];
      assert ([x] + s)[..|s|] == [x] + init;
      SumPcsPrepend(x, init);
    }
  }

  /** The recent placements made against `po` on `date`. */
  function SameTrip(recent: seq<PlacementRecord>, po: string, date: string): seq<PlacementRecord> {
    Filter(recent, (r: PlacementRecord) => r.poNumber == po && r.dateReceived == date)
  }

  /** The recent placements of `sku` against `po`. */
  function SameLine(recent: seq<PlacementRecord>, po: string, sku: string): seq<PlacementRecord> {
    Filter(recent, (r: PlacementRecord) => r.poNumber == po && r.sku == sku)
  }

  /** `calculateTrip`: this delivery's number among the deliveries for the same order on the same day. */
  function CalculateTrip(form: PlacementForm, recent: seq<PlacementRecord>): (trip: int)
    ensures 1 <= trip <= |recent| + 1
    ensures form.poNumber == "" || form.dateReceived == "" ==> trip == 1
    ensures form.poNumber != "" && form.dateReceived != "" ==>
      trip == |SameTrip(recent, form.poNumber, form.dateReceived)| + 1
  {
    if form.poNumber == "" || form.dateReceived == "" then 1
    else |SameTrip(recent, form.poNumber, form.dateReceived)| + 1
  }

  /** The calculated quantities and status of the form. */
  datatype Calculation = Calculation(qtyOutstanding: int, totalReceived: int, status: Status)

  function Max(a: int, b: int): int {
    if a < b then b else a
  }

  /** What the recent placements have already received on the form's order line. */
  function PreviouslyReceived(form: PlacementForm, recent: seq<PlacementRecord>): int {
    SumPcs(SameLine(recent, form.poNumber, form.sku))
  }

  /** Nothing was received before when no recent placement is on the line, and never less than nothing. */
  lemma PreviouslyReceivedBounds(form: PlacementForm, recent: seq<PlacementRecord>)
    ensures (forall x :: x in recent ==> !(x.poNumber == form.poNumber && x.sku == form.sku)) ==>
      PreviouslyReceived(form, recent) == 0
    ensures (forall x :: x in recent ==> x.qtyPcs >= 0) ==> PreviouslyReceived(form, recent) >= 0
  {
    var same := SameLine(recent, form.poNumber, form.sku);
    assert same != [] ==> same[0] in same;
  }

  /** `calculations`: the quantity received so far including this delivery, what is still outstanding, and the line's status. */
  function Calculate(form: PlacementForm, recent: seq<PlacementRecord>): (c: Calculation)
    ensures c.qtyOutstanding >= 0
    ensures CurrentLine(form).None? || form.sku == "" || form.poNumber == "" ==> c == Calculation(0, 0, Open)
    ensures CurrentLine(form).Some? && form.sku != "" && form.poNumber != "" ==>
      var ordered, before := CurrentLine(form).value.qty, PreviouslyReceived(form, recent);
      && c.totalReceived == before + form.qtyPcs
      && c.qtyOutstanding == Max(0, ordered - c.totalReceived)
      && (c.status == Closed <==> c.totalReceived >= ordered)
  {
    var line := CurrentLine(form);
    if line.None? || form.sku == "" || form.poNumber == "" then Calculation(0, 0, Open)
    else
      var before := PreviouslyReceived(form, recent);
      var outstanding := line.value.qty - before;
      var total := before + form.qtyPcs;
      Calculation(Max(0, outstanding - form.qtyPcs), total, if total >= line.value.qty then Closed else Open)
  }

  /** A line is closed exactly when nothing of it is outstanding. */
  lemma ClosedIffNothingOutstanding(form: PlacementForm, recent: seq<PlacementRecord>)
    requires CurrentLine(form).Some? && form.sku != "" && form.poNumber != ""
    ensures Calculate(form, recent).status == Closed <==> Calculate(form, recent).qtyOutstanding == 0
  {
  }

  /** The fields `validateForm` checks. */
  datatype FormField = LocationRack | PoNumber | Sku | NoSuratJalan | QtyPcs | QtyPallet

  const AllFields: set<FormField> := {LocationRack, PoNumber, Sku, NoSuratJalan, QtyPcs, QtyPallet}

  /** The check `validateForm` applies to each field. */
  predicate Fails(form: PlacementForm, f: FormField) {
    match f
    case LocationRack => form.locationRack == ""
    case PoNumber => form.poNumber == ""
    case Sku => form.sku == ""
    case NoSuratJalan => Trim(form.noSuratJalan) == ""
    case QtyPcs => form.qtyPcs <= 0
    case QtyPallet => form.qtyPallet <= 0
  }

  /** The message `validateForm` shows for a failing field. */
  function Message(f: FormField): string {
    match f
    case LocationRack => "Location is required"
    case PoNumber => "PO Number is required"
    case Sku => "SKU is required"
    case NoSuratJalan => "Surat Jalan number is required"
    case QtyPcs => "Quantity must be greater than 0"
    case QtyPallet => "Pallet quantity must be greater than 0"
  }

  /** `validateForm`'s error record: one message for each field that fails its check. */
  function FieldErrors(form: PlacementForm): (errors: map<FormField, string>)
    ensures LocationRack in errors <==> form.locationRack == ""
    ensures PoNumber in errors <==> form.poNumber == ""
    ensures Sku in errors <==> form.sku == ""
    ensures NoSuratJalan in errors <==> AllWhitespace(form.noSuratJalan)
    ensures QtyPcs in errors <==> form.qtyPcs <= 0
    ensures QtyPallet in errors <==> form.qtyPallet <= 0
    ensures forall f :: f in errors ==> errors[f] == Message(f)
  {
    TrimIsSlice(form.noSuratJalan);
    map f | f in AllFields && Fails(form, f) :: Message(f)
  }

  /** `validateForm`'s verdict: the error record has no keys. */
  predicate IsValid(form: PlacementForm) {
    |FieldErrors(form).Keys| == 0
  }

  /** The form is valid exactly when every required field is filled in and both quantities are positive. */
  lemma ValidIff(form: PlacementForm)
    ensures IsValid(form) <==>
      && form.locationRack != ""
      && form.poNumber != ""
      && form.sku != ""
      && !AllWhitespace(form.noSuratJalan)
      && form.qtyPcs > 0
      && form.qtyPallet > 0
  {
    var keys := FieldErrors(form).Keys;
    if k :| k in keys {
      assert |keys| > 0;
    } else {
      assert keys == {};
    }
  }

  /** The vendor `handlePOChange` fills in: the order's vendor, or empty for an unknown order. */
  function VendorOf(poNumber: string): (v: string)
    ensures forall po :: po in PurchaseOrders && po.number == poNumber ==> v == po.vendor
    ensures (forall po :: po in PurchaseOrders ==> po.number != poNumber) ==> v == ""
  {
    match FindPO(PurchaseOrders, poNumber)
    case None => ""
    case Some(po) => po.vendor
  }

  /** The ordered quantity `handleSKUChange` fills in: the line's quantity, or 0 for a sku not on the order. */
  function OrderedQty(poNumber: string, skuCode: string): (q: int)
    ensures forall l :: OnOrder(poNumber, l) && l.code == skuCode ==> q == l.qty
    ensures (forall l :: OnOrder(poNumber, l) ==> l.code != skuCode) ==> q == 0
  {
    OrderLineIsOnOrder(poNumber, skuCode);
    match OrderLine(poNumber, skuCode)
    case None => 0
    case Some(line) =>
      assert forall l :: OnOrder(poNumber, l) && l.code == skuCode ==> l == line by {
        forall l | OnOrder(poNumber, l) && l.code == skuCode ensures l == line {
          OnOrderUnique(poNumber, l, line);
        }
      }
      line.qty
  }

  /** The record `handleSubmit` adds: the form's fields, with the trip number calculated afresh. */
  function NewRecord(form: PlacementForm, recent: seq<PlacementRecord>, id: int): (r: PlacementRecord)
    ensures r.id == id && 1 <= r.trip <= |recent| + 1 && r.trip == CalculateTrip(form, recent)
    ensures r.poNumber == form.poNumber && r.dateReceived == form.dateReceived && r.sku == form.sku
    ensures r.location == form.locationRack && r.qtyPcs == form.qtyPcs && r.qtyPallet == form.qtyPallet
  {
    PlacementRecord(
      id, form.dateReceived, form.locationRack, form.poNumber, form.vendor, form.sku,
      form.qtyPo, CalculateTrip(form, recent), form.noSuratJalan, form.qtyPallet, form.qtyPcs,
      form.qtyOutstanding, form.totalReceived, form.status)
  }

  /**
   * The form after a submission: location, delivery note and both quantities are cleared, so
   * it no longer validates, while date, order and sku stay for the next delivery of the line.
   */
  function ClearedForm(form: PlacementForm): (r: PlacementForm)
    ensures !IsValid(r)
    ensures r.dateReceived == form.dateReceived && r.poNumber == form.poNumber && r.sku == form.sku
    ensures r.locationRack == "" && r.noSuratJalan == "" && r.qtyPallet == 0 && r.qtyPcs == 0
  {
    form.(locationRack := "", noSuratJalan := "", qtyPallet := 0, qtyPcs := 0)
  }

  /** The calculated fields of the form agree with the calculations over the recent placements. */
  predicate Synced(form: PlacementForm, recent: seq<PlacementRecord>) {
    var c := Calculate(form, recent);
    && form.trip == CalculateTrip(form, recent)
    && form.qtyOutstanding == c.qtyOutstanding
    && form.totalReceived == c.totalReceived
    && form.status == c.status
  }

  /** A handler clears a field's message by setting it to empty when one is shown. */
  function ClearError(errors: map<FormField, string>, f: FormField): (r: map<FormField, string>)
    ensures r.Keys == errors.Keys
    ensures f in r ==> r[f] == ""
    ensures forall g :: g in errors && g != f ==> r[g] == errors[g]
  {
    if f in errors && errors[f] != "" then errors[f := ""] else errors
  }

  /**
   * After a submission the next trip for the same order and day is numbered one higher
   * (the trip stays 1 while the date is empty). A valid form always has a PO number.
   */
  lemma TripAfterSubmit(form: PlacementForm, recent: seq<PlacementRecord>, id: int)
    requires form.poNumber != ""
    ensures CalculateTrip(ClearedForm(form), [NewRecord(form, recent, id)] + recent)
         == if form.dateReceived == "" then 1 else CalculateTrip(form, recent) + 1
  {
    var rec := NewRecord(form, recent, id);
    FilterPrepend(rec, recent, (r: PlacementRecord) => r.poNumber == form.poNumber && r.dateReceived == form.dateReceived);
  }

  /** Submitting adds this delivery's pieces to what the order line has received before. */
  lemma ReceivedAfterSubmit(form: PlacementForm, recent: seq<PlacementRecord>, id: int)
    ensures PreviouslyReceived(ClearedForm(form), [NewRecord(form, recent, id)] + recent)
         == PreviouslyReceived(form, recent) + form.qtyPcs
  {
    var rec := NewRecord(form, recent, id);
    SameLinePrepend(rec, recent, form.poNumber, form.sku);
    SumPcsPrepend(rec, SameLine(recent, form.poNumber, form.sku));
  }

  /**
   * Submitting moves this delivery's pieces into what was received before: the received
   * total, the outstanding quantity and the status calculated afterwards are the ones the
   * form showed when it was submitted.
   */
  lemma CalculationAfterSubmit(form: PlacementForm, recent: seq<PlacementRecord>, id: int)
    ensures Calculate(ClearedForm(form), [NewRecord(form, recent, id)] + recent) == Calculate(form, recent)
  {
    ReceivedAfterSubmit(form, recent, id);
    CalculationDependsOnTotal(form, recent, ClearedForm(form), [NewRecord(form, recent, id)] + recent);
  }

  /** The calculations read only the order, the sku and the pieces received including this delivery. */
  lemma CalculationDependsOnTotal(f: PlacementForm, r: seq<PlacementRecord>, g: PlacementForm, t: seq<PlacementRecord>)
    requires f.poNumber == g.poNumber && f.sku == g.sku
    requires PreviouslyReceived(f, r) + f.qtyPcs == PreviouslyReceived(g, t) + g.qtyPcs
    ensures Calculate(f, r) == Calculate(g, t)
  {
    SameCurrentLine(f, g);
  }

  /** The order line depends only on the form's order number and sku. */
  lemma SameCurrentLine(f: PlacementForm, g: PlacementForm)
    requires f.poNumber == g.poNumber && f.sku == g.sku
    ensures CurrentLine(f) == CurrentLine(g)
  {
  }

  lemma SameLinePrepend(rec: PlacementRecord, recent: seq<PlacementRecord>, po: string, sku: string)
    ensures SameLine([rec] + recent, po, sku)
         == if rec.poNumber == po && rec.sku == sku then [rec] + SameLine(recent, po, sku) else SameLine(recent, po, sku)
  {
    FilterPrepend(rec, recent, (r: PlacementRecord) => r.poNumber == po && r.sku == sku);
  }

  /** The placement screen's state: the form, the recent placements (newest first) and the shown errors. */
  class PlacementScreen {
    var form: PlacementForm
    var recent: seq<PlacementRecord>
    var errors: map<FormField, string>

    constructor (today: string)
      ensures form == InitialForm(today) && recent == [SeedRecord] && errors == map[]
    {
      form := InitialForm(today);
      recent := [SeedRecord];
      errors := map[];
    }

    /** `handlePOChange`: choosing an order fills in its vendor and resets everything that depended on the old order. */
    method SelectPO(poNumber: string)
      modifies this
      ensures form.poNumber == poNumber && form.vendor == VendorOf(poNumber)
      ensures form.sku == "" && form.qtyPo == 0 && form.trip == 1
      ensures form.qtyOutstanding == 0 && form.totalReceived == 0 && form.status == Open
      ensures form == old(form).(poNumber := poNumber, vendor := VendorOf(poNumber), sku := "", qtyPo := 0,
                                 trip := 1, qtyOutstanding := 0, totalReceived := 0, status := Open)
      ensures recent == old(recent) && errors == ClearError(old(errors), PoNumber)
    {
      form := form.(poNumber := poNumber, vendor := VendorOf(poNumber), sku := "", qtyPo := 0,
                    trip := 1, qtyOutstanding := 0, totalReceived := 0, status := Open);
      errors := ClearError(errors, PoNumber);
    }

    /** `handleSKUChange`: choosing a sku fills in the ordered quantity of its line and the current trip number. */
    method SelectSku(skuCode: string)
      modifies this
      ensures form == old(form).(sku := skuCode, qtyPo := OrderedQty(old(form).poNumber, skuCode),
                                 trip := CalculateTrip(old(form), old(recent)))
      ensures recent == old(recent) && errors == ClearError(old(errors), Sku)
    {
      form := form.(sku := skuCode, qtyPo := OrderedQty(form.poNumber, skuCode), trip := CalculateTrip(form, recent));
      errors := ClearError(errors, Sku);
    }

    /** The effect that copies the calculated trip, quantities and status into the form. */
    method Sync()
      modifies this
      ensures Synced(form, recent)
      ensures var c := Calculate(old(form), old(recent));
        form == old(form).(trip := CalculateTrip(old(form), old(recent)), qtyOutstanding := c.qtyOutstanding,
                           totalReceived := c.totalReceived, status := c.status)
      ensures recent == old(recent) && errors == old(errors)
    {
      var c := Calculate(form, recent);
      form := form.(trip := CalculateTrip(form, recent), qtyOutstanding := c.qtyOutstanding,
                    totalReceived := c.totalReceived, status := c.status);
    }

    /**
     * `handleSubmit`: an invalid form only shows its errors; a valid one is recorded at the head
     * of the recent placements (with `id` for the submission's timestamp) and partly cleared.
     */
    method Submit(id: int) returns (submitted: bool)
      modifies this
      ensures submitted == IsValid(old(form))
      ensures errors == if submitted then map[] else FieldErrors(old(form))
      ensures recent == if submitted then [NewRecord(old(form), old(recent), id)] + old(recent) else old(recent)
      ensures form == if submitted then ClearedForm(old(form)) else old(form)
    {
      var found := FieldErrors(form);
      submitted := |found.Keys| == 0;
      if !submitted {
        errors := found;
        return;
      }
      recent := [NewRecord(form, recent, id)] + recent;
      errors := map[];
      form := ClearedForm(form);
    }

    method SetDateReceived(value: string)
      modifies this
      ensures form == old(form).(dateReceived := value) && recent == old(recent) && errors == old(errors)
    {
      form := form.(dateReceived := value);
    }

    method SetLocationRack(value: string)
      modifies this
      ensures form == old(form).(locationRack := value) && recent == old(recent)
      ensures errors == ClearError(old(errors), LocationRack)
    {
      form := form.(locationRack := value);
      errors := ClearError(errors, LocationRack);
    }

    method SetSuratJalan(value: string)
      modifies this
      ensures form == old(form).(noSuratJalan := value) && recent == old(recent)
      ensures errors == ClearError(old(errors), NoSuratJalan)
    {
      form := form.(noSuratJalan := value);
      errors := ClearError(errors, NoSuratJalan);
    }

    /** A pallet count typed in; `None` is input that does not parse as an integer, which reads as 0. */
    method SetQtyPallet(input: Option<int>)
      modifies this
      ensures form == old(form).(qtyPallet := if input.Some? then input.value else 0) && recent == old(recent)
      ensures errors == ClearError(old(errors), QtyPallet)
    {
      form := form.(qtyPallet := if input.Some? then input.value else 0);
      errors := ClearError(errors, QtyPallet);
    }

    /** A piece count typed in; `None` is input that does not parse as an integer, which reads as 0. */
    method SetQtyPcs(input: Option<int>)
      modifies this
      ensures form == old(form).(qtyPcs := if input.Some? then input.value else 0) && recent == old(recent)
      ensures errors == ClearError(old(errors), QtyPcs)
    {
      form := form.(qtyPcs := if input.Some? then input.value else 0);
      errors := ClearError(errors, QtyPcs);
    }
  }
}
