/**
 * The arithmetic and defaulting of the three shipping documents: the
 * bill of lading, the commercial invoice and the packing list. Each
 * generator fills in defaults and totals in the caller's data dictionary,
 * modelled here as an object whose fields are that dictionary's keys (an
 * absent key is `None`), before the PDF is laid out.
 *
 * The PDF layout is a foreign library; whether it succeeds is an input, as
 * are the clock stamps that go into the dates and the file name.
 */
module Documents {
  import opened Common

  /** A missing numeric key read with `.get(key, 0)`. */
  function OrZero(x: Option<real>): real
  {
    if x.Some? then x.value else 0.0
  }

  /** `sum(f(x) for x in s)`. */
  function SumOf<T>(s: seq<T>, f: T -> real): real
  {
    if s == [] then 0.0 else SumOf(s[..|s| - 1], f) + f(s[|s| - 1])
  }

  /** Sums add up over concatenation. */
  lemma {:induction false} SumOfAppend<T>(a: seq<T>, b: seq<T>, f: T -> real)
    ensures SumOf(a + b, f) == SumOf(a, f) + SumOf(b, f)
    decreases |b|
  {
    if b == [] {
      assert a + b == a;
    } else {
      assert (a + b)[..|a + b| - 1] == a + b[..|b| - 1];
      assert (a + b)[|a + b| - 1] == b[|b| - 1];
      SumOfAppend(a, b[..|b| - 1], f);
    }
  }

  /** A sum of non-negative terms is non-negative and at least each term. */
  lemma {:induction false} SumOfNonNegative<T>(s: seq<T>, f: T -> real)
    requires forall i :: 0 <= i < |s| ==> f(s[i]) >= 0.0
    ensures SumOf(s, f) >= 0.0
    ensures forall i :: 0 <= i < |s| ==> f(s[i]) <= SumOf(s, f)
  {
    if s != [] {
      SumOfNonNegative(s[..|s| - 1], f);
      assert forall i :: 0 <= i < |s| - 1 ==> s[..|s| - 1][i] == s[i];
    }
  }

  /** What a generator answers: failure (any exception), or the document's summary with its download URL. */
  datatype Generated =
    | Failed
    | BillOfLading(documentNumber: string, documentUrl: string)
    | Invoice(invoiceNumber: string, documentUrl: string, totalAmount: real, currency: string)
    | PackingList(packingListNumber: string, documentUrl: string, totalPackages: nat, totalWeightKg: real)

  /** `f"{prefix}_{number}_{stamp}.pdf"`, where the stamp is the formatted clock. */
  function FileName(prefix: string, number: string, stamp: string): string
  {
    prefix + "_" + number + "_" + stamp + ".pdf"
  }

  /** The URL a generated file is served under. */
  function DocumentUrl(fileName: string): (url: string)
    ensures |url| == 11 + |fileName|
    ensures url[..11] == "/documents/" && url[11..] == fileName
  {
    "/documents/" + fileName
  }

  // ---------------------------------------------------------------------
  // Bill of lading
  // ---------------------------------------------------------------------

  /** One container line of a bill of lading. */
  datatype ContainerLine = ContainerLine(packageCount: Option<real>, weight: Option<real>, volume: Option<real>)

  function Packages(c: ContainerLine): real { OrZero(c.packageCount) }
  function Weight(c: ContainerLine): real { OrZero(c.weight) }
  function Volume(c: ContainerLine): real { OrZero(c.volume) }

  /** The keys of a bill-of-lading request that the generator reads or writes. */
  class BillOfLadingData {
    var shipmentId: Option<string>
    var documentNumber: Option<string>
    var issueDate: Option<string>
    var generationDate: Option<string>
    var bolType: Option<string>
    var carrierAddress: Option<string>
    var bookingNumber: Option<string>
    var containers: Option<seq<ContainerLine>>
    var totalContainers: Option<nat>
    var totalPackages: Option<real>
    var totalWeight: Option<real>
    var totalVolume: Option<real>
  }

  /** `data.setdefault(key, value)` on one key. */
  function Default(current: Option<string>, value: string): (r: Option<string>)
    ensures r.Some?
    ensures current.Some? ==> r == current
  {
    if current.Some? then current else Some(value)
  }

  /** The document number: the given one, or `BOL-` followed by the shipment id. */
  function BolNumber(given: Option<string>, shipmentId: string): (n: string)
    ensures given.Some? ==> n == given.value
    ensures given.None? ==> |n| == 4 + |shipmentId| && n[..4] == "BOL-" && n[4..] == shipmentId
  {
    if given.Some? then given.value else "BOL-" + shipmentId
  }

  /**
   * `generate_bill_of_lading`. The default document number is formatted
   * before the key is looked up, so a request without a shipment id fails
   * after only the generation date was written.
   */
  method GenerateBillOfLading(data: BillOfLadingData, now: string, today: string, stamp: string, layoutOk: bool)
    returns (r: Generated)
    modifies data
    ensures data.generationDate == Some(now)
    ensures old(data.shipmentId).None? ==>
      && r == Failed
      && data.documentNumber == old(data.documentNumber) && data.totalContainers == old(data.totalContainers)
      && data.issueDate == old(data.issueDate) && data.bolType == old(data.bolType)
      && data.carrierAddress == old(data.carrierAddress) && data.bookingNumber == old(data.bookingNumber)
      && data.totalPackages == old(data.totalPackages) && data.totalWeight == old(data.totalWeight)
      && data.totalVolume == old(data.totalVolume)
    ensures old(data.shipmentId).Some? ==>
      && data.documentNumber == Some(BolNumber(old(data.documentNumber), old(data.shipmentId).value))
      && data.issueDate == Default(old(data.issueDate), today)
      && data.bolType == Default(old(data.bolType), "ORIGINAL")
      && data.carrierAddress == Default(old(data.carrierAddress), "Address not provided")
      && data.bookingNumber == Default(old(data.bookingNumber), "N/A")
      && (old(data.containers).Some? ==>
            var cs := old(data.containers).value;
            data.totalContainers == Some(|cs|) && data.totalPackages == Some(SumOf(cs, Packages))
            && data.totalWeight == Some(SumOf(cs, Weight)) && data.totalVolume == Some(SumOf(cs, Volume)))
      && (old(data.containers).None? ==>
            data.totalContainers == old(data.totalContainers) && data.totalPackages == old(data.totalPackages)
            && data.totalWeight == old(data.totalWeight) && data.totalVolume == old(data.totalVolume))
      && r == (if layoutOk then BillOfLading(data.documentNumber.value, DocumentUrl(FileName("BOL", old(data.shipmentId).value, stamp))) else Failed)
    ensures data.shipmentId == old(data.shipmentId) && data.containers == old(data.containers)
  {
    data.generationDate := Some(now);
    if data.shipmentId.None? {
      return Failed;
    }
    var sid := data.shipmentId.value;
    data.documentNumber := Some(BolNumber(data.documentNumber, sid));
    data.issueDate := Default(data.issueDate, today);
    SetBolDefaults(data);
    if data.containers.Some? {
      SetBolTotals(data);
    }
    if !layoutOk {
      return Failed;
    }
    r := BillOfLading(data.documentNumber.value, DocumentUrl(FileName("BOL", sid, stamp)));
  }

  /** The three `setdefault` calls of the bill of lading. */
  method SetBolDefaults(data: BillOfLadingData)
    modifies data
    ensures data.bolType == Default(old(data.bolType), "ORIGINAL")
    ensures data.carrierAddress == Default(old(data.carrierAddress), "Address not provided")
    ensures data.bookingNumber == Default(old(data.bookingNumber), "N/A")
    ensures data.shipmentId == old(data.shipmentId) && data.documentNumber == old(data.documentNumber)
    ensures data.issueDate == old(data.issueDate) && data.generationDate == old(data.generationDate)
    ensures data.containers == old(data.containers) && data.totalContainers == old(data.totalContainers)
    ensures data.totalPackages == old(data.totalPackages) && data.totalWeight == old(data.totalWeight)
    ensures data.totalVolume == old(data.totalVolume)
  {
    data.bolType := Default(data.bolType, "ORIGINAL");
    data.carrierAddress := Default(data.carrierAddress, "Address not provided");
    data.bookingNumber := Default(data.bookingNumber, "N/A");
  }

  /** The container totals of the bill of lading. */
  method SetBolTotals(data: BillOfLadingData)
    requires data.containers.Some?
    modifies data
    ensures data.containers == old(data.containers)
    ensures var cs := data.containers.value;
      data.totalContainers == Some(|cs|) && data.totalPackages == Some(SumOf(cs, Packages))
      && data.totalWeight == Some(SumOf(cs, Weight)) && data.totalVolume == Some(SumOf(cs, Volume))
    ensures data.shipmentId == old(data.shipmentId) && data.documentNumber == old(data.documentNumber)
    ensures data.issueDate == old(data.issueDate) && data.generationDate == old(data.generationDate)
    ensures data.bolType == old(data.bolType)
    ensures data.carrierAddress == old(data.carrierAddress) && data.bookingNumber == old(data.bookingNumber)
  {
    var cs := data.containers.value;
    data.totalContainers := Some(|cs|);
    data.totalPackages := Some(SumOf(cs, Packages));
    data.totalWeight := Some(SumOf(cs, Weight));
    data.totalVolume := Some(SumOf(cs, Volume));
  }

  /** The two containers of the sample bill of lading: 800 packages, 27 000 kg and 132.5 m³. */
  lemma SampleBillOfLadingTotals()
    ensures var cs := [ContainerLine(Some(500.0), Some(15000.0), Some(67.5)), ContainerLine(Some(300.0), Some(12000.0), Some(65.0))];
      SumOf(cs, Packages) == 800.0 && SumOf(cs, Weight) == 27000.0 && SumOf(cs, Volume) == 132.5
  {
    var cs := [ContainerLine(Some(500.0), Some(15000.0), Some(67.5)), ContainerLine(Some(300.0), Some(12000.0), Some(65.0))];
    assert cs[..1][..0] == [];
  }

  /** Adding a container adds its packages, weight and volume, counting a missing field as zero. */
  lemma BolTotalsGrow(cs: seq<ContainerLine>, c: ContainerLine)
    ensures SumOf(cs + [c], Packages) == SumOf(cs, Packages) + OrZero(c.packageCount)
    ensures SumOf(cs + [c], Weight) == SumOf(cs, Weight) + OrZero(c.weight)
    ensures SumOf(cs + [c], Volume) == SumOf(cs, Volume) + OrZero(c.volume)
  {
    assert (cs + [c])[..|cs|] == cs;
  }

  // ---------------------------------------------------------------------
  // Commercial invoice
  // ---------------------------------------------------------------------

  /** One invoice line; `totalValue` is written by the generator. */
  datatype LineItem = LineItem(quantity: Option<real>, unitPrice: Option<real>, totalValue: Option<real>)

  /** A line whose value can be computed: both `quantity` and `unit_price` are present. */
  predicate Complete(item: LineItem)
  {
    item.quantity.Some? && item.unitPrice.Some?
  }

  function LineValue(item: LineItem): real
    requires Complete(item)
  {
    item.quantity.value * item.unitPrice.value
  }

  /** A line after the generator wrote its value. */
  function WithTotal(item: LineItem): (r: LineItem)
    requires Complete(item)
    ensures Complete(r) && r.totalValue == Some(LineValue(item)) && LineValue(r) == LineValue(item)
  {
    item.(totalValue := Some(LineValue(item)))
  }

  /** A line's value when it can be computed, and nothing otherwise. */
  function CompleteValue(item: LineItem): real
  {
    if Complete(item) then LineValue(item) else 0.0
  }

  /** The first line lacking a quantity or a price, at which the loop raises `KeyError`. */
  function FirstIncomplete(items: seq<LineItem>, from: nat): (r: Option<nat>)
    requires from <= |items|
    ensures r.Some? ==> from <= r.value < |items| && !Complete(items[r.value])
    ensures r.Some? ==> forall j :: from <= j < r.value ==> Complete(items[j])
    ensures r.None? ==> forall j :: from <= j < |items| ==> Complete(items[j])
    decreases |items| - from
  {
    if from == |items| then None
    else if !Complete(items[from]) then Some(from)
    else FirstIncomplete(items, from + 1)
  }

  /** The value of a written line. */
  function Written(item: LineItem): real
  {
    OrZero(item.totalValue)
  }

  /** The invoice amounts derived from the subtotal. */
  datatype InvoiceTotals = InvoiceTotals(subtotal: real, discountAmount: real, vatAmount: real, grandTotal: real)

  /** Discount on the subtotal, VAT on the discounted subtotal plus freight and insurance, and their sum. */
  function TotalsOf(subtotal: real, discountPct: real, freight: real, insurance: real, vatPct: real): (t: InvoiceTotals)
    ensures t.subtotal == subtotal
  {
    var discount := (subtotal * discountPct) / 100.0;
    var vat := ((subtotal - discount + freight + insurance) * vatPct) / 100.0;
    InvoiceTotals(subtotal, discount, vat, subtotal - discount + freight + insurance + vat)
  }

  /**
   * The grand total is the taxable base (subtotal less discount, plus
   * freight and insurance) grown by the VAT rate; with rates between 0 and
   * 100 and non-negative amounts, the discount never exceeds the subtotal
   * and the grand total is at least the taxable base.
   */
  lemma InvoiceTotalsMeaning(subtotal: real, discountPct: real, freight: real, insurance: real, vatPct: real)
    ensures var t := TotalsOf(subtotal, discountPct, freight, insurance, vatPct);
      var base := subtotal - t.discountAmount + freight + insurance;
      t.grandTotal == base * (1.0 + vatPct / 100.0)
      && (0.0 <= subtotal && 0.0 <= discountPct <= 100.0 ==> 0.0 <= t.discountAmount <= subtotal)
      && (0.0 <= subtotal && 0.0 <= discountPct <= 100.0 && 0.0 <= freight && 0.0 <= insurance && 0.0 <= vatPct ==>
            base <= t.grandTotal)
      && (vatPct == 0.0 ==> t.grandTotal == base && t.vatAmount == 0.0)
  {
    var t := TotalsOf(subtotal, discountPct, freight, insurance, vatPct);
    var base := subtotal - t.discountAmount + freight + insurance;
    assert t.grandTotal == base + base * vatPct / 100.0;
    if 0.0 <= subtotal && 0.0 <= discountPct <= 100.0 {
      assert subtotal * discountPct <= subtotal * 100.0;
      if 0.0 <= freight && 0.0 <= insurance && 0.0 <= vatPct {
        assert 0.0 <= base;
        assert 0.0 <= base * vatPct;
      }
    }
  }

  /** The sample invoice: a subtotal of 250 000, 5% discount, 3 500 freight, 500 insurance, no VAT, to a grand total of 241 500. */
  lemma SampleInvoiceTotal()
    ensures var items := [LineItem(Some(500.0), Some(450.0), None), LineItem(Some(1000.0), Some(15.0), None), LineItem(Some(2000.0), Some(5.0), None)];
      var written := [WithTotal(items[0]), WithTotal(items[1]), WithTotal(items[2])];
      SumOf(written, Written) == 250000.0
      && TotalsOf(SumOf(written, Written), 5.0, 3500.0, 500.0, 0.0).grandTotal == 241500.0
  {
    var items := [LineItem(Some(500.0), Some(450.0), None), LineItem(Some(1000.0), Some(15.0), None), LineItem(Some(2000.0), Some(5.0), None)];
    var written := [WithTotal(items[0]), WithTotal(items[1]), WithTotal(items[2])];
    assert written[..2][..1][..0] == [];
    assert SumOf(written[..1], Written) == 225000.0;
    assert written[..2][..1] == written[..1];
    assert SumOf(written[..2], Written) == 240000.0;
  }

  /** The keys of an invoice request that the generator reads or writes. */
  class InvoiceData {
    var invoiceNumber: Option<string>
    var invoiceDate: Option<string>
    var generationDate: Option<string>
    var currency: Option<string>
    var hasLineItems: bool
    const lineItems: array<LineItem>
    var discountPercentage: Option<real>
    var freightCharges: Option<real>
    var insuranceCharges: Option<real>
    var vatPercentage: Option<real>
    var subtotal: Option<real>
    var discountAmount: Option<real>
    var vatAmount: Option<real>
    var grandTotal: Option<real>
  }

  /**
   * The line loop: writes `quantity * unit_price` into each line in turn,
   * and stops with `false` at the first line lacking either key, whose
   * predecessors keep their written values.
   */
  method WriteLineTotals(items: array<LineItem>) returns (ok: bool)
    modifies items
    ensures ok <==> FirstIncomplete(old(items[..]), 0).None?
    ensures forall k :: 0 <= k < items.Length ==>
      items[k] == if FirstIncomplete(old(items[..]), 0).None? || k < FirstIncomplete(old(items[..]), 0).value
                  then WithTotal(old(items[k])) else old(items[k])
  {
    ghost var before := items[..];
    var i := 0;
    while i < items.Length
      invariant 0 <= i <= items.Length
      invariant FirstIncomplete(before, 0) == FirstIncomplete(before, i)
      invariant forall k :: 0 <= k < i ==> Complete(before[k]) && items[k] == WithTotal(before[k])
      invariant forall k :: i <= k < items.Length ==> items[k] == before[k]
    {
      if !Complete(items[i]) {
        return false;
      }
      items[i] := WithTotal(items[i]);
      i := i + 1;
    }
    return true;
  }

  /** `sum(item['total_value'] for item in line_items)`, accumulated left to right. */
  method SumLineTotals(items: array<LineItem>) returns (subtotal: real)
    ensures subtotal == SumOf(items[..], Written)
  {
    subtotal := 0.0;
    for i := 0 to items.Length
      invariant subtotal == SumOf(items[..i], Written)
    {
      assert items[..i + 1][..i] == items[..i];
      subtotal := subtotal + Written(items[i]);
    }
    assert items[..items.Length] == items[..];
  }

  /** After the line loop the subtotal is the sum of quantity times price over the lines. */
  lemma {:induction false} SubtotalIsLineValues(before: seq<LineItem>, after: seq<LineItem>)
    requires |before| == |after|
    requires forall k :: 0 <= k < |before| ==> Complete(before[k]) && after[k] == WithTotal(before[k])
    ensures SumOf(after, Written) == SumOf(before, CompleteValue)
  {
    if before != [] {
      SubtotalIsLineValues(before[..|before| - 1], after[..|after| - 1]);
    }
  }

  /** The subtotal over the written lines, then the discount, VAT and grand total. */
  method SetInvoiceTotals(data: InvoiceData)
    modifies data
    ensures var t := TotalsOf(SumOf(data.lineItems[..], Written), OrZero(data.discountPercentage),
                              OrZero(data.freightCharges), OrZero(data.insuranceCharges), OrZero(data.vatPercentage));
      data.subtotal == Some(t.subtotal) && data.discountAmount == Some(t.discountAmount)
      && data.vatAmount == Some(t.vatAmount) && data.grandTotal == Some(t.grandTotal)
    ensures data.discountPercentage == old(data.discountPercentage) && data.freightCharges == old(data.freightCharges)
    ensures data.insuranceCharges == old(data.insuranceCharges) && data.vatPercentage == old(data.vatPercentage)
    ensures data.invoiceNumber == old(data.invoiceNumber) && data.currency == old(data.currency)
    ensures data.generationDate == old(data.generationDate) && data.invoiceDate == old(data.invoiceDate)
    ensures data.hasLineItems == old(data.hasLineItems)
  {
    var subtotal := SumLineTotals(data.lineItems);
    var t := TotalsOf(subtotal, OrZero(data.discountPercentage), OrZero(data.freightCharges),
                      OrZero(data.insuranceCharges), OrZero(data.vatPercentage));
    data.subtotal := Some(t.subtotal);
    data.discountAmount := Some(t.discountAmount);
    data.vatAmount := Some(t.vatAmount);
    data.grandTotal := Some(t.grandTotal);
  }

  /**
   * `generate_commercial_invoice`. A line without quantity or price, a
   * missing invoice number, a failed layout, or a missing subtotal or grand
   * total for the totals table each end in failure, after the writes made so
   * far. With line items, each line before the first incomplete one (all of
   * them when none is) gets its value written, and on success the subtotal is
   * the sum of quantity times unit price over the request's lines.
   */
  method GenerateCommercialInvoice(data: InvoiceData, now: string, today: string, stamp: string, layoutOk: bool)
    returns (r: Generated)
    modifies data, data.lineItems
    ensures data.generationDate == Some(now)
    ensures data.invoiceDate == Default(old(data.invoiceDate), today)
    ensures data.currency == Default(old(data.currency), "USD")
    ensures data.invoiceNumber == old(data.invoiceNumber) && data.hasLineItems == old(data.hasLineItems)
    ensures data.discountPercentage == old(data.discountPercentage) && data.freightCharges == old(data.freightCharges)
    ensures data.insuranceCharges == old(data.insuranceCharges) && data.vatPercentage == old(data.vatPercentage)
    ensures !old(data.hasLineItems) ==>
      && data.lineItems[..] == old(data.lineItems[..])
      && data.subtotal == old(data.subtotal) && data.grandTotal == old(data.grandTotal)
      && data.discountAmount == old(data.discountAmount) && data.vatAmount == old(data.vatAmount)
    ensures old(data.hasLineItems) ==>
      var first := FirstIncomplete(old(data.lineItems[..]), 0);
      forall k :: 0 <= k < data.lineItems.Length ==>
        data.lineItems[k] == if first.None? || k < first.value then WithTotal(old(data.lineItems[k])) else old(data.lineItems[k])
    ensures old(data.hasLineItems) && FirstIncomplete(old(data.lineItems[..]), 0).Some? ==>
      && r == Failed
      && data.subtotal == old(data.subtotal) && data.grandTotal == old(data.grandTotal)
      && data.discountAmount == old(data.discountAmount) && data.vatAmount == old(data.vatAmount)
    ensures old(data.hasLineItems) && FirstIncomplete(old(data.lineItems[..]), 0).None? ==>
      var t := TotalsOf(SumOf(old(data.lineItems[..]), CompleteValue), OrZero(old(data.discountPercentage)),
                        OrZero(old(data.freightCharges)), OrZero(old(data.insuranceCharges)), OrZero(old(data.vatPercentage)));
      data.subtotal == Some(t.subtotal) && data.discountAmount == Some(t.discountAmount)
      && data.vatAmount == Some(t.vatAmount) && data.grandTotal == Some(t.grandTotal)
    ensures r != Failed ==>
      && layoutOk && old(data.invoiceNumber).Some? && data.subtotal.Some? && data.grandTotal.Some?
      && r == Invoice(old(data.invoiceNumber).value, DocumentUrl(FileName("INV", old(data.invoiceNumber).value, stamp)),
                      data.grandTotal.value, data.currency.value)
    ensures (layoutOk && old(data.invoiceNumber).Some? && data.subtotal.Some? && data.grandTotal.Some?
      && !(old(data.hasLineItems) && FirstIncomplete(old(data.lineItems[..]), 0).Some?)) ==> r != Failed
  {
    data.generationDate := Some(now);
    data.invoiceDate := Default(data.invoiceDate, today);
    data.currency := Default(data.currency, "USD");
    if data.hasLineItems {
      ghost var before := data.lineItems[..];
      var ok := WriteLineTotals(data.lineItems);
      if !ok {
        return Failed;
      }
      SubtotalIsLineValues(before, data.lineItems[..]);
      SetInvoiceTotals(data);
    }
    if data.invoiceNumber.None? || !layoutOk || data.subtotal.None? || data.grandTotal.None? {
      return Failed;
    }
    var number := data.invoiceNumber.value;
    r := Invoice(number, DocumentUrl(FileName("INV", number, stamp)), data.grandTotal.value, data.currency.value);
  }

  // ---------------------------------------------------------------------
  // Packing list
  // ---------------------------------------------------------------------

  /** One package of a packing list. */
  datatype PackageLine = PackageLine(grossWeight: Option<real>, netWeight: Option<real>, volume: Option<real>)

  function Gross(p: PackageLine): real { OrZero(p.grossWeight) }
  function Net(p: PackageLine): real { OrZero(p.netWeight) }
  function PackageVolume(p: PackageLine): real { OrZero(p.volume) }

  /** The keys of a packing-list request that the generator reads or writes. */
  class PackingListData {
    var packingListNumber: Option<string>
    var issueDate: Option<string>
    var generationDate: Option<string>
    var packages: Option<seq<PackageLine>>
    var totalPackages: Option<nat>
    var totalGrossWeight: Option<real>
    var totalNetWeight: Option<real>
    var totalVolume: Option<real>
  }

  /**
   * `generate_packing_list`: the package count and the weight and volume
   * sums, then the layout, whose totals line reads the package count, the
   * gross weight and the volume.
   */
  method GeneratePackingList(data: PackingListData, now: string, today: string, stamp: string, layoutOk: bool)
    returns (r: Generated)
    modifies data
    ensures data.generationDate == Some(now)
    ensures data.issueDate == Default(old(data.issueDate), today)
    ensures data.packingListNumber == old(data.packingListNumber) && data.packages == old(data.packages)
    ensures old(data.packages).Some? ==>
      var ps := old(data.packages).value;
      data.totalPackages == Some(|ps|) && data.totalGrossWeight == Some(SumOf(ps, Gross))
      && data.totalNetWeight == Some(SumOf(ps, Net)) && data.totalVolume == Some(SumOf(ps, PackageVolume))
    ensures old(data.packages).None? ==>
      data.totalPackages == old(data.totalPackages) && data.totalGrossWeight == old(data.totalGrossWeight)
      && data.totalNetWeight == old(data.totalNetWeight) && data.totalVolume == old(data.totalVolume)
    ensures r == if layoutOk && data.packingListNumber.Some? && data.totalPackages.Some? && data.totalGrossWeight.Some?
                    && data.totalVolume.Some?
                 then PackingList(data.packingListNumber.value, DocumentUrl(FileName("PKG", data.packingListNumber.value, stamp)),
                                  data.totalPackages.value, data.totalGrossWeight.value)
                 else Failed
  {
    data.generationDate := Some(now);
    data.issueDate := Default(data.issueDate, today);
    if data.packages.Some? {
      var ps := data.packages.value;
      data.totalPackages := Some(|ps|);
      data.totalGrossWeight := Some(SumOf(ps, Gross));
      data.totalNetWeight := Some(SumOf(ps, Net));
      data.totalVolume := Some(SumOf(ps, PackageVolume));
    }
    if data.packingListNumber.None? || !layoutOk || data.totalPackages.None? || data.totalGrossWeight.None?
       || data.totalVolume.None? {
      return Failed;
    }
    var number := data.packingListNumber.value;
    r := PackingList(number, DocumentUrl(FileName("PKG", number, stamp)), data.totalPackages.value, data.totalGrossWeight.value);
  }

  /** With non-negative weights the gross total bounds every package's gross weight, and so for the net. */
  lemma PackingTotalsBound(ps: seq<PackageLine>)
    requires forall i :: 0 <= i < |ps| ==> Gross(ps[i]) >= 0.0 && Net(ps[i]) >= 0.0
    ensures SumOf(ps, Gross) >= 0.0 && SumOf(ps, Net) >= 0.0
    ensures forall i :: 0 <= i < |ps| ==> Gross(ps[i]) <= SumOf(ps, Gross) && Net(ps[i]) <= SumOf(ps, Net)
  {
    SumOfNonNegative(ps, Gross);
    SumOfNonNegative(ps, Net);
  }
}
