/**
 * The admin dashboard: the `quotes` and `inventory` tables it edits, the
 * refresh counter and the open modal, the handlers that write to the tables,
 * and the views and financial figures derived from them.
 *
 * The backend's tables are modelled as in-memory sequences of rows; each
 * write handler takes a flag per remote call standing for that call's success.
 */
module AdminDashboard {
  import opened Wrappers
  import opened Seqs

  // ---------------------------------------------------------------------
  // Rows

  /** The lifecycle of an inventory row. */
  datatype ItemStatus = Intake | Refurbishing | ForSale | Sold

  datatype InventoryItem = InventoryItem(
    id: int,
    brand: string,
    model: string,
    status: ItemStatus,
    purchasePrice: real,
    isPublic: bool,
    salePriceListing: Option<real>,
    imageUrl: Option<string>,
    cpu: Option<string>,
    batteryHealth: Option<string>,
    ssdHealth: Option<string>)

  /** A customer quote; its status is free text ("new", "pending", "purchased", ...). */
  datatype LaptopQuote = LaptopQuote(
    id: int,
    customerName: string,
    laptopDetails: string,
    status: string,
    repairStatus: Option<string>)

  /** The three modals the dashboard can show, each holding the row it was opened on. */
  datatype ModalState = SpecsModal(item: InventoryItem) | PublishModal(item: InventoryItem) | BuyModal(quote: LaptopQuote)

  // ---------------------------------------------------------------------
  // Table writes: `.update(patch).eq("id", id)` and `.insert([row])`

  /** The fields an inventory update writes (`Partial<InventoryItem>`; `None` is an absent key). */
  datatype ItemPatch = ItemPatch(
    brand: Option<string>,
    model: Option<string>,
    status: Option<ItemStatus>,
    purchasePrice: Option<real>,
    isPublic: Option<bool>,
    salePriceListing: Option<real>,
    imageUrl: Option<string>,
    cpu: Option<string>,
    batteryHealth: Option<string>,
    ssdHealth: Option<string>)

  const EmptyItemPatch := ItemPatch(None, None, None, None, None, None, None, None, None, None)

  /** A supplied field wins over the stored one. */
  function Overwrite<T>(stored: T, supplied: Option<T>): (r: T)
    ensures supplied.Some? ==> r == supplied.value
    ensures supplied.None? ==> r == stored
  {
    if supplied.Some? then supplied.value else stored
  }

  /** A supplied optional field replaces the stored one, an absent one keeps it. */
  function OverwriteOptional<T>(stored: Option<T>, supplied: Option<T>): (r: Option<T>)
    ensures supplied.Some? ==> r == supplied
    ensures supplied.None? ==> r == stored
  {
    if supplied.Some? then supplied else stored
  }

  /** One row after an update: the supplied fields are written, every other field and the id are kept. */
  function ApplyItemPatch(item: InventoryItem, patch: ItemPatch): (r: InventoryItem)
    ensures r.id == item.id
    ensures patch.brand.None? ==> r.brand == item.brand
    ensures patch.model.None? ==> r.model == item.model
    ensures patch.status.None? ==> r.status == item.status
    ensures patch.purchasePrice.None? ==> r.purchasePrice == item.purchasePrice
    ensures patch.isPublic.None? ==> r.isPublic == item.isPublic
    ensures patch.salePriceListing.None? ==> r.salePriceListing == item.salePriceListing
    ensures patch.imageUrl.None? ==> r.imageUrl == item.imageUrl
    ensures patch.cpu.None? ==> r.cpu == item.cpu
    ensures patch.batteryHealth.None? ==> r.batteryHealth == item.batteryHealth
    ensures patch.ssdHealth.None? ==> r.ssdHealth == item.ssdHealth
    ensures patch.brand.Some? ==> r.brand == patch.brand.value
    ensures patch.model.Some? ==> r.model == patch.model.value
    ensures patch.status.Some? ==> r.status == patch.status.value
    ensures patch.purchasePrice.Some? ==> r.purchasePrice == patch.purchasePrice.value
    ensures patch.isPublic.Some? ==> r.isPublic == patch.isPublic.value
    ensures patch.salePriceListing.Some? ==> r.salePriceListing == patch.salePriceListing
    ensures patch.imageUrl.Some? ==> r.imageUrl == patch.imageUrl
    ensures patch.cpu.Some? ==> r.cpu == patch.cpu
    ensures patch.batteryHealth.Some? ==> r.batteryHealth == patch.batteryHealth
    ensures patch.ssdHealth.Some? ==> r.ssdHealth == patch.ssdHealth
  {
    InventoryItem(
      item.id,
      Overwrite(item.brand, patch.brand),
      Overwrite(item.model, patch.model),
      Overwrite(item.status, patch.status),
      Overwrite(item.purchasePrice, patch.purchasePrice),
      Overwrite(item.isPublic, patch.isPublic),
      OverwriteOptional(item.salePriceListing, patch.salePriceListing),
      OverwriteOptional(item.imageUrl, patch.imageUrl),
      OverwriteOptional(item.cpu, patch.cpu),
      OverwriteOptional(item.batteryHealth, patch.batteryHealth),
      OverwriteOptional(item.ssdHealth, patch.ssdHealth))
  }

  /** Writing the same patch twice is writing it once. */
  lemma ApplyItemPatchIdempotent(item: InventoryItem, patch: ItemPatch)
    ensures ApplyItemPatch(ApplyItemPatch(item, patch), patch) == ApplyItemPatch(item, patch)
  {
  }

  /** The inventory table after `.update(patch).eq("id", id)`: every row with that id is patched. */
  function UpdateItems(rows: seq<InventoryItem>, id: int, patch: ItemPatch): (r: seq<InventoryItem>)
    ensures |r| == |rows|
    ensures forall k :: 0 <= k < |rows| ==> r[k].id == rows[k].id
    ensures forall k :: 0 <= k < |rows| && rows[k].id != id ==> r[k] == rows[k]
    ensures forall k :: 0 <= k < |rows| && rows[k].id == id ==> r[k] == ApplyItemPatch(rows[k], patch)
  {
    seq(|rows|, k requires 0 <= k < |rows| => if rows[k].id == id then ApplyItemPatch(rows[k], patch) else rows[k])
  }

  /** The fields a quote update writes. */
  datatype QuotePatch = QuotePatch(status: Option<string>, repairStatus: Option<string>)

  function ApplyQuotePatch(q: LaptopQuote, patch: QuotePatch): (r: LaptopQuote)
    ensures r.id == q.id && r.customerName == q.customerName && r.laptopDetails == q.laptopDetails
    ensures r.status == Overwrite(q.status, patch.status)
    ensures r.repairStatus == if patch.repairStatus.Some? then patch.repairStatus else q.repairStatus
  {
    q.(status := Overwrite(q.status, patch.status),
       repairStatus := if patch.repairStatus.Some? then patch.repairStatus else q.repairStatus)
  }

  /** The quotes table after `.update(patch).eq("id", id)`. */
  function UpdateQuotes(rows: seq<LaptopQuote>, id: int, patch: QuotePatch): (r: seq<LaptopQuote>)
    ensures |r| == |rows|
    ensures forall k :: 0 <= k < |rows| ==> r[k].id == rows[k].id
    ensures forall k :: 0 <= k < |rows| && rows[k].id != id ==> r[k] == rows[k]
    ensures forall k :: 0 <= k < |rows| && rows[k].id == id ==> r[k] == ApplyQuotePatch(rows[k], patch)
  {
    seq(|rows|, k requires 0 <= k < |rows| => if rows[k].id == id then ApplyQuotePatch(rows[k], patch) else rows[k])
  }

  /** What the publish modal writes: public, listed at `price`, for sale. */
  function PublishPatch(price: real): ItemPatch
  {
    EmptyItemPatch.(isPublic := Some(true), salePriceListing := Some(price), status := Some(ForSale))
  }

  /** What the health-check modal passes to `saveSpecs`: the three health fields. */
  function HealthCheckPatch(cpu: string, batteryHealth: string, ssdHealth: string): ItemPatch
  {
    EmptyItemPatch.(cpu := Some(cpu), batteryHealth := Some(batteryHealth), ssdHealth := Some(ssdHealth))
  }

  /** What a bought lead's quote is marked with. */
  const PurchasedPatch := QuotePatch(Some("purchased"), None)

  /**
   * The row `handleBuyLead` inserts. The backend assigns `id`; the fields the
   * insert leaves out are taken as not public and absent.
   */
  function IntakeRow(id: int, quote: LaptopQuote, price: real): (r: InventoryItem)
    ensures r.brand == "Unknown" && r.model == quote.laptopDetails
    ensures r.status == Intake && r.purchasePrice == price && !r.isPublic
  {
    InventoryItem(id, "Unknown", quote.laptopDetails, Intake, price, false, None, None, None, None, None)
  }

  // ---------------------------------------------------------------------
  // What the writes do

  /**
   * A successful publish sets exactly the listing fields of the rows with the
   * id, leaves every other row as it was, and keeps the rows in the refurb
   * pipeline (a listed item is not sold).
   */
  lemma PublishEffect(rows: seq<InventoryItem>, id: int, price: real)
    ensures |UpdateItems(rows, id, PublishPatch(price))| == |rows|
    ensures forall k :: 0 <= k < |rows| && rows[k].id == id ==>
      UpdateItems(rows, id, PublishPatch(price))[k]
        == rows[k].(isPublic := true, salePriceListing := Some(price), status := ForSale)
    ensures forall k :: 0 <= k < |rows| && rows[k].id != id ==>
      UpdateItems(rows, id, PublishPatch(price))[k] == rows[k]
    ensures forall k :: 0 <= k < |rows| && rows[k].id == id ==>
      UpdateItems(rows, id, PublishPatch(price))[k] in RefurbPipeline(UpdateItems(rows, id, PublishPatch(price)))
  {
  }

  /**
   * Saving specs writes only the supplied fields of the rows with the id;
   * the health-check modal's patch leaves identity, pricing, status,
   * visibility and photo of those rows untouched.
   */
  lemma SaveSpecsEffect(rows: seq<InventoryItem>, id: int, cpu: string, battery: string, ssd: string)
    ensures |UpdateItems(rows, id, HealthCheckPatch(cpu, battery, ssd))| == |rows|
    ensures forall k :: 0 <= k < |rows| && rows[k].id != id ==>
      UpdateItems(rows, id, HealthCheckPatch(cpu, battery, ssd))[k] == rows[k]
    ensures forall k :: 0 <= k < |rows| && rows[k].id == id ==>
      UpdateItems(rows, id, HealthCheckPatch(cpu, battery, ssd))[k]
        == rows[k].(cpu := Some(cpu), batteryHealth := Some(battery), ssdHealth := Some(ssd))
  {
  }

  /** Updating a repair status changes only that field of the quotes with the id. */
  lemma RepairStatusEffect(rows: seq<LaptopQuote>, id: int, status: string)
    ensures |UpdateQuotes(rows, id, QuotePatch(None, Some(status)))| == |rows|
    ensures forall k :: 0 <= k < |rows| && rows[k].id != id ==>
      UpdateQuotes(rows, id, QuotePatch(None, Some(status)))[k] == rows[k]
    ensures forall k :: 0 <= k < |rows| && rows[k].id == id ==>
      UpdateQuotes(rows, id, QuotePatch(None, Some(status)))[k] == rows[k].(repairStatus := Some(status))
  {
  }

  /**
   * Marking a quote purchased moves it out of "Incoming Leads" and into
   * "Active Customer Repairs", and leaves the other quotes as they were.
   */
  lemma PurchasedLeavesIncoming(rows: seq<LaptopQuote>, id: int)
    ensures forall k :: 0 <= k < |rows| && rows[k].id != id ==> UpdateQuotes(rows, id, PurchasedPatch)[k] == rows[k]
    ensures forall x :: x in UpdateQuotes(rows, id, PurchasedPatch) && x.id == id ==>
      x !in IncomingLeads(UpdateQuotes(rows, id, PurchasedPatch))
      && x in ActiveRepairs(UpdateQuotes(rows, id, PurchasedPatch))
  {
  }

  // ---------------------------------------------------------------------
  // List views

  /** "Active Customer Repairs": the quotes whose status is "purchased". */
  function ActiveRepairs(quotes: seq<LaptopQuote>): (r: seq<LaptopQuote>)
    ensures forall q :: q in r <==> q in quotes && q.status == "purchased"
  {
    Filter(quotes, (q: LaptopQuote) => q.status == "purchased")
  }

  /** "Incoming Leads": the quotes whose status is "new". */
  function IncomingLeads(quotes: seq<LaptopQuote>): (r: seq<LaptopQuote>)
    ensures forall q :: q in r <==> q in quotes && q.status == "new"
  {
    Filter(quotes, (q: LaptopQuote) => q.status == "new")
  }

  /** "Refurb Pipeline": every item not sold, listed ones included. */
  function RefurbPipeline(inventory: seq<InventoryItem>): (r: seq<InventoryItem>)
    ensures forall i :: i in r <==> i in inventory && i.status != Sold
  {
    Filter(inventory, (i: InventoryItem) => i.status != Sold)
  }

  /** The row the public quote form inserts: its status is "pending". */
  function FormQuote(id: int, customerName: string, laptopDetails: string): LaptopQuote
  {
    LaptopQuote(id, customerName, laptopDetails, "pending", None)
  }

  /** A quote as the public form writes it never shows under "Incoming Leads". */
  lemma FormQuoteNeverIncoming(quotes: seq<LaptopQuote>, id: int, customerName: string, laptopDetails: string)
    ensures FormQuote(id, customerName, laptopDetails) !in IncomingLeads(quotes)
  {
  }

  // ---------------------------------------------------------------------
  // Financial figures

  predicate IsSold(item: InventoryItem) { item.status == Sold }

  /** `sale_price_listing || 0`: a missing listing price counts as 0. */
  function SaleOrZero(item: InventoryItem): real
  {
    match item.salePriceListing
    case None => 0.0
    case Some(p) => p
  }

  function Cost(item: InventoryItem): real { item.purchasePrice }

  /** The profit shown on one row of the history table. */
  function RowProfit(item: InventoryItem): real { SaleOrZero(item) - item.purchasePrice }

  /** `soldHistory`: the sold items, in table order. */
  function SoldHistory(inventory: seq<InventoryItem>): (r: seq<InventoryItem>)
    ensures forall i :: i in r <==> i in inventory && i.status == Sold
  {
    Filter(inventory, IsSold)
  }

  function TotalRevenue(inventory: seq<InventoryItem>): real
  {
    SumOf(SoldHistory(inventory), SaleOrZero)
  }

  function TotalCost(inventory: seq<InventoryItem>): real
  {
    SumOf(SoldHistory(inventory), Cost)
  }

  function NetProfit(inventory: seq<InventoryItem>): real
  {
    TotalRevenue(inventory) - TotalCost(inventory)
  }

  /** The net profit is the sum of the per-row profits of the history table. */
  lemma NetProfitIsSumOfRows(inventory: seq<InventoryItem>)
    ensures NetProfit(inventory) == SumOf(SoldHistory(inventory), RowProfit)
  {
    SumOfDifference(SoldHistory(inventory), SaleOrZero, Cost, RowProfit);
  }

  /** Appending a row adds its listing price to the revenue exactly when it is sold. */
  lemma RevenueOfAppend(inventory: seq<InventoryItem>, item: InventoryItem)
    ensures TotalRevenue(inventory + [item]) == TotalRevenue(inventory) + (if IsSold(item) then SaleOrZero(item) else 0.0)
  {
    FilterConcat(inventory, [item], IsSold);
    assert Filter([item], IsSold) == (if IsSold(item) then [item] else []) by {
      assert [item][..0] == [];
    }
    SumOfConcat(SoldHistory(inventory), Filter([item], IsSold), SaleOrZero);
    if IsSold(item) {
      assert [item][..0] == [];
    }
  }

  // ---------------------------------------------------------------------
  // Monthly revenue

  /** A month number as `Date.getMonth` returns it: 0 is January. */
  type Month = m: int | 0 <= m < 12

  const MonthNames: seq<string> := ["Jan", "Feb", "Mar", "Apr", "May", "Jun", "Jul", "Aug", "Sep", "Oct", "Nov", "Dec"]

  /** One bar of the revenue chart. */
  datatype MonthAmount = MonthAmount(month: string, amount: real)

  /** What one row adds to month `m`: its listing price if it is sold in that month. */
  function MonthShare(item: InventoryItem, monthOf: int -> Month, m: int): real
  {
    if IsSold(item) && monthOf(item.id) == m then SaleOrZero(item) else 0.0
  }

  /** The revenue of month `m`; `monthOf` stands for the month of the row's id read as a timestamp. */
  function MonthRevenue(inventory: seq<InventoryItem>, monthOf: int -> Month, m: int): real
  {
    if inventory == [] then 0.0
    else MonthRevenue(inventory[..|inventory| - 1], monthOf, m) + MonthShare(inventory[|inventory| - 1], monthOf, m)
  }

  /** The revenues of months 0 .. k-1 added up. */
  function MonthsTotal(inventory: seq<InventoryItem>, monthOf: int -> Month, k: nat): real
  {
    if k == 0 then 0.0 else MonthsTotal(inventory, monthOf, k - 1) + MonthRevenue(inventory, monthOf, k - 1)
  }

  /** Unsold rows contribute nothing to any month. */
  lemma {:induction false} MonthRevenueOfSold(inventory: seq<InventoryItem>, monthOf: int -> Month, m: int)
    ensures MonthRevenue(SoldHistory(inventory), monthOf, m) == MonthRevenue(inventory, monthOf, m)
  {
    if inventory != [] {
      var init, x := inventory[..|inventory| - 1], inventory[|inventory| - 1];
      MonthRevenueOfSold(init, monthOf, m);
      if IsSold(x) {
        assert SoldHistory(inventory) == SoldHistory(init) + [x];
        assert (SoldHistory(init) + [x])[..|SoldHistory(init)|] == SoldHistory(init);
      } else {
        assert SoldHistory(inventory) == SoldHistory(init);
      }
    }
  }

  /** The shares of one row over months 0 .. k-1. */
  function SharesUpTo(item: InventoryItem, monthOf: int -> Month, k: nat): real
  {
    if k == 0 then 0.0 else SharesUpTo(item, monthOf, k - 1) + MonthShare(item, monthOf, k - 1)
  }

  lemma {:induction false} SharesUpToValue(item: InventoryItem, monthOf: int -> Month, k: nat)
    ensures SharesUpTo(item, monthOf, k) == if IsSold(item) && monthOf(item.id) < k then SaleOrZero(item) else 0.0
  {
    if k > 0 {
      SharesUpToValue(item, monthOf, k - 1);
    }
  }

  lemma {:induction false} MonthsTotalOfAppend(init: seq<InventoryItem>, x: InventoryItem, monthOf: int -> Month, k: nat)
    ensures MonthsTotal(init + [x], monthOf, k) == MonthsTotal(init, monthOf, k) + SharesUpTo(x, monthOf, k)
  {
    assert (init + [x])[..|init|] == init;
    if k > 0 {
      MonthsTotalOfAppend(init, x, monthOf, k - 1);
    }
  }

  /** The twelve monthly amounts add up to the total revenue. */
  lemma {:induction false} YearSumsToRevenue(inventory: seq<InventoryItem>, monthOf: int -> Month)
    ensures MonthsTotal(inventory, monthOf, 12) == TotalRevenue(inventory)
  {
    if inventory == [] {
      MonthsTotalOfEmpty(monthOf, 12);
    } else {
      var init, x := inventory[..|inventory| - 1], inventory[|inventory| - 1];
      assert inventory == init + [x];
      YearSumsToRevenue(init, monthOf);
      MonthsTotalOfAppend(init, x, monthOf, 12);
      SharesUpToValue(x, monthOf, 12);
      RevenueOfAppend(init, x);
    }
  }

  lemma {:induction false} MonthsTotalOfEmpty(monthOf: int -> Month, k: nat)
    ensures MonthsTotal([], monthOf, k) == 0.0
  {
    if k > 0 {
      MonthsTotalOfEmpty(monthOf, k - 1);
    }
  }

  /**
   * `getYearlyData`: twelve zeroed buckets, filled by one pass over the sold
   * rows, then read out January to December.
   */
  method GetYearlyData(inventory: seq<InventoryItem>, monthOf: int -> Month) returns (data: seq<MonthAmount>)
    ensures |data| == 12
    ensures forall m :: 0 <= m < 12 ==> data[m].month == MonthNames[m]
    ensures forall m :: 0 <= m < 12 ==> data[m].amount == MonthRevenue(inventory, monthOf, m)
  {
    var monthlyData := new real[12];
    for m := 0 to 12
      invariant forall j :: 0 <= j < m ==> monthlyData[j] == 0.0
    {
      monthlyData[m] := 0.0;
    }
    var sold := SoldHistory(inventory);
    for i := 0 to |sold|
      invariant forall j :: 0 <= j < 12 ==> monthlyData[j] == MonthRevenue(sold[..i], monthOf, j)
    {
      assert sold[..i + 1][..i] == sold[..i];
      assert sold[i] in sold;
      var month := monthOf(sold[i].id);
      monthlyData[month] := monthlyData[month] + SaleOrZero(sold[i]);
    }
    assert sold[..|sold|] == sold;
    data := [];
    for m := 0 to 12
      invariant |data| == m
      invariant forall j :: 0 <= j < m ==> data[j] == MonthAmount(MonthNames[j], monthlyData[j])
    {
      data := data + [MonthAmount(MonthNames[m], monthlyData[m])];
    }
    forall m | 0 <= m < 12
      ensures data[m].amount == MonthRevenue(inventory, monthOf, m)
    {
      MonthRevenueOfSold(inventory, monthOf, m);
    }
  }

  // ---------------------------------------------------------------------
  // Dashboard state

  /** The dashboard's state after its tables were fetched. */
  class Dashboard {
    var quotes: seq<LaptopQuote>
    var inventory: seq<InventoryItem>
    var refreshSignal: nat
    var activeModal: Option<ModalState>

    constructor (quotes: seq<LaptopQuote>, inventory: seq<InventoryItem>)
      ensures this.quotes == quotes && this.inventory == inventory
      ensures refreshSignal == 0 && activeModal == None
    {
      this.quotes := quotes;
      this.inventory := inventory;
      refreshSignal := 0;
      activeModal := None;
    }

    /** The buttons that open a modal on a row. */
    method OpenModal(modal: ModalState)
      modifies this
      ensures activeModal == Some(modal)
      ensures quotes == old(quotes) && inventory == old(inventory) && refreshSignal == old(refreshSignal)
    {
      activeModal := Some(modal);
    }

    /** `closeModal` and the cancel buttons. */
    method CloseModal()
      modifies this
      ensures activeModal == None
      ensures quotes == old(quotes) && inventory == old(inventory) && refreshSignal == old(refreshSignal)
    {
      activeModal := None;
    }

    /** `handlePublish`: `ok` is the success of the inventory update. */
    method HandlePublish(id: int, price: real, ok: bool)
      modifies this
      ensures quotes == old(quotes)
      ensures ok ==> inventory == UpdateItems(old(inventory), id, PublishPatch(price))
      ensures ok ==> refreshSignal == old(refreshSignal) + 1 && activeModal == None
      ensures !ok ==> inventory == old(inventory) && refreshSignal == old(refreshSignal) && activeModal == old(activeModal)
    {
      if ok {
        inventory := UpdateItems(inventory, id, PublishPatch(price));
        refreshSignal := refreshSignal + 1;
        activeModal := None;
      }
    }

    /** `saveSpecs`: `ok` is the success of the inventory update. */
    method SaveSpecs(id: int, updates: ItemPatch, ok: bool)
      modifies this
      ensures quotes == old(quotes)
      ensures ok ==> inventory == UpdateItems(old(inventory), id, updates)
      ensures ok ==> refreshSignal == old(refreshSignal) + 1 && activeModal == None
      ensures !ok ==> inventory == old(inventory) && refreshSignal == old(refreshSignal) && activeModal == old(activeModal)
    {
      if ok {
        inventory := UpdateItems(inventory, id, updates);
        refreshSignal := refreshSignal + 1;
        activeModal := None;
      }
    }

    /**
     * `handleBuyLead`: `insertOk` is the success of the inventory insert and
     * `updateOk` that of the quote update, whose failure is ignored. `newId`
     * is the id the backend gives the inserted row.
     */
    method HandleBuyLead(quote: LaptopQuote, price: real, newId: int, insertOk: bool, updateOk: bool)
      modifies this
      ensures insertOk ==> inventory == old(inventory) + [IntakeRow(newId, quote, price)]
      ensures insertOk ==> quotes == if updateOk then UpdateQuotes(old(quotes), quote.id, PurchasedPatch) else old(quotes)
      ensures insertOk ==> refreshSignal == old(refreshSignal) + 1 && activeModal == None
      ensures !insertOk ==> quotes == old(quotes) && inventory == old(inventory)
      ensures !insertOk ==> refreshSignal == old(refreshSignal) && activeModal == old(activeModal)
    {
      if insertOk {
        inventory := inventory + [IntakeRow(newId, quote, price)];
        if updateOk {
          quotes := UpdateQuotes(quotes, quote.id, PurchasedPatch);
        }
        refreshSignal := refreshSignal + 1;
        activeModal := None;
      }
    }

    /** The RECYCLE button: buying the lead for nothing. */
    method Recycle(quote: LaptopQuote, newId: int, insertOk: bool, updateOk: bool)
      modifies this
      ensures insertOk ==> inventory == old(inventory) + [IntakeRow(newId, quote, 0.0)]
      ensures insertOk ==> quotes == if updateOk then UpdateQuotes(old(quotes), quote.id, PurchasedPatch) else old(quotes)
      ensures insertOk ==> refreshSignal == old(refreshSignal) + 1 && activeModal == None
      ensures !insertOk ==> quotes == old(quotes) && inventory == old(inventory)
      ensures !insertOk ==> refreshSignal == old(refreshSignal) && activeModal == old(activeModal)
    {
      HandleBuyLead(quote, 0.0, newId, insertOk, updateOk);
    }

    /** `updateRepairStatus`: `ok` is the success of the quote update; the modal is left alone. */
    method UpdateRepairStatus(id: int, status: string, ok: bool)
      modifies this
      ensures inventory == old(inventory) && activeModal == old(activeModal)
      ensures ok ==> quotes == UpdateQuotes(old(quotes), id, QuotePatch(None, Some(status)))
      ensures ok ==> refreshSignal == old(refreshSignal) + 1
      ensures !ok ==> quotes == old(quotes) && refreshSignal == old(refreshSignal)
    {
      if ok {
        quotes := UpdateQuotes(quotes, id, QuotePatch(None, Some(status)));
        refreshSignal := refreshSignal + 1;
      }
    }

    /**
     * `uploadImage`: nothing happens without a chosen file or when the
     * upload fails; otherwise the row's photo url is written (if that update
     * succeeds) and the tables are refreshed either way.
     */
    method UploadImage(itemId: int, hasFile: bool, uploadOk: bool, publicUrl: string, updateOk: bool)
      modifies this
      ensures quotes == old(quotes) && activeModal == old(activeModal)
      ensures hasFile && uploadOk ==> refreshSignal == old(refreshSignal) + 1
      ensures hasFile && uploadOk && updateOk ==>
        inventory == UpdateItems(old(inventory), itemId, EmptyItemPatch.(imageUrl := Some(publicUrl)))
      ensures !(hasFile && uploadOk && updateOk) ==> inventory == old(inventory)
      ensures !(hasFile && uploadOk) ==> refreshSignal == old(refreshSignal)
    {
      if !hasFile {
        return;
      }
      if uploadOk {
        if updateOk {
          inventory := UpdateItems(inventory, itemId, EmptyItemPatch.(imageUrl := Some(publicUrl)));
        }
        refreshSignal := refreshSignal + 1;
      }
    }
  }
}
