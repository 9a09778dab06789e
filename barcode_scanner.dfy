/**
 * The barcode scanner screen (app/barcode-scanner.tsx): a code read by the
 * camera or typed in is checked, looked up in the inventory and then used to
 * restock or to use the item, by the quantity the screen was opened with.
 */
module BarcodeScanner {
  import opened Common
  import opened Text
  import opened Salon
  import opened Inventory
  import InventoryScreen

  /** `action === 'restock'`; any other action parameter, or none, means use. */
  predicate IsRestock(action: Option<string>) { action == Some("restock") }

  /** `parseInt(quantity || '1')`: a missing or empty parameter means one unit. */
  function ParamQuantity(quantity: Option<string>): JsNumber {
    if quantity.None? || quantity.value == "" then ParseInt("1") else ParseInt(quantity.value)
  }

  /** The alert `processBarcode` ends with (and the message that tells the failures apart). */
  datatype ScanOutcome =
    | InvalidCode
    | NotFound
    | Done(item: InventoryItem, n: int)
    | NotEnoughStock
    | UnknownError

  /** `!data?.trim() || data.length > 100`: the length limit is on the untrimmed text. */
  predicate CodeRejected(data: string) {
    IsBlank(data) || JsLength(data) > 100
  }

  /**
   * What `processBarcode(data)` reports for the screen's `action` and parsed
   * quantity `q`. The text matters only through the length and blank check and
   * its trimmed form (`Decide`).
   */
  function ScanDecision(items: seq<InventoryItem>, data: string, action: Option<string>, q: JsNumber): ScanOutcome {
    Decide(items, CodeRejected(data), Trim(data), action, q)
  }

  /**
   * A rejected code is invalid; otherwise the item with the code is looked up.
   * A restock of a found item succeeds when the quantity parses (see
   * `RestockByNaNAsWritten` for the source's `NaN` case); any action other than 'restock' uses the item, and
   * its failure reads "not enough stock" only when the action is exactly 'use'.
   */
  function Decide(items: seq<InventoryItem>, rejected: bool, code: string, action: Option<string>, q: JsNumber): ScanOutcome {
    if rejected then InvalidCode
    else
      var found := FindByBarcode(items, code);
      if found.None? then NotFound
      else if IsRestock(action) then (if q.Num? then Done(found.value, q.value) else UnknownError)
      else if q.Num? && CanUse(items, found.value.id, q.value) then Done(found.value, q.value)
      else if action == Some("use") then NotEnoughStock
      else UnknownError
  }

  /** The inventory after `processBarcode(data)`: changed only on success, by the action's store call. */
  function ScanEffect(items: seq<InventoryItem>, data: string, action: Option<string>, q: JsNumber, now: int): seq<InventoryItem> {
    Apply(items, ScanDecision(items, data, action, q), action, now)
  }

  /** The store call behind an outcome: only a success restocks or uses the item, by its quantity. */
  function Apply(items: seq<InventoryItem>, outcome: ScanOutcome, action: Option<string>, now: int): seq<InventoryItem> {
    match outcome
    case Done(x, n) => if IsRestock(action) then Restocked(items, x.id, n, now) else AfterUse(items, x.id, n)
    case _ => items
  }

  /** The source's `success` flag: `!!restockByBarcode(...)` for a restock, `useItemByBarcode(...)` otherwise. */
  predicate ScanSuccessAsWritten(items: seq<InventoryItem>, data: string, action: Option<string>, q: JsNumber) {
    var code := Trim(data);
    if IsRestock(action) then FindByBarcode(items, code).Some?
    else q.Num? && CanUseByBarcode(items, code, q.value)
  }

  /** A rejected code is reported as invalid and looks nothing up. */
  lemma RejectedCodeUnchanged(items: seq<InventoryItem>, data: string, action: Option<string>, q: JsNumber, now: int)
    requires CodeRejected(data)
    ensures ScanDecision(items, data, action, q) == InvalidCode && ScanEffect(items, data, action, q, now) == items
  {
  }

  /** A code of at most 100 code units with surrounding white space is read as its trimmed text. */
  lemma ScanIgnoresSurroundingSpace(items: seq<InventoryItem>, data: string, action: Option<string>, q: JsNumber)
    requires JsLength(data) <= 100
    ensures ScanDecision(items, data, action, q) == ScanDecision(items, Trim(data), action, q)
  {
    TrimmedBlank(data);
    TrimShortens(data);
  }

  /** ... and changes the stock as its trimmed text does. */
  lemma ScanEffectIgnoresSurroundingSpace(items: seq<InventoryItem>, data: string, action: Option<string>, q: JsNumber, now: int)
    requires JsLength(data) <= 100
    ensures ScanEffect(items, data, action, q, now) == ScanEffect(items, Trim(data), action, q, now)
  {
    ScanIgnoresSurroundingSpace(items, data, action, q);
  }

  /** A missing or empty quantity parameter means one unit. */
  lemma DefaultQuantityIsOne()
    ensures ParamQuantity(None) == Num(1) && ParamQuantity(Some("")) == Num(1)
  {
    ParseIntOne();
  }

  /** A quantity parameter printed from a number (as the inventory screen does) reads back as that number. */
  lemma PrintedQuantityParses(n: int)
    ensures ParamQuantity(Some(IntToString(n))) == Num(n)
  {
    PrintedNumberParses(n);
  }

  /**
   * The inventory screen's camera dialog hands over what this screen reads:
   * the action parameter means restock exactly for a restock, and the quantity
   * parameter reads back as the positive quantity that was checked.
   */
  lemma CameraRouteReadsBack(action: InventoryScreen.BarcodeAction, qtext: string)
    requires InventoryScreen.CameraRoute(action, qtext).Some?
    ensures var r := InventoryScreen.CameraRoute(action, qtext).value;
            var n := InventoryScreen.ValidQuantity(qtext).value;
            && (IsRestock(Some(r.action)) <==> action == InventoryScreen.Restock)
            && ParamQuantity(Some(r.quantity)) == Num(n) && n > 0
  {
    var n := InventoryScreen.ValidQuantity(qtext).value;
    InventoryScreen.ValidQuantityMeaning(qtext);
    PrintedQuantityParses(n);
  }

  /** A code no item carries is reported as not found, and nothing changes. */
  lemma ScanUnknownBarcode(items: seq<InventoryItem>, data: string, action: Option<string>, q: JsNumber, now: int)
    requires !CodeRejected(data)
    requires forall i :: 0 <= i < |items| ==> items[i].barcode != Some(Trim(data))
    ensures ScanDecision(items, data, action, q) == NotFound && ScanEffect(items, data, action, q, now) == items
  {
    var code := Trim(data);
    InventoryScreen.BarcodeAbsent(items, code);
    assert ScanDecision(items, data, action, q) == Decide(items, false, code, action, q);
  }

  /**
   * On a store with unique ids, a restock of the first item with the code by a
   * quantity `n` reports that item and raises exactly its quantity by `n`,
   * stamping the restock time.
   */
  lemma ScanRestockAt(items: seq<InventoryItem>, data: string, n: int, now: int, k: nat)
    requires UniqueIds(items) && !CodeRejected(data)
    requires FirstWithBarcode(items, Trim(data), k)
    ensures ScanDecision(items, data, Some("restock"), Num(n)) == Done(items[k], n)
    ensures ScanEffect(items, data, Some("restock"), Num(n), now)
            == items[k := items[k].(quantity := items[k].quantity + n, lastRestocked := Some(now))]
  {
    var code := Trim(data);
    FindByBarcodeFirst(items, code, k);
    ScanSteps(items, data, Some("restock"), Num(n), now);
    RestockedAt(items, items[k].id, n, now, k);
  }

  /**
   * On a store with unique ids, any other action uses the first item with the
   * code: it succeeds exactly when that item holds at least the quantity, and
   * then lowers exactly its quantity; otherwise nothing changes.
   */
  lemma ScanUseAt(items: seq<InventoryItem>, data: string, action: Option<string>, n: int, k: nat)
    requires UniqueIds(items) && !CodeRejected(data) && !IsRestock(action)
    requires FirstWithBarcode(items, Trim(data), k)
    ensures ScanDecision(items, data, action, Num(n))
            == if items[k].quantity >= n then Done(items[k], n)
               else if action == Some("use") then NotEnoughStock else UnknownError
    ensures ScanEffect(items, data, action, Num(n), 0)
            == if items[k].quantity >= n then items[k := items[k].(quantity := items[k].quantity - n)] else items
  {
    var code := Trim(data);
    FindByBarcodeFirst(items, code, k);
    ScanSteps(items, data, action, Num(n), 0);
    UsedAt(items, items[k].id, n, k);
    assert CanUseByBarcode(items, code, n) <==> items[k].quantity >= n;
    assert AfterUseByBarcode(items, code, n) == AfterUse(items, items[k].id, n);
  }

  /** A use with a quantity that does not parse fails without touching the stock, in the source as here. */
  lemma ScanUseOfNaNFails(items: seq<InventoryItem>, data: string, action: Option<string>, now: int)
    requires !CodeRejected(data) && !IsRestock(action)
    ensures !ScanDecision(items, data, action, NaN).Done? && ScanEffect(items, data, action, NaN, now) == items
    ensures !ScanSuccessAsWritten(items, data, action, NaN)
  {
  }

  /** The reported outcome is a success exactly when the source's flag is, except for a restock by `NaN`. */
  lemma ScanSuccessAgrees(items: seq<InventoryItem>, data: string, action: Option<string>, q: JsNumber)
    requires !CodeRejected(data) && FindByBarcode(items, Trim(data)).Some?
    ensures ScanDecision(items, data, action, q).Done? <==>
            ScanSuccessAsWritten(items, data, action, q) && !(IsRestock(action) && q == NaN)
  {
  }

  /** For a code that passes the check and is found, the outcome and the effect in terms of the store calls. */
  lemma ScanSteps(items: seq<InventoryItem>, data: string, action: Option<string>, q: JsNumber, now: int)
    requires !CodeRejected(data) && FindByBarcode(items, Trim(data)).Some?
    ensures var code := Trim(data);
            var found := FindByBarcode(items, code);
            var success := if IsRestock(action) then q.Num? else q.Num? && CanUseByBarcode(items, code, q.value);
            && ScanDecision(items, data, action, q)
               == (if success then Done(found.value, q.value)
                   else if action == Some("use") then NotEnoughStock else UnknownError)
            && ScanEffect(items, data, action, q, now)
               == (if !q.Num? then items
                   else if IsRestock(action) then Restocked(items, found.value.id, q.value, now)
                   else AfterUseByBarcode(items, code, q.value))
  {
  }

  /** The quantity "abc" does not parse. */
  lemma WordQuantityIsNaN()
    ensures ParamQuantity(Some("abc")) == NaN
  {
    NonNumericIsNaN("abc");
  }

  /**
   * As written, a restock whose quantity parameter does not parse still counts
   * as a success for a known code: the store is asked to add `NaN` to the stock.
   * The model reports an error instead and leaves the stock alone.
   */
  lemma RestockByNaNAsWritten(items: seq<InventoryItem>, data: string)
    requires !CodeRejected(data) && FindByBarcode(items, Trim(data)).Some?
    ensures var q := ParamQuantity(Some("abc"));
            q == NaN && ScanSuccessAsWritten(items, data, Some("restock"), q)
            && ScanDecision(items, data, Some("restock"), q) == UnknownError
            && ScanEffect(items, data, Some("restock"), q, 0) == items
  {
    WordQuantityIsNaN();
    assert IsRestock(Some("restock"));
    assert ScanDecision(items, data, Some("restock"), NaN) == Decide(items, false, Trim(data), Some("restock"), NaN);
  }

  /** A restock whose quantity does not parse is never a success and never touches the stock. */
  lemma ScanRestockOfNaNRefused(items: seq<InventoryItem>, data: string, action: Option<string>, now: int)
    requires IsRestock(action)
    ensures !ScanDecision(items, data, action, NaN).Done?
    ensures ScanEffect(items, data, action, NaN, now) == items
  {
    DecideRestockOfNaN(items, CodeRejected(data), Trim(data), action);
  }

  lemma DecideRestockOfNaN(items: seq<InventoryItem>, rejected: bool, code: string, action: Option<string>)
    requires IsRestock(action)
    ensures !Decide(items, rejected, code, action, NaN).Done?
  {
  }

  datatype InputMode = CameraMode | ManualMode

  /**
   * The screen's state. `store` is the inventory hook; the route parameters
   * are fixed for the screen's lifetime. Alerts are the outcomes the handlers
   * return; the alert buttons that reset the screen are `Retry`.
   */
  class ScannerScreen {
    const store: InventoryStore
    const action: Option<string>
    const quantity: Option<string>
    var scanned: bool
    var manualInput: string
    var inputMode: InputMode

    /** The screen opens in manual mode on the web and with the camera elsewhere. */
    constructor (store: InventoryStore, action: Option<string>, quantity: Option<string>, onWeb: bool)
      ensures this.store == store && this.action == action && this.quantity == quantity
      ensures !scanned && manualInput == "" && inputMode == (if onWeb then ManualMode else CameraMode)
    {
      this.store := store;
      this.action, this.quantity := action, quantity;
      scanned, manualInput, inputMode := false, "", if onWeb then ManualMode else CameraMode;
    }

    /** `processBarcode(data)`: the outcome and the store call of `ScanDecision`. */
    method ProcessBarcode(data: string, now: int) returns (outcome: ScanOutcome)
      modifies store
      ensures outcome == ScanDecision(old(store.items), data, action, ParamQuantity(quantity))
      ensures store.items == ScanEffect(old(store.items), data, action, ParamQuantity(quantity), now)
    {
      if CodeRejected(data) {
        return InvalidCode;
      }
      var code := Trim(data);
      var before := store.items;
      var item := FindByBarcode(before, code);
      if item.None? {
        return NotFound;
      }
      var q := ParamQuantity(quantity);
      ScanSteps(before, data, action, q, now);
      var success := false;
      if IsRestock(action) {
        if q.Num? {
          var result := store.RestockByBarcode(code, q.value, now);
          success := result.Some?;
        }
      } else if q.Num? {
        success := store.UseItemByBarcode(code, q.value);
      }
      outcome := if success then Done(item.value, q.value)
                 else if action == Some("use") then NotEnoughStock else UnknownError;
    }

    /** `handleBarcodeScanned`: only the first scan is processed; it latches `scanned` first. */
    method HandleBarcodeScanned(data: string, now: int) returns (outcome: Option<ScanOutcome>)
      modifies this`scanned, store
      ensures scanned
      ensures old(scanned) ==> outcome == None && store.items == old(store.items)
      ensures !old(scanned) ==> outcome == Some(ScanDecision(old(store.items), data, action, ParamQuantity(quantity)))
                                && store.items == ScanEffect(old(store.items), data, action, ParamQuantity(quantity), now)
    {
      if scanned {
        return None;
      }
      scanned := true;
      var r := ProcessBarcode(data, now);
      outcome := Some(r);
    }

    /** `handleManualSubmit`: blank input is refused before any lookup; otherwise the trimmed text is processed. */
    method HandleManualSubmit(now: int) returns (outcome: Option<ScanOutcome>)
      modifies store
      ensures IsBlank(old(manualInput)) ==> outcome == None && store.items == old(store.items)
      ensures !IsBlank(old(manualInput)) ==>
                outcome == Some(ScanDecision(old(store.items), Trim(old(manualInput)), action, ParamQuantity(quantity)))
                && store.items == ScanEffect(old(store.items), Trim(old(manualInput)), action, ParamQuantity(quantity), now)
    {
      if IsBlank(manualInput) {
        return None;
      }
      var r := ProcessBarcode(Trim(manualInput), now);
      outcome := Some(r);
    }

    method SetManualInput(text: string)
      modifies this`manualInput
      ensures manualInput == text
    {
      manualInput := text;
    }

    /** `toggleInputMode`: camera and manual swap, and the latch and the typed text are cleared. */
    method ToggleInputMode()
      modifies this`inputMode, this`scanned, this`manualInput
      ensures inputMode == (if old(inputMode) == CameraMode then ManualMode else CameraMode)
      ensures !scanned && manualInput == ""
    {
      inputMode, scanned, manualInput := if inputMode == CameraMode then ManualMode else CameraMode, false, "";
    }

    /** The "try again" and "scan another" alert buttons: ready for a new scan. */
    method Retry()
      modifies this`scanned, this`manualInput
      ensures !scanned && manualInput == ""
    {
      scanned, manualInput := false, "";
    }
  }
}
