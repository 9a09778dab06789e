/**
 * The inventory screen (app/inventory.tsx): the combined category and search
 * filter, the add/edit form with its checks, restock confirmation, the barcode
 * dialog and the quick-use button, all acting on the inventory store.
 */
module InventoryScreen {
  import opened Common
  import opened Text
  import opened Salon
  import opened Inventory

  /** The category chips: every category, or one of them. */
  datatype CategoryFilter = All | Only(category: InventoryCategory)

  predicate InFilter(item: InventoryItem, sel: CategoryFilter) {
    sel.All? || item.category == sel.category
  }

  /**
   * `filteredItems`: the selected category's items, or with a non-empty search
   * the search result restricted to the selected category.
   */
  function Filtered(items: seq<InventoryItem>, sel: CategoryFilter, query: string): (r: seq<InventoryItem>)
    ensures |r| <= |items|
    ensures forall x :: x in r <==> x in items && InFilter(x, sel) && (query == "" || Matches(x, query))
    ensures query == "" && sel.All? ==> r == items
  {
    var byCategory := if sel.All? then items else ByCategory(items, sel.category);
    if query == "" then byCategory
    else
      var found := Search(items, query);
      if sel.All? then found else ByCategory(found, sel.category)
  }

  /** The screen's filter distributes over concatenation, so rows keep the store's order. */
  lemma FilteredAppend(a: seq<InventoryItem>, b: seq<InventoryItem>, sel: CategoryFilter, query: string)
    ensures Filtered(a + b, sel, query) == Filtered(a, sel, query) + Filtered(b, sel, query)
  {
    if !sel.All? {
      ByCategoryAppend(a, b, sel.category);
    }
    if query != "" {
      SearchAppend(a, b, query);
      if !sel.All? {
        ByCategoryAppend(Search(a, query), Search(b, query), sel.category);
      }
    }
  }

  /** The warning colour on a row (line 392). */
  predicate IsLowStock(item: InventoryItem) {
    item.quantity <= item.minQuantity
  }

  /** The rows flagged on screen are exactly the items `getLowStockItems` reports. */
  lemma LowStockFlagAgrees(items: seq<InventoryItem>, x: InventoryItem)
    requires x in items
    ensures IsLowStock(x) <==> x in LowStock(items)
  {
  }

  // ----- the add/edit form -----

  /** The form's text fields, as typed. */
  datatype ItemForm = ItemForm(
    name: string, category: InventoryCategory, quantity: string, minQuantity: string,
    unit: string, price: string, supplier: string, barcode: string)

  /** The form `handleAddItem` opens. */
  const EmptyForm := ItemForm("", Wax, "", "", "", "", "", "")

  /** `value || ''`. */
  function OrEmpty(o: Option<string>): string {
    if o.Some? then o.value else ""
  }

  /** `handleEditItem`: the form filled in from a stored item, numbers printed in decimal. */
  function FormOf(item: InventoryItem): ItemForm {
    ItemForm(item.name, item.category, IntToString(item.quantity), IntToString(item.minQuantity),
             item.unit, IntToString(item.price), OrEmpty(item.supplier), OrEmpty(item.barcode))
  }

  /** The first check of `handleSaveItem`: name and unit not blank, the three numbers not empty. */
  predicate RequiredPresent(f: ItemForm) {
    !IsBlank(f.name) && f.quantity != "" && f.minQuantity != "" && !IsBlank(f.unit) && f.price != ""
  }

  /** `formData.barcode.trim() || undefined`. */
  function SavedBarcode(f: ItemForm): (r: Option<string>)
    ensures r.None? <==> Trim(f.barcode) == []
    ensures r.Some? ==> r.value == Trim(f.barcode)
  {
    var code := Trim(f.barcode);
    if code == "" then None else Some(code)
  }

  /** `formData.supplier || undefined`: an empty supplier is stored as absent. */
  function SavedSupplier(f: ItemForm): (r: Option<string>)
    ensures r.None? <==> f.supplier == ""
  {
    if f.supplier == "" then None else Some(f.supplier)
  }

  /** The barcode check: the trimmed barcode is already on an item other than the one being edited. */
  predicate BarcodeInUse(items: seq<InventoryItem>, f: ItemForm, editing: Option<InventoryItem>) {
    var code := Trim(f.barcode);
    var found := FindByBarcode(items, code);
    code != "" && found.Some? && (editing.None? || found.value.id != editing.value.id)
  }

  /** The three numbers of the form after parsing. */
  datatype ItemNumbers = ItemNumbers(quantity: int, minQuantity: int, price: int)

  /** The form's numbers, when all three parse. */
  function ParsedNumbers(f: ItemForm): Option<ItemNumbers> {
    var q, m, p := ParseInt(f.quantity), ParseInt(f.minQuantity), ParseInt(f.price);
    if q.Num? && m.Num? && p.Num? then Some(ItemNumbers(q.value, m.value, p.value)) else None
  }

  /** What `handleSaveItem` decides, in the order it checks. */
  datatype SaveOutcome = MissingFields | DuplicateBarcode | NotANumber | Saved(numbers: ItemNumbers)

  /**
   * The save decision. The source has no `NotANumber` case: a number field that
   * does not parse is stored as `NaN` (see `SaveAcceptsNaN`); the model refuses it.
   */
  function SaveDecision(items: seq<InventoryItem>, f: ItemForm, editing: Option<InventoryItem>): SaveOutcome {
    if !RequiredPresent(f) then MissingFields
    else if BarcodeInUse(items, f, editing) then DuplicateBarcode
    else
      var n := ParsedNumbers(f);
      if n.None? then NotANumber else Saved(n.value)
  }

  /** `itemData` as `addItem` receives it: name and unit as typed, no restock stamp. */
  function DraftOf(f: ItemForm, n: ItemNumbers): ItemDraft {
    ItemDraft(f.name, f.category, n.quantity, n.minQuantity, f.unit, n.price,
              SavedSupplier(f), None, SavedBarcode(f))
  }

  /** `itemData` as `updateItem` receives it: the eight form fields are overwritten, id and restock stamp kept. */
  function PatchOf(f: ItemForm, n: ItemNumbers): ItemPatch {
    ItemPatch(Keep, Set(f.name), Set(f.category), Set(n.quantity), Set(n.minQuantity), Set(f.unit),
              Set(n.price), Set(SavedSupplier(f)), Keep, Set(SavedBarcode(f)))
  }

  /** The inventory after `handleSaveItem`: an edit updates the edited id, otherwise one item is appended. */
  function AfterSave(items: seq<InventoryItem>, f: ItemForm, editing: Option<InventoryItem>, newId: string): seq<InventoryItem> {
    ApplySave(items, SaveDecision(items, f, editing), f, editing, newId)
  }

  /** The store call behind a save decision. */
  function ApplySave(items: seq<InventoryItem>, d: SaveOutcome, f: ItemForm, editing: Option<InventoryItem>, newId: string): seq<InventoryItem> {
    if !d.Saved? then items
    else if editing.Some? then Updated(items, editing.value.id, PatchOf(f, d.numbers))
    else items + [WithId(DraftOf(f, d.numbers), newId)]
  }

  /** Present barcodes are pairwise different. */
  predicate UniqueBarcodes(items: seq<InventoryItem>) {
    forall i, j :: 0 <= i < j < |items| && items[i].barcode.Some? ==> items[i].barcode != items[j].barcode
  }

  /** A new item cannot take a barcode some item already has. */
  lemma NewItemBarcodeClash(items: seq<InventoryItem>, f: ItemForm, k: nat)
    requires RequiredPresent(f) && !IsBlank(f.barcode)
    requires k < |items| && items[k].barcode == Some(Trim(f.barcode))
    ensures SaveDecision(items, f, None) == DuplicateBarcode
  {
    assert Trim(f.barcode) != "";
  }

  /** Two positions holding the same present barcode are one position. */
  lemma SameBarcodeSameIndex(items: seq<InventoryItem>, i: nat, j: nat)
    requires UniqueBarcodes(items) && i < |items| && j < |items|
    requires items[i].barcode.Some? && items[i].barcode == items[j].barcode
    ensures i == j
  {
  }

  /** When the first item with `code` (if any) has id `id`, no item with another id has `code`. */
  lemma NoOtherHasCode(items: seq<InventoryItem>, code: string, id: string, j: nat)
    requires UniqueBarcodes(items) && j < |items| && items[j].id != id
    requires var found := FindByBarcode(items, code); found.None? || found.value.id == id
    ensures items[j].barcode != Some(code)
  {
    var found := FindByBarcode(items, code);
    if found.Some? {
      var m :| 0 <= m < |items| && items[m] == found.value;
      assert m != j && items[m].barcode == Some(code);
    }
  }

  /** On a store with unique barcodes, re-saving an item with its own barcode passes the barcode check. */
  lemma OwnBarcodeAllowed(items: seq<InventoryItem>, f: ItemForm, e: InventoryItem)
    requires UniqueBarcodes(items) && e in items && e.barcode == Some(Trim(f.barcode))
    ensures !BarcodeInUse(items, f, Some(e))
  {
    var found := FindByBarcode(items, Trim(f.barcode));
    if found.Some? {
      var i :| 0 <= i < |items| && items[i] == e;
      var j :| 0 <= j < |items| && items[j] == found.value;
      SameBarcodeSameIndex(items, i, j);
    }
  }

  /** What a successful save has checked. */
  lemma SavedChecks(items: seq<InventoryItem>, f: ItemForm, editing: Option<InventoryItem>)
    requires SaveDecision(items, f, editing).Saved?
    ensures RequiredPresent(f) && !BarcodeInUse(items, f, editing)
  {
  }

  /** Appending an item whose barcode (if any) no item has keeps barcodes unique. */
  lemma AppendKeepsBarcodesUnique(items: seq<InventoryItem>, x: InventoryItem)
    requires UniqueBarcodes(items)
    requires x.barcode.Some? ==> forall i :: 0 <= i < |items| ==> items[i].barcode != x.barcode
    ensures UniqueBarcodes(items + [x])
  {
    var r := items + [x];
    forall i, j | 0 <= i < j < |r| && r[i].barcode.Some? ensures r[i].barcode != r[j].barcode {
      assert r[i] == items[i];
      if j < |items| {
        assert r[j] == items[j];
      }
    }
  }

  /** A save never lets two items share a barcode. */
  lemma SaveKeepsBarcodesUnique(items: seq<InventoryItem>, f: ItemForm, editing: Option<InventoryItem>, newId: string)
    requires UniqueIds(items) && UniqueBarcodes(items)
    ensures UniqueBarcodes(AfterSave(items, f, editing, newId))
  {
    var d := SaveDecision(items, f, editing);
    if d.Saved? {
      SavedChecks(items, f, editing);
      var code := Trim(f.barcode);
      if editing.None? {
        var x := WithId(DraftOf(f, d.numbers), newId);
        assert x.barcode == SavedBarcode(f);
        if x.barcode.Some? {
          assert FindByBarcode(items, code).None?;
        }
        AppendKeepsBarcodesUnique(items, x);
      } else {
        UpdateKeepsBarcodesUnique(items, f, editing.value.id, PatchOf(f, d.numbers));
      }
    }
  }

  /** The edit branch of `SaveKeepsBarcodesUnique`. */
  lemma UpdateKeepsBarcodesUnique(items: seq<InventoryItem>, f: ItemForm, id: string, p: ItemPatch)
    requires UniqueIds(items) && UniqueBarcodes(items)
    requires p.barcode == Set(SavedBarcode(f))
    requires SavedBarcode(f).Some? ==>
               var found := FindByBarcode(items, Trim(f.barcode)); found.None? || found.value.id == id
    ensures UniqueBarcodes(Updated(items, id, p))
  {
    var r := Updated(items, id, p);
    var code := Trim(f.barcode);
    forall i, j | 0 <= i < j < |r| && r[i].barcode.Some? ensures r[i].barcode != r[j].barcode {
      if items[i].id == id {
        assert items[j].id != id;
        assert r[i].barcode == SavedBarcode(f) == Some(code);
        NoOtherHasCode(items, code, id, j);
      } else if items[j].id == id {
        assert r[i] == items[i];
        if SavedBarcode(f).Some? {
          NoOtherHasCode(items, code, id, i);
        }
      } else {
        assert r[i] == items[i] && r[j] == items[j];
      }
    }
  }

  /** The form the save checks accept although its quantity is not a number. */
  const WordQuantityForm := ItemForm("Gyanta", Wax, "sok", "2", "db", "1500", "", "")

  /** A number field that does not parse passes the save checks: the source would store `NaN`. */
  lemma SaveAcceptsNaN()
    ensures RequiredPresent(WordQuantityForm) && !BarcodeInUse([], WordQuantityForm, None)
    ensures ParseInt(WordQuantityForm.quantity) == NaN
  {
    WordFormPasses();
    WordIsNaN();
  }

  /** The corrected save refuses that form, and the store is left as it was. */
  lemma SaveRefusesNaN(newId: string)
    ensures SaveDecision([], WordQuantityForm, None) == NotANumber
    ensures AfterSave([], WordQuantityForm, None, newId) == []
  {
    WordFormPasses();
    WordIsNaN();
  }

  /** A save goes through only with every number field parsed, and stores exactly the parsed values. */
  lemma SavedNumbersParse(items: seq<InventoryItem>, f: ItemForm, editing: Option<InventoryItem>)
    requires SaveDecision(items, f, editing).Saved?
    ensures var n := SaveDecision(items, f, editing).numbers;
            && ParseInt(f.quantity) == Num(n.quantity)
            && ParseInt(f.minQuantity) == Num(n.minQuantity)
            && ParseInt(f.price) == Num(n.price)
  {
    var d := SaveDecision(items, f, editing);
    SavedParsed(items, f, editing);
    ParsedNumbersMeaning(f, d.numbers);
  }

  lemma SavedParsed(items: seq<InventoryItem>, f: ItemForm, editing: Option<InventoryItem>)
    requires SaveDecision(items, f, editing).Saved?
    ensures ParsedNumbers(f) == Some(SaveDecision(items, f, editing).numbers)
  {
  }

  lemma ParsedNumbersMeaning(f: ItemForm, n: ItemNumbers)
    requires ParsedNumbers(f) == Some(n)
    ensures ParseInt(f.quantity) == Num(n.quantity) && ParseInt(f.minQuantity) == Num(n.minQuantity)
    ensures ParseInt(f.price) == Num(n.price)
  {
  }

  lemma WordFormPasses()
    ensures RequiredPresent(WordQuantityForm) && !BarcodeInUse([], WordQuantityForm, None)
  {
    WordFormRequired();
    WordFormBarcodeFree();
  }

  lemma WordFormRequired()
    ensures RequiredPresent(WordQuantityForm)
  {
    WordNameNotBlank();
    WordUnitNotBlank();
  }

  lemma WordNameNotBlank()
    ensures !IsBlank(WordQuantityForm.name)
  {
    TrimOfTrimmed("Gyanta");
  }

  lemma WordUnitNotBlank()
    ensures !IsBlank(WordQuantityForm.unit)
  {
    TrimOfTrimmed("db");
  }

  lemma WordFormBarcodeFree()
    ensures !BarcodeInUse([], WordQuantityForm, None)
  {
    TrimOfTrimmed("");
  }

  lemma WordIsNaN()
    ensures ParseInt("sok") == NaN
  {
    NonNumericIsNaN("sok");
  }

  /** An item whose texts survive the form: name and unit not blank, no empty supplier, a barcode already trimmed. */
  predicate FormFaithful(e: InventoryItem) {
    && !IsBlank(e.name) && !IsBlank(e.unit) && e.supplier != Some("")
    && (e.barcode.None? || (e.barcode.value != "" && Trim(e.barcode.value) == e.barcode.value))
  }

  /** The numbers of the edit form parse back to the item's numbers. */
  lemma FormNumbersParse(e: InventoryItem)
    ensures ParsedNumbers(FormOf(e)) == Some(ItemNumbers(e.quantity, e.minQuantity, e.price))
  {
    PrintedNumberParses(e.quantity);
    PrintedNumberParses(e.minQuantity);
    PrintedNumberParses(e.price);
  }

  /** The edit form of a faithful item writes back its own supplier and barcode. */
  lemma FormTextsSurvive(e: InventoryItem)
    requires FormFaithful(e)
    ensures RequiredPresent(FormOf(e))
    ensures SavedSupplier(FormOf(e)) == e.supplier
    ensures SavedBarcode(FormOf(e)) == e.barcode
    ensures e.barcode.Some? ==> e.barcode == Some(Trim(FormOf(e).barcode))
  {
    PrintedNumberParses(e.quantity);
    PrintedNumberParses(e.minQuantity);
    PrintedNumberParses(e.price);
    if e.barcode.None? {
      assert FormOf(e).barcode == "";
    }
  }

  /** Writing the edit form of a faithful item back over it changes nothing. */
  lemma FormPatchIdentity(e: InventoryItem)
    requires FormFaithful(e)
    ensures Merge(e, PatchOf(FormOf(e), ItemNumbers(e.quantity, e.minQuantity, e.price))) == e
  {
    FormTextsSurvive(e);
  }

  /** A form that passes every check is saved with its numbers. */
  lemma ResaveDecision(items: seq<InventoryItem>, f: ItemForm, editing: Option<InventoryItem>, n: ItemNumbers)
    requires RequiredPresent(f) && !BarcodeInUse(items, f, editing) && ParsedNumbers(f) == Some(n)
    ensures SaveDecision(items, f, editing) == Saved(n)
  {
  }

  /** A form that passes every check and writes the edited item back unchanged leaves the store as it was. */
  lemma ResaveUnchanged(items: seq<InventoryItem>, k: nat, f: ItemForm, n: ItemNumbers, newId: string)
    requires UniqueIds(items) && k < |items| && SaveDecision(items, f, Some(items[k])) == Saved(n)
    requires Merge(items[k], PatchOf(f, n)) == items[k]
    ensures AfterSave(items, f, Some(items[k]), newId) == items
  {
    UpdatedUniqueAt(items, items[k].id, PatchOf(f, n), k, items[k]);
    assert items[k := items[k]] == items;
  }

  /**
   * Opening an item for editing and saving the form unchanged leaves the store
   * as it was, when the item's texts survive the form.
   */
  lemma EditResaveUnchanged(items: seq<InventoryItem>, k: nat, newId: string)
    requires UniqueIds(items) && UniqueBarcodes(items) && k < |items| && FormFaithful(items[k])
    ensures SaveDecision(items, FormOf(items[k]), Some(items[k]))
            == Saved(ItemNumbers(items[k].quantity, items[k].minQuantity, items[k].price))
    ensures AfterSave(items, FormOf(items[k]), Some(items[k]), newId) == items
  {
    var e := items[k];
    FormNumbersParse(e);
    FormTextsSurvive(e);
    if e.barcode.Some? {
      OwnBarcodeAllowed(items, FormOf(e), e);
    }
    FormPatchIdentity(e);
    var n := ItemNumbers(e.quantity, e.minQuantity, e.price);
    ResaveDecision(items, FormOf(e), Some(e), n);
    ResaveUnchanged(items, k, FormOf(e), n, newId);
  }

  // ----- quantities typed into the restock and barcode dialogs -----

  /** The quantity check as written (lines 199 and 222): `!s || parseInt(s) <= 0` refuses. */
  predicate QuantityAcceptedAsWritten(s: string) {
    s != "" && !ParseInt(s).AtMostZero()
  }

  /** Text that is not a number passes the check as written, and the action then runs with `NaN`. */
  lemma NaNQuantityAccepted()
    ensures QuantityAcceptedAsWritten("abc") && ParseInt("abc") == NaN
  {
    NonNumericIsNaN("abc");
  }

  /** The intended check: the text parses to a positive whole number, which is the quantity used. */
  function ValidQuantity(s: string): Option<int> {
    var n := ParseInt(s);
    if n.Num? && n.value > 0 then Some(n.value) else None
  }

  /** A valid quantity is positive and is what `parseInt` reads; text is refused exactly when that gives `NaN` or at most 0. */
  lemma ValidQuantityMeaning(s: string)
    ensures ValidQuantity(s).Some? ==> ValidQuantity(s).value > 0 && ParseInt(s) == Num(ValidQuantity(s).value)
    ensures ValidQuantity(s).None? <==> ParseInt(s) == NaN || ParseInt(s).AtMostZero()
  {
  }

  /** The two checks agree on every text that parses; they differ only where `parseInt` gives `NaN`. */
  lemma QuantityChecksAgreeOnNumbers(s: string)
    requires ParseInt(s).Num?
    ensures QuantityAcceptedAsWritten(s) <==> ValidQuantity(s).Some?
  {
  }

  /** A printed positive number is accepted with its value; a printed non-positive one is refused. */
  lemma ValidQuantityOfPrinted(n: int)
    ensures ValidQuantity(IntToString(n)) == if n > 0 then Some(n) else None
  {
    PrintedNumberParses(n);
  }

  // ----- the barcode dialog -----

  datatype BarcodeAction = Restock | Use

  /** The dialog's result: the two refusals, success, and the three error messages. */
  datatype BarcodeOutcome =
    | BlankBarcode | BadQuantity
    | Done(item: InventoryItem, n: int)
    | NotFound | Insufficient | Failed

  /**
   * What `handleBarcodeSubmit` reports: a blank barcode and a bad quantity are
   * refused first; then the item with the trimmed barcode is looked up; a
   * restock of a known item always succeeds, a use succeeds when `useItem` does.
   */
  function SubmitOutcome(items: seq<InventoryItem>, input: string, action: BarcodeAction, qtext: string): BarcodeOutcome {
    SubmitDecision(items, IsBlank(input), ValidQuantity(qtext), Trim(input), action)
  }

  /** `SubmitOutcome` on the checked inputs: whether the barcode is blank, the valid quantity, the trimmed barcode. */
  function SubmitDecision(items: seq<InventoryItem>, blank: bool, n: Option<int>, code: string, action: BarcodeAction): BarcodeOutcome {
    if blank then BlankBarcode
    else if n.None? then BadQuantity
    else
      var found := FindByBarcode(items, code);
      if found.None? then NotFound
      else if action == Restock || CanUse(items, found.value.id, n.value) then Done(found.value, n.value)
      else Insufficient
  }

  /** The inventory after `handleBarcodeSubmit`: changed only on success. */
  function SubmitEffect(items: seq<InventoryItem>, input: string, action: BarcodeAction, qtext: string, now: int): seq<InventoryItem> {
    ApplySubmit(items, SubmitOutcome(items, input, action, qtext), action, now)
  }

  /** The store call behind an outcome: only a success restocks or uses the item. */
  function ApplySubmit(items: seq<InventoryItem>, outcome: BarcodeOutcome, action: BarcodeAction, now: int): seq<InventoryItem> {
    match outcome
    case Done(x, n) => if action == Restock then Restocked(items, x.id, n, now) else AfterUse(items, x.id, n)
    case _ => items
  }

  /** The outcome and the effect of a submit that passed both input checks, in terms of the store calls. */
  lemma SubmitSteps(items: seq<InventoryItem>, input: string, action: BarcodeAction, qtext: string, now: int)
    requires !IsBlank(input) && ValidQuantity(qtext).Some?
    ensures var code, n := Trim(input), ValidQuantity(qtext).value;
            var found := FindByBarcode(items, code);
            && SubmitOutcome(items, input, action, qtext)
               == (if found.None? then NotFound
                   else if action == Restock || CanUseByBarcode(items, code, n) then Done(found.value, n)
                   else Insufficient)
            && SubmitEffect(items, input, action, qtext, now)
               == (if action == Use then AfterUseByBarcode(items, code, n)
                   else if found.None? then items else Restocked(items, found.value.id, n, now))
  {
  }

  /**
   * On a store with unique ids, a restock by barcode of a valid quantity `n`
   * reports the first item with that barcode and raises exactly its quantity by `n`.
   */
  lemma SubmitRestockAt(items: seq<InventoryItem>, input: string, qtext: string, n: int, now: int, k: nat)
    requires UniqueIds(items) && !IsBlank(input) && ValidQuantity(qtext) == Some(n)
    requires FirstWithBarcode(items, Trim(input), k)
    ensures SubmitOutcome(items, input, Restock, qtext) == Done(items[k], n)
    ensures SubmitEffect(items, input, Restock, qtext, now)
            == items[k := items[k].(quantity := items[k].quantity + n, lastRestocked := Some(now))]
  {
    var code := Trim(input);
    FindByBarcodeFirst(items, code, k);
    assert SubmitOutcome(items, input, Restock, qtext) == SubmitDecision(items, false, Some(n), code, Restock);
    assert SubmitDecision(items, false, Some(n), code, Restock) == Done(items[k], n);
    RestockedAt(items, items[k].id, n, now, k);
  }

  /**
   * On a store with unique ids, a use by barcode of a valid quantity `n` succeeds
   * exactly when the first item with that barcode holds at least `n`, and then
   * lowers exactly its quantity by `n`; otherwise it reports insufficient stock
   * and changes nothing.
   */
  lemma SubmitUseAt(items: seq<InventoryItem>, input: string, qtext: string, n: int, k: nat)
    requires UniqueIds(items) && !IsBlank(input) && ValidQuantity(qtext) == Some(n)
    requires FirstWithBarcode(items, Trim(input), k)
    ensures SubmitOutcome(items, input, Use, qtext)
            == if items[k].quantity >= n then Done(items[k], n) else Insufficient
    ensures SubmitEffect(items, input, Use, qtext, 0)
            == if items[k].quantity >= n then items[k := items[k].(quantity := items[k].quantity - n)] else items
  {
    var code := Trim(input);
    FindByBarcodeFirst(items, code, k);
    UsedAt(items, items[k].id, n, k);
    assert AfterUse(items, items[k].id, n)
           == if items[k].quantity >= n then items[k := items[k].(quantity := items[k].quantity - n)] else items;
  }

  /** A barcode no item carries is reported as not found, whatever the action, and nothing changes. */
  lemma SubmitUnknownBarcode(items: seq<InventoryItem>, input: string, action: BarcodeAction, qtext: string, now: int)
    requires !IsBlank(input) && ValidQuantity(qtext).Some?
    requires forall i :: 0 <= i < |items| ==> items[i].barcode != Some(Trim(input))
    ensures SubmitOutcome(items, input, action, qtext) == NotFound
    ensures SubmitEffect(items, input, action, qtext, now) == items
  {
    var code := Trim(input);
    BarcodeAbsent(items, code);
    assert SubmitOutcome(items, input, action, qtext) == SubmitDecision(items, false, ValidQuantity(qtext), code, action);
  }

  /** No item carries `code`, so the lookup finds nothing. */
  lemma {:induction false} BarcodeAbsent(items: seq<InventoryItem>, code: string)
    requires forall i :: 0 <= i < |items| ==> items[i].barcode != Some(code)
    ensures FindByBarcode(items, code).None?
  {
    if items != [] {
      assert items[0].barcode != Some(code);
      var tail := items[1..];
      assert forall i :: 0 <= i < |tail| ==> tail[i].barcode != Some(code) by {
        forall i | 0 <= i < |tail| ensures tail[i].barcode != Some(code) {
          assert tail[i] == items[i + 1];
        }
      }
      BarcodeAbsent(tail, code);
    }
  }

  // ----- the quick-use button -----

  /** `handleUseItem`: one unit is used, and only while the row shows stock. */
  function AfterQuickUse(items: seq<InventoryItem>, item: InventoryItem): seq<InventoryItem> {
    if item.quantity > 0 then AfterUse(items, item.id, 1) else items
  }

  /** On a store with unique ids, the button lowers exactly the pressed item's quantity by one, or does nothing at zero. */
  lemma QuickUseAt(items: seq<InventoryItem>, k: nat)
    requires UniqueIds(items) && k < |items|
    ensures AfterQuickUse(items, items[k])
            == if items[k].quantity > 0 then items[k := items[k].(quantity := items[k].quantity - 1)] else items
  {
    if items[k].quantity > 0 {
      UsedAt(items, items[k].id, 1, k);
    }
  }

  /** The button never drives stock below zero. */
  lemma QuickUseKeepsNonNegative(items: seq<InventoryItem>, item: InventoryItem)
    requires NonNegative(items)
    ensures NonNegative(AfterQuickUse(items, item))
  {
    UseKeepsNonNegative(items, item.id, 1);
  }

  // ----- the camera dialog -----

  /** The route parameters `handleCameraSubmit` passes to the scanner screen. */
  datatype ScannerRoute = ScannerRoute(action: string, quantity: string)

  function ActionParam(a: BarcodeAction): string {
    if a == Restock then "restock" else "use"
  }

  /**
   * `handleCameraSubmit`: with a valid quantity, the scanner is opened with the
   * action and the quantity printed in decimal; otherwise nothing is opened.
   */
  function CameraRoute(action: BarcodeAction, qtext: string): (r: Option<ScannerRoute>)
    ensures r.Some? <==> ValidQuantity(qtext).Some?
    ensures r.Some? ==> r.value.action == ActionParam(action)
  {
    var n := ValidQuantity(qtext);
    if n.None? then None else Some(ScannerRoute(ActionParam(action), IntToString(n.value)))
  }

  /**
   * The screen's own state; `store` is the inventory hook it renders. Alerts
   * are the outcome values the handlers return.
   */
  class InventoryScreen {
    const store: InventoryStore
    var form: ItemForm
    var editing: Option<InventoryItem>
    var modalVisible: bool
    var restocking: Option<InventoryItem>
    var restockQuantity: string
    var restockModalVisible: bool
    var barcodeInput: string
    var barcodeAction: BarcodeAction
    var barcodeQuantity: string
    var barcodeModalVisible: bool
    var searchQuery: string
    var category: CategoryFilter
    var cameraAction: BarcodeAction
    var cameraQuantity: string
    var cameraModalVisible: bool

    constructor (store: InventoryStore)
      ensures this.store == store && form == EmptyForm && editing.None? && !modalVisible
      ensures restocking.None? && restockQuantity == "" && !restockModalVisible
      ensures barcodeInput == "" && barcodeAction == Restock && barcodeQuantity == "" && !barcodeModalVisible
      ensures searchQuery == "" && category == All
      ensures cameraAction == Restock && cameraQuantity == "" && !cameraModalVisible
    {
      this.store := store;
      form, editing, modalVisible := EmptyForm, None, false;
      restocking, restockQuantity, restockModalVisible := None, "", false;
      barcodeInput, barcodeAction, barcodeQuantity, barcodeModalVisible := "", Restock, "", false;
      searchQuery, category := "", All;
      cameraAction, cameraQuantity, cameraModalVisible := Restock, "", false;
    }

    /** The list on screen. */
    function Shown(): seq<InventoryItem>
      reads this, store
    {
      Filtered(store.items, category, searchQuery)
    }

    method SetSearchQuery(q: string)
      modifies this`searchQuery
      ensures searchQuery == q
    {
      searchQuery := q;
    }

    /** The category chips. */
    method SelectCategory(sel: CategoryFilter)
      modifies this`category
      ensures category == sel
    {
      category := sel;
    }

    /** The form's inputs and category chips: each replaces its own field. */
    method EditName(text: string)
      modifies this`form
      ensures form == old(form).(name := text)
    {
      form := form.(name := text);
    }

    method EditCategory(c: InventoryCategory)
      modifies this`form
      ensures form == old(form).(category := c)
    {
      form := form.(category := c);
    }

    method EditQuantity(text: string)
      modifies this`form
      ensures form == old(form).(quantity := text)
    {
      form := form.(quantity := text);
    }

    method EditMinQuantity(text: string)
      modifies this`form
      ensures form == old(form).(minQuantity := text)
    {
      form := form.(minQuantity := text);
    }

    method EditUnit(text: string)
      modifies this`form
      ensures form == old(form).(unit := text)
    {
      form := form.(unit := text);
    }

    method EditPrice(text: string)
      modifies this`form
      ensures form == old(form).(price := text)
    {
      form := form.(price := text);
    }

    method EditSupplier(text: string)
      modifies this`form
      ensures form == old(form).(supplier := text)
    {
      form := form.(supplier := text);
    }

    method EditBarcode(text: string)
      modifies this`form
      ensures form == old(form).(barcode := text)
    {
      form := form.(barcode := text);
    }

    /** The cancel buttons and the back gesture of the four dialogs. */
    method CloseModal()
      modifies this`modalVisible
      ensures !modalVisible
    {
      modalVisible := false;
    }

    method CloseRestockModal()
      modifies this`restockModalVisible
      ensures !restockModalVisible
    {
      restockModalVisible := false;
    }

    method CloseBarcodeModal()
      modifies this`barcodeModalVisible
      ensures !barcodeModalVisible
    {
      barcodeModalVisible := false;
    }

    method CloseCameraModal()
      modifies this`cameraModalVisible
      ensures !cameraModalVisible
    {
      cameraModalVisible := false;
    }

    /** `handleDeleteItem`: deletes the item once the dialog is confirmed. */
    method HandleDeleteItem(item: InventoryItem, confirmed: bool)
      modifies store
      ensures store.items == if confirmed then Deleted(old(store.items), item.id) else old(store.items)
      ensures confirmed ==> forall x :: x in store.items ==> x.id != item.id
    {
      if confirmed {
        store.DeleteItem(item.id);
      }
    }

    method SetRestockQuantity(text: string)
      modifies this`restockQuantity
      ensures restockQuantity == text
    {
      restockQuantity := text;
    }

    /**
     * The manual barcode button: the action is set to restock (the only action
     * the screen ever selects) and `handleBarcodeAction` opens an empty dialog.
     */
    method OpenBarcodeDialog()
      modifies this`barcodeAction, this`barcodeInput, this`barcodeQuantity, this`barcodeModalVisible
      ensures barcodeAction == Restock && barcodeInput == "" && barcodeQuantity == "" && barcodeModalVisible
    {
      barcodeAction, barcodeInput, barcodeQuantity, barcodeModalVisible := Restock, "", "", true;
    }

    method SetBarcodeInput(text: string)
      modifies this`barcodeInput
      ensures barcodeInput == text
    {
      barcodeInput := text;
    }

    method SetBarcodeQuantity(text: string)
      modifies this`barcodeQuantity
      ensures barcodeQuantity == text
    {
      barcodeQuantity := text;
    }

    /** The camera buttons: restock from the header, use from a row with a barcode; the quantity starts at "1". */
    method OpenCameraDialog(action: BarcodeAction)
      modifies this`cameraAction, this`cameraQuantity, this`cameraModalVisible
      ensures cameraAction == action && cameraQuantity == "1" && cameraModalVisible
    {
      cameraAction, cameraQuantity, cameraModalVisible := action, "1", true;
    }

    method SetCameraQuantity(text: string)
      modifies this`cameraQuantity
      ensures cameraQuantity == text
    {
      cameraQuantity := text;
    }

    /** `handleCameraSubmit`: the scanner route for a valid quantity, and the dialog closes; nothing otherwise. */
    method HandleCameraSubmit() returns (route: Option<ScannerRoute>)
      modifies this`cameraModalVisible
      ensures route == CameraRoute(cameraAction, cameraQuantity)
      ensures cameraModalVisible == (old(cameraModalVisible) && route.None?)
    {
      route := CameraRoute(cameraAction, cameraQuantity);
      cameraModalVisible := cameraModalVisible && route.None?;
    }

    /** `handleAddItem`: an empty form for a new item. */
    method HandleAddItem()
      modifies this`form, this`editing, this`modalVisible
      ensures form == EmptyForm && editing.None? && modalVisible
    {
      editing := None;
      form := EmptyForm;
      modalVisible := true;
    }

    /** `handleEditItem`: the form filled from the item. */
    method HandleEditItem(item: InventoryItem)
      modifies this`form, this`editing, this`modalVisible
      ensures form == FormOf(item) && editing == Some(item) && modalVisible
    {
      editing := Some(item);
      form := FormOf(item);
      modalVisible := true;
    }

    /** `handleSaveItem`: refuses, updates the edited item or adds one (with id `newId`), and closes the form on success. */
    method HandleSaveItem(newId: string) returns (outcome: SaveOutcome)
      modifies this`modalVisible, store
      ensures outcome == SaveDecision(old(store.items), old(form), old(editing))
      ensures store.items == AfterSave(old(store.items), old(form), old(editing), newId)
      ensures modalVisible == if outcome.Saved? then false else old(modalVisible)
    {
      var f, e, before, open := form, editing, store.items, modalVisible;
      outcome := SaveDecision(before, f, e);
      assert AfterSave(before, f, e, newId) == ApplySave(before, outcome, f, e, newId);
      if outcome.Saved? {
        if e.Some? {
          store.UpdateItem(e.value.id, PatchOf(f, outcome.numbers));
        } else {
          var _ := store.AddItem(DraftOf(f, outcome.numbers), newId);
        }
      }
      modalVisible := open && !outcome.Saved?;
    }

    /** `handleRestockItem`: opens the restock dialog for the item. */
    method HandleRestockItem(item: InventoryItem)
      modifies this`restocking, this`restockQuantity, this`restockModalVisible
      ensures restocking == Some(item) && restockQuantity == "" && restockModalVisible
    {
      restocking := Some(item);
      restockQuantity := "";
      restockModalVisible := true;
    }

    /** `handleConfirmRestock`: with a valid quantity, restocks the chosen item and closes the dialog. */
    method HandleConfirmRestock(now: int) returns (ok: bool)
      modifies this`restockModalVisible, store
      ensures ok == (ValidQuantity(restockQuantity).Some? && restocking.Some?)
      ensures store.items == if ok then Restocked(old(store.items), restocking.value.id, ValidQuantity(restockQuantity).value, now)
                             else old(store.items)
      ensures restockModalVisible == if ok then false else old(restockModalVisible)
    {
      var n := ValidQuantity(restockQuantity);
      if n.None? {
        return false;
      }
      ok := false;
      if restocking.Some? {
        store.RestockItem(restocking.value.id, n.value, now);
        restockModalVisible := false;
        ok := true;
      }
    }

    /** `handleBarcodeSubmit`: runs the chosen action on the item with the trimmed barcode and reports the outcome. */
    method HandleBarcodeSubmit(now: int) returns (outcome: BarcodeOutcome)
      modifies this`barcodeModalVisible, store
      ensures outcome == SubmitOutcome(old(store.items), old(barcodeInput), old(barcodeAction), old(barcodeQuantity))
      ensures store.items == SubmitEffect(old(store.items), old(barcodeInput), old(barcodeAction), old(barcodeQuantity), now)
      ensures barcodeModalVisible == if outcome.Done? then false else old(barcodeModalVisible)
    {
      var input, action, qtext := barcodeInput, barcodeAction, barcodeQuantity;
      if IsBlank(input) {
        return BlankBarcode;
      }
      var n := ValidQuantity(qtext);
      if n.None? {
        return BadQuantity;
      }
      var code := Trim(input);
      var before := store.items;
      SubmitSteps(before, input, action, qtext, now);
      var success := false;
      var item: Option<InventoryItem> := None;
      if action == Restock {
        item := store.RestockByBarcode(code, n.value, now);
        success := item.Some?;
      } else {
        success := store.UseItemByBarcode(code, n.value);
        item := FindByBarcode(before, code);
      }
      if success && item.Some? {
        outcome := Done(item.value, n.value);
        barcodeModalVisible := false;
      } else if item.Some? {
        outcome := if action == Use then Insufficient else Failed;
      } else {
        outcome := NotFound;
      }
    }

    /** `handleUseItem`: the quick-use button on a row. */
    method HandleUseItem(item: InventoryItem)
      modifies store
      ensures store.items == AfterQuickUse(old(store.items), item)
    {
      if item.quantity > 0 {
        var _ := store.UseItem(item.id, 1);
      }
    }
  }
}
