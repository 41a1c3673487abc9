/** The writes MainScreen.kt makes outside the callable functions: the
    `recordSuggestion` read-modify-write transaction, the status update of a
    list item (which records a suggestion when the item becomes bought), and
    the `onSaveBudget` transaction. The documents are the fields these
    writes touch; `set(..., merge)` keeps every field it does not name. */
module ScreenStore {
  import opened Wrappers
  import opened Text
  import opened Store
  import opened DocIds
  import opened Shopping

  /** A `listItems` document. */
  datatype ItemRecord = ItemRecord(name: Option<string>, listId: Option<string>, status: Option<string>,
                                   assignedTo: Option<string>, updatedAt: Option<Timestamp>,
                                   lastBoughtAt: Option<Timestamp>, createdAt: Option<Timestamp>)

  /** A `suggestions` document. */
  datatype SuggestionRecord = SuggestionRecord(familyId: Option<string>, itemName: Option<string>, count: Option<int>,
                                               lastBoughtAt: Option<Timestamp>, updatedAt: Option<Timestamp>,
                                               createdAt: Option<Timestamp>, createdBy: Option<string>)

  /** A `budgets` document; the limit is the parsed amount, compared with
      zero only. */
  datatype BudgetRecord = BudgetRecord(familyId: Option<string>, category: Option<string>, limit: Option<real>,
                                       period: Option<string>, updatedAt: Option<Timestamp>,
                                       createdAt: Option<Timestamp>, createdBy: Option<string>)

  datatype ScreenDb = ScreenDb(listItems: map<string, ItemRecord>, suggestions: map<string, SuggestionRecord>,
                               budgets: map<string, BudgetRecord>)

  const FailedToUpdateStatus: string := "Failed to update status"
  const EnterValidBudget: string := "Enter a valid budget amount"
  const FamilyNotReady: string := "Family not ready yet"
  const FailedToSaveBudget: string := "Failed to save budget"

  // ---------------------------------------------------------------------
  // recordSuggestion
  // ---------------------------------------------------------------------

  /** The merged suggestion document: the named fields overwritten, `count`
      one more than the stored count (0 when absent), and `createdAt` /
      `createdBy` written only for a new document. */
  function BumpedSuggestion(existing: Option<SuggestionRecord>, familyId: string, trimmed: string, userId: string,
                            now: Timestamp): SuggestionRecord
  {
    var base := existing.GetOr(SuggestionRecord(None, None, None, None, None, None, None));
    var current := if existing.Some? then existing.value.count.GetOr(0) else 0;
    var merged := base.(familyId := Some(familyId), itemName := Some(trimmed), count := Some(current + 1),
                        lastBoughtAt := Some(now), updatedAt := Some(now));
    if existing.None? then merged.(createdAt := Some(now), createdBy := Some(userId)) else merged
  }

  /** `recordSuggestion(familyId, itemName, userId)`; `committed` is whether
      the transaction went through (a failure is silent). */
  function RecordSuggestionTx(db: ScreenDb, familyId: string, itemName: string, userId: string, now: Timestamp,
                              committed: bool): ScreenDb
  {
    var trimmed := KotlinTrim(itemName);
    if trimmed == [] || !committed then db
    else
      var id := SuggestionDocId(familyId, trimmed);
      db.(suggestions := db.suggestions[id := BumpedSuggestion(Lookup(db.suggestions, id), familyId, trimmed, userId, now)])
  }

  // ---------------------------------------------------------------------
  // Status toggle
  // ---------------------------------------------------------------------

  /** The `update` of the item's document: status, `updatedAt`, and
      `lastBoughtAt` when the new status is "bought". */
  function ToggledRecord(rec: ItemRecord, newStatus: string, now: Timestamp): ItemRecord {
    rec.(status := Some(newStatus), updatedAt := Some(now),
         lastBoughtAt := if newStatus == "bought" then Some(now) else rec.lastBoughtAt)
  }

  /** A tap on an item's check mark: the new status is `NextStatus` of the
      shown status; the update fails when the document is gone or the write
      fails (`updateOk`), and on success an item that became bought in a
      family is recorded as a suggestion. */
  function ToggleStatusTx(db: ScreenDb, item: ListItem, familyId: Option<string>, userId: string, now: Timestamp,
                          updateOk: bool, suggestionCommitted: bool): (Option<string>, ScreenDb)
  {
    var newStatus := NextStatus(item.status);
    if item.id !in db.listItems || !updateOk then (Some(FailedToUpdateStatus), db)
    else
      var db1 := db.(listItems := db.listItems[item.id := ToggledRecord(db.listItems[item.id], newStatus, now)]);
      if newStatus == "bought" && !IsNullOrBlank(familyId) then
        (None, RecordSuggestionTx(db1, familyId.value, item.name, userId, now, suggestionCommitted))
      else (None, db1)
  }

  // ---------------------------------------------------------------------
  // onSaveBudget
  // ---------------------------------------------------------------------

  /** `category.trim().ifEmpty { "General" }`. */
  function BudgetCategory(category: string): string {
    if KotlinTrim(category) == [] then "General" else KotlinTrim(category)
  }

  /** The merged budget document. */
  function SavedBudget(existing: Option<BudgetRecord>, familyId: string, category: string, limit: real, period: string,
                       userId: string, now: Timestamp): BudgetRecord
  {
    var base := existing.GetOr(BudgetRecord(None, None, None, None, None, None, None));
    var merged := base.(familyId := Some(familyId), category := Some(category), limit := Some(limit),
                        period := Some(period), updatedAt := Some(now));
    if existing.None? then merged.(createdAt := Some(now), createdBy := Some(userId)) else merged
  }

  /** `onSaveBudget(category, limit, period)`; `parsedLimit` is the result of
      `limit.trim().toDoubleOrNull()`, and `committed` whether the
      transaction went through. */
  function SaveBudgetTx(db: ScreenDb, familyId: Option<string>, userId: string, category: string,
                        parsedLimit: Option<real>, period: string, now: Timestamp, committed: bool): (Option<string>, ScreenDb)
  {
    var cat := BudgetCategory(category);
    if parsedLimit.None? || parsedLimit.value <= 0.0 then (Some(EnterValidBudget), db)
    else if IsNullOrBlank(familyId) then (Some(FamilyNotReady), db)
    else if !committed then (Some(FailedToSaveBudget), db)
    else
      var id := BudgetDocId(familyId.value, cat, period);
      (None, db.(budgets := db.budgets[id := SavedBudget(Lookup(db.budgets, id), familyId.value, cat, parsedLimit.value,
                                                          period, userId, now)]))
  }

  // ---------------------------------------------------------------------
  // The store the screen writes to
  // ---------------------------------------------------------------------

  class ScreenStore {
    var listItems: map<string, ItemRecord>
    var suggestions: map<string, SuggestionRecord>
    var budgets: map<string, BudgetRecord>

    function State(): ScreenDb
      reads this
    {
      ScreenDb(listItems, suggestions, budgets)
    }

    constructor (db: ScreenDb)
      ensures State() == db
    {
      listItems, suggestions, budgets := db.listItems, db.suggestions, db.budgets;
    }

    /** `recordSuggestion`: read the document, build the merged fields, set. */
    method RecordSuggestion(familyId: string, itemName: string, userId: string, now: Timestamp, committed: bool)
      modifies this
      ensures State() == RecordSuggestionTx(old(State()), familyId, itemName, userId, now, committed)
    {
      var trimmed := KotlinTrim(itemName);
      if trimmed == [] {
        return;
      }
      var id := SuggestionDocId(familyId, trimmed);
      var snapshot := Lookup(suggestions, id);
      var currentCount := 0;
      if snapshot.Some? && snapshot.value.count.Some? {
        currentCount := snapshot.value.count.value;
      }
      var data := snapshot.GetOr(SuggestionRecord(None, None, None, None, None, None, None));
      data := data.(familyId := Some(familyId), itemName := Some(trimmed), count := Some(currentCount + 1),
                    lastBoughtAt := Some(now), updatedAt := Some(now));
      if snapshot.None? {
        data := data.(createdAt := Some(now), createdBy := Some(userId));
      }
      assert data == BumpedSuggestion(snapshot, familyId, trimmed, userId, now);
      if committed {
        suggestions := suggestions[id := data];
      }
    }

    /** The status update and, on success, the suggestion it triggers. */
    method ToggleStatus(item: ListItem, familyId: Option<string>, userId: string, now: Timestamp, updateOk: bool,
                        suggestionCommitted: bool) returns (error: Option<string>)
      modifies this
      ensures (error, State()) == ToggleStatusTx(old(State()), item, familyId, userId, now, updateOk, suggestionCommitted)
    {
      var newStatus := NextStatus(item.status);
      if item.id !in listItems || !updateOk {
        return Some(FailedToUpdateStatus);
      }
      var rec := listItems[item.id];
      var last := rec.lastBoughtAt;
      if newStatus == "bought" {
        last := Some(now);
      }
      listItems := listItems[item.id := rec.(status := Some(newStatus), updatedAt := Some(now), lastBoughtAt := last)];
      error := None;
      if newStatus == "bought" && !IsNullOrBlank(familyId) {
        RecordSuggestion(familyId.value, item.name, userId, now, suggestionCommitted);
      }
    }

    /** `onSaveBudget`: the two input checks, then the transaction. */
    method SaveBudget(familyId: Option<string>, userId: string, category: string, parsedLimit: Option<real>,
                      period: string, now: Timestamp, committed: bool) returns (error: Option<string>)
      modifies this
      ensures (error, State()) == SaveBudgetTx(old(State()), familyId, userId, category, parsedLimit, period, now, committed)
    {
      var trimmedCategory := KotlinTrim(category);
      if trimmedCategory == [] {
        trimmedCategory := "General";
      }
      if parsedLimit.None? || parsedLimit.value <= 0.0 {
        return Some(EnterValidBudget);
      }
      if IsNullOrBlank(familyId) {
        return Some(FamilyNotReady);
      }
      var id := BudgetDocId(familyId.value, trimmedCategory, period);
      var snapshot := Lookup(budgets, id);
      var data := snapshot.GetOr(BudgetRecord(None, None, None, None, None, None, None));
      data := data.(familyId := Some(familyId.value), category := Some(trimmedCategory), limit := Some(parsedLimit.value),
                    period := Some(period), updatedAt := Some(now));
      if snapshot.None? {
        data := data.(createdAt := Some(now), createdBy := Some(userId));
      }
      if !committed {
        return Some(FailedToSaveBudget);
      }
      budgets := budgets[id := data];
      error := None;
    }
  }
}
