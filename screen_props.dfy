/** Properties of the screen's writes: what `recordSuggestion` counts, what
    a status tap changes, what saving a budget writes, and the invariant
    that every suggestion and budget document sits at the id derived from
    its own fields. */
module ScreenStoreProps {
  import opened Wrappers
  import opened Text
  import opened Store
  import opened DocIds
  import opened Shopping
  import opened ScreenStore

  // ---------------------------------------------------------------------
  // recordSuggestion
  // ---------------------------------------------------------------------

  /** The merged document: one more than the stored count (0 when there is
      none), the trimmed name, the family and the purchase time, with the
      creation fields kept when the document exists and set otherwise. */
  lemma BumpedSuggestionFacts(existing: Option<SuggestionRecord>, familyId: string, trimmed: string, userId: string,
                              now: Timestamp)
    ensures var s := BumpedSuggestion(existing, familyId, trimmed, userId, now);
      && s.count == Some((if existing.Some? then existing.value.count.GetOr(0) else 0) + 1)
      && s.itemName == Some(trimmed) && s.familyId == Some(familyId)
      && s.lastBoughtAt == Some(now) && s.updatedAt == Some(now)
      && (existing.Some? ==> s.createdAt == existing.value.createdAt && s.createdBy == existing.value.createdBy)
      && (existing.None? ==> s.createdAt == Some(now) && s.createdBy == Some(userId))
  {
  }

  /** A name that is empty after trimming, or a transaction that does not
      go through, writes nothing. */
  lemma RecordSuggestionSkips(db: ScreenDb, familyId: string, name: string, userId: string, now: Timestamp, committed: bool)
    requires KotlinTrim(name) == [] || !committed
    ensures RecordSuggestionTx(db, familyId, name, userId, now, committed) == db
  {
  }

  /** Otherwise exactly one document changes, the one at the name's
      suggestion id: its count becomes the stored count (0 when absent)
      plus one, it holds the trimmed name, the family and the purchase
      time, and it keeps `createdAt` / `createdBy` if it existed and gets
      them otherwise. */
  lemma RecordSuggestionFacts(db: ScreenDb, familyId: string, name: string, userId: string, now: Timestamp)
    requires KotlinTrim(name) != []
    ensures var db' := RecordSuggestionTx(db, familyId, name, userId, now, true);
      var id := SuggestionDocId(familyId, name);
      var s := db'.suggestions[id];
      && id in db'.suggestions
      && s.count == Some((if id in db.suggestions then db.suggestions[id].count.GetOr(0) else 0) + 1)
      && s.itemName == Some(KotlinTrim(name)) && s.familyId == Some(familyId) && s.lastBoughtAt == Some(now)
      && (id in db.suggestions ==> s.createdAt == db.suggestions[id].createdAt && s.createdBy == db.suggestions[id].createdBy)
      && (id !in db.suggestions ==> s.createdAt == Some(now) && s.createdBy == Some(userId))
      && db'.suggestions.Keys == db.suggestions.Keys + {id}
      && (forall k :: k in db.suggestions && k != id ==> db'.suggestions[k] == db.suggestions[k])
      && db'.listItems == db.listItems && db'.budgets == db.budgets
  {
    SuggestionDocIdFacts(familyId, name, name);
    var id := SuggestionDocId(familyId, name);
    assert id == SuggestionDocId(familyId, KotlinTrim(name));
    BumpedSuggestionFacts(Lookup(db.suggestions, id), familyId, KotlinTrim(name), userId, now);
  }

  /** Names that differ only in case or surrounding white space share one
      counter: recording both adds two to the same document, which keeps
      the creation fields of the first write and the spelling of the
      second. */
  lemma RecordVariantsShareCounter(db: ScreenDb, familyId: string, n1: string, n2: string, u1: string, u2: string,
                                   t1: Timestamp, t2: Timestamp)
    requires ToLower(KotlinTrim(n1)) == ToLower(KotlinTrim(n2)) && KotlinTrim(n1) != []
    ensures var db1 := RecordSuggestionTx(db, familyId, n1, u1, t1, true);
      var db2 := RecordSuggestionTx(db1, familyId, n2, u2, t2, true);
      var id := SuggestionDocId(familyId, n1);
      && id == SuggestionDocId(familyId, n2)
      && db2.suggestions.Keys == db.suggestions.Keys + {id}
      && db2.suggestions[id].count == Some((if id in db.suggestions then db.suggestions[id].count.GetOr(0) else 0) + 2)
      && db2.suggestions[id].createdAt == db1.suggestions[id].createdAt
      && db2.suggestions[id].itemName == Some(KotlinTrim(n2))
  {
    assert |KotlinTrim(n2)| == |ToLower(KotlinTrim(n2))| == |ToLower(KotlinTrim(n1))| == |KotlinTrim(n1)|;
    SuggestionDocIdFacts(familyId, n1, n2);
    RecordSuggestionFacts(db, familyId, n1, u1, t1);
    var db1 := RecordSuggestionTx(db, familyId, n1, u1, t1, true);
    RecordSuggestionFacts(db1, familyId, n2, u2, t2);
  }

  // ---------------------------------------------------------------------
  // Documents at their own ids
  // ---------------------------------------------------------------------

  /** Every suggestion document sits at the suggestion id of its own family
      and item name, and every budget document at the budget id of its own
      family, category and period. */
  predicate WellKeyed(db: ScreenDb) {
    && (forall id :: id in db.suggestions ==>
          var s := db.suggestions[id];
          s.familyId.Some? && s.itemName.Some? && id == SuggestionDocId(s.familyId.value, s.itemName.value))
    && (forall id :: id in db.budgets ==>
          var b := db.budgets[id];
          b.familyId.Some? && b.category.Some? && b.period.Some? &&
          id == BudgetDocId(b.familyId.value, b.category.value, b.period.value))
  }

  lemma RecordKeepsWellKeyed(db: ScreenDb, familyId: string, name: string, userId: string, now: Timestamp, committed: bool)
    requires WellKeyed(db)
    ensures WellKeyed(RecordSuggestionTx(db, familyId, name, userId, now, committed))
  {
  }

  /** A status tap keeps the documents at their own ids. */
  lemma ToggleKeepsWellKeyed(db: ScreenDb, item: ListItem, familyId: Option<string>, userId: string, now: Timestamp,
                             updateOk: bool, suggestionCommitted: bool)
    requires WellKeyed(db)
    ensures WellKeyed(ToggleStatusTx(db, item, familyId, userId, now, updateOk, suggestionCommitted).1)
  {
    if item.id in db.listItems && updateOk {
      var db1 := db.(listItems := db.listItems[item.id := ToggledRecord(db.listItems[item.id], NextStatus(item.status), now)]);
      assert db1.suggestions == db.suggestions && db1.budgets == db.budgets;
      if NextStatus(item.status) == "bought" && !IsNullOrBlank(familyId) {
        RecordKeepsWellKeyed(db1, familyId.value, item.name, userId, now, suggestionCommitted);
      }
    }
  }

  /** Saving a budget keeps the documents at their own ids. */
  lemma SaveBudgetKeepsWellKeyed(db: ScreenDb, familyId: Option<string>, userId: string, category: string,
                                 parsedLimit: Option<real>, period: string, now: Timestamp, committed: bool)
    requires WellKeyed(db)
    ensures WellKeyed(SaveBudgetTx(db, familyId, userId, category, parsedLimit, period, now, committed).1)
  {
  }

  // ---------------------------------------------------------------------
  // Status toggle
  // ---------------------------------------------------------------------

  /** A failed update changes nothing and reports "Failed to update status".
      A successful one sets the document's status to the toggled status and
      its `updatedAt` to now, sets `lastBoughtAt` to now on a tick and keeps
      it on an untick, keeps the document's other fields, and leaves every
      other item alone; it records a suggestion exactly when
      the item was not bought and the family id is not blank, and never
      touches the budgets. */
  lemma ToggleFacts(db: ScreenDb, item: ListItem, familyId: Option<string>, userId: string, now: Timestamp,
                    updateOk: bool, suggestionCommitted: bool)
    ensures var (err, db') := ToggleStatusTx(db, item, familyId, userId, now, updateOk, suggestionCommitted);
      && (err.None? <==> item.id in db.listItems && updateOk)
      && (err.Some? ==> err == Some(FailedToUpdateStatus) && db' == db)
      && (err.None? ==>
            && db'.listItems.Keys == db.listItems.Keys
            && db'.listItems[item.id].status == Some(NextStatus(item.status))
            && db'.listItems[item.id].updatedAt == Some(now)
            && db'.listItems[item.id] == db.listItems[item.id].(
                 status := Some(NextStatus(item.status)), updatedAt := Some(now),
                 lastBoughtAt := if IsBought(item) then db.listItems[item.id].lastBoughtAt else Some(now))
            && (forall k :: k in db.listItems && k != item.id ==> db'.listItems[k] == db.listItems[k])
            && db'.budgets == db.budgets
            && db'.suggestions ==
                 if !IsBought(item) && !IsNullOrBlank(familyId)
                 then RecordSuggestionTx(db, familyId.value, item.name, userId, now, suggestionCommitted).suggestions
                 else db.suggestions)
  {
  }

  /** Ticking off a pending item of a family adds one to its suggestion's
      count; unticking a bought item leaves the suggestions alone. */
  lemma TickCountsPurchase(db: ScreenDb, item: ListItem, familyId: string, userId: string, now: Timestamp)
    requires item.id in db.listItems && !IsBlank(familyId) && KotlinTrim(item.name) != []
    ensures var db' := ToggleStatusTx(db, item, Some(familyId), userId, now, true, true).1;
      var id := SuggestionDocId(familyId, item.name);
      && (!IsBought(item) ==>
            id in db'.suggestions &&
            db'.suggestions[id].count == Some((if id in db.suggestions then db.suggestions[id].count.GetOr(0) else 0) + 1))
      && (IsBought(item) ==> db'.suggestions == db.suggestions && db'.listItems[item.id].status == Some("todo"))
  {
    var db1 := db.(listItems := db.listItems[item.id := ToggledRecord(db.listItems[item.id], NextStatus(item.status), now)]);
    RecordSuggestionFacts(db1, familyId, item.name, userId, now);
  }

  // ---------------------------------------------------------------------
  // onSaveBudget
  // ---------------------------------------------------------------------

  /** The checks, in order: a missing or non-positive limit, then a blank
      family id, then a failed transaction; each leaves the store as it
      was. A save succeeds exactly when all three pass. */
  lemma SaveBudgetErrors(db: ScreenDb, familyId: Option<string>, userId: string, category: string,
                         parsedLimit: Option<real>, period: string, now: Timestamp, committed: bool)
    ensures var (err, db') := SaveBudgetTx(db, familyId, userId, category, parsedLimit, period, now, committed);
      && (parsedLimit.None? || parsedLimit.value <= 0.0 ==> err == Some(EnterValidBudget))
      && (parsedLimit.Some? && parsedLimit.value > 0.0 && IsNullOrBlank(familyId) ==> err == Some(FamilyNotReady))
      && (err.None? <==> parsedLimit.Some? && parsedLimit.value > 0.0 && !IsNullOrBlank(familyId) && committed)
      && (err.Some? ==> db' == db)
  {
  }

  /** A successful save writes one document, at the budget id of the
      trimmed category ("General" when blank): family, category, limit,
      period and update time overwritten, creation fields kept if the
      document existed; other budgets, items and suggestions are untouched. */
  lemma SaveBudgetWrites(db: ScreenDb, familyId: string, userId: string, category: string, limit: real,
                         period: string, now: Timestamp)
    requires limit > 0.0 && !IsBlank(familyId)
    ensures var (err, db') := SaveBudgetTx(db, Some(familyId), userId, category, Some(limit), period, now, true);
      var cat := if KotlinTrim(category) == [] then "General" else KotlinTrim(category);
      var id := BudgetDocId(familyId, cat, period);
      var b := db'.budgets[id];
      && err.None?
      && db'.budgets.Keys == db.budgets.Keys + {id}
      && b.familyId == Some(familyId) && b.category == Some(cat) && b.limit == Some(limit) && b.period == Some(period)
      && b.updatedAt == Some(now)
      && (id in db.budgets ==> b.createdAt == db.budgets[id].createdAt && b.createdBy == db.budgets[id].createdBy)
      && (id !in db.budgets ==> b.createdAt == Some(now) && b.createdBy == Some(userId))
      && (forall k :: k in db.budgets && k != id ==> db'.budgets[k] == db.budgets[k])
      && db'.listItems == db.listItems && db'.suggestions == db.suggestions
  {
  }

  /** A blank category is saved as "General", at the family's
      `<period>_general` budget. */
  lemma BlankCategoryIsGeneral(familyId: string, category: string, period: string)
    requires KotlinTrim(category) == []
    ensures BudgetCategory(category) == "General"
    ensures BudgetDocId(familyId, BudgetCategory(category), period) == familyId + "_" + period + "_" + "general"
  {
    GeneralBudgetDoc(familyId, period);
  }

  /** Saving a budget again for a category that differs only in case or
      surrounding white space updates the same document: no new budget
      appears, the creation fields of the first save stay, and the new
      limit replaces the old one. */
  lemma ResaveUpdatesSameBudget(db: ScreenDb, familyId: string, u1: string, u2: string, c1: string, c2: string,
                                l1: real, l2: real, period: string, t1: Timestamp, t2: Timestamp)
    requires l1 > 0.0 && l2 > 0.0 && !IsBlank(familyId)
    requires ToLower(KotlinTrim(c1)) == ToLower(KotlinTrim(c2))
    ensures var db1 := SaveBudgetTx(db, Some(familyId), u1, c1, Some(l1), period, t1, true).1;
      var db2 := SaveBudgetTx(db1, Some(familyId), u2, c2, Some(l2), period, t2, true).1;
      var id := BudgetDocId(familyId, BudgetCategory(c1), period);
      && id == BudgetDocId(familyId, BudgetCategory(c2), period)
      && db2.budgets.Keys == db1.budgets.Keys
      && db2.budgets[id].createdAt == db1.budgets[id].createdAt
      && db2.budgets[id].createdBy == db1.budgets[id].createdBy
      && db2.budgets[id].limit == Some(l2)
  {
    SameBudgetCategory(familyId, c1, c2, period);
    SaveBudgetWrites(db, familyId, u1, c1, l1, period, t1);
    var db1 := SaveBudgetTx(db, Some(familyId), u1, c1, Some(l1), period, t1, true).1;
    SaveBudgetWrites(db1, familyId, u2, c2, l2, period, t2);
  }

  /** Categories equal up to case and surrounding white space share a
      budget id. */
  lemma SameBudgetCategory(familyId: string, c1: string, c2: string, period: string)
    requires ToLower(KotlinTrim(c1)) == ToLower(KotlinTrim(c2))
    ensures BudgetDocId(familyId, BudgetCategory(c1), period) == BudgetDocId(familyId, BudgetCategory(c2), period)
  {
    TrimByIdempotent(c1, IsKotlinWhitespace);
    TrimByIdempotent(c2, IsKotlinWhitespace);
    assert |KotlinTrim(c2)| == |ToLower(KotlinTrim(c2))| == |ToLower(KotlinTrim(c1))| == |KotlinTrim(c1)|;
    if KotlinTrim(c1) != [] {
      BudgetDocIdFacts(familyId, period, KotlinTrim(c1), KotlinTrim(c2));
    }
  }
}
