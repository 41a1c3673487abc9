/** The list pipelines of MainScreen.kt: which items of the selected list
    are shown for a search query and a status filter and how they split
    into the pending and bought sections, the status toggle, the date
    window of the spending tab, and the order of the purchase
    suggestions. */
module Shopping {
  import opened Wrappers
  import opened Text
  import opened Seqs
  import opened Store

  // ---------------------------------------------------------------------
  // Items of a list
  // ---------------------------------------------------------------------

  /** `ListItemDoc` as the screen builds it from a snapshot. */
  datatype ListItem = ListItem(id: string, name: string, listId: string, status: Option<string>,
                               assignedTo: Option<string>, updatedAt: Option<Timestamp>,
                               createdAt: Option<Timestamp>)

  /** The search part of the item filter: the trimmed, lower-cased query is
      blank or occurs in the lower-cased item name. */
  predicate MatchesQuery(item: ListItem, query: string) {
    var q := ToLower(KotlinTrim(query));
    IsBlank(q) || Contains(ToLower(item.name), q)
  }

  /** The status part of the item filter. */
  predicate MatchesStatus(item: ListItem, statusFilter: string, userId: string) {
    if statusFilter == "todo" then item.status == Some("todo") || item.status == None
    else if statusFilter == "in_cart" then item.status == Some("in_cart")
    else if statusFilter == "bought" then item.status == Some("bought")
    else if statusFilter == "assigned" then item.assignedTo == Some(userId)
    else true
  }

  predicate Shown(item: ListItem, query: string, statusFilter: string, userId: string) {
    MatchesQuery(item, query) && MatchesStatus(item, statusFilter, userId)
  }

  /** `itemsForList`. */
  function ItemsForList(items: seq<ListItem>, listId: string): seq<ListItem> {
    Filter(items, (i: ListItem) => i.listId == listId)
  }

  /** `filteredItems`. */
  function FilteredItems(items: seq<ListItem>, listId: string, query: string, statusFilter: string, userId: string): seq<ListItem> {
    Filter(ItemsForList(items, listId), (i: ListItem) => Shown(i, query, statusFilter, userId))
  }

  predicate IsBought(item: ListItem) {
    item.status == Some("bought")
  }

  /** `pendingItems`. */
  function PendingItems(shown: seq<ListItem>): seq<ListItem> {
    Filter(shown, (i: ListItem) => !IsBought(i))
  }

  /** `boughtItems`. */
  function BoughtItems(shown: seq<ListItem>): seq<ListItem> {
    Filter(shown, IsBought)
  }

  /** The shown items are, in their original order, exactly the items of
      the selected list that match the query and the status filter: the
      two filters the screen applies one after the other act as one. */
  lemma FilteredItemsFacts(items: seq<ListItem>, listId: string, query: string, statusFilter: string, userId: string, x: ListItem)
    ensures FilteredItems(items, listId, query, statusFilter, userId) ==
            Filter(items, (i: ListItem) => i.listId == listId && Shown(i, query, statusFilter, userId))
    ensures x in FilteredItems(items, listId, query, statusFilter, userId) <==>
            x in items && x.listId == listId && MatchesQuery(x, query) && MatchesStatus(x, statusFilter, userId)
  {
    var both := (i: ListItem) => i.listId == listId && Shown(i, query, statusFilter, userId);
    var onList := (i: ListItem) => i.listId == listId;
    var shown := (i: ListItem) => Shown(i, query, statusFilter, userId);
    FilterNarrow(items, both, onList);
    var mine := Filter(items, onList);
    FilterExt(mine, shown, both);
    FilterMembers(items, both, x);
  }

  /** What each status filter accepts: "todo" also takes items without a
      status, "assigned" takes the caller's items, and any other key takes
      every item, so that the screen then filters by the query alone. */
  lemma StatusFilterFacts(items: seq<ListItem>, listId: string, query: string, statusFilter: string, userId: string, x: ListItem)
    ensures MatchesStatus(x, "todo", userId) <==> x.status == None || x.status == Some("todo")
    ensures MatchesStatus(x, "assigned", userId) <==> x.assignedTo == Some(userId)
    ensures statusFilter !in {"todo", "in_cart", "bought", "assigned"} ==>
              FilteredItems(items, listId, query, statusFilter, userId) ==
              Filter(ItemsForList(items, listId), (i: ListItem) => MatchesQuery(i, query))
  {
    if statusFilter !in {"todo", "in_cart", "bought", "assigned"} {
      FilterExt(ItemsForList(items, listId), (i: ListItem) => Shown(i, query, statusFilter, userId),
                (i: ListItem) => MatchesQuery(i, query));
    }
  }

  /** The search ignores case on both sides and white space around the
      query; a blank query matches every item, and any query that occurs in
      the lower-cased name matches. */
  lemma QueryFacts(x: ListItem, y: ListItem, q1: string, q2: string, k: nat)
    ensures IsBlank(q1) ==> MatchesQuery(x, q1)
    ensures ToLower(KotlinTrim(q1)) == ToLower(KotlinTrim(q2)) ==> (MatchesQuery(x, q1) <==> MatchesQuery(x, q2))
    ensures ToLower(q1) == ToLower(q2) ==> (MatchesQuery(x, q1) <==> MatchesQuery(x, q2))
    ensures MatchesQuery(x, KotlinTrim(q1)) <==> MatchesQuery(x, q1)
    ensures ToLower(x.name) == ToLower(y.name) ==> (MatchesQuery(x, q1) <==> MatchesQuery(y, q1))
    ensures var q := ToLower(KotlinTrim(q1));
      k + |q| <= |x.name| && ToLower(x.name)[k..k + |q|] == q ==> MatchesQuery(x, q1)
  {
    TrimmedBlankIsEmpty(q1);
    LowerTrim(q1);
    LowerTrim(q2);
    TrimByIdempotent(q1, IsKotlinWhitespace);
    var q := ToLower(KotlinTrim(q1));
    if k + |q| <= |x.name| && ToLower(x.name)[k..k + |q|] == q {
      ContainsAt(ToLower(x.name), q, k);
    }
  }

  /** The two sections split the shown items: each shown item is in exactly
      one of them, with its multiplicity, and the bought section holds the
      items whose status is "bought". */
  lemma SectionsPartition(shown: seq<ListItem>, x: ListItem)
    ensures multiset(PendingItems(shown)) + multiset(BoughtItems(shown)) == multiset(shown)
    ensures x in BoughtItems(shown) <==> x in shown && x.status == Some("bought")
    ensures x in PendingItems(shown) <==> x in shown && x.status != Some("bought")
  {
    FilterPartition(shown, IsBought, (i: ListItem) => !IsBought(i));
    FilterMembers(shown, IsBought, x);
    FilterMembers(shown, (i: ListItem) => !IsBought(i), x);
  }

  /** The status a tap on an item's check mark asks for. */
  function NextStatus(status: Option<string>): string {
    if status == Some("bought") then "todo" else "bought"
  }

  /** A tap moves an item to the other section; two taps bring a bought item
      back to "bought" and any other item (to do, in the cart, or without a
      status) to "todo". */
  lemma ToggleFacts(item: ListItem)
    ensures IsBought(item.(status := Some(NextStatus(item.status)))) <==> !IsBought(item)
    ensures NextStatus(Some(NextStatus(item.status))) == if IsBought(item) then "bought" else "todo"
  {
  }

  // ---------------------------------------------------------------------
  // Spending window
  // ---------------------------------------------------------------------

  /** `ExpenseDoc`; the amount is carried but no arithmetic is done on it. */
  datatype Expense = Expense(id: string, amount: real, category: Option<string>, date: Option<Timestamp>)

  const SecondsPerDay: int := 86400

  function RangeDays(range: string): int {
    if range == "weekly" then 7 else 30
  }

  /** `exp.date?.seconds ?: 0`. */
  function DateSeconds(e: Expense): int {
    if e.date.Some? then e.date.value.seconds else 0
  }

  /** `filterExpensesByRange`, with the clock's seconds as a parameter. */
  function FilterExpensesByRange(expenses: seq<Expense>, range: string, nowSeconds: int): seq<Expense> {
    var cutoff := nowSeconds - RangeDays(range) * SecondsPerDay;
    Filter(expenses, (e: Expense) => DateSeconds(e) >= cutoff)
  }

  /** The window keeps, in order, exactly the expenses dated at or after the
      cutoff: 7 days back for "weekly", 30 days back for anything else. An
      undated expense counts as dated at second 0 and so drops out of any
      window that starts after it. */
  lemma ExpenseWindowFacts(expenses: seq<Expense>, range: string, nowSeconds: int, x: Expense)
    ensures var days := if range == "weekly" then 7 else 30;
      x in FilterExpensesByRange(expenses, range, nowSeconds) <==>
        x in expenses && DateSeconds(x) >= nowSeconds - days * 86400
    ensures x.date == None && nowSeconds > 30 * 86400 ==> x !in FilterExpensesByRange(expenses, range, nowSeconds)
    ensures range != "weekly" ==> FilterExpensesByRange(expenses, range, nowSeconds) == FilterExpensesByRange(expenses, "monthly", nowSeconds)
  {
    var cutoff := nowSeconds - RangeDays(range) * SecondsPerDay;
    FilterMembers(expenses, (e: Expense) => DateSeconds(e) >= cutoff, x);
  }

  /** The weekly window is the monthly window cut down further: the same
      expenses in the same order, minus the older ones. */
  lemma WeeklyWithinMonthly(expenses: seq<Expense>, nowSeconds: int)
    ensures var weekly := (e: Expense) => DateSeconds(e) >= nowSeconds - 7 * SecondsPerDay;
      Filter(FilterExpensesByRange(expenses, "monthly", nowSeconds), weekly) == FilterExpensesByRange(expenses, "weekly", nowSeconds)
  {
    var weekly := (e: Expense) => DateSeconds(e) >= nowSeconds - 7 * SecondsPerDay;
    var monthly := (e: Expense) => DateSeconds(e) >= nowSeconds - 30 * SecondsPerDay;
    FilterNarrow(expenses, weekly, monthly);
  }

  // ---------------------------------------------------------------------
  // Suggestions
  // ---------------------------------------------------------------------

  /** The fields the screen reads from a suggestion document. */
  datatype SuggestionSnapshot = SuggestionSnapshot(id: string, itemName: Option<string>, count: Option<int>,
                                                   lastBoughtAt: Option<Timestamp>)

  /** `SuggestionDoc`. */
  datatype Suggestion = Suggestion(id: string, name: string, count: int, lastBoughtAt: Option<Timestamp>)

  predicate HasItemName(d: SuggestionSnapshot) {
    d.itemName.Some?
  }

  /** The suggestion a named document becomes; a missing `count` reads as 0. */
  function Named(d: SuggestionSnapshot): Suggestion {
    Suggestion(d.id, d.itemName.GetOr([]), d.count.GetOr(0), d.lastBoughtAt)
  }

  /** The lambda of `mapNotNull`: `null` for a document without `itemName`. */
  function ToSuggestion(d: SuggestionSnapshot): Option<Suggestion> {
    if d.itemName.None? then None else Some(Named(d))
  }

  /** `mapNotNull`. */
  function ToSuggestions(docs: seq<SuggestionSnapshot>): (r: seq<Suggestion>)
    ensures |r| <= |docs|
    decreases |docs|
  {
    if docs == [] then []
    else match ToSuggestion(docs[0])
      case Some(s) => [s] + ToSuggestions(docs[1..])
      case None => ToSuggestions(docs[1..])
  }

  /** `lastBoughtAt?.seconds ?: 0`. */
  function LastSeconds(s: Suggestion): int {
    if s.lastBoughtAt.Some? then s.lastBoughtAt.value.seconds else 0
  }

  /** `a` comes strictly before `b`: a higher count, or the same count and a
      later purchase. */
  predicate Before(a: Suggestion, b: Suggestion) {
    a.count > b.count || (a.count == b.count && LastSeconds(a) > LastSeconds(b))
  }

  /** Sorted by count descending, then by the purchase second descending. */
  predicate Ranked(xs: seq<Suggestion>) {
    forall i, j :: 0 <= i < j < |xs| ==> !Before(xs[j], xs[i])
  }

  function Key(s: Suggestion): (int, int) {
    (s.count, LastSeconds(s))
  }

  /** Inserts `x` in front of the first element that does not come strictly
      before it. */
  function Insert(x: Suggestion, xs: seq<Suggestion>): (r: seq<Suggestion>)
    ensures multiset(r) == multiset{x} + multiset(xs)
    ensures Ranked(xs) ==> Ranked(r)
    decreases |xs|
  {
    if xs == [] || !Before(xs[0], x) then
      if Ranked(xs) then ConsRanked(x, xs); [x] + xs
      else [x] + xs
    else
      var rest := Insert(x, xs[1..]);
      assert xs == [xs[0]] + xs[1..];
      if Ranked(xs) then InsertAfterHead(x, xs, rest); [xs[0]] + rest
      else [xs[0]] + rest
  }

  /** An element that does not come after the head of a ranked sequence can
      go in front of it. */
  lemma ConsRanked(x: Suggestion, xs: seq<Suggestion>)
    requires Ranked(xs) && (xs == [] || !Before(xs[0], x))
    ensures Ranked([x] + xs)
  {
    if xs != [] {
      assert forall j :: 0 <= j < |xs| ==> !Before(xs[j], xs[0]) || j == 0;
    }
  }

  /** The head of a ranked sequence stays in front of the insertion into its
      tail of an element that comes after it. */
  lemma InsertAfterHead(x: Suggestion, xs: seq<Suggestion>, rest: seq<Suggestion>)
    requires xs != [] && Before(xs[0], x) && Ranked(xs)
    requires multiset(rest) == multiset{x} + multiset(xs[1..])
    requires Ranked(xs[1..]) ==> Ranked(rest)
    ensures Ranked([xs[0]] + rest)
  {
    assert Ranked(xs[1..]) by {
      assert forall i :: 0 <= i < |xs[1..]| ==> xs[1..][i] == xs[i + 1];
    }
    forall j | 0 <= j < |rest|
      ensures !Before(rest[j], xs[0])
    {
      assert rest[j] in multiset(rest);
      assert rest[j] == x || rest[j] in xs[1..];
    }
    var r := [xs[0]] + rest;
    assert forall j :: 1 <= j < |r| ==> r[j] == rest[j - 1];
  }

  /** Kotlin's `sortedWith`, which is stable: an insertion sort. */
  function SortSuggestions(xs: seq<Suggestion>): (r: seq<Suggestion>)
    ensures Ranked(r)
    ensures multiset(r) == multiset(xs)
    decreases |xs|
  {
    if xs == [] then []
    else
      assert xs == [xs[0]] + xs[1..];
      Insert(xs[0], SortSuggestions(xs[1..]))
  }

  /** The list the screen shows. */
  function Suggestions(docs: seq<SuggestionSnapshot>): seq<Suggestion> {
    SortSuggestions(ToSuggestions(docs))
  }

  /** Insertion moves `x` past elements of other keys only. */
  lemma {:induction false} InsertStable(x: Suggestion, xs: seq<Suggestion>, k: (int, int))
    ensures Filter(Insert(x, xs), (s: Suggestion) => Key(s) == k) ==
            (if Key(x) == k then [x] else []) + Filter(xs, (s: Suggestion) => Key(s) == k)
    decreases |xs|
  {
    var same := (s: Suggestion) => Key(s) == k;
    if xs == [] || !Before(xs[0], x) {
      if Key(x) != k {
        assert ([x] + xs)[1..] == xs;
      }
    } else {
      InsertStable(x, xs[1..], k);
      assert ([xs[0]] + Insert(x, xs[1..]))[1..] == Insert(x, xs[1..]);
    }
  }

  /** Suggestions with the same count and purchase second keep the order in
      which the snapshot listed them. */
  lemma {:induction false} SortStable(xs: seq<Suggestion>, k: (int, int))
    ensures Filter(SortSuggestions(xs), (s: Suggestion) => Key(s) == k) == Filter(xs, (s: Suggestion) => Key(s) == k)
    decreases |xs|
  {
    if xs != [] {
      SortStable(xs[1..], k);
      InsertStable(xs[0], SortSuggestions(xs[1..]), k);
    }
  }

  /** The suggestion list: exactly the documents that have an `itemName`,
      each once, with `count` defaulting to 0, sorted by count and then by purchase time, both
      descending, with ties left in snapshot order. */
  lemma SuggestionsFacts(docs: seq<SuggestionSnapshot>, k: (int, int))
    ensures Ranked(Suggestions(docs))
    ensures multiset(Suggestions(docs)) == multiset(ToSuggestions(docs))
    ensures Filter(Suggestions(docs), (s: Suggestion) => Key(s) == k) == Filter(ToSuggestions(docs), (s: Suggestion) => Key(s) == k)
    ensures ToSuggestions(docs) == Map(Filter(docs, HasItemName), Named)
  {
    SortStable(ToSuggestions(docs), k);
    NamedDocs(docs);
  }

  lemma {:induction false} NamedDocs(docs: seq<SuggestionSnapshot>)
    ensures ToSuggestions(docs) == Map(Filter(docs, HasItemName), Named)
    decreases |docs|
  {
    if docs != [] {
      NamedDocs(docs[1..]);
    }
  }
}
