/** The entry store (app.js `addEntry`, `updateEntry`, `deleteEntry`) and the
    category lists (`addCategory`, `deleteCategory`). Each operation returns the
    new state; values the application reads from its form, its clock or a
    confirmation dialog are parameters. */
module EntryStore {
  import opened Wrappers
  import opened Seqs
  import opened Text
  import opened Records

  /** `addEntry`: the new entry of the selected type is appended, unless the
      date or category is empty or the amount is zero (`!amount`, so a negative
      amount is accepted). */
  function AddEntry(entries: seq<Entry>, id: int, date: string, kind: Kind,
                    category: string, amount: int, description: string)
    : (r: Result<seq<Entry>, Alert>)
    ensures r.Err? <==> date == "" || category == "" || amount == 0
    ensures r.Err? ==> r.error == MissingFields
    ensures r.Ok? ==> |r.value| == |entries| + 1 && r.value[..|entries|] == entries
    ensures r.Ok? ==> r.value[|entries|] == Entry(id, date, kind, category, amount, description)
  {
    if date == "" || category == "" || amount == 0 then Err(MissingFields)
    else Ok(entries + [Entry(id, date, kind, category, amount, description)])
  }

  predicate HasId(id: int, e: Entry) {
    e.id == id
  }

  /** Position `i` holds the first entry with the id: the one `find` returns. */
  predicate FirstWithId(entries: seq<Entry>, id: int, i: int) {
    0 <= i < |entries| && entries[i].id == id && forall j :: 0 <= j < i ==> entries[j].id != id
  }

  /** `updateEntry`: overwrites date, category, amount and description of the
      first entry with the edited id; an unknown id changes nothing. No field
      is validated. */
  function UpdateEntry(entries: seq<Entry>, editId: int, date: string,
                       category: string, amount: int, description: string)
    : (r: seq<Entry>)
    ensures |r| == |entries|
    ensures (forall i :: 0 <= i < |entries| ==> entries[i].id != editId) ==> r == entries
    ensures forall i :: 0 <= i < |entries| ==> r[i].id == entries[i].id && r[i].kind == entries[i].kind
    ensures forall i :: 0 <= i < |entries| ==>
      r[i] == if FirstWithId(entries, editId, i)
              then Entry(editId, date, entries[i].kind, category, amount, description)
              else entries[i]
  {
    match FirstIndex(entries, e => HasId(editId, e))
    case None => entries
    case Some(i) =>
      entries[i := entries[i].(date := date, category := category, amount := amount,
                               description := description)]
  }

  /** `deleteEntry`: once confirmed, every entry with the id goes and the rest
      keep their order. */
  function DeleteEntry(entries: seq<Entry>, id: int, confirmed: bool): (r: seq<Entry>)
    ensures !confirmed ==> r == entries
    ensures confirmed ==> forall e :: e in r <==> e in entries && e.id != id
    ensures confirmed ==> IsSelection(r, entries, (e: Entry) => e.id != id)
  {
    if confirmed then
      FilterIsSelection(entries, e => !HasId(id, e));
      Filter(entries, e => !HasId(id, e))
    else entries
  }

  /** Deleting the entry just added under a fresh id gives back the store as it
      was before. */
  lemma DeleteUndoesAdd(entries: seq<Entry>, id: int, date: string, kind: Kind,
                        category: string, amount: int, description: string)
    requires forall i :: 0 <= i < |entries| ==> entries[i].id != id
    requires AddEntry(entries, id, date, kind, category, amount, description).Ok?
    ensures DeleteEntry(AddEntry(entries, id, date, kind, category, amount, description).value,
                        id, true) == entries
  {
    var e := Entry(id, date, kind, category, amount, description);
    var p := (x: Entry) => !HasId(id, x);
    FilterConcat(entries, [e], p);
    FilterAll(entries, p);
    assert Filter([e], p) == [];
  }

  /** An edit keeps every id in place, so it finds the same entry again. */
  lemma UpdateKeepsFirstWithId(entries: seq<Entry>, editId: int, date: string,
                               category: string, amount: int, description: string, i: int)
    ensures FirstWithId(UpdateEntry(entries, editId, date, category, amount, description), editId, i)
      <==> FirstWithId(entries, editId, i)
  {
  }

  /** Saving the same edit twice is saving it once. */
  lemma UpdateIdempotent(entries: seq<Entry>, editId: int, date: string,
                         category: string, amount: int, description: string)
    ensures var once := UpdateEntry(entries, editId, date, category, amount, description);
      UpdateEntry(once, editId, date, category, amount, description) == once
  {
    var once := UpdateEntry(entries, editId, date, category, amount, description);
    var twice := UpdateEntry(once, editId, date, category, amount, description);
    forall i | 0 <= i < |entries|
      ensures twice[i] == once[i]
    {
      UpdateKeepsFirstWithId(entries, editId, date, category, amount, description, i);
    }
  }

  /** Editing an entry back to its old date, category, amount and description
      restores the store. */
  lemma UpdateUndoneByOldValues(entries: seq<Entry>, editId: int, date: string,
                                category: string, amount: int, description: string, i: int)
    requires FirstWithId(entries, editId, i)
    ensures var prev := entries[i];
      UpdateEntry(UpdateEntry(entries, editId, date, category, amount, description),
                  editId, prev.date, prev.category, prev.amount, prev.description) == entries
  {
    var e := entries[i];
    var once := UpdateEntry(entries, editId, date, category, amount, description);
    var back := UpdateEntry(once, editId, e.date, e.category, e.amount, e.description);
    forall j | 0 <= j < |entries|
      ensures back[j] == entries[j]
    {
      UpdateKeepsFirstWithId(entries, editId, date, category, amount, description, j);
      if FirstWithId(entries, editId, j) {
        assert j == i;
      }
    }
  }

  /** `addCategory`: the trimmed name is appended to the chosen list unless it
      is empty or already there. */
  function AddCategory(c: Categories, tab: CategoryTab, rawName: string)
    : (r: Result<Categories, Alert>)
    ensures r.Err? <==> Trim(rawName) == "" || Trim(rawName) in c.List(tab)
    ensures r.Err? ==> r.error == (if Trim(rawName) == "" then MissingCategoryName else CategoryExists)
    ensures r.Ok? ==> r.value.List(tab) == c.List(tab) + [Trim(rawName)]
    ensures r.Ok? ==> forall t :: t != tab ==> r.value.List(t) == c.List(t)
  {
    var name := Trim(rawName);
    if name == "" then Err(MissingCategoryName)
    else if name in c.List(tab) then Err(CategoryExists)
    else Ok(c.WithList(tab, c.List(tab) + [name]))
  }

  /** `deleteCategory`: once confirmed, the name is removed from the list of the
      tab currently shown, whichever list it came from. */
  function DeleteCategory(c: Categories, currentTab: CategoryTab, name: string, confirmed: bool)
    : (r: Categories)
    ensures !confirmed ==> r == c
    ensures confirmed ==> forall n :: n in r.List(currentTab) <==> n in c.List(currentTab) && n != name
    ensures confirmed ==> IsSelection(r.List(currentTab), c.List(currentTab), (n: string) => n != name)
    ensures forall t :: t != currentTab ==> r.List(t) == c.List(t)
  {
    if confirmed then
      FilterIsSelection(c.List(currentTab), n => n != name);
      c.WithList(currentTab, Filter(c.List(currentTab), n => n != name))
    else c
  }

  /** Adding the name a category was just stored under is refused as a
      duplicate: the stored name is already trimmed. */
  lemma AddCategoryTwiceRejected(c: Categories, tab: CategoryTab, rawName: string)
    requires AddCategory(c, tab, rawName).Ok?
    ensures AddCategory(AddCategory(c, tab, rawName).value, tab, Trim(rawName)) == Err(CategoryExists)
  {
    TrimIdempotent(rawName);
  }

  /** Both category lists stay free of duplicates under adding and deleting. */
  lemma CategoryListsStayUnique(c: Categories, tab: CategoryTab, rawName: string,
                                currentTab: CategoryTab, name: string, confirmed: bool)
    requires NoDuplicates(c.income) && NoDuplicates(c.expense)
    ensures AddCategory(c, tab, rawName).Ok? ==>
      var a := AddCategory(c, tab, rawName).value;
      NoDuplicates(a.income) && NoDuplicates(a.expense)
    ensures var d := DeleteCategory(c, currentTab, name, confirmed);
      NoDuplicates(d.income) && NoDuplicates(d.expense)
  {
    if AddCategory(c, tab, rawName).Ok? {
      AppendKeepsNoDuplicates(c.List(tab), Trim(rawName));
    }
    FilterKeepsNoDuplicates(c.List(currentTab), n => n != name);
  }

  /** Deleting a category just added on the tab being shown restores the lists. */
  lemma DeleteCategoryUndoesAdd(c: Categories, tab: CategoryTab, rawName: string)
    requires AddCategory(c, tab, rawName).Ok?
    ensures DeleteCategory(AddCategory(c, tab, rawName).value, tab, Trim(rawName), true) == c
  {
    var name := Trim(rawName);
    var p := (n: string) => n != name;
    FilterConcat(c.List(tab), [name], p);
    FilterAll(c.List(tab), p);
    assert Filter([name], p) == [];
  }

  /** Deleting while the other tab is shown leaves the list the name belongs to
      untouched (the deletion goes to the current tab's list, app.js:1102). */
  lemma DeleteCategoryUsesCurrentTab(c: Categories, currentTab: CategoryTab, name: string)
    requires name !in c.List(currentTab)
    ensures DeleteCategory(c, currentTab, name, true) == c
  {
    var p := (n: string) => n != name;
    FilterAll(c.List(currentTab), p);
  }

  lemma DefaultCategoriesUnique()
    ensures NoDuplicates(DefaultCategories.income) && NoDuplicates(DefaultCategories.expense)
  {
  }
}
