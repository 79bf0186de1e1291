/**
 * `get_or_create_category` on the category table: find or insert a root
 * category by name, then, when the sheet row names a subcategory, find or
 * insert a child of that root. The table's `name` column is unique, so an
 * insert of a name the table already holds fails.
 */
module CategoryTable {
  import opened Wrappers
  import opened ReportData
  import opened SheetText

  const Uncategorized := "Uncategorized"

  /** `str(category or "Uncategorized").strip()`. */
  function CategoryName(category: Option<string>): string {
    if category.Some? && category.value != "" then Strip(category.value) else Uncategorized
  }

  /**
   * The subcategory the row asks for: a given, non-empty cell, stripped, that
   * is neither empty after stripping nor the word "nan" in any case.
   */
  function ChildName(subcategory: Option<string>): Option<string> {
    if subcategory.Some? && subcategory.value != "" then
      var s := Strip(subcategory.value);
      if s != "" && !IsNanWord(s) then Some(s) else None
    else None
  }

  /** The table's ids stay below the next id the database hands out, names are unique, parents exist. */
  predicate TableValid(categories: map<int, Category>, nextId: int) {
    UniqueNames(categories) && ParentsPresent(categories) && (forall id | id in categories :: id < nextId)
  }

  predicate NameTaken(categories: map<int, Category>, name: string) {
    exists id | id in categories :: categories[id].name == name
  }

  /** `filter_by(name=..., parent_id=...).first()`. */
  ghost function FindCategory(categories: map<int, Category>, name: string, parent: Option<int>): (r: Option<int>)
    ensures r.Some? ==> r.value in categories && categories[r.value] == Category(name, parent)
    ensures r.None? ==> forall id | id in categories :: categories[id] != Category(name, parent)
  {
    if exists id | id in categories :: categories[id] == Category(name, parent) then
      var id :| id in categories && categories[id] == Category(name, parent);
      Some(id)
    else None
  }

  /** Under unique names, the row a query finds is the only one with that name. */
  lemma FindUnique(categories: map<int, Category>, name: string, parent: Option<int>, id: int)
    requires UniqueNames(categories)
    requires id in categories && categories[id] == Category(name, parent)
    ensures FindCategory(categories, name, parent) == Some(id)
  {
  }

  /** The id a call returns and the table it leaves. */
  datatype CategoryStep = CategoryStep(id: int, categories: map<int, Category>, nextId: int)

  /** Find the category `(name, parent)`, or insert it under the next id; an insert of a taken name fails. */
  ghost function FindOrAdd(categories: map<int, Category>, nextId: int, name: string, parent: Option<int>): (r: Result<CategoryStep, string>)
  {
    match FindCategory(categories, name, parent)
    case Some(id) => Ok(CategoryStep(id, categories, nextId))
    case None =>
      if NameTaken(categories, name) then Err(name)
      else Ok(CategoryStep(nextId, categories[nextId := Category(name, parent)], nextId + 1))
  }

  /** `get_or_create_category`: the root first, then the child when one is asked for. */
  ghost function GetOrCreate(categories: map<int, Category>, nextId: int, category: Option<string>, subcategory: Option<string>)
    : Result<CategoryStep, string>
  {
    var root := FindOrAdd(categories, nextId, CategoryName(category), None);
    if root.Err? || ChildName(subcategory).None? then root
    else FindOrAdd(root.value.categories, root.value.nextId, ChildName(subcategory).value, Some(root.value.id))
  }

  /**
   * The table a call leaves, whether it succeeds or not: when the child's
   * insert fails, the root the call flushed before it is still there.
   */
  ghost function TableAfter(categories: map<int, Category>, nextId: int, category: Option<string>, subcategory: Option<string>)
    : (map<int, Category>, int)
  {
    var r := GetOrCreate(categories, nextId, category, subcategory);
    var root := FindOrAdd(categories, nextId, CategoryName(category), None);
    if r.Ok? then (r.value.categories, r.value.nextId)
    else if root.Ok? then (root.value.categories, root.value.nextId)
    else (categories, nextId)
  }

  // ---- properties of one step ----

  /** One find-or-add keeps the table valid, keeps every existing row, and adds at most the one row asked for. */
  lemma FindOrAddStep(categories: map<int, Category>, nextId: int, name: string, parent: Option<int>)
    requires TableValid(categories, nextId)
    requires parent.Some? ==> parent.value in categories
    ensures var r := FindOrAdd(categories, nextId, name, parent);
            (r.Ok? ==> TableValid(r.value.categories, r.value.nextId)
                       && r.value.id in r.value.categories && r.value.categories[r.value.id] == Category(name, parent)
                       && (forall id | id in categories :: id in r.value.categories && r.value.categories[id] == categories[id])
                       && ((r.value.categories == categories && r.value.nextId == nextId)
                           || (r.value.id == nextId && r.value.nextId == nextId + 1
                               && r.value.categories == categories[nextId := Category(name, parent)])))
            && (r.Err? <==> NameTaken(categories, name) && FindCategory(categories, name, parent).None?)
            && (r.Err? ==> r.error == name)
  {
    var r := FindOrAdd(categories, nextId, name, parent);
    if r.Ok? && FindCategory(categories, name, parent).None? {
      var cats := r.value.categories;
      assert nextId !in categories;
      forall i, j | i in cats && j in cats && i != j ensures cats[i].name != cats[j].name {
        if i == nextId {
          assert categories[j].name == cats[j].name;
        } else if j == nextId {
          assert categories[i].name == cats[i].name;
        }
      }
    }
  }

  /**
   * A call on a valid table keeps it valid; the id it returns names a root
   * with the stripped category name, or a child of that root with the
   * subcategory name; every existing row is kept, and at most one root and
   * one child are added.
   */
  lemma GetOrCreateStep(categories: map<int, Category>, nextId: int, category: Option<string>, subcategory: Option<string>)
    requires TableValid(categories, nextId)
    ensures var r := GetOrCreate(categories, nextId, category, subcategory);
            r.Ok? ==>
              var cats := r.value.categories;
              TableValid(cats, r.value.nextId)
              && r.value.id in cats
              && (ChildName(subcategory).None? ==> cats[r.value.id] == Category(CategoryName(category), None))
              && (ChildName(subcategory).Some? ==>
                    var parent := cats[r.value.id].parentId;
                    cats[r.value.id].name == ChildName(subcategory).value
                    && parent.Some? && parent.value in cats && cats[parent.value] == Category(CategoryName(category), None))
              && (forall id | id in categories :: id in cats && cats[id] == categories[id])
              && nextId <= r.value.nextId <= nextId + 2
              && (forall id | id in cats && id !in categories :: nextId <= id < r.value.nextId)
  {
    var name := CategoryName(category);
    FindOrAddStep(categories, nextId, name, None);
    var root := FindOrAdd(categories, nextId, name, None);
    if root.Ok? && ChildName(subcategory).Some? {
      FindOrAddStep(root.value.categories, root.value.nextId, ChildName(subcategory).value, Some(root.value.id));
    }
  }

  /** Whatever the result, the table a call leaves on a valid table is valid and keeps every row. */
  lemma TableAfterValid(categories: map<int, Category>, nextId: int, category: Option<string>, subcategory: Option<string>)
    requires TableValid(categories, nextId)
    ensures var (cats, next) := TableAfter(categories, nextId, category, subcategory);
            TableValid(cats, next) && nextId <= next
            && (forall id | id in categories :: id in cats && cats[id] == categories[id])
            && (GetOrCreate(categories, nextId, category, subcategory).Ok? ==>
                  var step := GetOrCreate(categories, nextId, category, subcategory).value;
                  cats == step.categories && next == step.nextId)
  {
    FindOrAddStep(categories, nextId, CategoryName(category), None);
    GetOrCreateStep(categories, nextId, category, subcategory);
  }

  /** Every row of `categories` is still in `categories'`. */
  predicate KeepsCategories(categories: map<int, Category>, categories': map<int, Category>) {
    forall id | id in categories :: id in categories' && categories'[id] == categories[id]
  }

  /** A query that finds the row leaves the table as it is. */
  lemma FindOrAddFound(categories: map<int, Category>, nextId: int, name: string, parent: Option<int>, id: int)
    requires UniqueNames(categories)
    requires id in categories && categories[id] == Category(name, parent)
    ensures FindOrAdd(categories, nextId, name, parent) == Ok(CategoryStep(id, categories, nextId))
  {
    FindUnique(categories, name, parent, id);
  }

  /** A second call with the same cells on the table the first one left creates nothing and returns the same id. */
  lemma GetOrCreateIdempotent(categories: map<int, Category>, nextId: int, category: Option<string>, subcategory: Option<string>)
    requires TableValid(categories, nextId)
    requires GetOrCreate(categories, nextId, category, subcategory).Ok?
    ensures var step := GetOrCreate(categories, nextId, category, subcategory).value;
            GetOrCreate(step.categories, step.nextId, category, subcategory) == Ok(step)
  {
    var name := CategoryName(category);
    var step := GetOrCreate(categories, nextId, category, subcategory).value;
    GetOrCreateStep(categories, nextId, category, subcategory);
    var cats := step.categories;
    if ChildName(subcategory).None? {
      FindOrAddFound(cats, step.nextId, name, None, step.id);
    } else {
      var parent := cats[step.id].parentId.value;
      FindOrAddFound(cats, step.nextId, name, None, parent);
      FindOrAddFound(cats, step.nextId, ChildName(subcategory).value, Some(parent), step.id);
    }
  }

  /**
   * A call that found everything it needed keeps finding it, under the same
   * id, on any valid table that still holds those rows.
   */
  lemma GetOrCreateFoundStays(categories: map<int, Category>, nextId: int, categories': map<int, Category>, nextId': int,
                              category: Option<string>, subcategory: Option<string>, id: int)
    requires TableValid(categories, nextId) && TableValid(categories', nextId')
    requires KeepsCategories(categories, categories')
    requires GetOrCreate(categories, nextId, category, subcategory) == Ok(CategoryStep(id, categories, nextId))
    ensures GetOrCreate(categories', nextId', category, subcategory) == Ok(CategoryStep(id, categories', nextId'))
  {
    var name := CategoryName(category);
    GetOrCreateStep(categories, nextId, category, subcategory);
    if ChildName(subcategory).None? {
      FindOrAddFound(categories', nextId', name, None, id);
    } else {
      var parent := categories[id].parentId.value;
      FindOrAddFound(categories', nextId', name, None, parent);
      FindOrAddFound(categories', nextId', ChildName(subcategory).value, Some(parent), id);
    }
  }

  /**
   * A call fails only on a name it must insert that the table already uses
   * (or the root name reused for the child), and it fails whenever the root
   * name is used by a row that is not a root.
   */
  lemma GetOrCreateConflict(categories: map<int, Category>, nextId: int, category: Option<string>, subcategory: Option<string>)
    requires TableValid(categories, nextId)
    ensures var r := GetOrCreate(categories, nextId, category, subcategory);
            var name := CategoryName(category);
            (r.Err? ==> (r.error == name || ChildName(subcategory) == Some(r.error))
                        && (NameTaken(categories, r.error) || r.error == name))
            && (NameTaken(categories, name) && FindCategory(categories, name, None).None? ==> r == Err(name))
  {
    var name := CategoryName(category);
    FindOrAddStep(categories, nextId, name, None);
    var root := FindOrAdd(categories, nextId, name, None);
    if root.Ok? && ChildName(subcategory).Some? {
      var child := ChildName(subcategory).value;
      FindOrAddStep(root.value.categories, root.value.nextId, child, Some(root.value.id));
      var r := FindOrAdd(root.value.categories, root.value.nextId, child, Some(root.value.id));
      if r.Err? && child != name {
        var id :| id in root.value.categories && root.value.categories[id].name == child;
        assert id in categories;
      }
    }
  }

  /** A row asking for subcategory "X" under category "X" always fails: the root already holds the name. */
  lemma ChildNamedAsParentFails(categories: map<int, Category>, nextId: int, category: Option<string>, subcategory: Option<string>)
    requires TableValid(categories, nextId)
    requires ChildName(subcategory) == Some(CategoryName(category))
    ensures GetOrCreate(categories, nextId, category, subcategory).Err?
  {
    var name := CategoryName(category);
    FindOrAddStep(categories, nextId, name, None);
    var root := FindOrAdd(categories, nextId, name, None);
    if root.Ok? {
      FindOrAddStep(root.value.categories, root.value.nextId, name, Some(root.value.id));
      assert root.value.categories[root.value.id].name == name;
    }
  }

  /** A name the table does not hold yet is inserted under the next id. */
  lemma FindOrAddNew(categories: map<int, Category>, nextId: int, name: string, parent: Option<int>)
    requires !NameTaken(categories, name)
    ensures FindOrAdd(categories, nextId, name, parent) == Ok(CategoryStep(nextId, categories[nextId := Category(name, parent)], nextId + 1))
  {
  }

  /** On an empty table, a row without a usable subcategory creates just its root, under the first id. */
  lemma RootOnEmptyTable(nextId: int, category: Option<string>, subcategory: Option<string>)
    requires ChildName(subcategory).None?
    ensures GetOrCreate(map[], nextId, category, subcategory)
            == Ok(CategoryStep(nextId, map[nextId := Category(CategoryName(category), None)], nextId + 1))
  {
    var empty: map<int, Category> := map[];
    FindOrAddNew(empty, nextId, CategoryName(category), None);
  }

  /** On an empty table, a row with a subcategory creates the root and then the child under the root's id. */
  lemma ChildOnEmptyTable(nextId: int, category: Option<string>, subcategory: Option<string>)
    requires ChildName(subcategory).Some? && ChildName(subcategory).value != CategoryName(category)
    ensures var root := Category(CategoryName(category), None);
            var child := Category(ChildName(subcategory).value, Some(nextId));
            GetOrCreate(map[], nextId, category, subcategory)
            == Ok(CategoryStep(nextId + 1, map[nextId := root, nextId + 1 := child], nextId + 2))
  {
    var empty: map<int, Category> := map[];
    var name := CategoryName(category);
    FindOrAddNew(empty, nextId, name, None);
    var cats := map[nextId := Category(name, None)];
    assert !NameTaken(cats, ChildName(subcategory).value);
    FindOrAddNew(cats, nextId + 1, ChildName(subcategory).value, Some(nextId));
  }

  /** "nan" in any case is no subcategory; a plain name is one. */
  lemma ChildNameExamples()
    ensures ChildName(Some("NaN")) == None && ChildName(Some("")) == None && ChildName(None) == None
    ensures ChildName(Some("Fuel")) == Some("Fuel")
  {
    StripKeeps("NaN");
    assert Strip("NaN") == "NaN";
    assert IsNanWord("NaN");
    StripKeeps("Fuel");
    assert Strip("Fuel") == "Fuel";
    assert !IsNanWord("Fuel");
  }
}
