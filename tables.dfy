/**
 * The record tables shared by the seven asset-management pages (waste, energy, vehicles,
 * buildings, supply chain, machinery, personnel). Every page keeps a list of records with a
 * string `id`, a search box, and one dialog used both to edit a record and to add one; the
 * pages differ only in the record type and its defaults, which a page hands over as `RecordOps`.
 */
module Tables {
  import opened Wrappers
  import opened Seqs
  import opened Text

  /** The clock reading a page takes when it creates a record: today's date and the year. */
  datatype Today = Today(date: string, year: int)

  /**
   * What a page contributes to the generic table: `R` is the record, `F` the form state
   * (`Partial<R>`: every field may be unset).
   */
  datatype RecordOps<!R, !F> = RecordOps(
    idOf: R -> string,             // record.id
    searchFields: R -> seq<string>, // the fields the search box looks into
    formId: F -> Option<string>,   // currentX.id, unset for a new record
    merge: (R, F) -> R,            // { ...record, ...currentX }
    build: (string, F, Today) -> R, // the new record with the page's defaults
    toForm: R -> F,                // { ...record }, loaded into the dialog
    emptyForm: F)                  // {}

  /**
   * `build` stamps the id it is given, and `merge` keeps the id of the record it updates
   * (the form carries that same id).
   */
  ghost predicate KeepsIds<R(!new), F(!new)>(ops: RecordOps<R, F>)
  {
    (forall id, f, t :: ops.idOf(ops.build(id, f, t)) == id) &&
    (forall r, f :: ops.formId(f) == Some(ops.idOf(r)) ==> ops.idOf(ops.merge(r, f)) == ops.idOf(r))
  }

  // ---------------------------------------------------------------------------------------
  // Search

  /** Some searchable field contains the term, both lower-cased. */
  predicate Matches(fields: seq<string>, term: string)
  {
    exists k | 0 <= k < |fields| :: Contains(Lower(fields[k]), Lower(term))
  }

  /** `filteredX`: the records one of whose search fields contains the search term. */
  function Search<R(!new)>(rows: seq<R>, fields: R -> seq<string>, term: string): (r: seq<R>)
    ensures |r| <= |rows|
    ensures forall x :: x in r <==> x in rows && Matches(fields(x), term)
  {
    Filter(rows, x => Matches(fields(x), term))
  }

  /** The search works record by record: the records it shows keep their order. */
  lemma SearchConcat<R(!new)>(a: seq<R>, b: seq<R>, fields: R -> seq<string>, term: string)
    ensures Search(a + b, fields, term) == Search(a, fields, term) + Search(b, fields, term)
  {
    FilterConcat(a, b, x => Matches(fields(x), term));
  }

  /** With an empty search box every record is listed, in the original order. */
  lemma SearchEmptyTerm<R(!new)>(rows: seq<R>, fields: R -> seq<string>)
    requires forall x :: x in rows ==> |fields(x)| > 0
    ensures Search(rows, fields, "") == rows
  {
    forall x | x in rows
      ensures Matches(fields(x), "")
    {
      ContainsEmpty(Lower(fields(x)[0]));
      assert Lower("") == "";
    }
    FilterAll(rows, x => Matches(fields(x), ""));
  }

  /** Narrowing the search never raises a total of non-negative terms over the listed records. */
  lemma SearchSumAtMost<R(!new)>(rows: seq<R>, fields: R -> seq<string>, term: string, f: R -> real)
    requires forall x :: x in rows ==> 0.0 <= f(x)
    ensures Sum(Search(rows, fields, term), f) <= Sum(rows, f)
  {
    FilterSumAtMost(rows, x => Matches(fields(x), term), f);
  }

  // ---------------------------------------------------------------------------------------
  // Edit, delete, add

  /** The record with `form`'s fields laid over it when its id is the edited one, else as it was. */
  function EditOne<R, F>(x: R, idOf: R -> string, id: Option<string>, merge: (R, F) -> R, form: F): R
  {
    if id == Some(idOf(x)) then merge(x, form) else x
  }

  /**
   * The edit branch of `handleSubmit`: `rows.map(r => r.id === current.id ? { ...r, ...current } : r)`.
   */
  function Edit<R, F>(rows: seq<R>, idOf: R -> string, id: Option<string>, merge: (R, F) -> R, form: F): (r: seq<R>)
    ensures |r| == |rows|
    ensures forall i :: 0 <= i < |rows| && id != Some(idOf(rows[i])) ==> r[i] == rows[i]
    ensures forall i :: 0 <= i < |rows| && id == Some(idOf(rows[i])) ==> r[i] == merge(rows[i], form)
    decreases |rows|
  {
    if |rows| == 0 then []
    else Edit(rows[..|rows| - 1], idOf, id, merge, form) + [EditOne(rows[|rows| - 1], idOf, id, merge, form)]
  }

  /** Editing with no id, or with an id no record has, leaves the list as it was. */
  lemma EditMissingId<R, F>(rows: seq<R>, idOf: R -> string, id: Option<string>, merge: (R, F) -> R, form: F)
    requires forall i :: 0 <= i < |rows| ==> id != Some(idOf(rows[i]))
    ensures Edit(rows, idOf, id, merge, form) == rows
  {
  }

  /** `handleDelete(id)`: `rows.filter(r => r.id !== id)`. */
  function Delete<R(!new)>(rows: seq<R>, idOf: R -> string, id: string): (r: seq<R>)
    ensures forall x :: x in r <==> x in rows && idOf(x) != id
  {
    Filter(rows, x => idOf(x) != id)
  }

  /** Deleting removes exactly the records that carry the id: the list shrinks by their number. */
  lemma DeleteLength<R(!new)>(rows: seq<R>, idOf: R -> string, id: string)
    ensures |Delete(rows, idOf, id)| == |rows| - |WithId(rows, idOf, id)|
  {
    FilterSplitsLength(rows, x => idOf(x) == id, x => idOf(x) != id);
  }

  /** Deleting works record by record: the survivors keep their order. */
  lemma DeleteConcat<R(!new)>(a: seq<R>, b: seq<R>, idOf: R -> string, id: string)
    ensures Delete(a + b, idOf, id) == Delete(a, idOf, id) + Delete(b, idOf, id)
  {
    FilterConcat(a, b, x => idOf(x) != id);
  }

  /** Deleting an id no record carries changes nothing. */
  lemma DeleteMissing<R(!new)>(rows: seq<R>, idOf: R -> string, id: string)
    requires forall x :: x in rows ==> idOf(x) != id
    ensures Delete(rows, idOf, id) == rows
  {
    FilterAll(rows, x => idOf(x) != id);
  }

  /** The records that carry the id `id`: those `handleDelete(id)` removes. */
  function WithId<R(!new)>(rows: seq<R>, idOf: R -> string, id: string): (r: seq<R>)
    ensures forall x :: x in r <==> x in rows && idOf(x) == id
  {
    Filter(rows, x => idOf(x) == id)
  }

  /** Deleting takes exactly the deleted records' share out of any total over the list. */
  lemma DeleteSum<R(!new)>(rows: seq<R>, idOf: R -> string, id: string, f: R -> real)
    ensures Sum(Delete(rows, idOf, id), f) == Sum(rows, f) - Sum(WithId(rows, idOf, id), f)
  {
    SumPartition(rows, x => idOf(x) == id, x => idOf(x) != id, f);
  }

  /** `x || default` on a text field: an unset or empty field gives the default. */
  function TextOr(field: Option<string>, default: string): string
  {
    if field.None? || field.value == "" then default else field.value
  }

  /** The id `handleSubmit` gives a new record: `(parseInt(rows[rows.length - 1]?.id || "0") + 1).toString()`. */
  function NextId<R>(rows: seq<R>, idOf: R -> string): string
  {
    var last := if |rows| == 0 || idOf(rows[|rows| - 1]) == "" then "0" else idOf(rows[|rows| - 1]);
    match ParseInt(last)
    case Some(n) => Show(n + 1)
    case None => "NaN"
  }

  /** `NaN + 1` is NaN, whose `toString()` is the text "NaN". */
  lemma NextIdNaN<R>(rows: seq<R>, idOf: R -> string)
    requires |rows| > 0 && |idOf(rows[|rows| - 1])| > 0 && !IsDigit(idOf(rows[|rows| - 1])[0])
    ensures NextId(rows, idOf) == "NaN"
  {
  }

  // ---------------------------------------------------------------------------------------
  // The id invariant

  /** The number an id stands for, or -1 when it is not a numeral. */
  function IdValue(id: string): int
  {
    match ParseInt(id)
    case Some(n) => n
    case None => -1
  }

  /** `id` is the canonical decimal numeral of a number (no sign, no leading zero, nothing after). */
  predicate IsNumeral(id: string)
  {
    ParseInt(id).Some? && Show(ParseInt(id).value) == id
  }

  /**
   * Every id is a canonical numeral and the numbers strictly increase along the list, as they
   * do in every page's initial data.
   */
  predicate IdsAscending<R>(rows: seq<R>, idOf: R -> string)
  {
    (forall i :: 0 <= i < |rows| ==> IsNumeral(idOf(rows[i]))) &&
    (forall i, j :: 0 <= i < j < |rows| ==> IdValue(idOf(rows[i])) < IdValue(idOf(rows[j])))
  }

  /** Ids "1", "2", ... in order, as the pages' initial data numbers its records, are ascending. */
  lemma CountingIds<R>(rows: seq<R>, idOf: R -> string)
    requires |rows| < 9
    requires forall i :: 0 <= i < |rows| ==> idOf(rows[i]) == [DigitChar(i + 1)]
    ensures IdsAscending(rows, idOf)
  {
    forall i | 0 <= i < |rows|
      ensures IsNumeral(idOf(rows[i])) && IdValue(idOf(rows[i])) == i + 1
    {
      ParseShow(i + 1);
    }
  }

  /** Ascending ids are pairwise different, so edit and delete touch at most one record. */
  lemma AscendingUnique<R>(rows: seq<R>, idOf: R -> string, i: int, j: int)
    requires IdsAscending(rows, idOf)
    requires 0 <= i < |rows| && 0 <= j < |rows| && i != j
    ensures idOf(rows[i]) != idOf(rows[j])
  {
  }

  /** The last id, or "0" for an empty list: `rows[rows.length - 1]?.id || "0"` under the invariant. */
  lemma NextIdOfNumerals<R>(rows: seq<R>, idOf: R -> string)
    requires IdsAscending(rows, idOf)
    ensures |rows| == 0 ==> NextId(rows, idOf) == Show(1)
    ensures |rows| > 0 ==> NextId(rows, idOf) == Show(IdValue(idOf(rows[|rows| - 1])) + 1)
  {
    if |rows| == 0 {
      assert Show(0) == "0";
      ParseShow(0);
    } else {
      var last := idOf(rows[|rows| - 1]);
      assert IsNumeral(last);
      assert |last| > 0;
    }
  }

  /** Under the invariant the new id is fresh: its number exceeds every id in the list. */
  lemma NextIdFresh<R>(rows: seq<R>, idOf: R -> string)
    requires IdsAscending(rows, idOf)
    ensures IsNumeral(NextId(rows, idOf))
    ensures forall i :: 0 <= i < |rows| ==> IdValue(idOf(rows[i])) < IdValue(NextId(rows, idOf))
  {
    NextIdOfNumerals(rows, idOf);
    var n := if |rows| == 0 then 0 else IdValue(idOf(rows[|rows| - 1]));
    assert n >= 0;
    ParseShow(n + 1);
  }

  /** Adding a record stamped with `NextId` keeps the ids ascending. */
  lemma AddKeepsAscending<R>(rows: seq<R>, idOf: R -> string, x: R)
    requires IdsAscending(rows, idOf)
    requires idOf(x) == NextId(rows, idOf)
    ensures IdsAscending(rows + [x], idOf)
  {
    NextIdFresh(rows, idOf);
  }

  /** Removing records keeps the ids ascending. */
  lemma {:induction false} FilterKeepsAscending<R(!new)>(rows: seq<R>, idOf: R -> string, p: R -> bool)
    requires IdsAscending(rows, idOf)
    ensures IdsAscending(Filter(rows, p), idOf)
    decreases |rows|
  {
    if |rows| > 0 {
      var pre, x := rows[..|rows| - 1], rows[|rows| - 1];
      FilterKeepsAscending(pre, idOf, p);
      if p(x) {
        var f := Filter(pre, p);
        forall i | 0 <= i < |f|
          ensures IdValue(idOf(f[i])) < IdValue(idOf(x))
        {
          assert f[i] in pre;
          var k :| 0 <= k < |pre| && pre[k] == f[i];
        }
      }
    }
  }

  /** Deleting keeps the ids ascending. */
  lemma DeleteKeepsAscending<R(!new)>(rows: seq<R>, idOf: R -> string, id: string)
    requires IdsAscending(rows, idOf)
    ensures IdsAscending(Delete(rows, idOf, id), idOf)
  {
    FilterKeepsAscending(rows, idOf, x => idOf(x) != id);
  }

  /** Editing keeps every id in place, and with it the invariant, when `merge` keeps the id. */
  lemma EditKeepsAscending<R, F>(rows: seq<R>, idOf: R -> string, id: Option<string>, merge: (R, F) -> R, form: F)
    requires IdsAscending(rows, idOf)
    requires forall r :: id == Some(idOf(r)) ==> idOf(merge(r, form)) == idOf(r)
    ensures forall i :: 0 <= i < |rows| ==> idOf(Edit(rows, idOf, id, merge, form)[i]) == idOf(rows[i])
    ensures IdsAscending(Edit(rows, idOf, id, merge, form), idOf)
  {
  }

  // ---------------------------------------------------------------------------------------
  // The page state

  /** The state one asset page keeps with `useState`, and its event handlers. */
  class AssetTable<R(!new), F(!new)> {
    var rows: seq<R>          // the records
    var searchTerm: string    // the search box
    var current: F            // the record being edited or created (the form)
    var isEditing: bool
    var isDialogOpen: bool
    const ops: RecordOps<R, F>

    /** The page as first rendered: the initial records, an empty search box, the dialog closed. */
    constructor(initial: seq<R>, ops: RecordOps<R, F>)
      ensures this.ops == ops
      ensures rows == initial && searchTerm == "" && current == ops.emptyForm
      ensures !isEditing && !isDialogOpen
    {
      this.ops := ops;
      rows := initial;
      searchTerm := "";
      current := ops.emptyForm;
      isEditing := false;
      isDialogOpen := false;
    }

    /** The records the table and the record count show. */
    function Filtered(): (r: seq<R>)
      reads this
      ensures forall x :: x in r <==> x in rows && Matches(ops.searchFields(x), searchTerm)
    {
      Search(rows, ops.searchFields, searchTerm)
    }

    /** Typing in the search box. */
    method SetSearchTerm(term: string)
      modifies this
      ensures searchTerm == term
      ensures rows == old(rows) && current == old(current)
      ensures isEditing == old(isEditing) && isDialogOpen == old(isDialogOpen)
    {
      searchTerm := term;
    }

    /** A change in one of the dialog's inputs or selects (`setCurrentX({ ...currentX, field: value })`). */
    method SetForm(form: F)
      modifies this
      ensures current == form
      ensures rows == old(rows) && searchTerm == old(searchTerm)
      ensures isEditing == old(isEditing) && isDialogOpen == old(isDialogOpen)
    {
      current := form;
    }

    /** The dialog's `onOpenChange`. */
    method SetDialogOpen(open: bool)
      modifies this
      ensures isDialogOpen == open
      ensures rows == old(rows) && searchTerm == old(searchTerm)
      ensures current == old(current) && isEditing == old(isEditing)
    {
      isDialogOpen := open;
    }

    /** `handleEdit(record)`: load the record into the form and open the dialog in edit mode. */
    method HandleEdit(record: R)
      modifies this
      ensures current == ops.toForm(record) && isEditing && isDialogOpen
      ensures rows == old(rows) && searchTerm == old(searchTerm)
    {
      current := ops.toForm(record);
      isEditing := true;
      isDialogOpen := true;
    }

    /** The add button of the vehicles page: an empty form in add mode. */
    method OpenForAdd()
      modifies this
      ensures current == ops.emptyForm && !isEditing && isDialogOpen
      ensures rows == old(rows) && searchTerm == old(searchTerm)
    {
      current := ops.emptyForm;
      isEditing := false;
      isDialogOpen := true;
    }

    /**
     * `handleSubmit`: in edit mode the record with the form's id takes the form's fields, and
     * otherwise a new record with the next id is appended; then the dialog closes and the form
     * is cleared. The ids stay ascending.
     */
    method HandleSubmit(today: Today)
      modifies this
      ensures old(isEditing) ==> rows == Edit(old(rows), ops.idOf, ops.formId(old(current)), ops.merge, old(current))
      ensures !old(isEditing) ==> rows == old(rows) + [ops.build(NextId(old(rows), ops.idOf), old(current), today)]
      ensures KeepsIds(ops) && old(IdsAscending(rows, ops.idOf)) ==> IdsAscending(rows, ops.idOf)
      ensures !isDialogOpen && !isEditing && current == ops.emptyForm
      ensures searchTerm == old(searchTerm)
    {
      var form := current;
      if isEditing {
        if KeepsIds(ops) && IdsAscending(rows, ops.idOf) {
          EditKeepsAscending(rows, ops.idOf, ops.formId(form), ops.merge, form);
        }
        rows := Edit(rows, ops.idOf, ops.formId(form), ops.merge, form);
      } else {
        var x := ops.build(NextId(rows, ops.idOf), form, today);
        if KeepsIds(ops) && IdsAscending(rows, ops.idOf) {
          AddKeepsAscending(rows, ops.idOf, x);
        }
        rows := rows + [x];
      }
      isDialogOpen := false;
      current := ops.emptyForm;
      isEditing := false;
    }

    /** `handleDelete(id)`: every record with that id leaves the list. The ids stay ascending. */
    method HandleDelete(id: string)
      modifies this
      ensures rows == Delete(old(rows), ops.idOf, id)
      ensures old(IdsAscending(rows, ops.idOf)) ==> IdsAscending(rows, ops.idOf)
      ensures searchTerm == old(searchTerm) && current == old(current)
      ensures isEditing == old(isEditing) && isDialogOpen == old(isDialogOpen)
    {
      if IdsAscending(rows, ops.idOf) {
        DeleteKeepsAscending(rows, ops.idOf, id);
      }
      rows := Delete(rows, ops.idOf, id);
    }
  }
}
