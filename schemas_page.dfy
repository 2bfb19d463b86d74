/**
 * The schema registry state of app/schemas/page.tsx: the list of table
 * schemas, the schema selected for editing and whether a new one is being
 * created, with the handlers that change them.
 */
module Schemas {
  import opened Wrappers
  import opened Types

  /** `schemas.findIndex(s => s.id === id)`: the first position with that id, or -1. */
  function FindIndexById(schemas: seq<TableSchema>, id: string): (i: int)
    ensures -1 <= i < |schemas|
    ensures i >= 0 ==> schemas[i].id == id && forall j :: 0 <= j < i ==> schemas[j].id != id
    ensures i == -1 <==> forall j :: 0 <= j < |schemas| ==> schemas[j].id != id
  {
    if |schemas| == 0 then -1
    else if schemas[0].id == id then 0
    else
      var i := FindIndexById(schemas[1..], id);
      if i == -1 then -1 else i + 1
  }

  /** `schemas.map(s => s.id === schema.id ? schema : s)`. */
  function ReplaceById(schemas: seq<TableSchema>, schema: TableSchema): (r: seq<TableSchema>)
    ensures |r| == |schemas|
    ensures forall i :: 0 <= i < |r| ==> r[i] == if schemas[i].id == schema.id then schema else schemas[i]
  {
    if |schemas| == 0 then []
    else [if schemas[0].id == schema.id then schema else schemas[0]] + ReplaceById(schemas[1..], schema)
  }

  /** `schemas.filter(s => s.id !== id)`. */
  function RemoveById(schemas: seq<TableSchema>, id: string): (r: seq<TableSchema>)
    ensures |r| <= |schemas|
    ensures forall s :: s in r ==> s in schemas && s.id != id
    ensures forall s :: s in schemas && s.id != id ==> s in r
  {
    if |schemas| == 0 then []
    else (if schemas[0].id != id then [schemas[0]] else []) + RemoveById(schemas[1..], id)
  }

  /** The list `handleSave` leaves: the schema replaces its namesakes, or is appended. */
  function Upsert(schemas: seq<TableSchema>, schema: TableSchema): (r: seq<TableSchema>)
    ensures schema in r
    ensures forall s :: s in r ==> s == schema || s in schemas
    ensures |schemas| <= |r| <= |schemas| + 1
  {
    if FindIndexById(schemas, schema.id) >= 0 then ReplaceById(schemas, schema) else schemas + [schema]
  }

  predicate HasId(schemas: seq<TableSchema>, id: string)
  {
    exists i :: 0 <= i < |schemas| && schemas[i].id == id
  }

  /** No two schemas in the list share an id. */
  predicate DistinctIds(schemas: seq<TableSchema>)
  {
    forall i, j :: 0 <= i < j < |schemas| ==> schemas[i].id != schemas[j].id
  }

  /**
   * Saving a schema whose id is listed replaces every entry with that id and
   * leaves the length and every other entry where it was.
   */
  lemma UpsertExisting(schemas: seq<TableSchema>, schema: TableSchema)
    requires HasId(schemas, schema.id)
    ensures |Upsert(schemas, schema)| == |schemas|
    ensures forall i :: 0 <= i < |schemas| ==>
      Upsert(schemas, schema)[i] == if schemas[i].id == schema.id then schema else schemas[i]
  {
  }

  /** Saving a schema with a new id appends it, keeping the old list as a prefix. */
  lemma UpsertNew(schemas: seq<TableSchema>, schema: TableSchema)
    requires !HasId(schemas, schema.id)
    ensures Upsert(schemas, schema) == schemas + [schema]
    ensures |Upsert(schemas, schema)| == |schemas| + 1
  {
  }

  /** After a save the schema is listed, and saving it again changes nothing. */
  lemma UpsertStores(schemas: seq<TableSchema>, schema: TableSchema)
    ensures schema in Upsert(schemas, schema)
    ensures Upsert(Upsert(schemas, schema), schema) == Upsert(schemas, schema)
  {
    var r := Upsert(schemas, schema);
    if FindIndexById(schemas, schema.id) >= 0 {
      var i := FindIndexById(schemas, schema.id);
      assert r[i] == schema;
    } else {
      assert r[|schemas|] == schema;
    }
    assert r[FindIndexById(r, schema.id)].id == schema.id;
    var rr := ReplaceById(r, schema);
    assert rr == r by {
      forall i | 0 <= i < |r|
        ensures rr[i] == r[i]
      {
      }
    }
  }

  /** Saving keeps ids distinct when they were. */
  lemma UpsertKeepsDistinctIds(schemas: seq<TableSchema>, schema: TableSchema)
    requires DistinctIds(schemas)
    ensures DistinctIds(Upsert(schemas, schema))
  {
    var r := Upsert(schemas, schema);
    if FindIndexById(schemas, schema.id) >= 0 {
      forall i, j | 0 <= i < j < |r|
        ensures r[i].id != r[j].id
      {
        assert r[i].id == schemas[i].id && r[j].id == schemas[j].id;
      }
    }
  }

  /** Filtering distributes over concatenation, so the survivors keep their relative order. */
  lemma {:induction false} RemoveByIdConcat(a: seq<TableSchema>, b: seq<TableSchema>, id: string)
    ensures RemoveById(a + b, id) == RemoveById(a, id) + RemoveById(b, id)
    decreases |a|
  {
    if |a| == 0 {
      assert a + b == b;
    } else {
      assert (a + b)[1..] == a[1..] + b;
      RemoveByIdConcat(a[1..], b, id);
    }
  }

  /** Deleting an id nobody has changes nothing. */
  lemma {:induction false} RemoveAbsent(schemas: seq<TableSchema>, id: string)
    requires !HasId(schemas, id)
    ensures RemoveById(schemas, id) == schemas
    decreases |schemas|
  {
    if |schemas| > 0 {
      assert !HasId(schemas[1..], id) by {
        forall i | 0 <= i < |schemas[1..]|
          ensures schemas[1..][i].id != id
        {
          assert schemas[1..][i] == schemas[i + 1];
        }
      }
      RemoveAbsent(schemas[1..], id);
    }
  }

  /** Deleting twice has the same effect as deleting once. */
  lemma RemoveIdempotent(schemas: seq<TableSchema>, id: string)
    ensures RemoveById(RemoveById(schemas, id), id) == RemoveById(schemas, id)
  {
    var r := RemoveById(schemas, id);
    assert !HasId(r, id) by {
      forall i | 0 <= i < |r|
        ensures r[i].id != id
      {
        assert r[i] in r;
      }
    }
    RemoveAbsent(r, id);
  }

  /** Exactly the entries without the id survive, and their count is the number without it. */
  lemma {:induction false} RemoveCount(schemas: seq<TableSchema>, id: string)
    ensures |RemoveById(schemas, id)| == |schemas| - CountId(schemas, id)
    decreases |schemas|
  {
    if |schemas| > 0 {
      RemoveCount(schemas[1..], id);
    }
  }

  function CountId(schemas: seq<TableSchema>, id: string): nat
  {
    if |schemas| == 0 then 0
    else (if schemas[0].id == id then 1 else 0) + CountId(schemas[1..], id)
  }

  /** Deleting what was just saved is the same as deleting from the list before the save. */
  lemma {:induction false} DeleteAfterSave(schemas: seq<TableSchema>, schema: TableSchema)
    ensures RemoveById(Upsert(schemas, schema), schema.id) == RemoveById(schemas, schema.id)
  {
    if FindIndexById(schemas, schema.id) >= 0 {
      ReplaceThenRemove(schemas, schema);
    } else {
      RemoveByIdConcat(schemas, [schema], schema.id);
      assert RemoveById([schema], schema.id) == [];
    }
  }

  lemma {:induction false} ReplaceThenRemove(schemas: seq<TableSchema>, schema: TableSchema)
    ensures RemoveById(ReplaceById(schemas, schema), schema.id) == RemoveById(schemas, schema.id)
    decreases |schemas|
  {
    if |schemas| > 0 {
      ReplaceThenRemove(schemas[1..], schema);
    }
  }

  /** What the page hands the editor: a remount key and the schema to edit (none when creating). */
  datatype EditorProps = EditorProps(key: string, schema: Option<TableSchema>)

  /** `selectedSchema?.id || "new"`: the selected schema's id, unless there is none or it is empty. */
  function EditorKey(selected: Option<TableSchema>): (key: string)
    ensures selected.Some? && selected.value.id != "" ==> key == selected.value.id
    ensures selected.None? || selected.value.id == "" ==> key == "new"
  {
    if selected.Some? && selected.value.id != "" then selected.value.id else "new"
  }

  class SchemasPage {
    var schemas: seq<TableSchema>
    var selectedSchema: Option<TableSchema>
    var isCreating: bool

    /** The page starts from a given list with nothing selected. */
    constructor (initial: seq<TableSchema>)
      ensures schemas == initial && selectedSchema == None && !isCreating
    {
      schemas := initial;
      selectedSchema := None;
      isCreating := false;
    }

    method HandleSelect(schema: TableSchema)
      modifies this
      ensures selectedSchema == Some(schema) && !isCreating
      ensures schemas == old(schemas)
      ensures Editor() == Some(EditorProps(EditorKey(Some(schema)), Some(schema)))
    {
      selectedSchema := Some(schema);
      isCreating := false;
    }

    method HandleCreateNew()
      modifies this
      ensures selectedSchema == None && isCreating
      ensures schemas == old(schemas)
      ensures Editor() == Some(EditorProps("new", None))
    {
      selectedSchema := None;
      isCreating := true;
    }

    method HandleSave(schema: TableSchema)
      modifies this
      ensures schemas == Upsert(old(schemas), schema)
      ensures HasId(old(schemas), schema.id) ==> |schemas| == |old(schemas)|
      ensures !HasId(old(schemas), schema.id) ==> schemas == old(schemas) + [schema]
      ensures selectedSchema == Some(schema) && !isCreating
      ensures Editor() == Some(EditorProps(EditorKey(Some(schema)), Some(schema)))
    {
      var existingIndex := FindIndexById(schemas, schema.id);
      if existingIndex >= 0 {
        schemas := ReplaceById(schemas, schema);
      } else {
        schemas := schemas + [schema];
      }
      selectedSchema := Some(schema);
      isCreating := false;
    }

    method HandleDelete(id: string)
      modifies this
      ensures schemas == RemoveById(old(schemas), id)
      ensures !HasId(schemas, id)
      ensures selectedSchema == None && !isCreating
      ensures Editor() == None
    {
      schemas := RemoveById(schemas, id);
      selectedSchema := None;
      isCreating := false;
      assert !HasId(schemas, id) by {
        forall i | 0 <= i < |schemas|
          ensures schemas[i].id != id
        {
          assert schemas[i] in schemas;
        }
      }
    }

    method HandleCancel()
      modifies this
      ensures selectedSchema == None && !isCreating
      ensures schemas == old(schemas)
      ensures Editor() == None
    {
      selectedSchema := None;
      isCreating := false;
    }

    /**
     * The editor panel: shown exactly when a schema is selected or one is
     * being created; it is keyed by the selected id (or "new") and receives
     * no schema while creating.
     */
    function Editor(): (props: Option<EditorProps>)
      reads this
      ensures props.Some? <==> selectedSchema.Some? || isCreating
      ensures props.Some? && isCreating ==> props.value.schema == None
      ensures props.Some? && !isCreating ==> props.value.schema == selectedSchema
      ensures props.Some? ==> props.value.key == EditorKey(selectedSchema)
    {
      if selectedSchema.Some? || isCreating then
        Some(EditorProps(EditorKey(selectedSchema), if isCreating then None else selectedSchema))
      else None
    }
  }
}
