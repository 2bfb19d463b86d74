/**
 * The form state of components/schemas/SchemaEditor.tsx: the edited table
 * name, key definitions and attribute list, the edits the form applies to
 * the attribute list, and the schema it assembles on submit.
 */
module Editor {
  import opened Wrappers
  import opened Types
  import opened JsString

  /** `keyTypeOptions`: the key types the form offers, with their labels. */
  const KeyTypeOptions: seq<(KeyType, string)> := [(S, "String (S)"), (N, "Number (N)"), (B, "Binary (B)")]

  /** The form offers exactly the three key types, each once. */
  lemma KeyTypeOptionsAreKeyTypes()
    ensures forall t: DynamoDBType :: (exists k :: 0 <= k < |KeyTypeOptions| && KeyTypeOptions[k].0 == t) <==> IsKeyType(t)
    ensures forall j, k :: 0 <= j < k < |KeyTypeOptions| ==> KeyTypeOptions[j].0 != KeyTypeOptions[k].0
  {
    forall t: DynamoDBType | IsKeyType(t)
      ensures exists k :: 0 <= k < |KeyTypeOptions| && KeyTypeOptions[k].0 == t
    {
      if t == S { assert KeyTypeOptions[0].0 == t; }
      else if t == N { assert KeyTypeOptions[1].0 == t; }
      else { assert KeyTypeOptions[2].0 == t; }
    }
  }

  /** The row `addAttribute` appends. */
  const DefaultAttribute := SchemaAttribute("", S, false)

  /** `Partial<SchemaAttribute>`: the fields an update overwrites. */
  datatype AttributePatch = AttributePatch(name: Option<string>, attrType: Option<DynamoDBType>, required: Option<bool>)

  /** `{ ...attr, ...updates }`: each field the patch names wins, every other field is kept. */
  function ApplyPatch(attr: SchemaAttribute, patch: AttributePatch): (r: SchemaAttribute)
    ensures r.name == if patch.name.Some? then patch.name.value else attr.name
    ensures r.attrType == if patch.attrType.Some? then patch.attrType.value else attr.attrType
    ensures r.required == if patch.required.Some? then patch.required.value else attr.required
    ensures patch == AttributePatch(None, None, None) ==> r == attr
  {
    SchemaAttribute(patch.name.GetOr(attr.name), patch.attrType.GetOr(attr.attrType), patch.required.GetOr(attr.required))
  }

  /** Two patches in a row act as one in which the later fields win. */
  function MergePatches(first: AttributePatch, second: AttributePatch): AttributePatch
  {
    AttributePatch(
      if second.name.Some? then second.name else first.name,
      if second.attrType.Some? then second.attrType else first.attrType,
      if second.required.Some? then second.required else first.required)
  }

  /** `attributes.map((attr, i) => i === index ? { ...attr, ...updates } : attr)`. */
  function PatchAt(attributes: seq<SchemaAttribute>, index: int, patch: AttributePatch): (r: seq<SchemaAttribute>)
    ensures 0 <= index < |attributes| ==> r == attributes[index := ApplyPatch(attributes[index], patch)]
    ensures !(0 <= index < |attributes|) ==> r == attributes
  {
    if |attributes| == 0 then []
    else [if index == 0 then ApplyPatch(attributes[0], patch) else attributes[0]]
         + PatchAt(attributes[1..], index - 1, patch)
  }

  /** `attributes.filter((_, i) => i !== index)`. */
  function RemoveAt(attributes: seq<SchemaAttribute>, index: int): (r: seq<SchemaAttribute>)
    ensures 0 <= index < |attributes| ==> r == attributes[..index] + attributes[index + 1..]
    ensures !(0 <= index < |attributes|) ==> r == attributes
  {
    if |attributes| == 0 then []
    else (if index == 0 then [] else [attributes[0]]) + RemoveAt(attributes[1..], index - 1)
  }

  /** `attr.name.trim() !== ""`: an attribute with an empty name never counts as named. */
  predicate IsNamed(attr: SchemaAttribute): (b: bool)
    ensures b ==> attr.name != ""
  {
    Trim(attr.name) != ""
  }

  /** An attribute counts as named exactly when its name is not all white space. */
  lemma IsNamedIff(attr: SchemaAttribute)
    ensures IsNamed(attr) <==> !AllWhiteSpace(attr.name)
  {
    TrimEmpty(attr.name);
  }

  /** `attributes.filter(attr => attr.name.trim() !== "")`: the attributes a submitted schema keeps. */
  function NamedAttributes(attributes: seq<SchemaAttribute>): (r: seq<SchemaAttribute>)
    ensures |r| <= |attributes|
    ensures forall a :: a in r ==> a in attributes && IsNamed(a)
    ensures forall a :: a in attributes && IsNamed(a) ==> a in r
  {
    if |attributes| == 0 then []
    else (if IsNamed(attributes[0]) then [attributes[0]] else []) + NamedAttributes(attributes[1..])
  }

  /** A patch changes only the fields it names, and only at its index. */
  lemma PatchFields(attributes: seq<SchemaAttribute>, index: int, patch: AttributePatch)
    requires 0 <= index < |attributes|
    ensures var r := PatchAt(attributes, index, patch);
      && |r| == |attributes|
      && (patch.name.None? ==> r[index].name == attributes[index].name)
      && (patch.name.Some? ==> r[index].name == patch.name.value)
      && (patch.attrType.None? ==> r[index].attrType == attributes[index].attrType)
      && (patch.attrType.Some? ==> r[index].attrType == patch.attrType.value)
      && (patch.required.None? ==> r[index].required == attributes[index].required)
      && (patch.required.Some? ==> r[index].required == patch.required.value)
      && forall j :: 0 <= j < |r| && j != index ==> r[j] == attributes[j]
  {
  }

  /** Patching the same row twice is patching it once with the merged patch. */
  lemma {:induction false} PatchTwice(attributes: seq<SchemaAttribute>, index: int, first: AttributePatch, second: AttributePatch)
    ensures PatchAt(PatchAt(attributes, index, first), index, second)
         == PatchAt(attributes, index, MergePatches(first, second))
  {
    if 0 <= index < |attributes| {
      var once := PatchAt(attributes, index, first);
      assert once[index] == ApplyPatch(attributes[index], first);
      assert ApplyPatch(once[index], second) == ApplyPatch(attributes[index], MergePatches(first, second));
    }
  }

  /** Removing the row just added restores the list. */
  lemma RemoveAddedAttribute(attributes: seq<SchemaAttribute>)
    ensures RemoveAt(attributes + [DefaultAttribute], |attributes|) == attributes
  {
    assert (attributes + [DefaultAttribute])[..|attributes|] == attributes;
  }

  /** A non-empty list is its head in front of its tail, also when more follows. */
  lemma ConsSplit<T>(a: seq<T>, b: seq<T>)
    requires |a| > 0
    ensures a == [a[0]] + a[1..]
    ensures a + b == [a[0]] + (a[1..] + b)
  {
  }

  lemma AppendAssoc<T>(x: seq<T>, y: seq<T>, z: seq<T>)
    ensures x + (y + z) == (x + y) + z
  {
  }

  /** The filter's first step: a row in front is kept exactly when it is named. */
  lemma NamedAttributesCons(attr: SchemaAttribute, rest: seq<SchemaAttribute>)
    ensures NamedAttributes([attr] + rest) == (if IsNamed(attr) then [attr] else []) + NamedAttributes(rest)
  {
    assert ([attr] + rest)[1..] == rest;
  }

  /** Dropping blank names distributes over concatenation, so the kept rows stay in order. */
  lemma {:induction false} NamedAttributesConcat(a: seq<SchemaAttribute>, b: seq<SchemaAttribute>)
    ensures NamedAttributes(a + b) == NamedAttributes(a) + NamedAttributes(b)
    decreases |a|
  {
    if |a| == 0 {
      assert a + b == b;
      assert NamedAttributes(a) == [];
    } else {
      ConsSplit(a, b);
      NamedAttributesCons(a[0], a[1..]);
      NamedAttributesCons(a[0], a[1..] + b);
      NamedAttributesConcat(a[1..], b);
      AppendAssoc(if IsNamed(a[0]) then [a[0]] else [], NamedAttributes(a[1..]), NamedAttributes(b));
    }
  }

  /** A list without blank names is kept whole. */
  lemma {:induction false} NamedAttributesKeepsNamed(attributes: seq<SchemaAttribute>)
    requires forall k :: 0 <= k < |attributes| ==> !AllWhiteSpace(attributes[k].name)
    ensures NamedAttributes(attributes) == attributes
    decreases |attributes|
  {
    if |attributes| > 0 {
      IsNamedIff(attributes[0]);
      NamedAttributesKeepsNamed(attributes[1..]);
    }
  }

  /** The form's fields, as one value. */
  datatype EditorState = EditorState(
    tableName: string,
    partitionKeyName: string,
    partitionKeyType: KeyType,
    hasSortKey: bool,
    sortKeyName: string,
    sortKeyType: KeyType,
    attributes: seq<SchemaAttribute>)

  /** The fields the form starts from: copied from the schema, or empty defaults. */
  function InitialState(schema: Option<TableSchema>): (st: EditorState)
    ensures schema.None? ==> st == EditorState("", "", S, false, "", S, [])
    ensures schema.Some? ==>
      && st.tableName == schema.value.tableName
      && st.partitionKeyName == schema.value.partitionKey.name
      && st.partitionKeyType == schema.value.partitionKey.keyType
      && (st.hasSortKey <==> schema.value.sortKey.Some?)
      && st.attributes == schema.value.attributes
    ensures schema.Some? && schema.value.sortKey.Some? ==>
      st.sortKeyName == schema.value.sortKey.value.name && st.sortKeyType == schema.value.sortKey.value.keyType
    ensures schema.Some? && schema.value.sortKey.None? ==> st.sortKeyName == "" && st.sortKeyType == S
  {
    match schema
    case None => EditorState("", "", S, false, "", S, [])
    case Some(s) =>
      EditorState(
        s.tableName, s.partitionKey.name, s.partitionKey.keyType,
        s.sortKey.Some?,
        if s.sortKey.Some? then s.sortKey.value.name else "",
        if s.sortKey.Some? then s.sortKey.value.keyType else S,
        s.attributes)
  }

  /**
   * The id a submitted schema gets: the edited schema's own, unless there is
   * none or it is the empty string, in which case the freshly generated one.
   */
  function SubmitId(schema: Option<TableSchema>, freshId: string): (id: string)
    ensures schema.Some? && schema.value.id != "" ==> id == schema.value.id
    ensures schema.None? || schema.value.id == "" ==> id == freshId
    ensures id == "" ==> freshId == ""
  {
    if schema.Some? && schema.value.id != "" then schema.value.id else freshId
  }

  /** The schema `handleSubmit` assembles from the form's fields. */
  function Assemble(st: EditorState, schema: Option<TableSchema>, freshId: string): (r: TableSchema)
    ensures r.tableName == st.tableName
    ensures r.partitionKey == KeyDefinition(st.partitionKeyName, st.partitionKeyType)
    ensures r.sortKey.Some? <==> st.hasSortKey
    ensures r.sortKey.Some? ==> r.sortKey.value == KeyDefinition(st.sortKeyName, st.sortKeyType)
    ensures forall a :: a in r.attributes <==> a in st.attributes && IsNamed(a)
    ensures r.attributes == NamedAttributes(st.attributes)
    ensures schema.Some? && schema.value.id != "" ==> r.id == schema.value.id
    ensures schema.None? || schema.value.id == "" ==> r.id == freshId
  {
    TableSchema(
      SubmitId(schema, freshId),
      st.tableName,
      KeyDefinition(st.partitionKeyName, st.partitionKeyType),
      if st.hasSortKey then Some(KeyDefinition(st.sortKeyName, st.sortKeyType)) else None,
      NamedAttributes(st.attributes))
  }

  /**
   * Opening an existing schema and submitting it untouched gives the same
   * schema back, provided it has an id and no blank attribute names.
   */
  lemma SubmitUnchanged(schema: TableSchema, freshId: string)
    requires schema.id != ""
    requires forall k :: 0 <= k < |schema.attributes| ==> !AllWhiteSpace(schema.attributes[k].name)
    ensures Assemble(InitialState(Some(schema)), Some(schema), freshId) == schema
  {
    NamedAttributesKeepsNamed(schema.attributes);
  }

  /** A new schema submitted untouched has the fresh id and empty defaults. */
  lemma SubmitNewUntouched(freshId: string)
    ensures Assemble(InitialState(None), None, freshId) == TableSchema(freshId, "", KeyDefinition("", S), None, [])
  {
  }

  class SchemaEditor {
    /** The schema being edited; none when creating a new one. */
    const schema: Option<TableSchema>
    var tableName: string
    var partitionKeyName: string
    var partitionKeyType: KeyType
    var hasSortKey: bool
    var sortKeyName: string
    var sortKeyType: KeyType
    var attributes: seq<SchemaAttribute>

    function State(): EditorState
      reads this
    {
      EditorState(tableName, partitionKeyName, partitionKeyType, hasSortKey, sortKeyName, sortKeyType, attributes)
    }

    constructor (schema: Option<TableSchema>)
      ensures this.schema == schema
      ensures State() == InitialState(schema)
    {
      this.schema := schema;
      var st := InitialState(schema);
      tableName := st.tableName;
      partitionKeyName := st.partitionKeyName;
      partitionKeyType := st.partitionKeyType;
      hasSortKey := st.hasSortKey;
      sortKeyName := st.sortKeyName;
      sortKeyType := st.sortKeyType;
      attributes := st.attributes;
    }

    method AddAttribute()
      modifies this
      ensures State() == old(State()).(attributes := old(attributes) + [DefaultAttribute])
    {
      attributes := attributes + [DefaultAttribute];
    }

    method UpdateAttribute(index: int, updates: AttributePatch)
      modifies this
      ensures State() == old(State()).(attributes := PatchAt(old(attributes), index, updates))
      ensures |attributes| == |old(attributes)|
    {
      attributes := PatchAt(attributes, index, updates);
    }

    method RemoveAttribute(index: int)
      modifies this
      ensures State() == old(State()).(attributes := RemoveAt(old(attributes), index))
      ensures 0 <= index < |old(attributes)| ==> |attributes| == |old(attributes)| - 1
    {
      attributes := RemoveAt(attributes, index);
    }

    method SetTableName(value: string)
      modifies this
      ensures State() == old(State()).(tableName := value)
    {
      tableName := value;
    }

    method SetPartitionKeyName(value: string)
      modifies this
      ensures State() == old(State()).(partitionKeyName := value)
    {
      partitionKeyName := value;
    }

    method SetPartitionKeyType(value: KeyType)
      modifies this
      ensures State() == old(State()).(partitionKeyType := value)
    {
      partitionKeyType := value;
    }

    method SetHasSortKey(value: bool)
      modifies this
      ensures State() == old(State()).(hasSortKey := value)
    {
      hasSortKey := value;
    }

    method SetSortKeyName(value: string)
      modifies this
      ensures State() == old(State()).(sortKeyName := value)
    {
      sortKeyName := value;
    }

    method SetSortKeyType(value: KeyType)
      modifies this
      ensures State() == old(State()).(sortKeyType := value)
    {
      sortKeyType := value;
    }

    /** The id the delete button passes on: offered only when editing an existing schema. */
    function DeleteTarget(): (id: Option<string>)
      ensures id.Some? <==> schema.Some?
      ensures id.Some? ==> id.value == schema.value.id
    {
      if schema.Some? then Some(schema.value.id) else None
    }

    /** `handleSubmit`: the schema handed to `onSave`; `freshId` stands for `generateId()`. */
    method HandleSubmit(freshId: string) returns (saved: TableSchema)
      ensures saved == Assemble(State(), schema, freshId)
      ensures schema.Some? && schema.value.id != "" ==> saved.id == schema.value.id
      ensures schema.None? || schema.value.id == "" ==> saved.id == freshId
      ensures saved.attributes == NamedAttributes(attributes)
    {
      saved := Assemble(State(), schema, freshId);
    }
  }
}
