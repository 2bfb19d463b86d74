/**
 * The closed data model of lib/types.ts: DynamoDB attribute types, key
 * types, the operations the validator accepts, log entries with their type
 * guards, schemas, and the request record the proxy builds.
 */
module Types {
  import opened Wrappers

  /** The ten DynamoDB attribute type tags. */
  datatype DynamoDBType = S | N | B | BOOL | L | M | SS | NS | BS | NULL

  predicate IsKeyType(t: DynamoDBType)
  {
    t == S || t == N || t == B
  }

  /** Only string, number and binary attributes may serve as keys. */
  type KeyType = t: DynamoDBType | IsKeyType(t) witness S

  /** Names a key type can take, and those it cannot. */
  lemma KeyTypesAreScalar(t: DynamoDBType)
    ensures IsKeyType(t) <==> t in {S, N, B}
    ensures t in {BOOL, NULL, SS, NS, BS, L, M} ==> !IsKeyType(t)
  {
  }

  /** The members of `DynamoOperationEnum`. */
  datatype DynamoOperation = PutItem | GetItem | QueryItem | UpdateItem | DeleteItem

  /** The operations a log entry may record (`OperationType`). */
  predicate IsLoggedOperation(op: DynamoOperation)
  {
    op == PutItem || op == UpdateItem || op == DeleteItem
  }

  type OperationType = op: DynamoOperation | IsLoggedOperation(op) witness PutItem

  function OperationName(op: DynamoOperation): string
  {
    match op
    case PutItem => "PutItem"
    case GetItem => "GetItem"
    case QueryItem => "QueryItem"
    case UpdateItem => "UpdateItem"
    case DeleteItem => "DeleteItem"
  }

  const OperationNames: set<string> := {"PutItem", "GetItem", "QueryItem", "UpdateItem", "DeleteItem"}

  /**
   * `DynamoOperationEnum.safeParse(token)`: succeeds exactly on one of the
   * five names, compared case-sensitively; an absent token never parses.
   */
  function ParseOperation(token: Option<string>): (r: Option<DynamoOperation>)
    ensures r.Some? <==> token.Some? && token.value in OperationNames
    ensures r.Some? ==> OperationName(r.value) == token.value
  {
    match token
    case None => None
    case Some(t) =>
      if t == "PutItem" then Some(PutItem)
      else if t == "GetItem" then Some(GetItem)
      else if t == "QueryItem" then Some(QueryItem)
      else if t == "UpdateItem" then Some(UpdateItem)
      else if t == "DeleteItem" then Some(DeleteItem)
      else None
  }

  /** Parsing an operation's own name gives that operation back. */
  lemma ParseOperationName(op: DynamoOperation)
    ensures ParseOperation(Some(OperationName(op))) == Some(op)
  {
  }

  /** The enum has exactly five distinct names, and the logged operations are a strict part of it. */
  lemma OperationSets()
    ensures |OperationNames| == 5
    ensures forall op: DynamoOperation :: OperationName(op) in OperationNames
    ensures forall op: OperationType :: ParseOperation(Some(OperationName(op))).Some?
    ensures !IsLoggedOperation(GetItem) && !IsLoggedOperation(QueryItem)
    ensures "Query" !in OperationNames && "Scan" !in OperationNames
  {
    assert "PutItem"[0] != "GetItem"[0];
    assert "QueryItem"[0] != "UpdateItem"[0];
  }

  datatype LogStatus = Success | Error

  /**
   * A value a DynamoDB attribute carries once its type tag is unwrapped
   * (`DynamoAttributeValue`). A JavaScript number is a double; it is kept
   * here as a real.
   */
  datatype DynamoAttributeValue =
    | StringValue(s: string)
    | NumberValue(n: real)
    | BinaryValue(bytes: seq<bv8>)
    | BoolValue(b: bool)
    | NullValue
    | StringSetValue(strings: set<string>)
    | NumberSetValue(numbers: set<real>)
    | BinarySetValue(blobs: set<seq<bv8>>)
    | ListValue(items: seq<DynamoAttributeValue>)
    | MapValue(fields: map<string, DynamoAttributeValue>)

  /** `Record<string, unknown>` as it occurs in log entries. */
  type Record = map<string, DynamoAttributeValue>

  datatype ValidationError = ValidationError(
    attributeName: string,
    expectedType: string,
    receivedType: string,
    receivedValue: DynamoAttributeValue,
    message: string)

  /**
   * A log entry is either a success, carrying the written data, or an
   * error, carrying the validation errors and the data that was attempted.
   * The timestamp is milliseconds since the epoch.
   */
  datatype LogEntry =
    | SuccessLogEntry(id: string, timestamp: int, tableName: string, operation: OperationType,
                      data: Record)
    | ErrorLogEntry(id: string, timestamp: int, tableName: string, operation: OperationType,
                    errors: seq<ValidationError>, attemptedData: Record)
  {
    /** The `status` discriminant of the union. */
    function Status(): (st: LogStatus)
      ensures st == Success <==> this.SuccessLogEntry?
      ensures st == Error <==> this.ErrorLogEntry?
    {
      match this
      case SuccessLogEntry(_, _, _, _, _) => Success
      case ErrorLogEntry(_, _, _, _, _, _) => Error
    }
  }

  /** `isSuccessLogEntry`: narrows to the success variant. */
  predicate IsSuccessLogEntry(entry: LogEntry): (b: bool)
    ensures b <==> entry.SuccessLogEntry?
  {
    entry.Status() == Success
  }

  /** `isErrorLogEntry`: narrows to the error variant. */
  predicate IsErrorLogEntry(entry: LogEntry): (b: bool)
    ensures b <==> entry.ErrorLogEntry?
  {
    entry.Status() == Error
  }

  /** Each guard narrows correctly, and exactly one of the two holds of every entry. */
  lemma GuardsPartition(entry: LogEntry)
    ensures IsSuccessLogEntry(entry) <==> entry.SuccessLogEntry?
    ensures IsErrorLogEntry(entry) <==> entry.ErrorLogEntry?
    ensures IsSuccessLogEntry(entry) != IsErrorLogEntry(entry)
  {
  }

  datatype SchemaAttribute = SchemaAttribute(name: string, attrType: DynamoDBType, required: bool)

  datatype KeyDefinition = KeyDefinition(name: string, keyType: KeyType)

  datatype TableSchema = TableSchema(
    id: string,
    tableName: string,
    partitionKey: KeyDefinition,
    sortKey: Option<KeyDefinition>,
    attributes: seq<SchemaAttribute>)

  /** `DynamoRequestBody`: the table name and the item, each attribute a type-tag record. */
  datatype DynamoRequestBody = DynamoRequestBody(
    tableName: string,
    item: map<string, map<DynamoDBType, DynamoAttributeValue>>)

  /** `DynamoHeaderData`: the three headers the proxy copies. */
  datatype DynamoHeaderData = DynamoHeaderData(contentLength: string, amzTarget: string, amzDate: string)

  datatype DynamoRequestData = DynamoRequestData(
    operation: DynamoOperation,
    body: DynamoRequestBody,
    headers: DynamoHeaderData)
}
