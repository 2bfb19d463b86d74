/**
 * The request classifier of proxy.ts. A request whose `x-amz-target`
 * names a supported DynamoDB API version and arrives by POST is either
 * rejected as an invalid operation or turned into a `DynamoRequestData`
 * record for the validator; every other request passes through.
 */
module Middleware {
  import opened Wrappers
  import opened Types
  import opened JsString

  /** `VALID_DYNAMO_API_VERSIONS`. */
  const ValidDynamoApiVersions: seq<string> := ["DynamoDB_20120810"]

  const InvalidOperationPrefix: string := "Invalid dynamo operation: "

  /**
   * An incoming request. Header names are the lower-case keys of `headers`;
   * the body is the already-decoded JSON document.
   */
  datatype Request = Request(httpMethod: string, headers: map<string, string>, body: DynamoRequestBody)

  /** What the proxy does with a request. */
  datatype Decision =
    | PassThrough                      // NextResponse.next()
    | InvalidOperation(message: string) // a response with the error text
    | Validate(data: DynamoRequestData) // handed to ValidateDynamoRequest

  /** `request.headers.get(name)`: the value, or none when the header is absent. */
  function Header(req: Request, name: string): (h: Option<string>)
    ensures h.Some? <==> name in req.headers
    ensures h.Some? ==> h.value == req.headers[name]
  {
    if name in req.headers then Some(req.headers[name]) else None
  }

  /** `target.split('.')[0]`: the text before the first dot, or all of it. */
  function ApiVersionToken(target: string): (version: string)
    ensures '.' !in version
    ensures version == target[..IndexOf(target, '.')]
  {
    SplitHead(target, '.');
    Split(target, '.')[0]
  }

  /**
   * `target.split('.')[1]`: the text between the first and second dot; there
   * is none when the target has no dot.
   */
  function OperationToken(target: string): (op: Option<string>)
    ensures op.None? <==> '.' !in target
    ensures op.Some? ==> '.' !in op.value
    ensures op.Some? ==>
      var after := target[IndexOf(target, '.') + 1..];
      op.value == after[..IndexOf(after, '.')]
  {
    var parts := Split(target, '.');
    if |parts| > 1 then
      SplitHead(target, '.');
      SplitHead(target[IndexOf(target, '.') + 1..], '.');
      Some(parts[1])
    else None
  }

  /**
   * The `proxy` handler. `zodError` renders the parse error zod reports for
   * an operation token; the rejection text embeds it after a fixed prefix.
   */
  function Proxy(req: Request, zodError: Option<string> -> string): (d: Decision)
    ensures d.InvalidOperation? ==> InvalidOperationPrefix <= d.message
    ensures !d.PassThrough? ==> IsSupportedCall(req)
    ensures d.Validate? ==>
      && d.data.body == req.body
      && d.data.headers.amzTarget == Header(req, "x-amz-target").value
      && OperationToken(d.data.headers.amzTarget) == Some(OperationName(d.data.operation))
  {
    var target := Header(req, "x-amz-target");
    var operation := if target.Some? then OperationToken(target.value) else None;
    if IsSupportedCall(req) then
      match ParseOperation(operation)
      case None => InvalidOperation(InvalidOperationPrefix + zodError(operation))
      case Some(op) =>
        Validate(DynamoRequestData(
          op,
          req.body,
          DynamoHeaderData(
            Header(req, "content-length").GetOr(""),
            target.value,
            Header(req, "x-amz-date").GetOr(""))))
    else PassThrough
  }

  /** The target starts with `version`, followed by a dot or by nothing. */
  predicate NamesVersion(target: string, version: string)
  {
    version <= target && (|target| == |version| || target[|version|] == '.')
  }

  /** For a dot-free version, `split('.')[0] === version` says the target starts with it. */
  lemma VersionTokenIff(target: string, version: string)
    requires '.' !in version
    ensures ApiVersionToken(target) == version <==> NamesVersion(target, version)
  {
    var i := IndexOf(target, '.');
    if NamesVersion(target, version) {
      assert target[..|version|] == version;
      assert forall k :: 0 <= k < |version| ==> target[k] != '.' by {
        forall k | 0 <= k < |version|
          ensures target[k] != '.'
        {
          assert target[k] == version[k];
        }
      }
    }
  }

  /**
   * The guard of the handler: a non-empty target, POST, and a version token
   * on the allow-list.
   */
  predicate IsSupportedCall(req: Request): (b: bool)
    ensures b <==>
      var target := Header(req, "x-amz-target");
      && target.Some? && req.httpMethod == "POST"
      && exists v :: v in ValidDynamoApiVersions && NamesVersion(target.value, v)
  {
    var target := Header(req, "x-amz-target");
    if target.Some? then
      VersionTokenIff(target.value, ValidDynamoApiVersions[0]);
      target.value != "" && req.httpMethod == "POST" && ApiVersionToken(target.value) in ValidDynamoApiVersions
    else false
  }

  /**
   * A missing target, a method other than POST or an unsupported version
   * passes the request through whatever the operation is; nothing else does.
   */
  lemma PassThroughExactly(req: Request, zodError: Option<string> -> string)
    ensures Proxy(req, zodError).PassThrough? <==> !IsSupportedCall(req)
  {
  }

  /**
   * For a supported call the operation is accepted exactly when its token is
   * one of the five enum names, and rejected otherwise.
   */
  lemma AcceptedOperations(req: Request, zodError: Option<string> -> string)
    requires IsSupportedCall(req)
    ensures var op := OperationToken(Header(req, "x-amz-target").value);
      && (Proxy(req, zodError).Validate? <==> op.Some? && op.value in OperationNames)
      && (Proxy(req, zodError).InvalidOperation? <==> !(op.Some? && op.value in OperationNames))
  {
  }

  /** The body is read only on the path that builds the request record. */
  lemma BodyReadOnlyWhenValidated(req: Request, other: DynamoRequestBody, zodError: Option<string> -> string)
    ensures !Proxy(req, zodError).Validate? ==> Proxy(req.(body := other), zodError) == Proxy(req, zodError)
  {
  }

  /** The record's length and date headers default to the empty string when absent. */
  lemma RecordHeaders(req: Request, zodError: Option<string> -> string)
    requires Proxy(req, zodError).Validate?
    ensures var h := Proxy(req, zodError).data.headers;
      && (h.contentLength == if "content-length" in req.headers then req.headers["content-length"] else "")
      && (h.amzDate == if "x-amz-date" in req.headers then req.headers["x-amz-date"] else "")
  {
  }

  /** The version token of a target is whatever precedes its first dot. */
  lemma {:induction false} VersionTokenOf(version: string, rest: string)
    requires '.' !in version
    ensures ApiVersionToken(version + "." + rest) == version
  {
    assert version + "." + rest == version + ['.'] + rest;
    SplitAfterPrefix(version, rest, '.');
  }

  /** The operation token sits between the first and second dots; what follows is ignored. */
  lemma {:induction false} OperationTokenOf(version: string, operation: string, tail: string)
    requires '.' !in version && '.' !in operation
    ensures OperationToken(version + "." + operation) == Some(operation)
    ensures OperationToken(version + "." + operation + "." + tail) == Some(operation)
  {
    assert version + "." + operation == version + ['.'] + operation;
    SplitAfterPrefix(version, operation, '.');
    assert Split(operation, '.') == [operation];
    var longer := version + "." + operation + "." + tail;
    assert longer == version + ['.'] + (operation + ['.'] + tail);
    SplitAfterPrefix(version, operation + ['.'] + tail, '.');
    SplitAfterPrefix(operation, tail, '.');
  }

  /** A target with no dot has no operation token, so under a valid version it is rejected. */
  lemma NoDotIsInvalid(req: Request, zodError: Option<string> -> string)
    requires IsSupportedCall(req)
    requires '.' !in Header(req, "x-amz-target").value
    ensures Proxy(req, zodError).InvalidOperation?
  {
  }

  /**
   * How a request is classified, given the two tokens its target splits
   * into: it passes through unless it is a POST under a supported version,
   * and is then accepted exactly when the operation is one of the enum's names.
   */
  lemma ProxyOfTokens(req: Request, version: string, operation: string, zodError: Option<string> -> string)
    requires Header(req, "x-amz-target").Some?
    requires ApiVersionToken(Header(req, "x-amz-target").value) == version
    requires OperationToken(Header(req, "x-amz-target").value) == Some(operation)
    ensures Proxy(req, zodError).PassThrough? <==> !(req.httpMethod == "POST" && version in ValidDynamoApiVersions)
    ensures Proxy(req, zodError).Validate? <==>
      req.httpMethod == "POST" && version in ValidDynamoApiVersions && operation in OperationNames
    ensures Proxy(req, zodError).Validate? ==> OperationName(Proxy(req, zodError).data.operation) == operation
  {
  }

  /**
   * How a request whose target is `<version>.<operation>` is classified:
   * it passes through unless it is a POST under a supported version, and
   * is then accepted exactly when the operation is one of the enum's names.
   */
  lemma {:induction false} ProxyOfTarget(req: Request, version: string, operation: string,
                                         zodError: Option<string> -> string)
    requires '.' !in version && '.' !in operation
    requires Header(req, "x-amz-target") == Some(version + "." + operation)
    ensures Proxy(req, zodError).PassThrough? <==> !(req.httpMethod == "POST" && version in ValidDynamoApiVersions)
    ensures Proxy(req, zodError).Validate? <==>
      req.httpMethod == "POST" && version in ValidDynamoApiVersions && operation in OperationNames
    ensures Proxy(req, zodError).Validate? ==> OperationName(Proxy(req, zodError).data.operation) == operation
  {
    VersionTokenOf(version, operation);
    OperationTokenOf(version, operation, "");
    ProxyOfTokens(req, version, operation, zodError);
  }

  /** A target with segments after a second dot is classified by its first two alone. */
  lemma {:induction false} ProxyOfLongTarget(req: Request, version: string, operation: string, tail: string,
                                             zodError: Option<string> -> string)
    requires '.' !in version && '.' !in operation
    requires Header(req, "x-amz-target") == Some(version + "." + operation + "." + tail)
    ensures Proxy(req, zodError).PassThrough? <==> !(req.httpMethod == "POST" && version in ValidDynamoApiVersions)
    ensures Proxy(req, zodError).Validate? <==>
      req.httpMethod == "POST" && version in ValidDynamoApiVersions && operation in OperationNames
    ensures Proxy(req, zodError).Validate? ==> OperationName(Proxy(req, zodError).data.operation) == operation
  {
    VersionTokenOf(version, operation + "." + tail);
    assert version + "." + (operation + "." + tail) == version + "." + operation + "." + tail;
    OperationTokenOf(version, operation, tail);
    ProxyOfTokens(req, version, operation, zodError);
  }

  /** Whatever follows a second dot does not change how a request is classified. */
  lemma {:induction false} TailIgnored(req: Request, version: string, operation: string, tail: string,
                                       zodError: Option<string> -> string)
    requires '.' !in version && '.' !in operation
    requires Header(req, "x-amz-target") == Some(version + "." + operation)
    ensures var longer := req.(headers := req.headers["x-amz-target" := version + "." + operation + "." + tail]);
      && Proxy(longer, zodError).PassThrough? == Proxy(req, zodError).PassThrough?
      && Proxy(longer, zodError).InvalidOperation? == Proxy(req, zodError).InvalidOperation?
      && (Proxy(longer, zodError).Validate? ==>
            Proxy(longer, zodError).data.operation == Proxy(req, zodError).data.operation)
  {
    var longer := req.(headers := req.headers["x-amz-target" := version + "." + operation + "." + tail]);
    assert Header(longer, "x-amz-target") == Some(version + "." + operation + "." + tail);
    ProxyOfTarget(req, version, operation, zodError);
    ProxyOfLongTarget(longer, version, operation, tail, zodError);
    if Proxy(longer, zodError).Validate? {
      ParseOperationName(Proxy(longer, zodError).data.operation);
      ParseOperationName(Proxy(req, zodError).data.operation);
    }
  }

  /** The target the AWS SDK sends for a Query is rejected, because the enum names `QueryItem`. */
  lemma SdkQueryRejected(req: Request, zodError: Option<string> -> string)
    requires req.httpMethod == "POST"
    requires Header(req, "x-amz-target") == Some("DynamoDB_20120810.Query")
    ensures Proxy(req, zodError).InvalidOperation?
  {
    assert "DynamoDB_20120810.Query" == "DynamoDB_20120810" + "." + "Query";
    ProxyOfTarget(req, "DynamoDB_20120810", "Query", zodError);
    OperationSets();
  }

  /** A Scan is not among the enum's names, so it is rejected under the supported version. */
  lemma ScanRejected(req: Request, zodError: Option<string> -> string)
    requires req.httpMethod == "POST"
    requires Header(req, "x-amz-target") == Some("DynamoDB_20120810.Scan")
    ensures Proxy(req, zodError).InvalidOperation?
  {
    assert "DynamoDB_20120810.Scan" == "DynamoDB_20120810" + "." + "Scan";
    ProxyOfTarget(req, "DynamoDB_20120810", "Scan", zodError);
    OperationSets();
  }

  /** An unknown operation gets a response whose text begins with the invalid-operation prefix. */
  lemma UnknownOperationRejected(req: Request, zodError: Option<string> -> string)
    requires req.httpMethod == "POST"
    requires Header(req, "x-amz-target") == Some("DynamoDB_20120810.InvalidOperation")
    ensures Proxy(req, zodError).InvalidOperation?
    ensures InvalidOperationPrefix <= Proxy(req, zodError).message
  {
    var version, operation := "DynamoDB_20120810", "InvalidOperation";
    assert "DynamoDB_20120810.InvalidOperation" == version + "." + operation;
    assert operation !in OperationNames;
    ProxyOfTarget(req, version, operation, zodError);
  }

  /** A PutItem under the supported version is handed to the validator as a PutItem. */
  lemma PutItemAccepted(req: Request, zodError: Option<string> -> string)
    requires req.httpMethod == "POST"
    requires Header(req, "x-amz-target") == Some("DynamoDB_20120810.PutItem")
    ensures Proxy(req, zodError).Validate?
    ensures Proxy(req, zodError).data.operation == PutItem
    ensures Proxy(req, zodError).data.headers.amzTarget == "DynamoDB_20120810.PutItem"
  {
    assert "DynamoDB_20120810.PutItem" == "DynamoDB_20120810" + "." + "PutItem";
    ProxyOfTarget(req, "DynamoDB_20120810", "PutItem", zodError);
    ParseOperationName(Proxy(req, zodError).data.operation);
  }

  /** An unsupported version passes through even with a valid operation. */
  lemma UnsupportedVersionPassesThrough(req: Request, zodError: Option<string> -> string)
    requires Header(req, "x-amz-target") == Some("DynamoDB_99999999.PutItem")
    ensures Proxy(req, zodError).PassThrough?
  {
    assert "DynamoDB_99999999.PutItem" == "DynamoDB_99999999" + "." + "PutItem";
    ProxyOfTarget(req, "DynamoDB_99999999", "PutItem", zodError);
  }
}
