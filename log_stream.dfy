/**
 * The log list of components/logs/LogStream.tsx: a status filter chosen by
 * three buttons, the entries it lets through, and the per-status counts
 * shown on the buttons.
 */
module Logs {
  import opened Types

  /** `FilterType`: 'all' | 'success' | 'error'. */
  datatype FilterType = All | SuccessOnly | ErrorOnly

  /** The predicate of `filteredLogs`: everything under `all`, else a matching status. */
  predicate Shows(filter: FilterType, entry: LogEntry): (b: bool)
    ensures filter == All ==> b
    ensures filter == SuccessOnly ==> (b <==> IsSuccessLogEntry(entry))
    ensures filter == ErrorOnly ==> (b <==> IsErrorLogEntry(entry))
  {
    match filter
    case All => true
    case SuccessOnly => entry.Status() == Success
    case ErrorOnly => entry.Status() == Error
  }

  /** `logs.filter(log => filter === 'all' || log.status === filter)`. */
  function FilterLogs(logs: seq<LogEntry>, filter: FilterType): (r: seq<LogEntry>)
    ensures |r| <= |logs|
    ensures forall e :: e in r ==> e in logs && Shows(filter, e)
    ensures forall e :: e in logs && Shows(filter, e) ==> e in r
  {
    if |logs| == 0 then []
    else (if Shows(filter, logs[0]) then [logs[0]] else []) + FilterLogs(logs[1..], filter)
  }

  /** `logs.filter(l => l.status === status)`, the list behind each count. */
  function WithStatus(logs: seq<LogEntry>, status: LogStatus): (r: seq<LogEntry>)
    ensures forall e :: e in r <==> e in logs && e.Status() == status
  {
    if |logs| == 0 then []
    else (if logs[0].Status() == status then [logs[0]] else []) + WithStatus(logs[1..], status)
  }

  /** Under `all` the list is shown whole. */
  lemma {:induction false} FilterAllIsIdentity(logs: seq<LogEntry>)
    ensures FilterLogs(logs, All) == logs
    decreases |logs|
  {
    if |logs| > 0 {
      FilterAllIsIdentity(logs[1..]);
    }
  }

  /** Under `success` or `error` exactly the entries with that status are shown, in input order. */
  lemma {:induction false} FilterIsStatusFilter(logs: seq<LogEntry>)
    ensures FilterLogs(logs, SuccessOnly) == WithStatus(logs, Success)
    ensures FilterLogs(logs, ErrorOnly) == WithStatus(logs, Error)
    decreases |logs|
  {
    if |logs| > 0 {
      FilterIsStatusFilter(logs[1..]);
    }
  }

  /** Filtering distributes over concatenation, so relative order is kept. */
  lemma {:induction false} FilterConcat(a: seq<LogEntry>, b: seq<LogEntry>, filter: FilterType)
    ensures FilterLogs(a + b, filter) == FilterLogs(a, filter) + FilterLogs(b, filter)
    decreases |a|
  {
    if |a| == 0 {
      assert a + b == b;
      assert FilterLogs(a, filter) == [];
    } else {
      var head := if Shows(filter, a[0]) then [a[0]] else [];
      assert (a + b)[0] == a[0];
      assert (a + b)[1..] == a[1..] + b;
      calc {
        FilterLogs(a + b, filter);
        head + FilterLogs(a[1..] + b, filter);
        { FilterConcat(a[1..], b, filter); }
        head + (FilterLogs(a[1..], filter) + FilterLogs(b, filter));
        (head + FilterLogs(a[1..], filter)) + FilterLogs(b, filter);
        FilterLogs(a, filter) + FilterLogs(b, filter);
      }
    }
  }

  /** A list whose every entry the filter shows is shown whole. */
  lemma {:induction false} FilterKeepsShown(logs: seq<LogEntry>, filter: FilterType)
    requires forall k :: 0 <= k < |logs| ==> Shows(filter, logs[k])
    ensures FilterLogs(logs, filter) == logs
    decreases |logs|
  {
    if |logs| > 0 {
      FilterKeepsShown(logs[1..], filter);
    }
  }

  /** Filtering an already filtered list with the same filter returns it unchanged. */
  lemma FilterIdempotent(logs: seq<LogEntry>, filter: FilterType)
    ensures FilterLogs(FilterLogs(logs, filter), filter) == FilterLogs(logs, filter)
  {
    var r := FilterLogs(logs, filter);
    forall k | 0 <= k < |r|
      ensures Shows(filter, r[k])
    {
      assert r[k] in r;
    }
    FilterKeepsShown(r, filter);
  }

  /** Every entry is a success or an error, so the two counts add up to the number of entries. */
  lemma {:induction false} CountsCoverAll(logs: seq<LogEntry>)
    ensures |WithStatus(logs, Success)| + |WithStatus(logs, Error)| == |logs|
    decreases |logs|
  {
    if |logs| > 0 {
      CountsCoverAll(logs[1..]);
    }
  }

  class LogStream {
    /** The entries handed in by the page. */
    const logs: seq<LogEntry>
    var filter: FilterType

    /** The stream starts showing every entry. */
    constructor (logs: seq<LogEntry>)
      ensures this.logs == logs && filter == All
      ensures FilteredLogs() == logs
    {
      this.logs := logs;
      filter := All;
      FilterAllIsIdentity(logs);
    }

    /** One of the three filter buttons. */
    method SetFilter(value: FilterType)
      modifies this
      ensures filter == value
    {
      filter := value;
    }

    /** `filteredLogs`: the entries the current filter admits, in order. */
    function FilteredLogs(): (r: seq<LogEntry>)
      reads this
      ensures forall e :: e in r <==> e in logs && Shows(filter, e)
      ensures filter == All ==> r == logs
    {
      FilterAllIsIdentity(logs);
      FilterLogs(logs, filter)
    }

    /** The count on the `success` button: the length of the `success` list. */
    function SuccessCount(): (n: nat)
      ensures n == |FilterLogs(logs, SuccessOnly)|
      ensures n <= |logs|
    {
      FilterIsStatusFilter(logs);
      CountsCoverAll(logs);
      |WithStatus(logs, Success)|
    }

    /** The count on the `error` button: the length of the `error` list. */
    function ErrorCount(): (n: nat)
      ensures n == |FilterLogs(logs, ErrorOnly)|
      ensures n <= |logs|
    {
      FilterIsStatusFilter(logs);
      CountsCoverAll(logs);
      |WithStatus(logs, Error)|
    }

    /** The counts shown on the buttons agree with the list and with each filter. */
    lemma CountsAgree()
      ensures SuccessCount() + ErrorCount() == |logs|
      ensures |FilterLogs(logs, SuccessOnly)| == SuccessCount()
      ensures |FilterLogs(logs, ErrorOnly)| == ErrorCount()
    {
      CountsCoverAll(logs);
    }
  }
}
