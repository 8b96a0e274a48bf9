/**
 * The Lambda entry point `exports.handler` and `handleEvent`
 * (ddb_eventprocessor.js lines 21-79).
 *
 * The module-level `config` cell becomes the field of `EventProcessor`; the
 * configuration lookup `doc.get`, the date rendering and the backend's
 * answers are inputs.
 */
module Processor {
  import opened Wrappers
  import opened Rows
  import opened Driver

  /** The configuration item, as a string-to-string map. */
  type Config = map<string, string>

  /**
   * `config['EventDataTable']`; a JavaScript object key built from a missing
   * value is the string "undefined".
   */
  function TableName(config: Config): string {
    if "EventDataTable" in config then config["EventDataTable"] else "undefined"
  }

  /** What `doc.get` hands to its callback: an error, or data whose `Item` may be absent. */
  datatype Fetch = FetchError(err: string) | FetchOk(item: Option<Config>)

  /** How an invocation ends. */
  datatype Result =
    | ConfigFetchFailed(err: string)           // `context.fail(err)` at line 34
    | ConfigItemMissing                        // `config['EventDataTable']` on undefined throws
    | DateRejected(index: nat)                 // `toISOString` throws on record `index`; nothing is written
    | Handled(request: Batch, trace: Trace)    // the table-keyed request and the driver's run

  /** One invocation of the handler: whether it looked up the configuration, and its result. */
  datatype Invocation = Invocation(fetched: bool, result: Result)

  /** Some record's date cannot be rendered. */
  predicate SomeDateInvalid(records: seq<Tweet>, render: Render) {
    exists i :: 0 <= i < |records| && ToItem(records[i], render).None?
  }

  /**
   * What `handleEvent` does with the cached configuration. If some record's date is
   * invalid, the first such record aborts the whole batch before any write. Otherwise
   * there is one PutRequest per record, in record order, all under the single configured
   * table name, and the request goes to the retry driver with `retries = 0` and the
   * caller's context.
   */
  predicate HandledAs(config: Option<Config>, records: seq<Tweet>, render: Render, env: seq<Attempt>, res: Result) {
    match config
    case None => res == ConfigItemMissing
    case Some(c) =>
      if SomeDateInvalid(records, render) then
        res.DateRejected? && res.index < |records| && ToItem(records[res.index], render).None? &&
        forall j :: 0 <= j < res.index ==> ToItem(records[j], render).Some?
      else
        var name := TableName(c);
        res.Handled? && res.request.Keys == {name} &&
        |res.request[name]| == |records| &&
        (forall i :: 0 <= i < |records| ==> res.request[name][i] == PutRequest(ToItem(records[i], render).value)) &&
        res.trace == Drive(res.request, 0, true, env, DropsContext)
  }

  class EventProcessor {
    /** The module-level `config`, undefined until a lookup returns an item. */
    var config: Option<Config>

    constructor ()
      ensures config == None
    {
      config := None;
    }

    /** `handleEvent(event, context)`: builds the rows with a loop and hands them to the driver. */
    method HandleEvent(records: seq<Tweet>, render: Render, env: seq<Attempt>) returns (res: Result)
      ensures HandledAs(config, records, render, env, res)
    {
      if config.None? {
        return ConfigItemMissing;
      }
      var tableName := TableName(config.value);
      var putItems: seq<WriteRequest> := [];
      var i := 0;
      while i < |records|
        invariant 0 <= i <= |records|
        invariant |putItems| == i
        invariant forall j :: 0 <= j < i ==> ToItem(records[j], render).Some?
        invariant forall j :: 0 <= j < i ==> putItems[j] == PutRequest(ToItem(records[j], render).value)
      {
        var item := ToItem(records[i], render);
        if item.None? {
          return DateRejected(i);
        }
        putItems := putItems + [PutRequest(item.value)];
        i := i + 1;
      }
      var tableItems: Batch := map[tableName := putItems];
      var trace := WriteItems(tableItems, 0, true, env);
      res := Handled(tableItems, trace);
    }

    /** `exports.handler(event, context)`: fetch the configuration only when none is cached. */
    method Handler(records: seq<Tweet>, fetch: Fetch, render: Render, env: seq<Attempt>) returns (inv: Invocation)
      modifies this
      ensures inv.fetched <==> old(config).None?
      ensures old(config).Some? ==> config == old(config) && HandledAs(config, records, render, env, inv.result)
      ensures old(config).None? && fetch.FetchError? ==> config == None && inv.result == ConfigFetchFailed(fetch.err)
      ensures old(config).None? && fetch.FetchOk? ==> config == fetch.item && HandledAs(config, records, render, env, inv.result)
    {
      if config.Some? {
        var res := HandleEvent(records, render, env);
        return Invocation(false, res);
      }
      match fetch
      case FetchError(e) =>
        inv := Invocation(true, ConfigFetchFailed(e));
      case FetchOk(item) =>
        config := item;
        var res := HandleEvent(records, render, env);
        inv := Invocation(true, res);
    }
  }

  /**
   * Two invocations in a fresh process whose first lookup returns an item: the first
   * fetches, the second goes straight to `handleEvent` with the cached configuration.
   */
  method ColdThenWarm(first: seq<Tweet>, second: seq<Tweet>, item: Config, render: Render, env1: seq<Attempt>, env2: seq<Attempt>, laterFetch: Fetch)
    returns (a: Invocation, b: Invocation)
    ensures a.fetched && !b.fetched
    ensures HandledAs(Some(item), first, render, env1, a.result)
    ensures HandledAs(Some(item), second, render, env2, b.result)
  {
    var p := new EventProcessor();
    a := p.Handler(first, FetchOk(Some(item)), render, env1);
    b := p.Handler(second, laterFetch, render, env2);
  }

  /**
   * A lookup that fails, or returns no item, leaves the cache empty: the next
   * invocation looks the configuration up again.
   */
  method FailedFetchRetried(records: seq<Tweet>, failed: Fetch, laterFetch: Fetch, render: Render, env: seq<Attempt>)
    returns (a: Invocation, b: Invocation)
    requires failed.FetchError? || failed == FetchOk(None)
    ensures a.fetched && b.fetched
    ensures a.result == (if failed.FetchError? then ConfigFetchFailed(failed.err) else ConfigItemMissing)
  {
    var p := new EventProcessor();
    a := p.Handler(records, failed, render, env);
    b := p.Handler(records, laterFetch, render, env);
  }
}
