/**
 * The values that flow from a decoded stream record to the table
 * (ddb_eventprocessor.js lines 60-77).
 */
module Rows {
  import opened Wrappers
  import opened Timestamp

  /** The fields of a decoded tweet that the handler reads: user.name, created_at, text. */
  datatype Tweet = Tweet(userName: string, createdAt: string, text: string)

  /** The row written to the event table. */
  datatype Item = Item(username: string, timestamp: string, message: string)

  /** One entry of a batch write: `{PutRequest: {Item: ...}}`. */
  datatype WriteRequest = PutRequest(item: Item)

  /** `RequestItems` and `UnprocessedItems`: table name to the requests for that table. */
  type Batch = map<string, seq<WriteRequest>>

  /**
   * The date step `new Date(...).toISOString()`: the ISO-8601 UTC form of a date
   * string, or None where `toISOString` throws a RangeError on an invalid date.
   */
  type Render = string -> Option<string>

  /**
   * The row built from one tweet, or None when its date cannot be rendered
   * (the exception then escapes the `forEach`).
   */
  function ToItem(t: Tweet, render: Render): (r: Option<Item>)
    ensures forall i :: FirstSpacePlus(t.createdAt, i) ==>
      var rewritten := t.createdAt[..i] + " UTC" + t.createdAt[i..];
      (r.None? <==> render(rewritten).None?) &&
      (r.Some? ==> Some(r.value.timestamp) == render(rewritten))
    ensures (forall j :: !SpacePlusAt(t.createdAt, j)) ==>
      (r.None? <==> render(t.createdAt).None?) &&
      (r.Some? ==> Some(r.value.timestamp) == render(t.createdAt))
    ensures r.Some? ==> r.value.username == t.userName && r.value.message == t.text
  {
    match render(InsertUtc(t.createdAt))
    case None => None
    case Some(iso) => Some(Item(t.userName, iso, t.text))
  }
}
