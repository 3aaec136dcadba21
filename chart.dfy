/** The series `printChart` hands to the chart renderer (index.js lines 192-212). */
module Chart {
  import opened Wrappers

  /** A JSON value as the service returns it; numbers are kept as integers here. */
  datatype Json =
    | Null
    | Bool(b: bool)
    | Number(n: int)
    | Text(s: string)
    | List(items: seq<Json>)
    | Object(fields: map<string, Json>)

  /** One element of the `entries` array of a metrics response. */
  type Entry = map<string, Json>

  /** `entry[metric]`, which is `undefined` when the entry has no such field. */
  function Field(entry: Entry, metric: string): Option<Json>
  {
    if metric in entry then Some(entry[metric]) else None
  }

  /** One `[i, entry[metric]]` pair of the array given to the renderer. */
  datatype Point = Point(x: int, y: Option<Json>)

  /** The pairs for `entries`, numbered from `from` on, as the running counter numbers them. */
  function Series(entries: seq<Entry>, metric: string, from: int): (a: seq<Point>)
    ensures |a| == |entries|
    ensures forall k :: 0 <= k < |a| ==> a[k] == Point(from + k, Field(entries[k], metric))
  {
    if entries == [] then []
    else [Point(from, Field(entries[0], metric))] + Series(entries[1..], metric, from + 1)
  }

  /** The `forEach` loop of index.js lines 193-199: bump the counter, push the pair. */
  method BuildSeries(entries: seq<Entry>, metric: string) returns (a: seq<Point>)
    ensures |a| == |entries|
    ensures forall k :: 0 <= k < |a| ==> a[k] == Point(k + 1, Field(entries[k], metric))
  {
    a := [];
    var i := 0;
    while i < |entries|
      invariant 0 <= i <= |entries|
      invariant |a| == i
      invariant forall k :: 0 <= k < i ==> a[k] == Point(k + 1, Field(entries[k], metric))
    {
      var entry := entries[i];
      i := i + 1;
      a := a + [Point(i, Field(entry, metric))];
    }
  }
}
