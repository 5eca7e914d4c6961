/** Navigation targets: a path and its query parameters, already decoded. */
module Routes {
  import opened Wrappers

  datatype Route = Route(path: string, query: seq<(string, string)>)

  /** A path without query parameters. */
  function Path(path: string): Route
  {
    Route(path, [])
  }

  /** `new URLSearchParams(query).get(key)`: the first value for the key, or `null`. */
  function Get(query: seq<(string, string)>, key: string): (r: Option<string>)
    ensures r.Some? <==> exists i :: 0 <= i < |query| && query[i].0 == key
    ensures r.Some? ==>
      exists i :: 0 <= i < |query| && query[i] == (key, r.value) && forall j :: 0 <= j < i ==> query[j].0 != key
    decreases |query|
  {
    if query == [] then None
    else if query[0].0 == key then Some(query[0].1)
    else
      var r := Get(query[1..], key);
      assert r.Some? ==>
        exists i :: 0 <= i < |query| && query[i] == (key, r.value) && forall j :: 0 <= j < i ==> query[j].0 != key
      by {
        if r.Some? {
          var i :| 0 <= i < |query[1..]| && query[1..][i] == (key, r.value)
            && forall j :: 0 <= j < i ==> query[1..][j].0 != key;
          assert query[i + 1] == (key, r.value);
          assert forall j :: 0 <= j < i + 1 ==> query[j].0 != key by {
            forall j | 0 <= j < i + 1
              ensures query[j].0 != key
            {
              if j > 0 {
                assert query[j] == query[1..][j - 1];
              }
            }
          }
        }
      }
      assert (exists i :: 0 <= i < |query| && query[i].0 == key) ==> r.Some? by {
        if exists i :: 0 <= i < |query| && query[i].0 == key {
          var i :| 0 <= i < |query| && query[i].0 == key;
          assert query[1..][i - 1].0 == key;
        }
      }
      r
  }
}
