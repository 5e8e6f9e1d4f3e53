/** The Python values that flow through the library: query arguments going
    to the driver and column values coming back from it. */
module Values {
  import opened Python

  /** A Python value, tagged by the category the library's type checks see.
      `exact` records whether `type(v)` is exactly `dict` / `list` (false for a
      subclass): `isinstance` accepts both, `type(v) is dict` only the former. */
  datatype Value =
    | NoneVal
    | Bool(b: bool)
    | Int(i: int)
    | Str(s: string)
    | Dict(entries: seq<(string, Value)>, exact: bool)
    | List(items: seq<Value>, exact: bool)
    | Uuid(id: nat)
    | EnumMember(name: string, value: Value)
    | Other(kind: string)

  /** An ordered collection of named values: the items of a dict in insertion
      order, or the columns of a result row in column order. */
  type Entries = seq<(string, Value)>

  /** The two standard-library formatters the library relies on, left
      uninterpreted: `json.dumps` and `str` of a UUID. */
  datatype Stdlib = Stdlib(jsonDumps: Value -> string, uuidStr: nat -> string)

  /** The names of `entries`, in order. */
  function NamesOf(entries: Entries): (names: seq<string>)
    ensures |names| == |entries|
    ensures forall i :: 0 <= i < |entries| ==> names[i] == entries[i].0
  {
    seq(|entries|, i requires 0 <= i < |entries| => entries[i].0)
  }

  predicate DistinctNames(entries: Entries) {
    forall i, j :: 0 <= i < j < |entries| ==> entries[i].0 != entries[j].0
  }

  /** Lookup by name: the value of the first entry called `k`, if any. */
  function Lookup(entries: Entries, k: string): (r: Option<Value>)
    ensures r.Some? <==> exists i :: 0 <= i < |entries| && entries[i].0 == k
    decreases |entries|
  {
    if entries == [] then None
    else if entries[0].0 == k then Some(entries[0].1)
    else Lookup(entries[1..], k)
  }

  /** A name found in `entries` is found there in `entries + extra` too: the
      first match wins. */
  lemma {:induction false} LookupPrefix(entries: Entries, extra: Entries, k: string)
    requires Lookup(entries, k).Some?
    ensures Lookup(entries + extra, k) == Lookup(entries, k)
    decreases |entries|
  {
    var all := entries + extra;
    assert all[0] == entries[0];
    if entries[0].0 != k {
      assert all[1..] == entries[1..] + extra;
      LookupPrefix(entries[1..], extra, k);
    }
  }

  /** With distinct names, looking up the name of entry `i` yields entry `i`'s value. */
  lemma {:induction false} LookupDistinct(entries: Entries, i: nat)
    requires DistinctNames(entries)
    requires i < |entries|
    ensures Lookup(entries, entries[i].0) == Some(entries[i].1)
    decreases |entries|
  {
    if i > 0 {
      assert entries[0].0 != entries[i].0;
      var rest := entries[1..];
      assert DistinctNames(rest) by {
        forall a, b | 0 <= a < b < |rest| ensures rest[a].0 != rest[b].0 {
          assert rest[a] == entries[a + 1] && rest[b] == entries[b + 1];
        }
      }
      LookupDistinct(rest, i - 1);
      assert rest[i - 1] == entries[i];
    }
  }
}
