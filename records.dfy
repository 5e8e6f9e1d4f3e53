/** The read-only result-row view `Record` of src/fastpg/core.py:12-47: a
    mapping over the columns of one driver row, in column order, that hands
    out driver UUID values as strings. */
module Records {
  import opened Python
  import opened Values

  /** A subscript key: a `str` (looked up by column name) or an `int`
      (positional, negative counting from the end). */
  datatype Key = Name(name: string) | Index(index: int)

  /** The row a driver query returned: its (column, value) pairs in order. */
  datatype Record = Record(row: Entries)

  /** What an attribute read yields: a member the class defines, or a column
      reached through `__getattr__`. */
  datatype Attribute = Member(member: string) | Column(value: Value)

  /** The attribute names found on the class or its bases before
      `__getattr__` is consulted: the class's own methods and slot, the
      `Mapping` mixins, and the attributes every object has. */
  const ClassMembers: set<string> :=
    {"keys", "values", "items", "get", "_get", "_rec",
     "__init__", "__getattr__", "__len__", "__getitem__", "__iter__", "__slots__",
     "__module__", "__doc__",
     "__contains__", "__eq__", "__ne__", "__hash__", "__reversed__",
     "__class__", "__new__", "__repr__", "__str__", "__lt__", "__le__", "__gt__", "__ge__",
     "__setattr__", "__delattr__", "__getattribute__", "__dir__", "__format__",
     "__reduce__", "__reduce_ex__", "__sizeof__", "__subclasshook__", "__init_subclass__",
     "__getstate__", "__class_getitem__", "__abstractmethods__", "_abc_impl"}

  /** The conversion at core.py:24-26: a driver UUID becomes its string form,
      every other value is handed out as it is. */
  function Surface(lib: Stdlib, v: Value): (r: Value)
    ensures !r.Uuid?
  {
    if v.Uuid? then Str(lib.uuidStr(v.id)) else v
  }

  /** Normalises a Python index against a length: `i` if `0 <= i < n`,
      `i + n` if `-n <= i < 0`. */
  function Position(n: nat, i: int): (p: nat)
    requires -(n as int) <= i < n
    ensures p < n
    ensures p == i || p == i + n
  {
    if i < 0 then i + n else i
  }

  /** `_get` (core.py:18-26): a name is looked up with `.get`, so an unknown
      column yields None; an integer indexes by position and raises
      IndexError out of range. The value is passed through `Surface`. */
  function Get(lib: Stdlib, rec: Record, key: Key): (r: Result<Value>)
    ensures r.Ok? ==> !r.value.Uuid?
    ensures key.Name? ==> r.Ok?
    ensures key.Index? ==> (r.Ok? <==> -|rec.row| <= key.index < |rec.row|)
    ensures r.Err? ==> r.error == IndexError
  {
    match key
    case Name(n) =>
      var found := Lookup(rec.row, n);
      if found.None? then Ok(NoneVal) else Ok(Surface(lib, found.value))
    case Index(i) =>
      if -|rec.row| <= i < |rec.row| then Ok(Surface(lib, rec.row[Position(|rec.row|, i)].1))
      else Err(IndexError)
  }

  /** `record.name` (core.py:28-29): a member of the class wins; any other
      name is a string-key lookup. */
  function GetAttr(lib: Stdlib, rec: Record, name: string): (r: Attribute)
    ensures name in ClassMembers <==> r.Member?
    ensures r.Member? ==> r.member == name
  {
    if name in ClassMembers then Member(name) else Column(Get(lib, rec, Name(name)).value)
  }

  /** `keys()` (core.py:31-32). */
  function Keys(rec: Record): (ks: seq<string>)
    ensures |ks| == |rec.row|
    ensures forall i :: 0 <= i < |rec.row| ==> ks[i] == rec.row[i].0
  {
    NamesOf(rec.row)
  }

  /** `values()` (core.py:34-35): each key looked up by name in turn. */
  function Vals(lib: Stdlib, rec: Record): (vs: seq<Value>)
    ensures |vs| == |rec.row|
    ensures forall i :: 0 <= i < |vs| ==> !vs[i].Uuid?
  {
    var ks := Keys(rec);
    seq(|ks|, i requires 0 <= i < |ks| => Get(lib, rec, Name(ks[i])).value)
  }

  /** `items()` (core.py:37-38): keys and values zipped. */
  function Items(lib: Stdlib, rec: Record): (items: seq<(string, Value)>)
    ensures |items| == |rec.row|
  {
    var ks, vs := Keys(rec), Vals(lib, rec);
    seq(|ks|, i requires 0 <= i < |ks| => (ks[i], vs[i]))
  }

  /** `len(record)` (core.py:40-41). */
  function Length(rec: Record): nat {
    |rec.row|
  }

  /** `iter(record)` (core.py:46-47): the column names in order. */
  function Iter(rec: Record): (it: seq<string>)
    ensures |it| == Length(rec)
  {
    NamesOf(rec.row)
  }

  /** `key in record`, inherited from `Mapping`: true unless the subscript
      raises KeyError, which `_get` never does; an out-of-range integer
      lets its IndexError through. */
  function Contains(lib: Stdlib, rec: Record, key: Key): (r: Result<bool>)
    ensures r.Ok? ==> r.value
  {
    match Get(lib, rec, key)
    case Err(KeyError(_)) => Ok(false)
    case Err(e) => Err(e)
    case Ok(_) => Ok(true)
  }

  /** `record.get(key, default)`, inherited from `Mapping`: the subscript,
      or `default` when it raises KeyError. */
  function GetOr(lib: Stdlib, rec: Record, key: Key, default: Value): (r: Result<Value>)
    ensures r == Get(lib, rec, key)
  {
    match Get(lib, rec, key)
    case Err(KeyError(_)) => Ok(default)
    case other => other
  }

  /** The truth value of a driver row: a row with no columns is false. */
  predicate Truthy(rec: Record) {
    |rec.row| > 0
  }

  /** `keys()`, `values()` and `items()` line up: item `i` is key `i` with
      its value, value `i` is the lookup of key `i`, and iteration yields
      the keys. */
  lemma ViewsAligned(lib: Stdlib, rec: Record)
    ensures |Keys(rec)| == |Vals(lib, rec)| == |Items(lib, rec)| == Length(rec)
    ensures Iter(rec) == Keys(rec)
    ensures forall i :: 0 <= i < Length(rec) ==>
      Items(lib, rec)[i] == (Keys(rec)[i], Vals(lib, rec)[i])
      && Ok(Vals(lib, rec)[i]) == Get(lib, rec, Name(Keys(rec)[i]))
  {
  }

  /** The table the views make back to back: unzipping `items()` gives `keys()`
      and `values()`. */
  lemma ItemsUnzip(lib: Stdlib, rec: Record)
    ensures NamesOf(Items(lib, rec)) == Keys(rec)
    ensures forall i :: 0 <= i < Length(rec) ==> Items(lib, rec)[i].1 == Vals(lib, rec)[i]
  {
    assert NamesOf(Items(lib, rec)) == Keys(rec);
  }

  /** An unknown column name yields None rather than an exception, through
      subscript, `.get` and attribute access alike. */
  lemma UnknownColumn(lib: Stdlib, rec: Record, n: string)
    requires forall i :: 0 <= i < |rec.row| ==> rec.row[i].0 != n
    ensures Get(lib, rec, Name(n)) == Ok(NoneVal)
    ensures GetOr(lib, rec, Name(n), Int(0)) == Ok(NoneVal)
    ensures n !in ClassMembers ==> GetAttr(lib, rec, n) == Column(NoneVal)
  {
  }

  /** Attribute access is a string-key lookup for every name that is not a
      class member. */
  lemma AttributeIsLookup(lib: Stdlib, rec: Record, n: string)
    requires n !in ClassMembers
    ensures Ok(GetAttr(lib, rec, n).value) == Get(lib, rec, Name(n))
  {
  }

  /** With distinct column names, the name of column `i`, index `i` and the
      negative index `i - len` all reach the same value: the row's value at
      `i`, a UUID converted to its string. */
  lemma {:induction false} NameAgreesWithPosition(lib: Stdlib, rec: Record, i: nat)
    requires DistinctNames(rec.row)
    requires i < |rec.row|
    ensures Get(lib, rec, Name(rec.row[i].0)) == Ok(Surface(lib, rec.row[i].1))
    ensures Get(lib, rec, Index(i)) == Get(lib, rec, Name(rec.row[i].0))
    ensures Get(lib, rec, Index(i - |rec.row|)) == Get(lib, rec, Index(i))
  {
    LookupDistinct(rec.row, i);
  }

  /** With distinct column names, `values()` is the row's values in column
      order, converted. */
  lemma {:induction false} ValsInColumnOrder(lib: Stdlib, rec: Record)
    requires DistinctNames(rec.row)
    ensures forall i :: 0 <= i < |rec.row| ==> Vals(lib, rec)[i] == Surface(lib, rec.row[i].1)
  {
    forall i | 0 <= i < |rec.row| ensures Vals(lib, rec)[i] == Surface(lib, rec.row[i].1) {
      LookupDistinct(rec.row, i);
    }
  }

  /** A UUID column is handed out as its string and every other value as it
      is, whichever way it is read. */
  lemma UuidSurfacedAsString(lib: Stdlib, rec: Record, i: nat)
    requires i < |rec.row|
    ensures rec.row[i].1.Uuid? ==> Get(lib, rec, Index(i)) == Ok(Str(lib.uuidStr(rec.row[i].1.id)))
    ensures !rec.row[i].1.Uuid? ==> Get(lib, rec, Index(i)) == Ok(rec.row[i].1)
  {
  }

  /** `in` is true for every name, and for exactly the in-range integers;
      any other integer raises IndexError. */
  lemma ContainsSpec(lib: Stdlib, rec: Record, key: Key)
    ensures key.Name? ==> Contains(lib, rec, key) == Ok(true)
    ensures key.Index? ==> (Contains(lib, rec, key) == Ok(true) <==> -|rec.row| <= key.index < |rec.row|)
    ensures key.Index? && !(-|rec.row| <= key.index < |rec.row|) ==> Contains(lib, rec, key) == Err(IndexError)
  {
  }
}
