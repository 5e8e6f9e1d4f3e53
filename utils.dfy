/** Value coercion and the named-parameter query compiler of
    src/fastpg/utils.py. */
module Utils {
  import opened Python
  import opened Values
  import opened Placeholders

  /** The values `compile_value` rewrites; everything else reaches the driver as it is. */
  predicate NeedsCoercion(v: Value) {
    v.Dict? || v.List? || v.Uuid? || v.EnumMember?
  }

  /** `compile_value` (utils.py:9-17): a dict or list (subclasses included)
      becomes its JSON text, a UUID its string form, an Enum member its
      `.value`; anything else is returned unchanged. One level only: the
      contents of a container and the value of a member are not coerced. */
  function CompileValue(lib: Stdlib, v: Value): (r: Value)
    ensures (v.Dict? || v.List?) ==> r == Str(lib.jsonDumps(v))
    ensures v.Uuid? ==> r == Str(lib.uuidStr(v.id))
    ensures v.EnumMember? ==> r == v.value
    ensures !NeedsCoercion(v) ==> r == v
    ensures !v.EnumMember? ==> !NeedsCoercion(r)
  {
    if v.Dict? || v.List? then Str(lib.jsonDumps(v))
    else if v.Uuid? then Str(lib.uuidStr(v.id))
    else if v.EnumMember? then v.value
    else v
  }

  /** Coercing twice is coercing once, except for an Enum member whose value
      itself needs coercion: the coercion does not recurse. */
  lemma CompileValueIdempotent(lib: Stdlib, v: Value)
    ensures CompileValue(lib, CompileValue(lib, v)) == CompileValue(lib, v)
        <==> !(v.EnumMember? && NeedsCoercion(v.value))
  {
    if v.EnumMember? && NeedsCoercion(v.value) {
      var w := v.value;
      if w.EnumMember? {
        assert CompileValue(lib, w) == w.value != w;
      }
    }
  }

  /** The argument part of a compiled query: one flat list for a single dict
      (or none at all), one list per element for a list of dicts. */
  datatype Args = Flat(values: seq<Value>) | Nested(rows: seq<seq<Value>>)

  datatype Compiled = Compiled(text: string, args: Args)

  /** The coerced values of `entries`, in order. */
  function CompileEntries(lib: Stdlib, entries: Entries): (vs: seq<Value>)
    ensures |vs| == |entries|
    ensures forall i :: 0 <= i < |entries| ==> vs[i] == CompileValue(lib, entries[i].1)
  {
    seq(|entries|, i requires 0 <= i < |entries| => CompileValue(lib, entries[i].1))
  }

  /** The subscripts `value_set[base_k]` of utils.py:40-42 on a mapping, one
      key after another: the coerced values in key order, or KeyError for
      the first key the mapping lacks. */
  function ProjectKeys(lib: Stdlib, entries: Entries, keys: seq<string>): (r: Result<seq<Value>>)
    ensures r.Ok? ==> |r.value| == |keys|
    decreases |keys|
  {
    if keys == [] then Ok([])
    else
      var init := ProjectKeys(lib, entries, keys[..|keys| - 1]);
      var found := Lookup(entries, keys[|keys| - 1]);
      if init.Err? then init
      else if found.None? then Err(KeyError(keys[|keys| - 1]))
      else Ok(init.value + [CompileValue(lib, found.value)])
  }

  /** Once a prefix of the keys fails, the whole projection fails the same way. */
  lemma {:induction false} ProjectKeysPrefixErr(lib: Stdlib, entries: Entries, keys: seq<string>, n: nat)
    requires 0 < n <= |keys|
    requires ProjectKeys(lib, entries, keys[..n]).Err?
    ensures ProjectKeys(lib, entries, keys) == ProjectKeys(lib, entries, keys[..n])
    decreases |keys|
  {
    if n == |keys| {
      assert keys[..n] == keys;
    } else {
      var pre := keys[..|keys| - 1];
      assert pre[..n] == keys[..n];
      ProjectKeysPrefixErr(lib, entries, pre, n);
    }
  }

  /** `keys[m]` is the first of `keys` missing from `entries`. */
  predicate MissingAt(entries: Entries, keys: seq<string>, m: int) {
    && 0 <= m < |keys|
    && Lookup(entries, keys[m]).None?
    && forall t :: 0 <= t < m ==> Lookup(entries, keys[t]).Some?
  }

  /** The projection succeeds exactly when every key is present, and then
      position `t` is the coerced value of key `t`. */
  lemma {:induction false} ProjectKeysOk(lib: Stdlib, entries: Entries, keys: seq<string>)
    ensures ProjectKeys(lib, entries, keys).Ok? <==> forall t :: 0 <= t < |keys| ==> Lookup(entries, keys[t]).Some?
    ensures ProjectKeys(lib, entries, keys).Ok? ==> forall t :: 0 <= t < |keys| ==>
      ProjectKeys(lib, entries, keys).value[t] == CompileValue(lib, Lookup(entries, keys[t]).value)
    decreases |keys|
  {
    if keys != [] {
      var n := |keys| - 1;
      var pre := keys[..n];
      ProjectKeysOk(lib, entries, pre);
      assert forall t :: 0 <= t < n ==> pre[t] == keys[t];
    }
  }

  /** A failed projection names the first missing key. */
  lemma {:induction false} ProjectKeysErr(lib: Stdlib, entries: Entries, keys: seq<string>)
    ensures ProjectKeys(lib, entries, keys).Err? ==>
      exists m :: MissingAt(entries, keys, m) && ProjectKeys(lib, entries, keys).error == KeyError(keys[m])
    decreases |keys|
  {
    if keys != [] {
      var n := |keys| - 1;
      var pre := keys[..n];
      var init := ProjectKeys(lib, entries, pre);
      if init.Err? {
        ProjectKeysErr(lib, entries, pre);
        var m :| MissingAt(entries, pre, m) && init.error == KeyError(pre[m]);
        assert forall t :: 0 <= t <= m ==> pre[t] == keys[t];
        assert MissingAt(entries, keys, m);
      } else if Lookup(entries, keys[n]).None? {
        ProjectKeysOk(lib, entries, pre);
        forall t | 0 <= t < n ensures Lookup(entries, keys[t]).Some? {
          assert pre[t] == keys[t];
        }
        assert MissingAt(entries, keys, n);
      }
    }
  }

  /** One later element of a batch re-projected onto the key order of the
      first (utils.py:40-42). A value that is not a mapping fails the first
      subscript with TypeError; with no keys nothing is subscripted. */
  function AlignRow(lib: Stdlib, v: Value, keys: seq<string>): (r: Result<seq<Value>>)
    ensures r.Ok? ==> |r.value| == |keys|
  {
    if |keys| == 0 then Ok([])
    else if !v.Dict? then Err(TypeError)
    else ProjectKeys(lib, v.entries, keys)
  }

  /** All later elements of a batch, in order (utils.py:38-43); the first
      element that fails to align decides the exception. */
  function AlignRows(lib: Stdlib, vs: seq<Value>, keys: seq<string>): (r: Result<seq<seq<Value>>>)
    ensures r.Ok? ==> |r.value| == |vs|
    decreases |vs|
  {
    if vs == [] then Ok([])
    else
      var init := AlignRows(lib, vs[..|vs| - 1], keys);
      var last := AlignRow(lib, vs[|vs| - 1], keys);
      if init.Err? then Err(init.error)
      else if last.Err? then Err(last.error)
      else Ok(init.value + [last.value])
  }

  /** A batch aligns exactly when every later element does; row `j` is then
      element `j` re-projected, and otherwise the exception is that of the
      first element that fails. */
  lemma AlignRowsSpec(lib: Stdlib, vs: seq<Value>, keys: seq<string>)
    ensures var r := AlignRows(lib, vs, keys);
      && (r.Ok? <==> forall j :: 0 <= j < |vs| ==> AlignRow(lib, vs[j], keys).Ok?)
      && (r.Ok? ==> forall j :: 0 <= j < |vs| ==> Ok(r.value[j]) == AlignRow(lib, vs[j], keys))
      && (r.Err? ==> exists j :: 0 <= j < |vs| && AlignRow(lib, vs[j], keys) == Err(r.error)
                      && forall t :: 0 <= t < j ==> AlignRow(lib, vs[t], keys).Ok?)
  {
    AlignRowsOk(lib, vs, keys);
    AlignRowsErr(lib, vs, keys);
  }

  lemma {:induction false} AlignRowsOk(lib: Stdlib, vs: seq<Value>, keys: seq<string>)
    ensures var r := AlignRows(lib, vs, keys);
      && (r.Ok? <==> forall j :: 0 <= j < |vs| ==> AlignRow(lib, vs[j], keys).Ok?)
      && (r.Ok? ==> forall j :: 0 <= j < |vs| ==> Ok(r.value[j]) == AlignRow(lib, vs[j], keys))
    decreases |vs|
  {
    if vs != [] {
      var n := |vs| - 1;
      var pre := vs[..n];
      AlignRowsOk(lib, pre, keys);
      assert forall t :: 0 <= t < n ==> pre[t] == vs[t];
      var init := AlignRows(lib, pre, keys);
      if init.Ok? && AlignRow(lib, vs[n], keys).Ok? {
        var rows := init.value + [AlignRow(lib, vs[n], keys).value];
        assert forall j :: 0 <= j < n ==> rows[j] == init.value[j];
      }
    }
  }

  lemma {:induction false} AlignRowsErr(lib: Stdlib, vs: seq<Value>, keys: seq<string>)
    ensures var r := AlignRows(lib, vs, keys);
      r.Err? ==> exists j :: 0 <= j < |vs| && AlignRow(lib, vs[j], keys) == Err(r.error)
                  && forall t :: 0 <= t < j ==> AlignRow(lib, vs[t], keys).Ok?
    decreases |vs|
  {
    if vs != [] {
      var n := |vs| - 1;
      var pre := vs[..n];
      var init := AlignRows(lib, pre, keys);
      if init.Err? {
        AlignRowsErr(lib, pre, keys);
        var j :| 0 <= j < n && AlignRow(lib, pre[j], keys) == Err(init.error)
                 && forall t :: 0 <= t < j ==> AlignRow(lib, pre[t], keys).Ok?;
        assert forall t :: 0 <= t <= j ==> pre[t] == vs[t];
      } else if AlignRow(lib, vs[n], keys).Err? {
        AlignRowsOk(lib, pre, keys);
        assert forall t :: 0 <= t < n ==> pre[t] == vs[t];
      }
    }
  }

  /** What `compile_query(query, values)` returns or raises (utils.py:20-45).
      Only a value whose type is exactly dict or exactly list is compiled;
      `None` and everything else fall through to the final return with the
      text unchanged and no arguments (the guard `type(values) is None` at
      line 22 never holds). */
  function Compile(lib: Stdlib, query: string, values: Value): Result<Compiled> {
    if values.Dict? && values.exact then
      Ok(Compiled(RewriteAll(query, NamesOf(values.entries)), Flat(CompileEntries(lib, values.entries))))
    else if values.List? && values.exact then
      if |values.items| == 0 then Err(IndexError)
      else if !values.items[0].Dict? then Err(AttributeError)
      else
        var first := values.items[0].entries;
        var keys := NamesOf(first);
        var rest := AlignRows(lib, values.items[1..], keys);
        if rest.Err? then Err(rest.error)
        else Ok(Compiled(RewriteAll(query, keys), Nested([CompileEntries(lib, first)] + rest.value)))
    else
      Ok(Compiled(query, Flat([])))
  }

  /** The loop of utils.py:29-31 (and 35-37): key `i` rebinds the text by one
      substitution with `$i`, and its coerced value is appended. */
  method RewriteEntries(lib: Stdlib, query: string, entries: Entries) returns (compiled: string, ordered: seq<Value>)
    ensures compiled == RewriteAll(query, NamesOf(entries))
    ensures ordered == CompileEntries(lib, entries)
  {
    compiled, ordered := query, [];
    var i := 0;
    while i < |entries|
      invariant 0 <= i <= |entries|
      invariant compiled == RewriteAll(query, NamesOf(entries)[..i])
      invariant ordered == CompileEntries(lib, entries[..i])
    {
      assert NamesOf(entries)[..i + 1][..i] == NamesOf(entries)[..i];
      compiled := Substitute(compiled, entries[i].0, Positional(i + 1));
      ordered := ordered + [CompileValue(lib, entries[i].1)];
      i := i + 1;
    }
    assert NamesOf(entries)[..i] == NamesOf(entries);
    assert entries[..i] == entries;
  }

  /** The inner loop of utils.py:40-42: `value_set[base_k]` for each key of
      the first element, in that order. */
  method ProjectValueSet(lib: Stdlib, valueSet: Value, keys: seq<string>) returns (r: Result<seq<Value>>)
    ensures r == AlignRow(lib, valueSet, keys)
  {
    var orderedSet: seq<Value> := [];
    var t := 0;
    while t < |keys|
      invariant 0 <= t <= |keys|
      invariant t == 0 ==> orderedSet == []
      invariant t > 0 ==> valueSet.Dict? && ProjectKeys(lib, valueSet.entries, keys[..t]) == Ok(orderedSet)
    {
      if !valueSet.Dict? {
        return Err(TypeError);
      }
      assert keys[..t + 1][..t] == keys[..t];
      var found := Lookup(valueSet.entries, keys[t]);
      if found.None? {
        ProjectKeysPrefixErr(lib, valueSet.entries, keys, t + 1);
        return Err(KeyError(keys[t]));
      }
      orderedSet := orderedSet + [CompileValue(lib, found.value)];
      t := t + 1;
    }
    if t > 0 {
      assert keys[..t] == keys;
    }
    return Ok(orderedSet);
  }

  /** The outer loop of utils.py:38-43 over the later elements of a batch:
      each re-projected in turn, the first exception propagated. */
  method ProjectBatch(lib: Stdlib, rest: seq<Value>, keys: seq<string>) returns (r: Result<seq<seq<Value>>>)
    ensures r == AlignRows(lib, rest, keys)
  {
    var rows: seq<seq<Value>> := [];
    var j := 0;
    while j < |rest|
      invariant 0 <= j <= |rest|
      invariant AlignRows(lib, rest[..j], keys) == Ok(rows)
    {
      var row := ProjectValueSet(lib, rest[j], keys);
      if row.Err? {
        FirstFailure(lib, rest, keys, j);
        return Err(row.error);
      }
      assert rest[..j + 1][..j] == rest[..j];
      rows := rows + [row.value];
      j := j + 1;
    }
    assert rest[..j] == rest;
    return Ok(rows);
  }

  /** `compile_query` as the source runs it (utils.py:20-45): the rewrite
      loop, and for a batch the loop over the later elements. */
  method CompileQuery(lib: Stdlib, query: string, values: Value) returns (r: Result<Compiled>)
    ensures r == Compile(lib, query, values)
  {
    if values.Dict? && values.exact {
      var compiled, ordered := RewriteEntries(lib, query, values.entries);
      return Ok(Compiled(compiled, Flat(ordered)));
    }
    if values.List? && values.exact {
      var items := values.items;
      if |items| == 0 {
        return Err(IndexError);
      }
      if !items[0].Dict? {
        return Err(AttributeError);
      }
      var keys := NamesOf(items[0].entries);
      var compiled, row0 := RewriteEntries(lib, query, items[0].entries);
      var rows := ProjectBatch(lib, items[1..], keys);
      if rows.Err? {
        return Err(rows.error);
      }
      return Ok(Compiled(compiled, Nested([row0] + rows.value)));
    }
    return Ok(Compiled(query, Flat([])));
  }

  /** When the first `j` later elements align and element `j` does not, the
      batch fails with element `j`'s exception. */
  lemma {:induction false} FirstFailure(lib: Stdlib, vs: seq<Value>, keys: seq<string>, j: nat)
    requires j < |vs|
    requires AlignRows(lib, vs[..j], keys).Ok?
    requires AlignRow(lib, vs[j], keys).Err?
    ensures AlignRows(lib, vs, keys) == Err(AlignRow(lib, vs[j], keys).error)
  {
    var r := AlignRows(lib, vs, keys);
    AlignRowsSpec(lib, vs, keys);
    AlignRowsSpec(lib, vs[..j], keys);
    forall t | 0 <= t < j ensures AlignRow(lib, vs[t], keys).Ok? {
      assert vs[..j][t] == vs[t];
    }
    var j' :| 0 <= j' < |vs| && AlignRow(lib, vs[j'], keys) == Err(r.error)
              && forall t :: 0 <= t < j' ==> AlignRow(lib, vs[t], keys).Ok?;
    assert j' == j;
  }

  /** A later element aligns exactly when there are no keys, or it is a
      mapping holding every key; row position `t` is then the coerced value
      of key `t`. A TypeError means it was not a mapping, a KeyError names the
      first key it lacks. */
  lemma AlignRowSpec(lib: Stdlib, v: Value, keys: seq<string>)
    ensures AlignRow(lib, v, keys).Ok? <==>
      |keys| == 0 || (v.Dict? && forall t :: 0 <= t < |keys| ==> Lookup(v.entries, keys[t]).Some?)
    ensures AlignRow(lib, v, keys).Ok? ==> forall t :: 0 <= t < |keys| ==>
      v.Dict? && AlignRow(lib, v, keys).value[t] == CompileValue(lib, Lookup(v.entries, keys[t]).value)
    ensures AlignRow(lib, v, keys) == Err(TypeError) <==> |keys| > 0 && !v.Dict?
    ensures AlignRow(lib, v, keys).Err? && AlignRow(lib, v, keys).error.KeyError? ==>
      v.Dict? && exists m :: MissingAt(v.entries, keys, m) && AlignRow(lib, v, keys).error.key == keys[m]
  {
    if |keys| > 0 && v.Dict? {
      ProjectKeysOk(lib, v.entries, keys);
      ProjectKeysErr(lib, v.entries, keys);
    }
  }

  /** Keys a later element holds beyond those of the first are ignored:
      appending entries to a mapping that already holds every key leaves
      its re-projection unchanged. */
  lemma {:induction false} ExtraKeysIgnored(lib: Stdlib, v: Entries, extra: Entries, keys: seq<string>, exact: bool)
    requires forall t :: 0 <= t < |keys| ==> Lookup(v, keys[t]).Some?
    ensures AlignRow(lib, Dict(v + extra, exact), keys) == AlignRow(lib, Dict(v, exact), keys)
  {
    forall t | 0 <= t < |keys| ensures Lookup(v + extra, keys[t]) == Lookup(v, keys[t]) {
      LookupPrefix(v, extra, keys[t]);
    }
    if |keys| > 0 {
      ProjectKeysOk(lib, v + extra, keys);
      ProjectKeysOk(lib, v, keys);
      assert ProjectKeys(lib, v + extra, keys).value == ProjectKeys(lib, v, keys).value;
    }
  }

  /** A single dict whose keys contain neither `:` nor `$`: the text is the
      one-pass rewrite in which the placeholder of the i-th key becomes
      `$(i+1)`, and the arguments are the coerced values in key order. */
  lemma {:induction false} CompilePoint(lib: Stdlib, query: string, entries: Entries)
    requires forall i :: 0 <= i < |entries| ==> PlainKey(entries[i].0)
    ensures Compile(lib, query, Dict(entries, true))
         == Ok(Compiled(SubstituteAll(query, NamesOf(entries)), Flat(CompileEntries(lib, entries))))
  {
    RewriteAllIsSubstituteAll(query, NamesOf(entries));
  }

  /** The compiled batch: the text of the first dict alone and one row per
      element, each the projection onto the first dict's keys. */
  predicate BatchResult(lib: Stdlib, query: string, items: seq<Value>, c: Compiled)
    requires |items| > 0 && items[0].Dict?
  {
    && c.text == RewriteAll(query, NamesOf(items[0].entries))
    && c.args.Nested? && |c.args.rows| == |items|
    && forall j :: 0 <= j < |items| ==> Ok(c.args.rows[j]) == AlignRow(lib, items[j], NamesOf(items[0].entries))
  }

  /** Element `j >= 1` is the first later element that fails to align, with `e`. */
  predicate FirstFailingAt(lib: Stdlib, items: seq<Value>, j: int, e: PyError)
    requires |items| > 0 && items[0].Dict?
  {
    && 1 <= j < |items|
    && AlignRow(lib, items[j], NamesOf(items[0].entries)) == Err(e)
    && forall t :: 1 <= t < j ==> AlignRow(lib, items[t], NamesOf(items[0].entries)).Ok?
  }

  /** A list of dicts: it compiles exactly when every later element aligns
      with the first one's keys. The text is that of the first dict alone;
      there is one row per element; row 0 is the first dict's coerced values
      and row `j` element `j` re-projected; as a dict's keys are distinct,
      every row, the first included, is the projection onto the first
      dict's keys. Otherwise the exception is that of the first later
      element that fails. */
  lemma {:induction false} CompileBatch(lib: Stdlib, query: string, items: seq<Value>)
    requires |items| > 0 && items[0].Dict?
    requires DistinctNames(items[0].entries)
    ensures Compile(lib, query, List(items, true)).Ok? <==>
      forall j :: 1 <= j < |items| ==> AlignRow(lib, items[j], NamesOf(items[0].entries)).Ok?
    ensures Compile(lib, query, List(items, true)).Ok? ==>
      BatchResult(lib, query, items, Compile(lib, query, List(items, true)).value)
    ensures Compile(lib, query, List(items, true)).Err? ==>
      exists j :: FirstFailingAt(lib, items, j, Compile(lib, query, List(items, true)).error)
    ensures Compile(lib, query, List(items, true)).Ok? ==>
      Compile(lib, query, List(items, true)).value.text == Compile(lib, query, Dict(items[0].entries, true)).value.text
  {
    var keys := NamesOf(items[0].entries);
    var rest := items[1..];
    AlignRowsSpec(lib, rest, keys);
    assert forall j :: 1 <= j < |items| ==> rest[j - 1] == items[j];
    var r := AlignRows(lib, rest, keys);
    if r.Err? {
      BatchFails(lib, items, r.error);
    } else {
      FirstRowAligned(lib, items[0].entries, items[0].exact);
      var c := Compiled(RewriteAll(query, keys), Nested([CompileEntries(lib, items[0].entries)] + r.value));
      assert Compile(lib, query, List(items, true)) == Ok(c);
      BatchRows(lib, query, items, r.value, c);
    }
  }

  /** With distinct keys, the first dict projected onto its own keys is its
      coerced values in order. */
  lemma {:induction false} FirstRowAligned(lib: Stdlib, first: Entries, exact: bool)
    requires DistinctNames(first)
    ensures AlignRow(lib, Dict(first, exact), NamesOf(first)) == Ok(CompileEntries(lib, first))
  {
    var keys := NamesOf(first);
    forall t | 0 <= t < |keys| ensures Lookup(first, keys[t]) == Some(first[t].1) {
      LookupDistinct(first, t);
    }
    if |keys| > 0 {
      ProjectKeysOk(lib, first, keys);
      assert ProjectKeys(lib, first, keys).value == CompileEntries(lib, first);
    }
  }

  lemma {:induction false} BatchFails(lib: Stdlib, items: seq<Value>, e: PyError)
    requires |items| > 0 && items[0].Dict?
    requires exists j :: (0 <= j < |items[1..]| && AlignRow(lib, items[1..][j], NamesOf(items[0].entries)) == Err(e)
      && forall t :: 0 <= t < j ==> AlignRow(lib, items[1..][t], NamesOf(items[0].entries)).Ok?)
    ensures exists j :: FirstFailingAt(lib, items, j, e)
  {
    var keys := NamesOf(items[0].entries);
    var rest := items[1..];
    var j :| 0 <= j < |rest| && AlignRow(lib, rest[j], keys) == Err(e)
             && forall t :: 0 <= t < j ==> AlignRow(lib, rest[t], keys).Ok?;
    assert forall t :: 1 <= t <= j + 1 ==> rest[t - 1] == items[t];
    assert FirstFailingAt(lib, items, j + 1, e);
  }

  lemma {:induction false} BatchRows(lib: Stdlib, query: string, items: seq<Value>, later: seq<seq<Value>>, c: Compiled)
    requires |items| > 0 && items[0].Dict?
    requires |later| == |items| - 1
    requires forall j :: 0 <= j < |later| ==> Ok(later[j]) == AlignRow(lib, items[1..][j], NamesOf(items[0].entries))
    requires AlignRow(lib, items[0], NamesOf(items[0].entries)) == Ok(CompileEntries(lib, items[0].entries))
    requires c == Compiled(RewriteAll(query, NamesOf(items[0].entries)), Nested([CompileEntries(lib, items[0].entries)] + later))
    ensures BatchResult(lib, query, items, c)
  {
    var rows := c.args.rows;
    forall j | 1 <= j < |items| ensures Ok(rows[j]) == AlignRow(lib, items[j], NamesOf(items[0].entries)) {
      assert rows[j] == later[j - 1] && items[1..][j - 1] == items[j];
    }
  }

  /** The error and fall-through cases of the dispatch at utils.py:24-45. */
  lemma CompileDispatch(lib: Stdlib, query: string, values: Value)
    ensures values == List([], true) ==> Compile(lib, query, values) == Err(IndexError)
    ensures values.List? && values.exact && |values.items| > 0 && !values.items[0].Dict?
        ==> Compile(lib, query, values) == Err(AttributeError)
    ensures !((values.Dict? || values.List?) && values.exact)
        ==> Compile(lib, query, values) == Ok(Compiled(query, Flat([])))
    ensures Compile(lib, query, values).Err? ==> values.List? && values.exact
  {
  }

  /** With key `id`, the placeholder `:id2` is left alone, as the lookahead demands. */
  lemma ExampleLongerName(lib: Stdlib)
    ensures Compile(lib, "id = :id2", Dict([("id", Int(5))], true))
         == Ok(Compiled("id = :id2", Flat([Int(5)])))
  {
    var e := [("id", Int(5))];
    assert Compile(lib, "id = :id2", Dict(e, true))
        == Ok(Compiled(RewriteAll("id = :id2", NamesOf(e)), Flat(CompileEntries(lib, e))));
    assert NamesOf(e) == ["id"];
    RewriteLongerName();
    assert CompileEntries(lib, e) == [Int(5)];
  }

  /** A doubled colon keeps one colon before the positional token. */
  lemma ExampleDoubledColon(lib: Stdlib)
    ensures Compile(lib, "::id", Dict([("id", Int(5))], true))
         == Ok(Compiled(":$1", Flat([Int(5)])))
  {
    var e := [("id", Int(5))];
    assert Compile(lib, "::id", Dict(e, true))
        == Ok(Compiled(RewriteAll("::id", NamesOf(e)), Flat(CompileEntries(lib, e))));
    assert NamesOf(e) == ["id"];
    RewriteDoubledColon();
    assert CompileEntries(lib, e) == [Int(5)];
  }

  /** Keys are numbered in dict order wherever their placeholders stand. */
  lemma ExampleKeyOrder(lib: Stdlib)
    ensures Compile(lib, ":b,:a", Dict([("a", Int(1)), ("b", Int(2))], true))
         == Ok(Compiled("$2,$1", Flat([Int(1), Int(2)])))
  {
    var e := [("a", Int(1)), ("b", Int(2))];
    assert Compile(lib, ":b,:a", Dict(e, true))
        == Ok(Compiled(RewriteAll(":b,:a", NamesOf(e)), Flat(CompileEntries(lib, e))));
    assert NamesOf(e) == ["a", "b"];
    RewriteKeyOrder();
    assert CompileEntries(lib, e) == [Int(1), Int(2)];
  }

  /** The later dict of `ExampleBatchReordered`, re-projected. */
  lemma ReorderedRow(lib: Stdlib)
    ensures AlignRows(lib, [Dict([("b", Int(20)), ("a", Int(10))], true)], ["a", "b"]) == Ok([[Int(10), Int(20)]])
  {
    var later, keys := [("b", Int(20)), ("a", Int(10))], ["a", "b"];
    assert AlignRow(lib, Dict(later, true), keys) == Ok([Int(10), Int(20)]) by {
      assert ProjectKeys(lib, later, ["a"]) == Ok([Int(10)]) by {
        assert Lookup(later, "a") == Some(Int(10)) by { assert later[1..] == [("a", Int(10))]; }
        assert ["a"][..0] == [];
        assert ProjectKeys(lib, later, ["a"][..0]) == Ok([]);
        assert [] + [CompileValue(lib, Int(10))] == [Int(10)];
      }
      assert Lookup(later, "b") == Some(Int(20));
      assert keys[..1] == ["a"];
      assert ProjectKeys(lib, later, keys) == Ok([Int(10)] + [Int(20)]);
      assert [Int(10)] + [Int(20)] == [Int(10), Int(20)];
    }
    var rest := [Dict(later, true)];
    assert rest[..0] == [];
    assert AlignRows(lib, rest[..0], keys) == Ok([]);
    assert [] + [[Int(10), Int(20)]] == [[Int(10), Int(20)]];
  }

  /** A batch of two elements whose second aligns with the first. */
  lemma CompilePair(lib: Stdlib, query: string, first: Entries, second: Value, keys: seq<string>, text: string, row0: seq<Value>, row1: seq<Value>)
    requires NamesOf(first) == keys && RewriteAll(query, keys) == text && CompileEntries(lib, first) == row0
    requires AlignRows(lib, [second], keys) == Ok([row1])
    ensures Compile(lib, query, List([Dict(first, true), second], true)) == Ok(Compiled(text, Nested([row0, row1])))
  {
    var items := [Dict(first, true), second];
    assert items[1..] == [second];
    assert [row0] + [row1] == [row0, row1];
  }

  /** A later dict listing the keys in another order is re-projected onto
      the first dict's order. */
  lemma ExampleBatchReordered(lib: Stdlib)
    ensures Compile(lib, ":a,:b", List([Dict([("a", Int(1)), ("b", Int(2))], true),
                                        Dict([("b", Int(20)), ("a", Int(10))], true)], true))
         == Ok(Compiled("$1,$2", Nested([[Int(1), Int(2)], [Int(10), Int(20)]])))
  {
    var first := [("a", Int(1)), ("b", Int(2))];
    assert NamesOf(first) == ["a", "b"];
    assert CompileEntries(lib, first) == [Int(1), Int(2)];
    ReorderedRow(lib);
    RewriteInOrder();
    CompilePair(lib, ":a,:b", first, Dict([("b", Int(20)), ("a", Int(10))], true), ["a", "b"], "$1,$2",
                [Int(1), Int(2)], [Int(10), Int(20)]);
  }

  /** A later dict lacking a key of the first raises KeyError naming it. */
  lemma ExampleBatchMissingKey(lib: Stdlib)
    ensures Compile(lib, ":a,:b", List([Dict([("a", Int(1)), ("b", Int(2))], true),
                                        Dict([("b", Int(20))], true)], true))
         == Err(KeyError("a"))
  {
    var first, short := [("a", Int(1)), ("b", Int(2))], [("b", Int(20))];
    var keys := NamesOf(first);
    assert keys == ["a", "b"];
    assert ProjectKeys(lib, short, keys) == Err(KeyError("a")) by {
      assert Lookup(short, "a") == None by { assert short[1..] == []; }
      assert ["a"][..0] == [] && keys[..1] == ["a"];
      assert ProjectKeys(lib, short, ["a"]) == Err(KeyError("a"));
    }
    var items := [Dict(first, true), Dict(short, true)];
    var rest := items[1..];
    assert rest == [Dict(short, true)] && rest[..0] == [];
    assert AlignRows(lib, rest[..0], keys) == Ok([]);
    assert AlignRows(lib, rest, keys) == Err(KeyError("a"));
  }
}
