# fastpg in Dafny

A model of the core of fastpg, a thin async layer over the asyncpg
PostgreSQL driver, with proofs about that model. The model covers:

- **The query compiler** (`src/fastpg/utils.py`). `compile_value` coerces a
  dict or list to JSON text, a UUID to its string form and an Enum member to its
  `.value`. `compile_query` rewrites `:name` placeholders to positional `$i`
  tokens, numbered in the dict's insertion order. For a list of dicts it
  re-projects every later dict onto the key order of the first.
  - `Placeholders` models one `re.sub(":k(?![_a-zA-Z0-9])", "$i", q)` as
    `Substitute`, and the loop over the keys as `RewriteAll`. It also gives
    an independent one-pass reference, `SubstituteAll`: at each position,
    the first key whose placeholder starts there with a boundary becomes its
    token, and every other character is copied. `RewriteAllIsSubstituteAll`
    proves that the sequential rewrite equals this reference when no key
    contains `:` or `$`. `SequentialDiffersForColonKeys` shows that the
    condition is needed.
  - `Utils` holds `Compile`, the specification of what `compile_query`
    returns or raises. `CompileQuery` is the source's loops, proved equal to
    `Compile`. The lemmas beside them state what `Compile` means: argument
    order, the batch's column alignment, and which later element decides the
    exception.
- **The result row view `Record`** (`src/fastpg/core.py:12-47`). This is
  `Records`: name and position lookup, `keys`/`values`/`items`/`len`/`iter`,
  attribute access, and the `Mapping` mixins `in` and `get`. Driver UUIDs are
  surfaced as strings.
- **The connection layer** (`src/fastpg/core.py:50-204`). This is `Core`:
  - `Connection` has the query methods, the `fetch_one`/`fetch_many`
    wrapping, `copy_records_to_table` and `transaction`.
  - `Database` is a state machine over `pool` / `globalConnection`. It has
    the asserted `connect`/`disconnect`, the `connection()` scope in both
    modes, and the convenience methods.
  - Every call into asyncpg is an `Event` appended to the `Driver`'s log.
    What the driver hands back is a parameter of the method: a new connection
    or pool, a status string, a value, a row or a list of rows. A ghost
    multiset `held` counts the pool connections that open scopes hold.

Python exceptions are the `PyError` values of the `Python` module, carried in a
`Result`. `json.dumps` and `str(uuid)` are the two uninterpreted functions of
`Values.Stdlib`.

The model follows the code as written:

- The constructor takes a DSN only (core.py:51).
- In force-rollback mode, the `finally: return` of `connection()`
  (core.py:88-91) swallows an exception raised by the body. The scope then
  ends normally after its rollback.
- In pool mode, a scope still open when `disconnect` runs fails on leaving
  with AttributeError, because it releases to `self._pool`, which is now None.
  That AttributeError replaces the body's own exception.
- The convenience methods assert that the pool exists (core.py:102-133). So
  they fail in force-rollback mode instead of using the global connection.
- `fetch_one` tests the row's truth value (core.py:167). So a row with no
  columns also gives None, not a `Record`.
- In a batch, the keys that later dicts hold beyond those of the first are
  ignored. When the first dict has at least one key, a later element that is
  not a mapping fails with TypeError. When it has none, nothing is
  subscripted, so `[{}, 5]` gives two empty rows. Only a
  value whose type is exactly `dict` or exactly `list` is compiled. `None`
  and subclasses are returned unchanged with an empty argument list. The
  guard `type(values) is None` (utils.py:22) never holds.

## Model

| member | source | states |
|---|---|---|
| Values.NamesOf | src/fastpg/core.py:31-32 | the names of a row or dict, one per entry, in entry order |
| Values.Lookup | src/fastpg/core.py:20 | lookup by name finds a value exactly when some entry has that name |
| Values.LookupDistinct | src/fastpg/core.py:20 | with distinct names, looking up the name of entry i yields entry i's value |
| Values.LookupPrefix | src/fastpg/utils.py:42 | a name found in a mapping is found with the same value after more entries are appended |
| Placeholders.Placeholder | src/fastpg/utils.py:30 | the placeholder of key k is a colon followed by exactly k |
| Placeholders.Decimal | src/fastpg/utils.py:30 | the decimal text of an index is non-empty and made of digits |
| Placeholders.Positional | src/fastpg/utils.py:30 | a positional token starts with `$` and holds no colon |
| Placeholders.DecimalInjective | src/fastpg/utils.py:29-30 | distinct indices get distinct tokens |
| Placeholders.FirstMatch | src/fastpg/utils.py:30 | the first key whose placeholder starts the text with a boundary after it; no earlier key does |
| Placeholders.UniqueMatch | src/fastpg/utils.py:30 | two identifier keys whose placeholders both match at one position are the same key: the lookahead rules out a shorter key matching inside a longer one |
| Placeholders.NoMatchWithoutColon | src/fastpg/utils.py:30 | no placeholder matches where the text does not start with a colon |
| Placeholders.FirstMatchAppend | src/fastpg/utils.py:29-30 | a key added at the end never displaces an earlier key's match |
| Placeholders.Substitute | src/fastpg/utils.py:30 | one `re.sub` for one key: the placeholder with a boundary after it becomes the token, every other character is copied |
| Placeholders.RewriteAll | src/fastpg/utils.py:29-30 | the loop over the keys: key i is rewritten to `$(i+1)` on the text the earlier keys left |
| Placeholders.SubstituteAll | src/fastpg/utils.py:29-31 | one-pass reference: at each position the first matching key is replaced, else the character is copied |
| Placeholders.SubstituteAllNoKeys | src/fastpg/utils.py:25-31 | with no keys the text is unchanged |
| Placeholders.SubstituteAllNoColon | src/fastpg/utils.py:29-31 | text without a colon is unchanged, whatever the keys |
| Placeholders.SubstituteNoColonPrefix | src/fastpg/utils.py:30 | one `re.sub` copies a colon-free prefix and continues after it |
| Placeholders.PlaceholderSplit | src/fastpg/utils.py:30 | a matching placeholder is a colon followed by the key |
| Placeholders.BoundedPreserved | src/fastpg/utils.py:29-30 | the rewrite keeps or removes a bounded occurrence of a word without `:` or `$` exactly as its input has it, so the substitution of a later key sees the same matches |
| Placeholders.SubstituteAllPlainPrefix | src/fastpg/utils.py:29-31 | a plain word at the front of the text is copied to the front of the result |
| Placeholders.SubstituteAllAppend | src/fastpg/utils.py:29-30 | for a key k without `:` or `$`, one more `re.sub` for k with `$(n+1)`, applied to the one-pass result over n keys, is the one-pass result over n+1 keys |
| Placeholders.RewriteAllIsSubstituteAll | src/fastpg/utils.py:29-30 | for keys without `:` or `$`, the key-by-key `re.sub` loop equals the one-pass rewrite in which the i-th key's bounded placeholder becomes `$i` and all other text is kept |
| Placeholders.SequentialDiffersForColonKeys | src/fastpg/utils.py:29-30 | with keys `b`, `a:b` the loop turns `:a:b` into `:a$1` and the one-pass rewrite gives `$2`, so the condition on keys is needed |
| Placeholders.RewriteOne | src/fastpg/utils.py:29-30 | with one key the loop is one substitution by `$1` |
| Placeholders.RewriteTwo | src/fastpg/utils.py:29-30 | with two keys the loop substitutes `$1` for the first, then `$2` for the second |
| Placeholders.SubstituteCopy | src/fastpg/utils.py:30 | a character that begins no bounded placeholder is copied |
| Placeholders.SubstituteHit | src/fastpg/utils.py:30 | a placeholder followed by a non-identifier character or the end is replaced |
| Placeholders.RewriteLongerName | src/fastpg/utils.py:30 | with key `id`, `:id2` is left intact |
| Placeholders.RewriteDoubledColon | src/fastpg/utils.py:30 | there is no lookbehind: `::id` becomes `:$1` |
| Placeholders.RewriteKeyOrder | src/fastpg/utils.py:29-30 | numbering follows key order, not text order: `:b,:a` with keys a, b becomes `$2,$1` |
| Placeholders.RewriteInOrder | src/fastpg/utils.py:29-30 | `:a,:b` with keys a, b becomes `$1,$2` |
| Utils.CompileValue | src/fastpg/utils.py:9-17 | dict or list (subclasses included) to JSON text, UUID to its string, Enum member to its value, anything else unchanged; the result of a non-member needs no further coercion |
| Utils.CompileValueIdempotent | src/fastpg/utils.py:9-17 | coercing twice equals coercing once exactly when the value is not an Enum member whose value needs coercion: the coercion is one level deep |
| Utils.CompileEntries | src/fastpg/utils.py:29-31 | one argument per key, even a key the query never mentions: the coerced value of entry i at position i |
| Utils.Compile | src/fastpg/utils.py:20-45 | `compile_query`: no values, a mapping, or a batch whose first element fixes the keys; the error of the first failing step |
| Utils.ProjectKeys | src/fastpg/utils.py:41-42 | a successful projection has one value per key |
| Utils.ProjectKeysPrefixErr | src/fastpg/utils.py:41-42 | once the subscript of one key fails, the later keys change nothing |
| Utils.ProjectKeysOk | src/fastpg/utils.py:41-42 | the projection succeeds iff every key is present; position t holds the coerced value of key t |
| Utils.ProjectKeysErr | src/fastpg/utils.py:42 | a failed projection raises KeyError naming the first missing key |
| Utils.AlignRow | src/fastpg/utils.py:40-43 | a later element's row has one value per key of the first element |
| Utils.AlignRows | src/fastpg/utils.py:38-43 | one row per later element |
| Utils.AlignRowsSpec | src/fastpg/utils.py:38-43 | the later elements all align iff each does; row j is element j's projection; otherwise the exception is that of the first element that fails |
| Utils.AlignRowsOk | src/fastpg/utils.py:38-43 | the success half of `AlignRowsSpec` |
| Utils.AlignRowsErr | src/fastpg/utils.py:38-43 | the failure half of `AlignRowsSpec` |
| Utils.RewriteEntries | src/fastpg/utils.py:28-31 | the rewrite loop yields the key-by-key rewrite and the coerced values in key order |
| Utils.ProjectValueSet | src/fastpg/utils.py:40-43 | the inner loop over the first element's keys yields that element's row or its exception |
| Utils.ProjectBatch | src/fastpg/utils.py:38-43 | the loop over the later elements yields their rows or the first exception |
| Utils.CompileQuery | src/fastpg/utils.py:20-45 | `compile_query` as written returns or raises what `Compile` specifies |
| Utils.FirstFailure | src/fastpg/utils.py:38-43 | when the first j later elements align and element j fails, the batch fails with element j's exception |
| Utils.AlignRowSpec | src/fastpg/utils.py:40-42 | a later element aligns iff there are no keys or it is a mapping holding every key; row position t is the coerced value of key t; TypeError iff the first element has a key and this one is not a mapping; a KeyError names the first missing key |
| Utils.ExtraKeysIgnored | src/fastpg/utils.py:41-42 | keys a later element holds beyond the first element's are ignored |
| Utils.CompilePoint | src/fastpg/utils.py:28-31 | a single dict with plain keys compiles to the one-pass rewrite and the coerced values in key order |
| Utils.CompileBatch | src/fastpg/utils.py:33-43 | a list of dicts compiles iff every later element aligns; the text is the single-dict text of the first dict; there is one row per element, each the projection onto the first dict's keys; otherwise the first failing later element decides the exception |
| Utils.FirstRowAligned | src/fastpg/utils.py:35-37 | the first dict's own row is its projection onto its own keys |
| Utils.CompileDispatch | src/fastpg/utils.py:20-45 | an empty list raises IndexError; a list whose first element is not a dict raises AttributeError; None, subclasses and other values give the text unchanged with no arguments; only an exact list can raise |
| Utils.ExampleLongerName | src/fastpg/utils.py:28-31 | `{"id": 5}` against `id = :id2` leaves the text and passes `[5]` |
| Utils.ExampleDoubledColon | src/fastpg/utils.py:28-31 | `{"id": 5}` against `::id` gives `:$1` |
| Utils.ExampleKeyOrder | src/fastpg/utils.py:28-31 | `{"a": 1, "b": 2}` against `:b,:a` gives `$2,$1` with `[1, 2]` |
| Utils.ReorderedRow | src/fastpg/utils.py:39-43 | a later dict `{"b": 20, "a": 10}` aligns to `[10, 20]` under keys a, b |
| Utils.ExampleBatchReordered | src/fastpg/utils.py:33-43 | `[{"a": 1, "b": 2}, {"b": 20, "a": 10}]` gives rows `[[1, 2], [10, 20]]` |
| Utils.ExampleBatchMissingKey | src/fastpg/utils.py:42 | a later dict lacking `a` raises KeyError on `a` |
| Records.Surface | src/fastpg/core.py:24-26 | a value handed out is never a driver UUID |
| Records.Position | src/fastpg/core.py:22 | a Python index in range names position i, or i + len when negative |
| Records.Get | src/fastpg/core.py:18-26 | a name lookup never raises; an integer succeeds exactly in range, else IndexError; no UUID is handed out |
| Records.GetAttr | src/fastpg/core.py:12-29 | a name found on the class or its bases (its methods and slot, the `Mapping` mixins, the attributes of every object) is that member; any other name is a column |
| Records.Keys | src/fastpg/core.py:31-32 | the column names in row order |
| Records.Vals | src/fastpg/core.py:34-35 | one value per column, none a UUID |
| Records.Items | src/fastpg/core.py:37-38 | one item per column |
| Records.Length | src/fastpg/core.py:40-41 | `len(record)` is the number of columns |
| Records.Truthy | src/fastpg/core.py:167 | the driver's row is true exactly when it has a column |
| Records.Iter | src/fastpg/core.py:46-47 | iteration has `len(record)` elements |
| Records.Contains | src/fastpg/core.py:12-26 | `in` never answers False: `_get` raises no KeyError |
| Records.GetOr | src/fastpg/core.py:12-26 | `get(key, default)` is the subscript: its default is never used |
| Records.ViewsAligned | src/fastpg/core.py:31-47 | keys, values, items and len agree; iteration yields the keys; item i is key i with the lookup of key i |
| Records.ItemsUnzip | src/fastpg/core.py:37-38 | unzipping the items gives keys and values |
| Records.UnknownColumn | src/fastpg/core.py:18-29 | an unknown column gives None by subscript, `get` and attribute |
| Records.AttributeIsLookup | src/fastpg/core.py:28-29 | attribute access is string-key lookup for every non-member name |
| Records.NameAgreesWithPosition | src/fastpg/core.py:18-26 | with distinct columns, the name, the index and the negative index of column i give its value |
| Records.ValsInColumnOrder | src/fastpg/core.py:34-35 | with distinct columns, the values are the row's values in column order |
| Records.UuidSurfacedAsString | src/fastpg/core.py:24-26 | a UUID column reads as its string, any other value as it is |
| Records.ContainsSpec | src/fastpg/core.py:12-26 | `in` is true for every name and for exactly the in-range integers; others raise IndexError |
| Core.Sent | src/fastpg/core.py:149-150 | a query method makes one driver call with the compiled text and arguments when compilation succeeds, none when it raises |
| Core.Reply | src/fastpg/core.py:147-174 | a query method returns the driver's answer when compilation succeeds, the compilation's exception otherwise |
| Core.WrapRow | src/fastpg/core.py:165-167 | `fetch_one` gives a `Record` of the row iff the driver returned a row with a column |
| Core.WrapRows | src/fastpg/core.py:172-174 | `fetch_many` gives one `Record` per driver row, in order |
| Core.CoerceRecords | src/fastpg/core.py:184-188 | every value of every record is coerced, shape kept |
| Core.TransactionEnding | src/fastpg/core.py:196-204 | commit iff the body ended normally without forced rollback; rollback otherwise |
| Core.PoolScope | src/fastpg/core.py:93-99 | a pool scope is one acquire, the body's calls, one release of the same connection |
| Core.Connection.constructor | src/fastpg/core.py:141-142 | wraps one driver connection |
| Core.Connection.Dispatch | src/fastpg/core.py:149-150 | compiles, then sends the compiled call exactly when compilation succeeded |
| Core.Connection.Execute | src/fastpg/core.py:147-150 | the status, or the compilation's exception; logs the call |
| Core.Connection.ExecuteMany | src/fastpg/core.py:152-155 | nothing, or the compilation's exception; logs the call |
| Core.Connection.FetchVal | src/fastpg/core.py:157-160 | the driver's value, or the compilation's exception; logs the call |
| Core.Connection.FetchOne | src/fastpg/core.py:162-167 | the wrapped row, or the compilation's exception; logs the call |
| Core.Connection.FetchMany | src/fastpg/core.py:169-174 | the wrapped rows, or the compilation's exception; logs the call |
| Core.Connection.CopyRecordsToTable | src/fastpg/core.py:176-188 | one copy call with the coerced records |
| Core.Connection.TransactionStart | src/fastpg/core.py:192-193 | one start |
| Core.Connection.TransactionFinish | src/fastpg/core.py:194-204 | exactly one commit or rollback, chosen by `TransactionEnding`; the body's exception is raised again |
| Core.Connection.Transaction | src/fastpg/core.py:190-204 | start, the body's calls, then exactly one outcome |
| Core.Database.constructor | src/fastpg/core.py:51-57 | not connected: neither field set |
| Core.Database.Connect | src/fastpg/core.py:59-66 | fails with "Database already connected" iff the mode's field is set; otherwise sets exactly that field and logs one open; the other field is untouched |
| Core.Database.Disconnect | src/fastpg/core.py:68-80 | fails with "Database is not connected" iff the mode's field is unset; otherwise closes, terminates when the close does not finish in time, and resets the field either way |
| Core.Database.EnterConnection | src/fastpg/core.py:82-95 | asserts the mode's field; force mode starts a transaction on the global connection; pool mode acquires one connection and counts it held |
| Core.Database.ExitConnection | src/fastpg/core.py:88-99 | force mode rolls back and swallows the body's exception; pool mode releases the same connection and re-raises, or raises AttributeError when the pool is gone |
| Core.Database.WithConnection | src/fastpg/core.py:82-99 | a whole scope: pool mode is exactly one acquire and one release of the same connection around the body, whatever the body did; force mode is start, body, rollback, ending normally; held connections are balanced |
| Core.Database.Execute | src/fastpg/core.py:101-104 | fails its assertion without a pool; otherwise one pool scope around the execute call, with `Connection.execute`'s outcome and no value |
| Core.Database.ExecuteMany | src/fastpg/core.py:106-109 | as `Execute`, for `executemany` |
| Core.Database.FetchVal | src/fastpg/core.py:111-114 | as `Execute`, returning the value |
| Core.Database.FetchOne | src/fastpg/core.py:116-119 | as `Execute`, returning the wrapped row |
| Core.Database.FetchMany | src/fastpg/core.py:121-124 | as `Execute`, returning the wrapped rows |
| Core.Database.CopyRecordsToTable | src/fastpg/core.py:126-137 | fails its assertion without a pool; otherwise one pool scope around one copy call |
| Core.OneFieldAtMost | src/fastpg/core.py:59-80 | at most one of the two state fields is set |
| Core.ForceRollbackHasNoPool | src/fastpg/core.py:59-63 | a force-rollback database never holds a pool, so every convenience method fails its assertion |

## Left out

- asyncpg itself (connect, create_pool, acquire/release, execute, fetch*, executemany, copy_records_to_table, transactions). This is foreign, network-bound code. Each call is an event in the driver's log, and what it returns is a parameter.
- Driver failures: every driver call here succeeds. The model does not cover a failing start, commit, rollback, release or close, or a query the server rejects.
- `asyncio.wait_for` in `disconnect` is wall-clock timing. It is the boolean `closedInTime`, and the timeout value is not modelled.
- `json.dumps` and `str(UUID)` are library formatting. They are the uninterpreted functions of `Stdlib`.
- Utils.CompileValue: the JSON encoder is total, so a `TypeError` from `json.dumps` on a value it cannot serialise is not modelled.
- Regular-expression semantics: keys are matched character for character. A key holding a regex metacharacter (it is not escaped at utils.py:30) behaves differently in the source.
- `re.sub`'s treatment of backslashes in the replacement: the tokens `$i` contain none.
- Placeholders.RewriteAllIsSubstituteAll: proved only for keys without `:` or `$`. `SequentialDiffersForColonKeys` shows why.
- Utils.AlignRow: a later batch element that is a dict subclass is looked up as a plain dict. A `__missing__` hook (`defaultdict`, `Counter`) or an overridden `__getitem__` is not modelled. So where the source subscripts such a dict and gets the hook's default, the model raises KeyError on the missing key.
- Utils.AlignRowSpec: inherits that gap. "Aligns iff every key is present" and "KeyError names the first missing key" are claims about plain dicts. They do not hold for a dict subclass with a `__missing__` hook.
- Utils.Compile: inherits that gap. For example, `[{"a": 1}, defaultdict(int)]` compiles to `[[1], [0]]` in the source but raises KeyError on `a` in the model.
- Only dicts are mappings. A custom `Mapping` as a later batch element counts as a non-mapping (TypeError). A first element that has `.items` without being a dict counts as lacking it (AttributeError).
- Duplicate column names in a driver row: which column a repeated name reaches is decided by asyncpg, which is not part of this model. The model's own choice is the first match. The lemmas that tie names to positions assume distinct names.
- `Record` keys other than `str` and `int` (a slice, a `str` subclass) are not modelled. The behaviour of the dunder methods themselves (`__eq__`, `__repr__`) is not modelled either; only their names are in `ClassMembers`.
- Records.GetAttr: `ClassMembers` lists the attributes of `Record` on CPython 3.11 and 3.12. From 3.13 on, every class also holds `__firstlineno__` and `__static_attributes__`, so the source finds them on the class. The model treats those two names as columns. More generally, a name that another interpreter version adds to the class, to `object` or to the `collections.abc` bases is a column here, and a name it drops is still a member.
- In a driver row, `Uuid` stands for asyncpg's own UUID type, the one `_get` tests for exactly (core.py:24). A standard `uuid.UUID` inside a row, which the source hands out unchanged, is not distinguished from it. As an argument to `compile_value` (utils.py:12), `Uuid` stands for any `uuid.UUID`, subclasses included.
- Connection's "Connection is not acquired" assertion (core.py:148-183) is not modelled. It never fires here: a `Connection` always wraps a driver connection.
- `Connection.close` (core.py:144-145) is I/O passthrough.
- Concurrency: interleaved scopes on one pool or on the shared force-rollback connection. Each scope is modelled as running alone.
- Whether writes made in a rolled-back scope stay invisible is database behaviour outside this layer.
