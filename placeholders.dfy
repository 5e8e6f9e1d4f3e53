/** The placeholder rewrite of `compile_query` (src/fastpg/utils.py:29-30 and
    35-36): for the i-th key `k` (1-based), `re.sub(":k(?![_a-zA-Z0-9])", "$i", q)`.
    The rewrite is modelled on literal text (a key is matched character for
    character), together with an independent one-pass reference definition
    and the proof that the sequence of substitutions the source performs
    equals it. */
module Placeholders {

  /** The characters of the lookahead class `[_a-zA-Z0-9]` (ASCII only). */
  predicate IsIdentChar(c: char) {
    c == '_' || ('a' <= c <= 'z') || ('A' <= c <= 'Z') || ('0' <= c <= '9')
  }

  /** `s` begins with `w`, and the character after `w`, if there is one, is
      not an identifier character: the lookahead `(?![_a-zA-Z0-9])` succeeds. */
  predicate StartsBounded(s: string, w: string) {
    w <= s && (|s| == |w| || !IsIdentChar(s[|w|]))
  }

  /** The named placeholder of key `k`. */
  function Placeholder(k: string): (p: string)
    ensures |p| == |k| + 1 && p[0] == ':' && p[1..] == k
  {
    ":" + k
  }

  /** A key for which the rewrite behaves as a simultaneous substitution: it
      contains neither the placeholder sigil nor the positional one. */
  predicate PlainKey(k: string) {
    forall i :: 0 <= i < |k| ==> k[i] != ':' && k[i] != '$'
  }

  /** A key made of identifier characters only, as a Python identifier in ASCII is. */
  predicate IdentKey(k: string) {
    forall i :: 0 <= i < |k| ==> IsIdentChar(k[i])
  }

  function DigitChar(d: nat): (c: char)
    requires d < 10
    ensures '0' <= c <= '9'
  {
    "0123456789"[d]
  }

  /** The decimal text of `n`, as `f"{n}"` writes it. */
  function Decimal(n: nat): (s: string)
    ensures |s| > 0
    ensures forall i :: 0 <= i < |s| ==> '0' <= s[i] <= '9'
    decreases n
  {
    if n < 10 then [DigitChar(n)] else Decimal(n / 10) + [DigitChar(n % 10)]
  }

  /** The positional token `$n`. */
  function Positional(n: nat): (s: string)
    ensures |s| > 0 && s[0] == '$'
    ensures forall i :: 0 <= i < |s| ==> s[i] != ':'
  {
    "$" + Decimal(n)
  }

  /** Decimal texts of distinct numbers differ, so distinct indices get distinct tokens. */
  lemma {:induction false} DecimalInjective(a: nat, b: nat)
    requires Decimal(a) == Decimal(b)
    ensures a == b
    decreases a
  {
    if a < 10 || b < 10 {
      assert a < 10 && b < 10;
      assert "0123456789"[a] == Decimal(a)[0] == Decimal(b)[0] == "0123456789"[b];
    } else {
      var da, db := Decimal(a), Decimal(b);
      assert da[|da| - 1] == DigitChar(a % 10) && db[|db| - 1] == DigitChar(b % 10);
      assert a % 10 == b % 10;
      assert da[..|da| - 1] == Decimal(a / 10) && db[..|db| - 1] == Decimal(b / 10);
      DecimalInjective(a / 10, b / 10);
    }
  }

  /** One `re.sub` of the placeholder of `k` by `rep`: a left-to-right scan that
      replaces every non-overlapping occurrence the lookahead accepts. */
  function Substitute(s: string, k: string, rep: string): string
    decreases |s|
  {
    if s == [] then []
    else if StartsBounded(s, Placeholder(k)) then rep + Substitute(s[|Placeholder(k)|..], k, rep)
    else [s[0]] + Substitute(s[1..], k, rep)
  }

  /** The text after the rewrite loop has processed `keys` in order: the
      placeholder of the i-th key (0-based) is replaced by `$(i+1)`. */
  function RewriteAll(q: string, keys: seq<string>): string
    decreases |keys|
  {
    if keys == [] then q
    else Substitute(RewriteAll(q, keys[..|keys| - 1]), keys[|keys| - 1], Positional(|keys|))
  }

  /** The index of the first key whose placeholder starts `s` with a boundary,
      or `|keys|` when there is none. */
  function FirstMatch(s: string, keys: seq<string>): (j: nat)
    ensures j <= |keys|
    ensures j < |keys| ==> StartsBounded(s, Placeholder(keys[j]))
    ensures forall t :: 0 <= t < j ==> !StartsBounded(s, Placeholder(keys[t]))
    decreases |keys|
  {
    if keys == [] then 0
    else if StartsBounded(s, Placeholder(keys[0])) then 0
    else 1 + FirstMatch(s, keys[1..])
  }

  /** Reference definition: one scan of the text that, at each position where
      the placeholder of a key begins with a boundary, emits that key's
      positional token, and copies every other character. */
  function SubstituteAll(s: string, keys: seq<string>): string
    decreases |s|
  {
    if s == [] then []
    else
      var j := FirstMatch(s, keys);
      if j < |keys| then Positional(j + 1) + SubstituteAll(s[|Placeholder(keys[j])|..], keys)
      else [s[0]] + SubstituteAll(s[1..], keys)
  }

  /** Keys made of identifier characters that are pairwise distinct never
      compete: at most one of them matches at any position. */
  lemma {:induction false} UniqueMatch(s: string, keys: seq<string>, a: nat, b: nat)
    requires forall t :: 0 <= t < |keys| ==> IdentKey(keys[t])
    requires a < |keys| && b < |keys|
    requires StartsBounded(s, Placeholder(keys[a])) && StartsBounded(s, Placeholder(keys[b]))
    ensures keys[a] == keys[b]
  {
    var ka, kb := keys[a], keys[b];
    assert forall i :: 0 <= i < |ka| ==> ka[i] == s[i + 1];
    assert forall i :: 0 <= i < |kb| ==> kb[i] == s[i + 1];
    assert |ka| == |kb|;
  }

  /** A string that does not start with `:` holds no placeholder at its front. */
  lemma {:induction false} NoMatchWithoutColon(s: string, keys: seq<string>)
    requires s != [] && s[0] != ':'
    ensures FirstMatch(s, keys) == |keys|
  {
  }

  /** Adding a key at the end leaves earlier matches alone. */
  lemma {:induction false} FirstMatchAppend(s: string, keys: seq<string>, k: string)
    ensures FirstMatch(s, keys + [k]) ==
      if FirstMatch(s, keys) < |keys| then FirstMatch(s, keys)
      else if StartsBounded(s, Placeholder(k)) then |keys|
      else |keys| + 1
  {
    var ks := keys + [k];
    var j, j' := FirstMatch(s, keys), FirstMatch(s, ks);
    assert forall t :: 0 <= t < |keys| ==> ks[t] == keys[t];
    assert ks[|keys|] == k;
  }

  /** Without keys the reference copies the text. */
  lemma {:induction false} SubstituteAllNoKeys(s: string)
    ensures SubstituteAll(s, []) == s
    decreases |s|
  {
    if s != [] {
      SubstituteAllNoKeys(s[1..]);
    }
  }

  /** Text holding no `:` is left as it is, whatever the keys. */
  lemma {:induction false} SubstituteAllNoColon(s: string, keys: seq<string>)
    requires forall i :: 0 <= i < |s| ==> s[i] != ':'
    ensures SubstituteAll(s, keys) == s
    decreases |s|
  {
    if s != [] {
      NoMatchWithoutColon(s, keys);
      SubstituteAllNoColon(s[1..], keys);
    }
  }

  /** A prefix holding no `:` passes through one substitution unchanged. */
  lemma {:induction false} SubstituteNoColonPrefix(a: string, t: string, k: string, rep: string)
    requires forall i :: 0 <= i < |a| ==> a[i] != ':'
    ensures Substitute(a + t, k, rep) == a + Substitute(t, k, rep)
    decreases |a|
  {
    if a != [] {
      var s := a + t;
      assert s[0] == a[0] && s[0] != Placeholder(k)[0];
      assert !StartsBounded(s, Placeholder(k));
      assert Substitute(s, k, rep) == [s[0]] + Substitute(s[1..], k, rep);
      assert s[1..] == a[1..] + t;
      SubstituteNoColonPrefix(a[1..], t, k, rep);
      assert [a[0]] + (a[1..] + Substitute(t, k, rep)) == ([a[0]] + a[1..]) + Substitute(t, k, rep);
      assert [a[0]] + a[1..] == a;
    } else {
      assert a + t == t;
    }
  }

  /** A bounded placeholder is a `:` followed by its key. */
  lemma {:induction false} PlaceholderSplit(s: string, k: string)
    requires StartsBounded(s, Placeholder(k))
    ensures s != [] && s[0] == ':' && k <= s[1..]
  {
    var p := Placeholder(k);
    assert s[0] == p[0];
    assert s[1..|p|] == p[1..];
  }

  lemma {:induction false} StartsBoundedCons(x: string, w: string)
    requires w != []
    ensures StartsBounded(x, w) <==> (x != [] && x[0] == w[0] && StartsBounded(x[1..], w[1..]))
  {
    if x != [] && x[0] == w[0] {
      if w[1..] <= x[1..] {
        assert w == [w[0]] + w[1..];
        assert x[..|w|] == [x[0]] + x[1..][..|w| - 1];
      }
      if w <= x {
        assert w[1..] == x[1..][..|w| - 1];
      }
    }
  }

  /** The reference output begins with a plain word followed by a boundary
      exactly when its input does: tokens start with `$`, placeholders with
      `:`, and neither can occur inside a plain word. */
  lemma {:induction false} BoundedPreserved(s: string, keys: seq<string>, w: string)
    requires PlainKey(w)
    ensures StartsBounded(SubstituteAll(s, keys), w) <==> StartsBounded(s, w)
    decreases |w|
  {
    var out := SubstituteAll(s, keys);
    if s == [] {
    } else {
      var j := FirstMatch(s, keys);
      if j < |keys| {
        assert s[0] == ':' by { assert Placeholder(keys[j])[0] == ':'; }
        assert out == Positional(j + 1) + SubstituteAll(s[|Placeholder(keys[j])|..], keys);
        assert out[0] == '$';
        if w != [] {
          assert w[0] != ':' && w[0] != '$';
          StartsBoundedCons(out, w);
          StartsBoundedCons(s, w);
        }
      } else {
        assert out == [s[0]] + SubstituteAll(s[1..], keys);
        if w != [] {
          StartsBoundedCons(out, w);
          StartsBoundedCons(s, w);
          assert out[1..] == SubstituteAll(s[1..], keys);
          BoundedPreserved(s[1..], keys, w[1..]);
        }
      }
    }
  }

  /** A plain word at the front of the input is copied to the front of the output. */
  lemma {:induction false} SubstituteAllPlainPrefix(s: string, keys: seq<string>, w: string)
    requires PlainKey(w) && w <= s
    ensures SubstituteAll(s, keys) == w + SubstituteAll(s[|w|..], keys)
    decreases |w|
  {
    if w != [] {
      SubstituteAllCopy(s, keys);
      var w' := w[1..];
      PlainSuffix(s, w);
      SubstituteAllPlainPrefix(s[1..], keys, w');
      assert s[1..][|w'|..] == s[|w|..];
      JoinFront(SubstituteAll(s, keys), SubstituteAll(s[1..], keys), w, SubstituteAll(s[|w|..], keys));
    }
  }

  /** A first character other than `:` is copied by the reference. */
  lemma {:induction false} SubstituteAllCopy(s: string, keys: seq<string>)
    requires s != [] && s[0] != ':'
    ensures SubstituteAll(s, keys) == [s[0]] + SubstituteAll(s[1..], keys)
  {
    NoMatchWithoutColon(s, keys);
  }

  /** Dropping the first character of a plain word that starts `s`. */
  lemma {:induction false} PlainSuffix(s: string, w: string)
    requires PlainKey(w) && w <= s && w != []
    ensures s[0] == w[0] && s[0] != ':'
    ensures PlainKey(w[1..]) && w[1..] <= s[1..]
  {
    var w' := w[1..];
    forall i | 0 <= i < |w'| ensures w'[i] != ':' && w'[i] != '$' {
      assert w'[i] == w[i + 1];
    }
    assert s[1..][..|w'|] == s[1..|w|];
  }

  /** A character, then the rest of a word, then a tail: the word, then the tail. */
  lemma {:induction false} JoinFront(x: string, y: string, w: string, tail: string)
    requires w != [] && x == [w[0]] + y && y == w[1..] + tail
    ensures x == w + tail
  {
    assert [w[0]] + (w[1..] + tail) == ([w[0]] + w[1..]) + tail;
    assert [w[0]] + w[1..] == w;
  }

  /** One more substitution, for key `k` at position |keys|+1, on the reference
      output equals the reference over one more key. */
  predicate AppendHolds(s: string, keys: seq<string>, k: string) {
    Substitute(SubstituteAll(s, keys), k, Positional(|keys| + 1)) == SubstituteAll(s, keys + [k])
  }

  /** Step of SubstituteAllAppend where an earlier key matches at the front. */
  lemma {:induction false} AppendEarlierMatch(s: string, keys: seq<string>, k: string)
    requires s != [] && FirstMatch(s, keys) < |keys|
    requires AppendHolds(s[|Placeholder(keys[FirstMatch(s, keys)])|..], keys, k)
    ensures AppendHolds(s, keys, k)
  {
    var j := FirstMatch(s, keys);
    FirstMatchAppend(s, keys, k);
    var rest := s[|Placeholder(keys[j])|..];
    assert (keys + [k])[j] == keys[j];
    assert SubstituteAll(s, keys) == Positional(j + 1) + SubstituteAll(rest, keys);
    SubstituteNoColonPrefix(Positional(j + 1), SubstituteAll(rest, keys), k, Positional(|keys| + 1));
  }

  /** When no old key matches at the front of `s` but the new key does, the
      reference output over the old keys begins with the new key's placeholder. */
  lemma {:induction false} PlaceholderCopied(s: string, keys: seq<string>, k: string)
    requires PlainKey(k)
    requires s != [] && FirstMatch(s, keys) == |keys| && StartsBounded(s, Placeholder(k))
    ensures SubstituteAll(s, keys) == Placeholder(k) + SubstituteAll(s[|k| + 1..], keys)
  {
    ColonCopied(s, keys, k);
    KeyCopied(s, keys, k);
    JoinPlaceholder(SubstituteAll(s, keys), SubstituteAll(s[1..], keys), k, SubstituteAll(s[|k| + 1..], keys));
  }

  /** A colon, then the key, then the rest: the placeholder, then the rest. */
  lemma {:induction false} JoinPlaceholder(x: string, y: string, k: string, tail: string)
    requires x == [':'] + y && y == k + tail
    ensures x == Placeholder(k) + tail
  {
    assert [':'] + (k + tail) == ([':'] + k) + tail;
  }

  lemma {:induction false} ColonCopied(s: string, keys: seq<string>, k: string)
    requires s != [] && FirstMatch(s, keys) == |keys| && StartsBounded(s, Placeholder(k))
    ensures SubstituteAll(s, keys) == [':'] + SubstituteAll(s[1..], keys)
  {
    PlaceholderSplit(s, k);
  }

  lemma {:induction false} KeyCopied(s: string, keys: seq<string>, k: string)
    requires PlainKey(k)
    requires StartsBounded(s, Placeholder(k))
    ensures SubstituteAll(s[1..], keys) == k + SubstituteAll(s[|k| + 1..], keys)
  {
    PlaceholderSplit(s, k);
    var rest := s[1..];
    assert rest[|k|..] == s[|k| + 1..];
    SubstituteAllPlainPrefix(rest, keys, k);
  }

  /** ... and that placeholder is still followed by a boundary. */
  lemma {:induction false} PlaceholderStaysBounded(s: string, keys: seq<string>, k: string)
    requires PlainKey(k)
    requires s != [] && FirstMatch(s, keys) == |keys| && StartsBounded(s, Placeholder(k))
    ensures StartsBounded(SubstituteAll(s, keys), Placeholder(k))
  {
    var p := Placeholder(k);
    var out := SubstituteAll(s, keys);
    assert out == [s[0]] + SubstituteAll(s[1..], keys);
    assert out[1..] == SubstituteAll(s[1..], keys);
    StartsBoundedCons(s, p);
    BoundedPreserved(s[1..], keys, k);
    StartsBoundedCons(out, p);
  }

  /** Step of SubstituteAllAppend where the new key matches at the front. */
  lemma {:induction false} AppendNewMatch(s: string, keys: seq<string>, k: string)
    requires PlainKey(k)
    requires s != [] && FirstMatch(s, keys) == |keys| && StartsBounded(s, Placeholder(k))
    requires AppendHolds(s[|Placeholder(k)|..], keys, k)
    ensures AppendHolds(s, keys, k)
  {
    var d := Positional(|keys| + 1);
    var p := Placeholder(k);
    FirstMatchAppend(s, keys, k);
    assert (keys + [k])[|keys|] == k;
    PlaceholderCopied(s, keys, k);
    PlaceholderStaysBounded(s, keys, k);
    var out := SubstituteAll(s, keys);
    var tail := SubstituteAll(s[|p|..], keys);
    assert out[|p|..] == tail;
    assert Substitute(out, k, d) == d + Substitute(tail, k, d);
  }

  /** Step of SubstituteAllAppend where no key matches at the front. */
  lemma {:induction false} AppendNoMatch(s: string, keys: seq<string>, k: string)
    requires PlainKey(k)
    requires s != [] && FirstMatch(s, keys) == |keys| && !StartsBounded(s, Placeholder(k))
    requires AppendHolds(s[1..], keys, k)
    ensures AppendHolds(s, keys, k)
  {
    var ks := keys + [k];
    var p := Placeholder(k);
    FirstMatchAppend(s, keys, k);
    assert SubstituteAll(s, ks) == [s[0]] + SubstituteAll(s[1..], ks);
    var out := SubstituteAll(s, keys);
    assert out == [s[0]] + SubstituteAll(s[1..], keys);
    assert out[1..] == SubstituteAll(s[1..], keys);
    assert !StartsBounded(out, p) by {
      StartsBoundedCons(out, p);
      StartsBoundedCons(s, p);
      BoundedPreserved(s[1..], keys, k);
    }
  }

  /** One more substitution on the reference output is the reference over one more key. */
  lemma {:induction false} SubstituteAllAppend(s: string, keys: seq<string>, k: string)
    requires PlainKey(k)
    ensures AppendHolds(s, keys, k)
    decreases |s|
  {
    if s != [] {
      var j := FirstMatch(s, keys);
      if j < |keys| {
        SubstituteAllAppend(s[|Placeholder(keys[j])|..], keys, k);
        AppendEarlierMatch(s, keys, k);
      } else if StartsBounded(s, Placeholder(k)) {
        SubstituteAllAppend(s[|Placeholder(k)|..], keys, k);
        AppendNewMatch(s, keys, k);
      } else {
        SubstituteAllAppend(s[1..], keys, k);
        AppendNoMatch(s, keys, k);
      }
    }
  }

  /** The substitutions performed one key after another, as the source loops,
      equal the one-pass reference: each bounded placeholder becomes its key's
      positional token and all other text is kept. */
  lemma {:induction false} RewriteAllIsSubstituteAll(q: string, keys: seq<string>)
    requires forall t :: 0 <= t < |keys| ==> PlainKey(keys[t])
    ensures RewriteAll(q, keys) == SubstituteAll(q, keys)
    decreases |keys|
  {
    if keys == [] {
      SubstituteAllNoKeys(q);
    } else {
      var init := keys[..|keys| - 1];
      var last := keys[|keys| - 1];
      RewriteAllIsSubstituteAll(q, init);
      SubstituteAllAppend(q, init, last);
      assert init + [last] == keys;
    }
  }

  /** Keys containing `:` break the equivalence: with keys `b` and `a:b`, the
      source rewrites `:a:b` to `:a$1` while a one-pass reading gives `$2`. */
  lemma SequentialDiffersForColonKeys()
    ensures RewriteAll(":a:b", ["b", "a:b"]) == ":a$1"
    ensures SubstituteAll(":a:b", ["b", "a:b"]) == "$2"
  {
    RewriteTwo(":a:b", "b", "a:b");
    ColonKeyFirst();
    ColonKeySecond();
    ColonKeyOnePass();
  }

  lemma ColonKeyFirst()
    ensures Substitute(":a:b", "b", "$1") == ":a$1"
  {
    assert Substitute(":b", "b", "$1") == "$1" by {
      assert ":b" == Placeholder("b") + "";
      SubstituteHit("b", "", "$1");
    }
    assert !StartsBounded("a:b", ":b") by { assert ("a:b")[0] != ':'; }
    assert "a:b" == ['a'] + ":b";
    SubstituteCopy('a', ":b", "b", "$1");
    assert !StartsBounded(":a:b", ":b") by { assert (":a:b")[1] != (":b")[1]; }
    assert ":a:b" == [':'] + "a:b";
    SubstituteCopy(':', "a:b", "b", "$1");
  }

  lemma ColonKeySecond()
    ensures Substitute(":a$1", "a:b", "$2") == ":a$1"
  {
    assert !StartsBounded(":a$1", ":a:b") by { assert (":a$1")[2] != (":a:b")[2]; }
    assert ":a$1" == [':'] + "a$1";
    SubstituteCopy(':', "a$1", "a:b", "$2");
    assert "a$1" == "a$1" + "";
    SubstituteNoColonPrefix("a$1", "", "a:b", "$2");
  }

  lemma ColonKeyOnePass()
    ensures SubstituteAll(":a:b", ["b", "a:b"]) == "$2"
  {
    var keys := ["b", "a:b"];
    assert !StartsBounded(":a:b", ":b") by { assert (":a:b")[1] != (":b")[1]; }
    assert StartsBounded(":a:b", ":a:b");
    assert FirstMatch(":a:b", keys) == 1 by {
      assert keys[1..] == ["a:b"];
    }
    assert Positional(2) == "$2" by { assert Decimal(2) == "2"; }
    assert (":a:b")[4..] == "";
  }

  /** One key: a single substitution by `$1`. */
  lemma {:induction false} RewriteOne(q: string, a: string)
    ensures RewriteAll(q, [a]) == Substitute(q, a, "$1")
  {
    assert [a][..0] == [];
    assert Positional(1) == "$1" by { assert Decimal(1) == "1"; }
  }

  /** Two keys: substitution by `$1`, then by `$2`. */
  lemma {:induction false} RewriteTwo(q: string, a: string, b: string)
    ensures RewriteAll(q, [a, b]) == Substitute(Substitute(q, a, "$1"), b, "$2")
  {
    assert [a, b][..1] == [a];
    RewriteOne(q, a);
    assert Positional(2) == "$2" by { assert Decimal(2) == "2"; }
  }

  /** A character that does not begin a bounded placeholder is copied. */
  lemma {:induction false} SubstituteCopy(c: char, rest: string, k: string, rep: string)
    requires !StartsBounded([c] + rest, Placeholder(k))
    ensures Substitute([c] + rest, k, rep) == [c] + Substitute(rest, k, rep)
  {
    assert ([c] + rest)[1..] == rest;
  }

  /** A placeholder followed by a boundary is replaced. */
  lemma {:induction false} SubstituteHit(k: string, rest: string, rep: string)
    requires rest == [] || !IsIdentChar(rest[0])
    ensures Substitute(Placeholder(k) + rest, k, rep) == rep + Substitute(rest, k, rep)
  {
    var s := Placeholder(k) + rest;
    assert s[..|Placeholder(k)|] == Placeholder(k);
    assert s[|Placeholder(k)|..] == rest;
    assert StartsBounded(s, Placeholder(k));
  }

  /** `:id2` is not the placeholder of `id`: the lookahead rejects the `2`. */
  lemma RewriteLongerName()
    ensures RewriteAll("id = :id2", ["id"]) == "id = :id2"
  {
    RewriteOne("id = :id2", "id");
    LongerNameKept();
    assert "id = :id2" == "id = " + ":id2";
    SubstituteNoColonPrefix("id = ", ":id2", "id", "$1");
  }

  lemma LongerNameKept()
    ensures Substitute(":id2", "id", "$1") == ":id2"
  {
    assert !StartsBounded(":id2", ":id") by { assert IsIdentChar((":id2")[3]); }
    assert ":id2" == [':'] + "id2";
    SubstituteCopy(':', "id2", "id", "$1");
    assert "id2" == "id2" + "";
    SubstituteNoColonPrefix("id2", "", "id", "$1");
  }

  /** In `::id` the second colon starts the placeholder; the first stays. */
  lemma RewriteDoubledColon()
    ensures RewriteAll("::id", ["id"]) == ":$1"
  {
    RewriteOne("::id", "id");
    assert Substitute(":id", "id", "$1") == "$1" by {
      assert ":id" == Placeholder("id") + "";
      SubstituteHit("id", "", "$1");
    }
    assert !StartsBounded("::id", ":id") by { assert ("::id")[1] != (":id")[1]; }
    assert "::id" == [':'] + ":id";
    SubstituteCopy(':', ":id", "id", "$1");
  }

  /** The i-th key gets `$i` whatever the order of the placeholders in the text. */
  lemma RewriteKeyOrder()
    ensures RewriteAll(":b,:a", ["a", "b"]) == "$2,$1"
  {
    RewriteTwo(":b,:a", "a", "b");
    KeyOrderFirst();
    KeyOrderSecond();
  }

  lemma KeyOrderFirst()
    ensures Substitute(":b,:a", "a", "$1") == ":b,$1"
  {
    assert Substitute(":a", "a", "$1") == "$1" by {
      assert ":a" == Placeholder("a") + "";
      SubstituteHit("a", "", "$1");
    }
    assert "b,:a" == "b," + ":a";
    SubstituteNoColonPrefix("b,", ":a", "a", "$1");
    assert !StartsBounded(":b,:a", ":a") by { assert (":b,:a")[1] != (":a")[1]; }
    assert ":b,:a" == [':'] + "b,:a";
    SubstituteCopy(':', "b,:a", "a", "$1");
  }

  lemma KeyOrderSecond()
    ensures Substitute(":b,$1", "b", "$2") == "$2,$1"
  {
    assert ",$1" == ",$1" + "";
    SubstituteNoColonPrefix(",$1", "", "b", "$2");
    assert ":b,$1" == Placeholder("b") + ",$1";
    SubstituteHit("b", ",$1", "$2");
  }

  /** Placeholders in key order get `$1`, `$2`. */
  lemma RewriteInOrder()
    ensures RewriteAll(":a,:b", ["a", "b"]) == "$1,$2"
  {
    RewriteTwo(":a,:b", "a", "b");
    InOrderFirst();
    InOrderSecond();
  }

  lemma InOrderFirst()
    ensures Substitute(":a,:b", "a", "$1") == "$1,:b"
  {
    assert Substitute(":b", "a", "$1") == ":b" by {
      assert !StartsBounded(":b", ":a") by { assert (":b")[1] != (":a")[1]; }
      assert ":b" == [':'] + "b";
      SubstituteCopy(':', "b", "a", "$1");
      assert "b" == "b" + "";
      SubstituteNoColonPrefix("b", "", "a", "$1");
    }
    assert ",:b" == "," + ":b";
    SubstituteNoColonPrefix(",", ":b", "a", "$1");
    assert ":a,:b" == Placeholder("a") + ",:b";
    SubstituteHit("a", ",:b", "$1");
  }

  lemma InOrderSecond()
    ensures Substitute("$1,:b", "b", "$2") == "$1,$2"
  {
    assert Substitute(":b", "b", "$2") == "$2" by {
      assert ":b" == Placeholder("b") + "";
      SubstituteHit("b", "", "$2");
    }
    assert "$1,:b" == "$1," + ":b";
    SubstituteNoColonPrefix("$1,", ":b", "b", "$2");
  }
}
