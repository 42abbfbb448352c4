/**
 * Top-level key normalisation of the parsed values document
 * (the loop of `Tmplhate.LoadVars` in core/tmplhate.go).
 *
 * Go visits the keys of a map in an unspecified order and yields, for each
 * key, the value it holds at that moment. The model therefore runs the
 * loop along an arbitrary `order` of the parsed keys, reading the current
 * value, and every property below holds for every such order.
 */
module KeyNormalization {
  import opened Wrappers
  import opened Casing
  import opened Values

  /** The spelling each parsed key is written under: its cased form, or itself. */
  function KeyFor(normalize: bool, caser: string -> string): string -> string
  {
    if normalize then caser else Identity
  }

  /** `order` lists every key of `m` exactly once: one possible order of Go's `range`. */
  predicate IsKeyOrder(order: seq<string>, m: Namespace)
  {
    && (forall k :: k in m ==> k in order)
    && (forall k :: k in order ==> k in m)
    && (forall i, j :: 0 <= i < j < |order| ==> order[i] != order[j])
  }

  /** One iteration of the loop: the current value of `k` is stored under `key(k)`. */
  function Step(m: Namespace, k: string, key: string -> string): Namespace
  {
    if k in m then m[key(k) := m[k]] else m
  }

  /** The map after the loop has visited the keys of `order`, first to last. */
  function Along(m: Namespace, order: seq<string>, key: string -> string): Namespace
    decreases |order|
  {
    if order == [] then m
    else Step(Along(m, order[..|order| - 1], key), order[|order| - 1], key)
  }

  /** The parsed map after the loop of `LoadVars`, for one iteration order. */
  function NormalizeKeys(m: Namespace, order: seq<string>, normalize: bool, caser: string -> string): Namespace
  {
    Along(m, order, KeyFor(normalize, caser))
  }

  /** The last key in `order` that is renamed onto `x`: a key other than `x` whose new spelling is `x`. */
  function LastSource(order: seq<string>, x: string, key: string -> string): (r: Option<string>)
    ensures r.Some? ==> r.value in order && key(r.value) == x && r.value != x
    ensures r.None? ==> forall k :: k in order ==> key(k) != x || k == x
    decreases |order|
  {
    if order == [] then None
    else
      var k := order[|order| - 1];
      if key(k) == x && k != x then Some(k)
      else
        var r := LastSource(order[..|order| - 1], x, key);
        assert forall j :: j in order ==> j in order[..|order| - 1] || j == k;
        r
  }

  /** The loop only adds keys: the original ones and the new spellings of the visited ones. */
  lemma {:induction false} AlongKeys(m: Namespace, order: seq<string>, key: string -> string)
    requires forall k :: k in order ==> k in m
    ensures Along(m, order, key).Keys == m.Keys + set k | k in order :: key(k)
    decreases |order|
  {
    if order != [] {
      var prefix, k := order[..|order| - 1], order[|order| - 1];
      assert forall j :: j in prefix ==> j in order;
      AlongKeys(m, prefix, key);
      assert (set j | j in order :: key(j)) == (set j | j in prefix :: key(j)) + {key(k)} by {
        assert order == prefix + [k];
      }
    }
  }

  /**
   * With an idempotent key transform, every entry of the result holds the
   * original value of the last key renamed onto it, or its own original
   * value when no key was renamed onto it.
   */
  lemma {:induction false} AlongAt(m: Namespace, order: seq<string>, key: string -> string, x: string)
    requires Idempotent(key)
    requires forall k :: k in order ==> k in m
    requires x in Along(m, order, key)
    ensures match LastSource(order, x, key)
      case Some(k) => k in m && Along(m, order, key)[x] == m[k]
      case None => x in m && Along(m, order, key)[x] == m[x]
    decreases |order|
  {
    if order != [] {
      var prefix, k := order[..|order| - 1], order[|order| - 1];
      assert forall j :: j in prefix ==> j in order;
      var before := Along(m, prefix, key);
      AlongKeys(m, prefix, key);
      assert k in before;
      if x == key(k) && key(k) != k {
        AlongAt(m, prefix, key, k);
      } else {
        assert x in before;
        AlongAt(m, prefix, key, x);
      }
    }
  }

  /** An idempotent transform stays idempotent when normalisation is switched off. */
  lemma KeyForIdempotent(normalize: bool, caser: string -> string)
    requires normalize ==> Idempotent(caser)
    ensures Idempotent(KeyFor(normalize, caser))
  {
  }

  /**
   * Normalisation only adds entries: the result's keys are the parsed keys
   * plus the new spelling of each, so no parsed key is lost.
   */
  lemma NormalizeKeysDomain(m: Namespace, order: seq<string>, normalize: bool, caser: string -> string)
    requires IsKeyOrder(order, m)
    ensures NormalizeKeys(m, order, normalize, caser).Keys == m.Keys + set k | k in m :: KeyFor(normalize, caser)(k)
  {
    AlongKeys(m, order, KeyFor(normalize, caser));
  }

  /**
   * Each new spelling holds the unchanged value of some parsed key that is
   * spelled that way; in particular no value (and nothing nested in one) is
   * altered, only copied.
   */
  lemma NormalizedKeyHoldsSourceValue(m: Namespace, order: seq<string>, normalize: bool, caser: string -> string, k: string)
    requires normalize ==> Idempotent(caser)
    requires IsKeyOrder(order, m)
    requires k in m
    ensures var key := KeyFor(normalize, caser);
      var r := NormalizeKeys(m, order, normalize, caser);
      key(k) in r && exists j :: j in m && key(j) == key(k) && r[key(k)] == m[j]
  {
    var key := KeyFor(normalize, caser);
    KeyForIdempotent(normalize, caser);
    AlongKeys(m, order, key);
    AlongAt(m, order, key, key(k));
    var src := LastSource(order, key(k), key);
    if src.Some? {
      assert src.value in m && key(src.value) == key(k);
    } else {
      assert key(key(k)) == key(k);
    }
  }

  /**
   * A parsed key keeps its own value unless some other parsed key is
   * renamed onto it; a key whose spelling changes always keeps its value.
   */
  lemma NormalizeKeepsUncontestedValues(m: Namespace, order: seq<string>, normalize: bool, caser: string -> string, x: string)
    requires normalize ==> Idempotent(caser)
    requires IsKeyOrder(order, m)
    requires x in m
    ensures x in NormalizeKeys(m, order, normalize, caser)
    ensures var key := KeyFor(normalize, caser);
      (forall j :: j in m && key(j) == x ==> j == x) ==> NormalizeKeys(m, order, normalize, caser)[x] == m[x]
    ensures var key := KeyFor(normalize, caser);
      key(x) != x ==> NormalizeKeys(m, order, normalize, caser)[x] == m[x]
  {
    var key := KeyFor(normalize, caser);
    KeyForIdempotent(normalize, caser);
    AlongKeys(m, order, key);
    AlongAt(m, order, key, x);
    var src := LastSource(order, x, key);
    if src.Some? {
      assert key(key(src.value)) == key(src.value);
    }
  }

  /** With normalisation switched off the loop rewrites every entry with itself: the result is the parsed map. */
  lemma {:induction false} NormalizeOffIsIdentity(m: Namespace, order: seq<string>, caser: string -> string)
    ensures NormalizeKeys(m, order, false, caser) == m
    decreases |order|
  {
    if order != [] {
      NormalizeOffIsIdentity(m, order[..|order| - 1], caser);
    }
  }

  /**
   * A key added by the loop may itself be visited by Go's `range`. With an
   * idempotent transform that visit stores the entry's value under its own
   * name again and changes nothing, so iterating only the original keys
   * gives the same map.
   */
  lemma RevisitIsNoOp(r: Namespace, k: string, key: string -> string)
    requires Idempotent(key)
    requires key(k) in r
    ensures Step(r, key(k), key) == r
  {
  }

  /** No two distinct keys of `m` whose spelling changes get the same new spelling. */
  ghost predicate NoRenameClash(m: Namespace, key: string -> string)
  {
    forall j, k :: j in m && k in m && key(j) == key(k) && key(j) != j && key(k) != k ==> j == k
  }

  /**
   * When no two distinct parsed keys whose spelling changes are renamed
   * onto the same key, the iteration order does not matter.
   */
  lemma NormalizeOrderIrrelevant(m: Namespace, order1: seq<string>, order2: seq<string>, normalize: bool, caser: string -> string)
    requires normalize ==> Idempotent(caser)
    requires IsKeyOrder(order1, m) && IsKeyOrder(order2, m)
    requires NoRenameClash(m, KeyFor(normalize, caser))
    ensures NormalizeKeys(m, order1, normalize, caser) == NormalizeKeys(m, order2, normalize, caser)
  {
    var key := KeyFor(normalize, caser);
    var r1, r2 := NormalizeKeys(m, order1, normalize, caser), NormalizeKeys(m, order2, normalize, caser);
    KeyForIdempotent(normalize, caser);
    NormalizeKeysDomain(m, order1, normalize, caser);
    NormalizeKeysDomain(m, order2, normalize, caser);
    forall x | x in r1 ensures r1[x] == r2[x] {
      AlongAt(m, order1, key, x);
      AlongAt(m, order2, key, x);
      var s1, s2 := LastSource(order1, x, key), LastSource(order2, x, key);
      if s1.Some? && s2.None? {
        assert s1.value in order2;
      }
    }
  }

  /** Visiting keys whose entry already holds the value of the key itself changes nothing. */
  lemma {:induction false} AlongStable(r: Namespace, order: seq<string>, key: string -> string)
    requires forall k :: k in order && k in r ==> key(k) in r && r[key(k)] == r[k]
    ensures Along(r, order, key) == r
    decreases |order|
  {
    if order != [] {
      var prefix := order[..|order| - 1];
      assert forall k :: k in prefix ==> k in order;
      AlongStable(r, prefix, key);
    }
  }

  /**
   * Normalisation is idempotent: normalising an already normalised
   * namespace, in any order, gives it back unchanged, provided no two
   * renamed keys clash.
   */
  lemma NormalizeTwiceIsOnce(m: Namespace, order: seq<string>, order2: seq<string>, normalize: bool, caser: string -> string)
    requires normalize ==> Idempotent(caser)
    requires IsKeyOrder(order, m)
    requires NoRenameClash(m, KeyFor(normalize, caser))
    requires IsKeyOrder(order2, NormalizeKeys(m, order, normalize, caser))
    ensures var r := NormalizeKeys(m, order, normalize, caser);
      NormalizeKeys(r, order2, normalize, caser) == r
  {
    var key := KeyFor(normalize, caser);
    var r := NormalizeKeys(m, order, normalize, caser);
    KeyForIdempotent(normalize, caser);
    NormalizeKeysDomain(m, order, normalize, caser);
    forall k | k in order2 && k in r ensures key(k) in r && r[key(k)] == r[k] {
      assert key(key(k)) == key(k);
      if k in m && key(k) != k {
        NormalizeKeepsUncontestedValues(m, order, normalize, caser, k);
        AlongAt(m, order, key, key(k));
      }
    }
    AlongStable(r, order2, key);
  }

  /**
   * Only top-level names are normalised: `{Foo: {Bar: 1}}` gains `foo`
   * holding the very same nested mapping, whose key stays `Bar`.
   */
  lemma NestedKeysUntouched(caser: string -> string)
    requires caser("Foo") == "foo"
    ensures var nested := Mapping(map["Bar" := Scalar("1")]);
      NormalizeKeys(map["Foo" := nested], ["Foo"], true, caser) == map["Foo" := nested, "foo" := nested]
  {
  }

  /**
   * Without the no-clash condition neither result holds: `Foo` and `FOO`
   * both cased to `foo` leave `foo` with the value of whichever is visited
   * last, and normalising that result again in another order changes it,
   * even for an idempotent transform.
   */
  lemma ClashDependsOnOrder(caser: string -> string)
    requires Idempotent(caser)
    requires caser("Foo") == "foo" && caser("FOO") == "foo"
    ensures var m := map["Foo" := Scalar("1"), "FOO" := Scalar("2")];
      var r1 := NormalizeKeys(m, ["Foo", "FOO"], true, caser);
      var r2 := NormalizeKeys(m, ["FOO", "Foo"], true, caser);
      && IsKeyOrder(["Foo", "FOO"], m) && IsKeyOrder(["FOO", "Foo"], m)
      && "foo" in r1 && r1["foo"] == Scalar("2")
      && "foo" in r2 && r2["foo"] == Scalar("1")
      && IsKeyOrder(["FOO", "foo", "Foo"], r1)
      && NormalizeKeys(r1, ["FOO", "foo", "Foo"], true, caser) != r1
  {
    var m := map["Foo" := Scalar("1"), "FOO" := Scalar("2")];
    var r1 := NormalizeKeys(m, ["Foo", "FOO"], true, caser);
    assert ["Foo", "FOO"][..1] == ["Foo"] && ["Foo"][..0] == [];
    assert ["FOO", "Foo"][..1] == ["FOO"] && ["FOO"][..0] == [];
    assert r1 == map["Foo" := Scalar("1"), "FOO" := Scalar("2"), "foo" := Scalar("2")];
    assert caser("foo") == "foo";
    assert ["FOO", "foo", "Foo"][..2] == ["FOO", "foo"] && ["FOO", "foo"][..1] == ["FOO"];
    assert NormalizeKeys(r1, ["FOO", "foo", "Foo"], true, caser)["foo"] == Scalar("1");
  }
}
