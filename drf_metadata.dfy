/**
 * The plugin's per-class metadata: every class may carry a "drf" bag, a
 * JSON object in which the plugin and its collaborators record facts about
 * the class (`types`, `base_model`, `fields`). This module holds the pure
 * view of that store; the accessors that change it are `Helpers.Store`'s.
 */
module DrfMetadata {
  import opened Host

  /** The "drf" metadata bag of one class. */
  type Bag = map<string, Json>

  /** The "drf" bags of the classes that have one, by class name. */
  type Bags = map<string, Bag>

  /** The bag `setdefault('drf', {})` hands back for class `c`. */
  function BagOf(drf: Bags, c: string): Bag {
    if c in drf then drf[c] else map[]
  }

  /** `after` keeps every bag of `before` as it was and adds only empty bags. */
  predicate Extends(before: Bags, after: Bags) {
    && (forall x :: x in before ==> x in after && after[x] == before[x])
    && (forall x :: x in after && x !in before ==> after[x] == map[])
  }

  /** Both stores hand back the same bag for every class. */
  ghost predicate SameBags(d1: Bags, d2: Bags) {
    forall x :: BagOf(d1, x) == BagOf(d2, x)
  }

  /**
   * The store after `setdefault('drf', {})` on class `c`: an empty bag is
   * created only when `c` has none, and an existing bag is never replaced.
   */
  function EnsureBag(drf: Bags, c: string): (r: Bags)
    ensures c in r && r[c] == BagOf(drf, c)
    ensures c in drf ==> r == drf
  {
    if c in drf then drf else drf[c := map[]]
  }

  /** Adding empty bags changes no class's bag as `setdefault` sees it. */
  lemma ExtendsSameBags(before: Bags, after: Bags)
    requires Extends(before, after)
    ensures SameBags(before, after)
  {
    forall x ensures BagOf(before, x) == BagOf(after, x) {
      if x in after && x !in before {
        assert after[x] == map[];
      }
    }
  }

  /** `setdefault` twice is `setdefault` once, and hands back the same bag. */
  lemma EnsureBagIdempotent(drf: Bags, c: string)
    ensures EnsureBag(EnsureBag(drf, c), c) == EnsureBag(drf, c)
    ensures BagOf(EnsureBag(drf, c), c) == BagOf(drf, c)
  {
  }

  /** The store after `setdefault('drf', {})` on each of `cs`, in order. */
  function EnsureBags(drf: Bags, cs: seq<string>): Bags
    decreases |cs|
  {
    if cs == [] then drf
    else EnsureBag(EnsureBags(drf, cs[..|cs| - 1]), cs[|cs| - 1])
  }

  /** `setdefault` only ever adds empty bags. */
  lemma EnsureBagExtends(drf: Bags, c: string)
    ensures Extends(drf, EnsureBag(drf, c))
  {
  }

  /** After any sequence of `setdefault` calls every class hands back the bag it had. */
  lemma {:induction false} EnsureBagsBagOf(drf: Bags, cs: seq<string>, x: string)
    ensures BagOf(EnsureBags(drf, cs), x) == BagOf(drf, x)
    decreases |cs|
  {
    if cs != [] {
      EnsureBagsBagOf(drf, cs[..|cs| - 1], x);
    }
  }

  /** Any sequence of `setdefault` calls only adds empty bags. */
  lemma {:induction false} EnsureBagsExtends(drf: Bags, cs: seq<string>)
    ensures Extends(drf, EnsureBags(drf, cs))
    decreases |cs|
  {
    if cs != [] {
      var mid := EnsureBags(drf, cs[..|cs| - 1]);
      EnsureBagsExtends(drf, cs[..|cs| - 1]);
      EnsureBagExtends(mid, cs[|cs| - 1]);
    }
  }

  /** Exactly the classes of `cs` gain a bag, and only those that had none. */
  lemma {:induction false} EnsureBagsKeys(drf: Bags, cs: seq<string>)
    ensures EnsureBags(drf, cs).Keys == drf.Keys + set c | c in cs
    decreases |cs|
  {
    if cs != [] {
      var init := cs[..|cs| - 1];
      EnsureBagsKeys(drf, init);
      assert cs == init + [cs[|cs| - 1]];
      assert (set c | c in cs) == (set c | c in init) + {cs[|cs| - 1]};
    }
  }

  /** Creating the bags for `cs[..i + 1]` is creating those for `cs[..i]`, then that of `cs[i]`. */
  lemma EnsureBagsStep(drf: Bags, cs: seq<string>, i: nat)
    requires i < |cs|
    ensures EnsureBags(drf, cs[..i + 1]) == EnsureBag(EnsureBags(drf, cs[..i]), cs[i])
  {
    assert cs[..i + 1][..i] == cs[..i];
  }

  /** Creating bags for `a` and then for `b` is creating them for `a + b`. */
  lemma {:induction false} EnsureBagsAppend(drf: Bags, a: seq<string>, b: seq<string>)
    ensures EnsureBags(EnsureBags(drf, a), b) == EnsureBags(drf, a + b)
    decreases |b|
  {
    if b == [] {
      assert a + b == a;
    } else {
      var b' := b[..|b| - 1];
      EnsureBagsAppend(drf, a, b');
      assert (a + b)[..|a + b| - 1] == a + b';
      assert (a + b)[|a + b| - 1] == b[|b| - 1];
    }
  }

  /**
   * The value under `key` in the bag of the first of `infos` whose bag has
   * that key; `JNull` (Python's `None`) when none has it.
   */
  function FirstWithKey(drf: Bags, infos: seq<string>, key: string): (r: Json)
    ensures r.JNull? || exists i :: 0 <= i < |infos| && key in BagOf(drf, infos[i]) && BagOf(drf, infos[i])[key] == r
    ensures (forall i :: 0 <= i < |infos| ==> key !in BagOf(drf, infos[i])) ==> r.JNull?
  {
    if infos == [] then JNull
    else if key in BagOf(drf, infos[0]) then BagOf(drf, infos[0])[key]
    else
      var r := FirstWithKey(drf, infos[1..], key);
      assert forall i :: 1 <= i < |infos| ==> infos[i] == infos[1..][i - 1];
      r
  }

  /** The classes whose bags the lookup loop visits: up to the first that has `key`, or all. */
  function Visited(drf: Bags, infos: seq<string>, key: string): (v: seq<string>)
    ensures v <= infos
    ensures (forall i :: 0 <= i < |infos| ==> key !in BagOf(drf, infos[i])) ==> v == infos
  {
    if infos == [] then []
    else if key in BagOf(drf, infos[0]) then [infos[0]]
    else
      var v := [infos[0]] + Visited(drf, infos[1..], key);
      assert forall i :: 1 <= i < |infos| ==> infos[i] == infos[1..][i - 1];
      assert infos == [infos[0]] + infos[1..];
      v
  }

  /**
   * When `infos[i]` is the first entry whose bag holds `key`, the lookup
   * returns that bag's value and visits exactly `infos[..i + 1]`.
   */
  lemma {:induction false} FirstWithKeyAt(drf: Bags, infos: seq<string>, key: string, i: nat)
    requires i < |infos| && key in BagOf(drf, infos[i])
    requires forall j :: 0 <= j < i ==> key !in BagOf(drf, infos[j])
    ensures FirstWithKey(drf, infos, key) == BagOf(drf, infos[i])[key]
    ensures Visited(drf, infos, key) == infos[..i + 1]
  {
    if i > 0 {
      assert key !in BagOf(drf, infos[0]);
      assert forall j :: 0 <= j < i - 1 ==> infos[1..][j] == infos[j + 1];
      FirstWithKeyAt(drf, infos[1..], key, i - 1);
      assert infos[..i + 1] == [infos[0]] + infos[1..][..i];
    }
  }

  /** Lookups see only the bags: stores that hand back the same bags answer alike. */
  lemma {:induction false} LookupsSeeOnlyBags(d1: Bags, d2: Bags, infos: seq<string>, key: string)
    requires SameBags(d1, d2)
    ensures FirstWithKey(d1, infos, key) == FirstWithKey(d2, infos, key)
    ensures Visited(d1, infos, key) == Visited(d2, infos, key)
  {
    if infos != [] {
      assert BagOf(d1, infos[0]) == BagOf(d2, infos[0]);
      LookupsSeeOnlyBags(d1, d2, infos[1..], key);
    }
  }

  /** The classes `get_drf_metadata_key` consults, in order. */
  function Infos(classes: ClassTable, c: string, traverse: bool): seq<string>
    requires c in classes
  {
    if traverse then classes[c].mro else [c]
  }

  /**
   * `get_drf_metadata_key(c, key, traverse)`: without traversal only the
   * class's own bag is consulted.
   */
  function MetadataKey(classes: ClassTable, drf: Bags, c: string, key: string, traverse: bool): (r: Json)
    requires c in classes
    ensures !traverse ==> r == (if key in BagOf(drf, c) then BagOf(drf, c)[key] else JNull)
  {
    FirstWithKey(drf, Infos(classes, c, traverse), key)
  }

  /**
   * With traversal, the value comes from the first class along the MRO
   * (the class itself first) whose bag holds the key, and is `None` when no
   * class on the MRO has it.
   */
  lemma MetadataKeyAlongMro(classes: ClassTable, drf: Bags, c: string, key: string, i: nat)
    requires c in classes
    requires i < |classes[c].mro| && key in BagOf(drf, classes[c].mro[i])
    requires forall j :: 0 <= j < i ==> key !in BagOf(drf, classes[c].mro[j])
    ensures MetadataKey(classes, drf, c, key, true) == BagOf(drf, classes[c].mro[i])[key]
  {
    FirstWithKeyAt(drf, classes[c].mro, key, i);
  }

  /**
   * Since an MRO starts with the class itself, a key in the class's own bag
   * is found there whether or not the MRO is traversed.
   */
  lemma OwnBagFirst(classes: ClassTable, drf: Bags, c: string, key: string)
    requires MroStartsWithSelf(classes, c) && key in BagOf(drf, c)
    ensures MetadataKey(classes, drf, c, key, true) == MetadataKey(classes, drf, c, key, false) == BagOf(drf, c)[key]
    ensures Visited(drf, Infos(classes, c, true), key) == [c]
  {
    FirstWithKeyAt(drf, classes[c].mro, key, 0);
  }
}
