/** The usual Some/None datatype. */
module Wrappers {

  datatype Option<+T> = None | Some(value: T)
}

/**
 * The host type checker's objects, reduced to what the serializer shape
 * resolver looks at: types, symbols, classes (their method resolution order
 * and their own member table) and the JSON values kept in class metadata.
 * A class is identified by its fully qualified name throughout.
 */
module Host {
  import opened Wrappers

  /** A JSON value, as stored in a class's metadata bag. */
  datatype Json =
    | JNull
    | JBool(b: bool)
    | JInt(i: int)
    | JStr(s: string)
    | JList(elems: seq<Json>)
    | JObject(fields: map<string, Json>)

  /** Python truthiness of a JSON value (`if value:`). */
  predicate Truthy(j: Json) {
    match j
    case JNull => false
    case JBool(b) => b
    case JInt(i) => i != 0
    case JStr(s) => s != ""
    case JList(e) => e != []
    case JObject(m) => |m| > 0
  }

  /**
   * A type of the host checker. `Named` is an instance of the class
   * `fullname` with type arguments `args`; the two kinds of `Any` are kept
   * apart because the host reports them differently; `OtherType` stands for
   * every other kind of type (callables, unions, ...), none of which the
   * resolver inspects.
   */
  datatype Type =
    | Named(fullname: string, args: seq<Type>)
    | AnyExplicit
    | AnyFromError
    | TypedDict(items: seq<(string, Type)>, requiredKeys: set<string>, fallback: Type)
    | OtherType(kind: string)

  /** A member of a class: a symbol with an optional declared type. */
  datatype Symbol = Symbol(typ: Option<Type>)

  /**
   * What the host knows of a class: its method resolution order (the class
   * itself first) and the members declared directly on it, in declaration
   * order. The host's member table is a dictionary, so a name occurs at
   * most once in `names`; the lookups below take the first entry of a name,
   * which is then the only one.
   */
  datatype ClassInfo = ClassInfo(mro: seq<string>, names: seq<(string, Symbol)>)

  type ClassTable = map<string, ClassInfo>

  /** Every class's MRO names only known classes. */
  predicate WellFormedTable(classes: ClassTable) {
    forall c, k :: c in classes && 0 <= k < |classes[c].mro| ==> classes[c].mro[k] in classes
  }

  /** The MRO of `c` starts with `c` itself, as the host's MROs do. */
  predicate MroStartsWithSelf(classes: ClassTable, c: string) {
    c in classes && |classes[c].mro| > 0 && classes[c].mro[0] == c
  }

  /**
   * `TypeInfo.has_base(base)`: some class in the MRO of `name` is `base`.
   * A class missing from the table has no known bases.
   */
  predicate HasBase(classes: ClassTable, name: string, base: string) {
    name in classes && base in classes[name].mro
  }

  /** An instance type whose class derives from `base`. */
  predicate IsInstanceOf(classes: ClassTable, t: Type, base: string) {
    t.Named? && HasBase(classes, t.fullname, base)
  }

  /** `names.get(n)`: the first member called `n` in a member table. */
  function NamesGet(names: seq<(string, Symbol)>, n: string): (r: Option<Symbol>)
    ensures r.Some? <==> exists k :: 0 <= k < |names| && names[k].0 == n
    ensures r.Some? ==> (n, r.value) in names
  {
    if names == [] then None
    else if names[0].0 == n then Some(names[0].1)
    else NamesGet(names[1..], n)
  }

  /** The symbol named `n` found first along the classes `ms`. */
  function MroGet(classes: ClassTable, ms: seq<string>, n: string): (r: Option<Symbol>)
    requires forall m :: m in ms ==> m in classes
    ensures r.Some? <==> exists k :: 0 <= k < |ms| && NamesGet(classes[ms[k]].names, n).Some?
  {
    if ms == [] then None
    else
      match NamesGet(classes[ms[0]].names, n)
      case Some(s) => Some(s)
      case None =>
        var r := MroGet(classes, ms[1..], n);
        assert forall k :: 1 <= k < |ms| ==> ms[k] == ms[1..][k - 1];
        r
  }

  /**
   * The lookup along `ms` returns the symbol of the first class that
   * declares `n`: a more derived declaration hides a more basic one.
   */
  lemma {:induction false} MroGetFirst(classes: ClassTable, ms: seq<string>, n: string, k: nat)
    requires forall m :: m in ms ==> m in classes
    requires k < |ms| && NamesGet(classes[ms[k]].names, n).Some?
    requires forall j :: 0 <= j < k ==> NamesGet(classes[ms[j]].names, n).None?
    ensures MroGet(classes, ms, n) == NamesGet(classes[ms[k]].names, n)
  {
    if k > 0 {
      assert NamesGet(classes[ms[0]].names, n).None?;
      assert forall j :: 0 <= j < k - 1 ==> ms[1..][j] == ms[j + 1];
      MroGetFirst(classes, ms[1..], n, k - 1);
    }
  }

  /** `TypeInfo.get(n)`: the member `n` of class `c`, looked up along its MRO. */
  function ClassGet(classes: ClassTable, c: string, n: string): Option<Symbol>
    requires WellFormedTable(classes) && c in classes
  {
    MroGet(classes, classes[c].mro, n)
  }

  /** The keys of an ordered record, in order. */
  function Keys(items: seq<(string, Type)>): (ks: seq<string>)
    ensures |ks| == |items|
    ensures forall k :: 0 <= k < |items| ==> ks[k] == items[k].0
  {
    seq(|items|, k requires 0 <= k < |items| => items[k].0)
  }

  /** The set of keys of an ordered record. */
  function KeySet(items: seq<(string, Type)>): (s: set<string>)
    ensures forall n :: n in s <==> n in Keys(items)
  {
    set k | 0 <= k < |items| :: items[k].0
  }

  /** No key occurs twice. */
  predicate Distinct(ks: seq<string>) {
    forall i, j :: 0 <= i < j < |ks| ==> ks[i] != ks[j]
  }
}
