/**
 * What the assertions see of an object once reflection is made explicit: a type
 * is its name and its public instance properties (inherited ones included) in the
 * order reflection lists them, and an object seen through a type is one value per
 * property.
 */
module Reflection {

  /** A property value as `GetValue` returns it (boxed), compared structurally. */
  datatype Value = Null | Bool(b: bool) | Int(i: int) | Str(s: string)

  /**
   * Whether a property's declared type is a reference type or a value type; for a
   * value type, the value `Activator.CreateInstance` gives it (zero, false, ...).
   */
  datatype Kind = ReferenceType | ValueType(default: Value)

  datatype PropertyInfo = PropertyInfo(name: string, kind: Kind)

  datatype TypeInfo = TypeInfo(name: string, properties: seq<PropertyInfo>)

  /** An object read through the type `info`: `values[i]` is the value of `info.properties[i]`. */
  datatype Instance = Instance(info: TypeInfo, values: seq<Value>) {
    predicate Valid() {
      |values| == |info.properties|
    }
  }

  /** The default a property's declared type compares against: null for reference types. */
  function DefaultOf(kind: Kind): Value {
    match kind
    case ReferenceType => Null
    case ValueType(d) => d
  }

  /** No two properties share a name. */
  predicate UniqueNames(ps: seq<PropertyInfo>) {
    forall i, j :: 0 <= i < j < |ps| ==> ps[i].name != ps[j].name
  }

  /**
   * The positions of the properties called `name`, in increasing order: the
   * filter `p => p.Name == propertyName` that `Single` and `SingleOrDefault` apply.
   */
  function Matches(ps: seq<PropertyInfo>, name: string): (r: seq<nat>)
    ensures forall k :: 0 <= k < |r| ==> r[k] < |ps| && ps[r[k]].name == name
    ensures forall j :: 0 <= j < |ps| && ps[j].name == name ==> j in r
    ensures forall k, l :: 0 <= k < l < |r| ==> r[k] < r[l]
    decreases |ps|
  {
    if ps == [] then []
    else
      var n := |ps| - 1;
      Matches(ps[..n], name) + (if ps[n].name == name then [n] else [])
  }

  /** A name that no property carries has no match. */
  lemma {:induction false} NoMatches(ps: seq<PropertyInfo>, name: string)
    requires forall m :: 0 <= m < |ps| ==> ps[m].name != name
    ensures Matches(ps, name) == []
    decreases |ps|
  {
    if ps != [] {
      NoMatches(ps[..|ps| - 1], name);
    }
  }

  /** With unique names, the property at position `j` is the only one with its name. */
  lemma {:induction false} UniqueMatches(ps: seq<PropertyInfo>, j: nat)
    requires UniqueNames(ps) && j < |ps|
    ensures Matches(ps, ps[j].name) == [j]
    decreases |ps|
  {
    var n := |ps| - 1;
    var prefix := ps[..n];
    assert UniqueNames(prefix);
    if j == n {
      NoMatches(prefix, ps[j].name);
    } else {
      assert prefix[j] == ps[j];
      UniqueMatches(prefix, j);
    }
  }

  /** What remains of `s` once the element at position `k` is removed. */
  function Without<T>(s: seq<T>, k: nat): (rest: seq<T>)
    requires k < |s|
    ensures |rest| == |s| - 1
    ensures forall m :: 0 <= m < |rest| ==> rest[m] == s[if m < k then m else m + 1]
  {
    s[..k] + s[k + 1..]
  }

  lemma WithoutUnique(ps: seq<PropertyInfo>, k: nat)
    requires UniqueNames(ps) && k < |ps|
    ensures UniqueNames(Without(ps, k))
  {
    var rest := Without(ps, k);
    forall m, n | 0 <= m < n < |rest| ensures rest[m].name != rest[n].name {
      var i := if m < k then m else m + 1;
      var i' := if n < k then n else n + 1;
      assert ps[i].name != ps[i'].name;
    }
  }

  /**
   * Removing the property at position `k` from a type with unique names leaves
   * every other property the only one of its name (shifted down past `k`), and
   * none with the removed name.
   */
  lemma WithoutMatches(ps: seq<PropertyInfo>, k: nat, j: nat)
    requires UniqueNames(ps) && k < |ps| && j < |ps|
    ensures Matches(Without(ps, k), ps[j].name) == if j < k then [j] else if j == k then [] else [j - 1]
  {
    var rest := Without(ps, k);
    WithoutUnique(ps, k);
    if j < k {
      UniqueMatches(rest, j);
    } else if j > k {
      UniqueMatches(rest, j - 1);
    } else {
      forall m | 0 <= m < |rest| ensures rest[m].name != ps[k].name {
        var i := if m < k then m else m + 1;
        assert ps[i].name != ps[k].name;
      }
      NoMatches(rest, ps[k].name);
    }
  }

  /** The name a source property is looked up under: its entry in the rename map, or itself. */
  function TargetName(translated: map<string, string>, name: string): string {
    if name in translated then translated[name] else name
  }

  /** No name that is looked up (one not excluded) is sent elsewhere by the rename map. */
  predicate KeepsNames(translated: map<string, string>, excluded: seq<string>, ps: seq<PropertyInfo>) {
    forall i :: 0 <= i < |ps| && ps[i].name !in excluded ==> TargetName(translated, ps[i].name) == ps[i].name
  }
}
