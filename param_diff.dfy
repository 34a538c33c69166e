// Parameter diffing in the Espresso calculator of xespresso/xespresso.py:
// `compare_value` (case-insensitive strings, recursive dictionaries,
// exact booleans, numbers within a tolerance), `compare_dict` (each key
// of either dictionary is ignored, changed or the same) and
// `compare_parameters` (pseudopotentials, k-points and every namelist
// section of the restart parameters).
//
// A comparison that raises in Python (a missing key, `.upper()` on a
// non-string, arithmetic on a list) is `None` here: which exception comes
// first depends on the iteration order of a Python set. Floating-point
// comparison is the parameter `near`.

module ParamDiff {
  import opened PyStr
  import opened PyDict
  import opened Json

  /** What `compare_dict` does with one key. */
  datatype Fate = Ignored | Changed | Same

  /** The keys `compare_dict` lists as changed and as ignored. */
  datatype Diff = Diff(changed: set<string>, ignored: set<string>)

  /** Floating-point comparison within the tolerance, and float equality. */
  type Near = (Value, Value) -> bool

  predicate Integral(v: Value)
  {
    v.VInt? || v.VBool?
  }

  /** A bool is the integer 0 or 1. */
  function IntOf(v: Value): int
    requires Integral(v)
  {
    if v.VInt? then v.i else if v.b then 1 else 0
  }

  /** `v1 == v2` for a bool `v1`. */
  function BoolEquals(v1: Value, v2: Value, near: Near): bool
    requires v1.VBool?
  {
    if Integral(v2) then IntOf(v1) == IntOf(v2)
    else if v2.VNum? then near(v1, v2)
    else false
  }

  /** The set of keys of both dictionaries: `set(list(d1.keys()) + list(d2.keys()))`. */
  function KeySet(d1: Dict<string, Value>, d2: Dict<string, Value>): (r: set<string>)
    ensures forall k :: k in r <==> HasKey(d1, k) || HasKey(d2, k)
  {
    (set i | 0 <= i < |d1| :: d1[i].0) + (set i | 0 <= i < |d2| :: d2[i].0)
  }

  /** `compare_value(v1, v2)`: whether the values count as equal, or `None` when it raises. */
  function CompareValue(v1: Value, v2: Value, near: Near): Option<bool>
    decreases v1, 2
  {
    match v1
    case VStr(a) => if v2.VStr? then Some(Upper(a) == Upper(v2.s)) else None
    case VDict(d1) =>
      // When no key changed, the loop over `v1.items()` repeats comparisons that all held.
      if !v2.VDict? then None
      else
        (match CompareDict(d1, v2.entries, [], None, near)
         case None => None
         case Some(diff) => Some(diff.changed == {}))
    case VBool(_) => Some(BoolEquals(v1, v2, near))
    case VInt(a) =>
      if Integral(v2) then Some(a == IntOf(v2))
      else if v2.VNum? then Some(near(v1, v2))
      else None
    case VNum(_) => if Integral(v2) || v2.VNum? then Some(near(v1, v2)) else None
    case _ => None
  }

  /** What happens to key `k`; `default` is the dictionary of defaults when one is given. */
  function KeyFate(k: string, d1: Dict<string, Value>, d2: Dict<string, Value>, ignore: seq<string>,
                   default: Option<Dict<string, Value>>, near: Near): Option<Fate>
    decreases VDict(d1), 0
  {
    if k in ignore then Some(Ignored)
    else if !HasKey(d1, k) then Some(Changed)
    else
      var v := d1[IndexOf(d1, k)].1;
      assert v < VDict(d1);
      if !HasKey(d2, k) then
        // `default and compare_value(dict1[key], default[key])`
        if default.None? || default.value == [] then Some(Changed)
        else if !HasKey(default.value, k) then None
        else
          match CompareValue(v, Get(default.value, k).value, near)
          case None => None
          case Some(same) => Some(if same then Same else Changed)
      else
        match CompareValue(v, Get(d2, k).value, near)
        case None => None
        case Some(same) => Some(if same then Same else Changed)
  }

  /** `compare_dict`, with its lists taken as sets. */
  function CompareDict(d1: Dict<string, Value>, d2: Dict<string, Value>, ignore: seq<string>,
                       default: Option<Dict<string, Value>>, near: Near): Option<Diff>
    decreases VDict(d1), 1
  {
    var keys := KeySet(d1, d2);
    if exists k :: k in keys && KeyFate(k, d1, d2, ignore, default, near).None? then None
    else Some(Diff(set k | k in keys && KeyFate(k, d1, d2, ignore, default, near) == Some(Changed),
                   set k | k in keys && KeyFate(k, d1, d2, ignore, default, near) == Some(Ignored)))
  }

  /**
   * The classification of `compare_dict`: the ignore list is consulted
   * first; a key missing from the old dictionary is changed; a key missing
   * from the new one is changed unless its old value equals its default;
   * any other key is changed exactly when the two values differ. No key is
   * both changed and ignored.
   */
  lemma DictCases(d1: Dict<string, Value>, d2: Dict<string, Value>, ignore: seq<string>,
                  default: Option<Dict<string, Value>>, near: Near, k: string)
    requires CompareDict(d1, d2, ignore, default, near).Some?
    ensures var diff := CompareDict(d1, d2, ignore, default, near).value;
      diff.changed * diff.ignored == {} && diff.changed + diff.ignored <= KeySet(d1, d2)
    ensures var diff := CompareDict(d1, d2, ignore, default, near).value;
      (HasKey(d1, k) || HasKey(d2, k)) ==>
        (k in diff.ignored <==> k in ignore) &&
        (k !in ignore && !HasKey(d1, k) ==> k in diff.changed) &&
        (k !in ignore && HasKey(d1, k) && HasKey(d2, k) ==>
          (k in diff.changed <==> CompareValue(Get(d1, k).value, Get(d2, k).value, near) == Some(false))) &&
        (k !in ignore && HasKey(d1, k) && !HasKey(d2, k) ==>
          (k in diff.changed <==>
            !(default.Some? && default.value != [] && HasKey(default.value, k) &&
              CompareValue(Get(d1, k).value, Get(default.value, k).value, near) == Some(true))))
  {
    if HasKey(d1, k) {
      GetAtIndex(d1, k);
    }
    var diff := CompareDict(d1, d2, ignore, default, near).value;
    assert forall x :: x in diff.changed ==> KeyFate(x, d1, d2, ignore, default, near) == Some(Changed);
  }

  /** A value made of strings, numbers, booleans and dictionaries of those. */
  predicate Comparable(v: Value)
  {
    match v
    case VStr(_) => true
    case VInt(_) => true
    case VBool(_) => true
    case VNum(_) => true
    case VDict(d) => forall i :: 0 <= i < |d| ==> Comparable(d[i].1)
    case _ => false
  }

  /**
   * Comparing a comparable value with itself finds it equal, and comparing
   * a dictionary with itself changes nothing and ignores exactly the keys
   * of the ignore list it holds.
   */
  lemma {:induction false} ValueSelf(v: Value, near: Near)
    requires forall x :: near(x, x)
    requires Comparable(v)
    ensures CompareValue(v, v, near) == Some(true)
    decreases v, 1
  {
    if v.VDict? {
      DictSelf(v.entries, [], near);
    }
  }

  lemma {:induction false} DictSelf(d: Dict<string, Value>, ignore: seq<string>, near: Near)
    requires forall x :: near(x, x)
    requires forall i :: 0 <= i < |d| ==> Comparable(d[i].1)
    ensures CompareDict(d, d, ignore, None, near) ==
      Some(Diff({}, set k | k in KeySet(d, d) && k in ignore))
    decreases VDict(d), 0
  {
    forall k | k in KeySet(d, d)
      ensures KeyFate(k, d, d, ignore, None, near) == if k in ignore then Some(Ignored) else Some(Same)
    {
      if k !in ignore {
        var i := IndexOf(d, k);
        assert d[i].1 < VDict(d);
        GetAtIndex(d, k);
        ValueSelf(d[i].1, near);
      }
    }
    var keys := KeySet(d, d);
    assert (set k | k in keys && KeyFate(k, d, d, ignore, None, near) == Some(Changed)) == {};
    assert (set k | k in keys && KeyFate(k, d, d, ignore, None, near) == Some(Ignored)) ==
           (set k | k in keys && k in ignore);
  }

  /** Strings compare without regard to ASCII case, and only with strings. */
  lemma StringsIgnoreCase(a: string, v2: Value, near: Near)
    ensures CompareValue(VStr(a), v2, near).Some? <==> v2.VStr?
    ensures CompareValue(VStr(a), VStr(Lower(a)), near) == Some(true)
  {
    var b := Lower(a);
    assert Upper(a) == Upper(b) by {
      forall i | 0 <= i < |a|
        ensures UpperChar(a[i]) == UpperChar(LowerChar(a[i]))
      {
      }
    }
  }

  // ---------------------------------------------------------------
  // The loop of compare_dict
  // ---------------------------------------------------------------

  /**
   * The keys in the order the loop visits them, with the lists it builds:
   * `None` as soon as one comparison raises.
   */
  function Walk(keys: seq<string>, d1: Dict<string, Value>, d2: Dict<string, Value>, ignore: seq<string>,
                default: Option<Dict<string, Value>>, near: Near): Option<(seq<string>, seq<string>)>
  {
    if keys == [] then Some(([], []))
    else
      var rest := Walk(keys[1..], d1, d2, ignore, default, near);
      match KeyFate(keys[0], d1, d2, ignore, default, near)
      case None => None
      case Some(Ignored) => if rest.None? then None else Some((rest.value.0, [keys[0]] + rest.value.1))
      case Some(Changed) => if rest.None? then None else Some(([keys[0]] + rest.value.0, rest.value.1))
      case Some(Same) => rest
  }

  /** The loop raises exactly when some key's comparison does, and otherwise lists each key where it belongs. */
  lemma {:induction false} WalkLists(keys: seq<string>, d1: Dict<string, Value>, d2: Dict<string, Value>,
                                     ignore: seq<string>, default: Option<Dict<string, Value>>, near: Near)
    ensures var r := Walk(keys, d1, d2, ignore, default, near);
      r.None? <==> exists i :: 0 <= i < |keys| && KeyFate(keys[i], d1, d2, ignore, default, near).None?
    ensures var r := Walk(keys, d1, d2, ignore, default, near);
      r.Some? ==>
        (forall k :: k in r.value.0 <==> k in keys && KeyFate(k, d1, d2, ignore, default, near) == Some(Changed)) &&
        (forall k :: k in r.value.1 <==> k in keys && KeyFate(k, d1, d2, ignore, default, near) == Some(Ignored))
  {
    if keys != [] {
      WalkLists(keys[1..], d1, d2, ignore, default, near);
      assert forall i :: 1 <= i < |keys| ==> keys[i] == keys[1..][i - 1];
      if KeyFate(keys[0], d1, d2, ignore, default, near).None? {
        assert Walk(keys, d1, d2, ignore, default, near).None?;
      }
    }
  }

  /**
   * Whatever order the set of keys is visited in, the loop raises exactly
   * when `compare_dict` does and lists the keys `compare_dict` classifies.
   */
  lemma WalkAnyOrder(keys: seq<string>, d1: Dict<string, Value>, d2: Dict<string, Value>,
                     ignore: seq<string>, default: Option<Dict<string, Value>>, near: Near)
    requires forall k :: k in keys <==> k in KeySet(d1, d2)
    ensures var r := Walk(keys, d1, d2, ignore, default, near);
      var c := CompareDict(d1, d2, ignore, default, near);
      r.None? == c.None? &&
      (r.Some? ==> (set k | k in r.value.0) == c.value.changed && (set k | k in r.value.1) == c.value.ignored)
  {
    WalkLists(keys, d1, d2, ignore, default, near);
    var r := Walk(keys, d1, d2, ignore, default, near);
    if r.None? {
      var i :| 0 <= i < |keys| && KeyFate(keys[i], d1, d2, ignore, default, near).None?;
      assert keys[i] in KeySet(d1, d2);
    }
  }

  /** One step of `Walk` at position `i`. */
  /** The lists gathered so far, put in front of those the rest of the keys yield. */
  function Prefixed(changed: seq<string>, ignored: seq<string>, rest: Option<(seq<string>, seq<string>)>)
    : Option<(seq<string>, seq<string>)>
  {
    if rest.None? then None else Some((changed + rest.value.0, ignored + rest.value.1))
  }

  /** One turn of the loop: key `i` is filed by its fate and the rest is walked on. */
  lemma WalkStep(keys: seq<string>, i: nat, d1: Dict<string, Value>, d2: Dict<string, Value>,
                 ignore: seq<string>, default: Option<Dict<string, Value>>, near: Near,
                 changed: seq<string>, ignored: seq<string>, fate: Fate)
    requires i < |keys|
    requires KeyFate(keys[i], d1, d2, ignore, default, near) == Some(fate)
    ensures Prefixed(changed, ignored, Walk(keys[i..], d1, d2, ignore, default, near)) ==
      Prefixed(if fate == Changed then changed + [keys[i]] else changed,
               if fate == Ignored then ignored + [keys[i]] else ignored,
               Walk(keys[i + 1..], d1, d2, ignore, default, near))
  {
    assert keys[i..][1..] == keys[i + 1..];
    var rest := Walk(keys[i + 1..], d1, d2, ignore, default, near);
    if rest.Some? {
      assert changed + ([keys[i]] + rest.value.0) == (changed + [keys[i]]) + rest.value.0;
      assert ignored + ([keys[i]] + rest.value.1) == (ignored + [keys[i]]) + rest.value.1;
    }
  }

  /** A key whose comparison raises makes the rest of the walk raise too. */
  lemma WalkRaises(keys: seq<string>, i: nat, d1: Dict<string, Value>, d2: Dict<string, Value>,
                   ignore: seq<string>, default: Option<Dict<string, Value>>, near: Near)
    requires i < |keys|
    requires KeyFate(keys[i], d1, d2, ignore, default, near).None?
    ensures Walk(keys[i..], d1, d2, ignore, default, near).None?
  {
    assert keys[i..][0] == keys[i];
  }

  /**
   * `compare_dict` as the loop it is, over the keys in the order the
   * Python set yields them (`keys`, any enumeration of the set).
   */
  method CompareDictLoop(d1: Dict<string, Value>, d2: Dict<string, Value>, ignore: seq<string>,
                         default: Option<Dict<string, Value>>, near: Near, keys: seq<string>)
    returns (r: Option<(seq<string>, seq<string>)>)
    ensures r == Walk(keys, d1, d2, ignore, default, near)
  {
    var changed: seq<string> := [];
    var ignored: seq<string> := [];
    var i := 0;
    assert keys[0..] == keys;
    var all := Walk(keys, d1, d2, ignore, default, near);
    if all.Some? {
      assert [] + all.value.0 == all.value.0 && [] + all.value.1 == all.value.1;
    }
    while i < |keys|
      invariant 0 <= i <= |keys|
      invariant all == Prefixed(changed, ignored, Walk(keys[i..], d1, d2, ignore, default, near))
    {
      var fate := KeyFate(keys[i], d1, d2, ignore, default, near);
      if fate.None? {
        WalkRaises(keys, i, d1, d2, ignore, default, near);
        return None;
      }
      WalkStep(keys, i, d1, d2, ignore, default, near, changed, ignored, fate.value);
      if fate.value == Ignored {
        ignored := ignored + [keys[i]];
      } else if fate.value == Changed {
        changed := changed + [keys[i]];
      }
      i := i + 1;
    }
    assert keys[i..] == [];
    assert changed + [] == changed && ignored + [] == ignored;
    r := Some((changed, ignored));
  }

  // ---------------------------------------------------------------
  // compare_parameters
  // ---------------------------------------------------------------

  /**
   * The pseudopotential loop: one "pseudopotentials" per species whose
   * value differs, and a last one when a lookup in the new parameters
   * raises, which ends the loop.
   */
  function PseudoChanges(items: Dict<string, Value>, other: Option<Value>): (r: seq<string>)
    ensures forall x :: x in r ==> x == "pseudopotentials"
  {
    if items == [] then []
    else
      var lookup := if other.Some? && other.value.VDict? then Get(other.value.entries, items[0].0) else None;
      if lookup.None? then ["pseudopotentials"]
      else (if items[0].1 != lookup.value then ["pseudopotentials"] else []) + PseudoChanges(items[1..], other)
  }

  /** The whole `try` around the pseudopotential loop. */
  function PseudoPart(para1: Dict<string, Value>, para2: Dict<string, Value>): seq<string>
  {
    var pseudos: Option<Value> := Get(para1, "pseudopotentials");
    match pseudos
    case Some(VDict(items)) => PseudoChanges(items, Get(para2, "pseudopotentials"))
    case _ => ["pseudopotentials"]
  }

  /** The `try` around the k-points comparison. */
  function KptsPart(para1: Dict<string, Value>, para2: Dict<string, Value>): seq<string>
  {
    var a, b := Get(para1, "kpts"), Get(para2, "kpts");
    if a.None? || b.None? || a.value != b.value then ["kpts"] else []
  }

  /**
   * The loop over the namelist sections of the old parameters: each is
   * compared with the same section of the new ones, with the defaults of
   * that section except for INPUT_NTYP; the keys found are added up.
   */
  function Sections(secs: Dict<string, Value>, other: Option<Value>, defaults: Dict<string, Dict<string, Value>>,
                    ignore: seq<string>, near: Near): Option<(multiset<string>, multiset<string>)>
  {
    if secs == [] then Some((multiset{}, multiset{}))
    else
      var (name, paras) := secs[0];
      var newer := if other.Some? && other.value.VDict? then Get(other.value.entries, name) else None;
      if newer.None? || !paras.VDict? || !newer.value.VDict? then None
      else if name != "INPUT_NTYP" && !HasKey(defaults, name) then None
      else
        var default := if name == "INPUT_NTYP" then None else Some(Get(defaults, name).value);
        match CompareDict(paras.entries, newer.value.entries, ignore, default, near)
        case None => None
        case Some(diff) =>
          match Sections(secs[1..], other, defaults, ignore, near)
          case None => None
          case Some(rest) => Some((SetToMultiset(diff.changed) + rest.0, SetToMultiset(diff.ignored) + rest.1))
  }

  function SetToMultiset(s: set<string>): (m: multiset<string>)
    ensures forall x :: m[x] == if x in s then 1 else 0
  {
    if s == {} then multiset{}
    else
      var x :| x in s;
      multiset{x} + SetToMultiset(s - {x})
  }

  /**
   * `compare_parameters(para1, para2)` with `default_parameters['PW']` and
   * `restart_ignore['PW']` given; the two lists it returns are taken as
   * multisets.
   */
  function CompareParams(para1: Dict<string, Value>, para2: Dict<string, Value>,
                         defaults: Dict<string, Dict<string, Value>>, ignore: seq<string>, near: Near)
    : Option<(multiset<string>, multiset<string>)>
  {
    if para1 == [] then Some((multiset{"all"}, multiset{}))
    else
      var fixed := PseudoPart(para1, para2) + KptsPart(para1, para2);
      var data: Option<Value> := Get(para1, "input_data");
      match data
      case Some(VDict(secs)) =>
        (match Sections(secs, Get(para2, "input_data"), defaults, ignore, near)
         case None => None
         case Some(found) => Some((multiset(fixed) + found.0, found.1)))
      case _ => None
  }

  /** Without restart parameters everything counts as changed. */
  lemma ParamsEmpty(para2: Dict<string, Value>, defaults: Dict<string, Dict<string, Value>>, ignore: seq<string>, near: Near)
    ensures CompareParams([], para2, defaults, ignore, near) == Some((multiset{"all"}, multiset{}))
  {
  }

  /** In a dictionary without repeated keys, each entry is what its key looks up. */
  lemma UniqueGet(d: Dict<string, Value>, i: nat)
    requires UniqueKeys(d) && i < |d|
    ensures HasKey(d, d[i].0) && Get(d, d[i].0) == Some(d[i].1)
  {
    GetAtIndex(d, d[i].0);
  }

  /** Parameters whose sections all have defaults and hold comparable values, with no key repeated. */
  predicate WellFormed(p: Dict<string, Value>, defaults: Dict<string, Dict<string, Value>>)
  {
    HasKey(p, "kpts") &&
    var pseudos: Option<Value> := Get(p, "pseudopotentials");
    var data: Option<Value> := Get(p, "input_data");
    (match pseudos case Some(VDict(items)) => UniqueKeys(items) case _ => false) &&
    match data
    case Some(VDict(secs)) => UniqueKeys(secs) && SectionsComparable(secs, defaults)
    case _ => false
  }

  predicate SectionsComparable(secs: Dict<string, Value>, defaults: Dict<string, Dict<string, Value>>)
  {
    forall i :: 0 <= i < |secs| ==>
      secs[i].1.VDict? && Comparable(secs[i].1) && (secs[i].0 == "INPUT_NTYP" || HasKey(defaults, secs[i].0))
  }

  /** Every species of a dictionary matches itself in the same dictionary. */
  lemma {:induction false} PseudoSelf(items: Dict<string, Value>, all: Dict<string, Value>)
    requires forall i :: 0 <= i < |items| ==> Get(all, items[i].0) == Some(items[i].1)
    ensures PseudoChanges(items, Some(VDict(all))) == []
  {
    if items != [] {
      PseudoSelf(items[1..], all);
    }
  }

  /** Every section compared with itself changes nothing and ignores only keys of the ignore list. */
  lemma {:induction false} SectionsSelf(secs: Dict<string, Value>, all: Dict<string, Value>,
                                        defaults: Dict<string, Dict<string, Value>>, ignore: seq<string>, near: Near)
    requires forall x :: near(x, x)
    requires SectionsComparable(secs, defaults)
    requires forall i :: 0 <= i < |secs| ==> Get(all, secs[i].0) == Some(secs[i].1)
    ensures Sections(secs, Some(VDict(all)), defaults, ignore, near).Some?
    ensures var (changed, ignored) := Sections(secs, Some(VDict(all)), defaults, ignore, near).value;
      changed == multiset{} && forall k :: k in ignored ==> k in ignore
  {
    if secs != [] {
      var (name, paras) := secs[0];
      var default := if name == "INPUT_NTYP" then None else Some(Get(defaults, name).value);
      DictSelf(paras.entries, ignore, near);
      DictSelfAnyDefault(paras.entries, ignore, default, near);
      SectionsSelf(secs[1..], all, defaults, ignore, near);
    }
  }

  /** With both dictionaries the same, the defaults are never consulted. */
  lemma DictSelfAnyDefault(d: Dict<string, Value>, ignore: seq<string>, default: Option<Dict<string, Value>>, near: Near)
    ensures CompareDict(d, d, ignore, default, near) == CompareDict(d, d, ignore, None, near)
  {
    forall k | k in KeySet(d, d)
      ensures KeyFate(k, d, d, ignore, default, near) == KeyFate(k, d, d, ignore, None, near)
    {
    }
    var keys := KeySet(d, d);
    assert (set k | k in keys && KeyFate(k, d, d, ignore, default, near) == Some(Changed)) ==
           (set k | k in keys && KeyFate(k, d, d, ignore, None, near) == Some(Changed));
    assert (set k | k in keys && KeyFate(k, d, d, ignore, default, near) == Some(Ignored)) ==
           (set k | k in keys && KeyFate(k, d, d, ignore, None, near) == Some(Ignored));
  }

  /**
   * Comparing well-formed parameters with themselves changes nothing; the
   * keys it lists as ignored are keys of the ignore list.
   */
  lemma ParamsSelf(p: Dict<string, Value>, defaults: Dict<string, Dict<string, Value>>, ignore: seq<string>, near: Near)
    requires forall x :: near(x, x)
    requires p != [] && WellFormed(p, defaults)
    ensures CompareParams(p, p, defaults, ignore, near).Some?
    ensures var (changed, ignored) := CompareParams(p, p, defaults, ignore, near).value;
      changed == multiset{} && forall k :: k in ignored ==> k in ignore
  {
    var items := Get(p, "pseudopotentials").value.entries;
    forall i | 0 <= i < |items|
      ensures Get(items, items[i].0) == Some(items[i].1)
    {
      UniqueGet(items, i);
    }
    PseudoSelf(items, items);
    var secs := Get(p, "input_data").value.entries;
    forall i | 0 <= i < |secs|
      ensures Get(secs, secs[i].0) == Some(secs[i].1)
    {
      UniqueGet(secs, i);
    }
    SectionsSelf(secs, secs, defaults, ignore, near);
  }
}
