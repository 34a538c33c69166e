// Hubbard parameters of a pw.x input in the two forms Quantum ESPRESSO
// accepts: the old form (QE < 7.0), where `Hubbard_U(i)`, `Hubbard_V(na,nb,k)`,
// `Hubbard_J(k,i)`, `Hubbard_alpha(i)` and `Hubbard_beta(i)` entries go into
// the SYSTEM namelist, and the new form (QE >= 7.0), a HUBBARD card whose
// lines name the orbital of every species ("U Fe-3d 4.3").
//
// Parameter values are only stored and printed, so they stay JSON values
// and are rendered with Python's `str()`.

module Hubbard {
  import opened PyStr
  import opened PyDict
  import opened Json

  /** A key of `j_params`: a bare species, or a (species, ityp) pair. */
  datatype JKey = Plain(species: string) | Typed(species: string, ityp: int)

  /** An entry of `v_params`: two labels, two site indices and the value. */
  datatype VParam = VParam(label1: string, label2: string, i: Value, j: Value, value: Value)

  /** The fields of a `HubbardConfig`; `useNewFormat` None means "decide from the parameters". */
  datatype Params = Params(
    useNewFormat: Option<bool>,
    projector: Value,
    u: Dict<string, Value>,
    v: seq<VParam>,
    j: Dict<JKey, Value>,
    alpha: Dict<string, Value>,
    beta: Dict<string, Value>)

  /** Entries of the SYSTEM namelist, in the order they are written. */
  type Pairs = seq<(string, Value)>

  /** `HubbardConfig(use_new_format)`: projector 'atomic' and no parameters. */
  function Initial(flag: Option<bool>): Params
  {
    Params(flag, VStr("atomic"), [], [], [], [], [])
  }

  // ---------------------------------------------------------------
  // Splitting on a one-character separator
  // ---------------------------------------------------------------

  predicate Lacks(s: string, c: char)
  {
    forall i :: 0 <= i < |s| ==> s[i] != c
  }

  lemma {:induction false} FindCharAt(s: string, c: char, from: nat, stop: nat)
    requires from <= stop < |s| && s[stop] == c
    requires forall k :: from <= k < stop ==> s[k] != c
    ensures FindFrom(s, [c], from) == stop
    decreases stop - from
  {
    if from < stop {
      assert s[from..from + 1][0] == s[from];
      FindCharAt(s, c, from + 1, stop);
    } else {
      assert s[from..from + 1] == [c];
    }
  }

  lemma {:induction false} FindCharNone(s: string, c: char, from: nat)
    requires from <= |s|
    requires forall k :: from <= k < |s| ==> s[k] != c
    ensures FindFrom(s, [c], from) == -1
    decreases |s| - from
  {
    if from < |s| {
      assert s[from..from + 1][0] == s[from];
      FindCharNone(s, c, from + 1);
    }
  }

  /** Text without the separator splits into itself. */
  lemma SplitLacking(s: string, c: char)
    requires Lacks(s, c)
    ensures Split(s, [c]) == [s]
    ensures !Contains(s, [c])
  {
    FindCharNone(s, c, 0);
  }

  /** The first piece of `x + c + y` is `x` when `x` has no `c`. */
  lemma SplitChar(x: string, c: char, y: string)
    requires Lacks(x, c)
    ensures Split(x + [c] + y, [c]) == [x] + Split(y, [c])
  {
    var s := x + [c] + y;
    FindCharAt(s, c, 0, |x|);
    assert s[..|x|] == x;
    assert s[|x| + 1..] == y;
  }

  /** `c in x + c + y`. */
  lemma ContainsJoined(x: string, c: char, y: string)
    ensures Contains(x + [c] + y, [c])
  {
    var s := x + [c] + y;
    assert s[|x|..|x| + 1] == [c];
    FindFirst(s, [c], |x|);
  }

  // ---------------------------------------------------------------
  // add_u / add_v / add_j / add_alpha / add_beta
  // ---------------------------------------------------------------

  /** The `u_params` key: "species-orbital" when an orbital is given and the format is not forced old. */
  function UKey(species: string, orbital: Value, flag: Option<bool>): string
  {
    if Truthy(orbital) && flag != Some(false) then species + "-" + Show(orbital) else species
  }

  function WithU(p: Params, species: string, value: Value, orbital: Value): Params
  {
    p.(u := Put(p.u, UKey(species, orbital, p.useNewFormat), value))
  }

  /** The `v_params` entry: orbital-qualified labels when both orbitals are given and the format is not forced old. */
  function VEntry(s1: string, s2: string, value: Value, o1: Value, o2: Value, i: Value, j: Value,
                  flag: Option<bool>): VParam
  {
    if Truthy(o1) && Truthy(o2) && flag != Some(false) then
      VParam(s1 + "-" + Show(o1), s2 + "-" + Show(o2), i, j, value)
    else VParam(s1, s2, i, j, value)
  }

  function WithV(p: Params, s1: string, s2: string, value: Value, o1: Value, o2: Value, i: Value, j: Value): Params
  {
    p.(v := p.v + [VEntry(s1, s2, value, o1, o2, i, j, p.useNewFormat)])
  }

  /** The `j_params` key: a pair when `ityp` is a non-zero number, else the bare species. */
  function JKeyOf(species: string, ityp: Option<int>): JKey
  {
    if ityp.Some? && ityp.value != 0 then Typed(species, ityp.value) else Plain(species)
  }

  function WithJ(p: Params, species: string, value: Value, ityp: Option<int>): Params
  {
    p.(j := Put(p.j, JKeyOf(species, ityp), value))
  }

  /**
   * `add_u` stores the value under "species-orbital" exactly when the
   * orbital is given and the format is not forced old; a species without a
   * dash always strips back to itself (`key.split('-')[0]`).
   */
  lemma UKeyShape(species: string, orbital: Value, flag: Option<bool>)
    requires Lacks(species, '-')
    ensures Contains(UKey(species, orbital, flag), "-") <==> Truthy(orbital) && flag != Some(false)
    ensures Split(UKey(species, orbital, flag), "-")[0] == species
  {
    if Truthy(orbital) && flag != Some(false) {
      ContainsJoined(species, '-', Show(orbital));
      SplitChar(species, '-', Show(orbital));
    } else {
      SplitLacking(species, '-');
    }
  }

  /** After `add_u` the key holds the new value and every other key keeps its own. */
  lemma AddUStores(p: Params, species: string, value: Value, orbital: Value, key: string)
    ensures Get(WithU(p, species, value, orbital).u, key)
      == if key == UKey(species, orbital, p.useNewFormat) then Some(value) else Get(p.u, key)
  {
    PutGet(p.u, UKey(species, orbital, p.useNewFormat), value, key);
  }

  // ---------------------------------------------------------------
  // should_use_new_format
  // ---------------------------------------------------------------

  predicate DashedKey(u: Dict<string, Value>)
  {
    exists k :: 0 <= k < |u| && Contains(u[k].0, "-")
  }

  predicate DashedLabel(v: seq<VParam>)
  {
    exists k :: 0 <= k < |v| && Contains(v[k].label1, "-")
  }

  /** The explicit flag when set; otherwise whether some U key or some first V label has an orbital. */
  predicate NewFormat(p: Params)
  {
    if p.useNewFormat.Some? then p.useNewFormat.value else DashedKey(p.u) || DashedLabel(p.v)
  }

  lemma DashedKeyPut(u: Dict<string, Value>, key: string, value: Value)
    ensures DashedKey(Put(u, key, value)) <==> DashedKey(u) || Contains(key, "-")
  {
    var r := Put(u, key, value);
    if HasKey(u, key) {
      var n := IndexOf(u, key);
      assert Keys(r) == Keys(u);
      assert forall m :: 0 <= m < |u| ==> r[m].0 == Keys(r)[m] == Keys(u)[m] == u[m].0;
    } else {
      assert r[|u|].0 == key;
      assert forall m :: 0 <= m < |u| ==> r[m] == u[m];
    }
  }

  /**
   * With the format undecided, adding a U value to a species without a dash
   * switches to the new format exactly when an orbital is given.
   */
  lemma AddUFormat(p: Params, species: string, value: Value, orbital: Value)
    requires p.useNewFormat.None? && Lacks(species, '-')
    ensures NewFormat(WithU(p, species, value, orbital)) <==> NewFormat(p) || Truthy(orbital)
  {
    UKeyShape(species, orbital, p.useNewFormat);
    DashedKeyPut(p.u, UKey(species, orbital, p.useNewFormat), value);
  }

  /**
   * With the format undecided, adding a V value whose first species has no
   * dash switches to the new format exactly when both orbitals are given.
   */
  lemma AddVFormat(p: Params, s1: string, s2: string, value: Value, o1: Value, o2: Value, i: Value, j: Value)
    requires p.useNewFormat.None? && Lacks(s1, '-')
    ensures NewFormat(WithV(p, s1, s2, value, o1, o2, i, j)) <==> NewFormat(p) || (Truthy(o1) && Truthy(o2))
  {
    var e := VEntry(s1, s2, value, o1, o2, i, j, p.useNewFormat);
    var v := p.v + [e];
    if Truthy(o1) && Truthy(o2) {
      ContainsJoined(s1, '-', Show(o1));
    } else {
      SplitLacking(s1, '-');
    }
    assert v[|p.v|] == e;
    assert forall m :: 0 <= m < |p.v| ==> v[m] == p.v[m];
  }

  // ---------------------------------------------------------------
  // to_new_format_card
  // ---------------------------------------------------------------

  function Header(projector: Value): string
  {
    "HUBBARD {" + Show(projector) + "}\n"
  }

  function ULine(e: (string, Value)): string
  {
    "  U " + e.0 + " " + Show(e.1) + "\n"
  }

  function VLine(e: VParam): string
  {
    "  V " + e.label1 + " " + e.label2 + " " + Show(e.i) + " " + Show(e.j) + " " + Show(e.value) + "\n"
  }

  function ULines(u: Dict<string, Value>): seq<string>
  {
    seq(|u|, k requires 0 <= k < |u| => ULine(u[k]))
  }

  function VLines(v: seq<VParam>): seq<string>
  {
    seq(|v|, k requires 0 <= k < |v| => VLine(v[k]))
  }

  /** The HUBBARD card: the header, the U lines, then the V lines. */
  function Card(p: Params): seq<string>
  {
    [Header(p.projector)] + ULines(p.u) + VLines(p.v)
  }

  /** Writing the lines one entry at a time. */
  lemma ULinesSnoc(u: Dict<string, Value>, k: nat)
    requires k < |u|
    ensures ULines(u[..k + 1]) == ULines(u[..k]) + [ULine(u[k])]
  {
    assert forall m :: 0 <= m < k ==> u[..k + 1][m] == u[..k][m];
  }

  lemma VLinesSnoc(v: seq<VParam>, k: nat)
    requires k < |v|
    ensures VLines(v[..k + 1]) == VLines(v[..k]) + [VLine(v[k])]
  {
    assert forall m :: 0 <= m < k ==> v[..k + 1][m] == v[..k][m];
  }

  /**
   * The card has one header line, then one "  U key value" line per U
   * entry in insertion order, then one "  V a b i j value" line per V
   * entry: 1 + |U| + |V| lines.
   */
  lemma CardShape(p: Params)
    ensures |Card(p)| == 1 + |p.u| + |p.v|
    ensures Card(p)[0] == Header(p.projector)
    ensures forall k :: 0 <= k < |p.u| ==> Card(p)[1 + k] == ULine(p.u[k])
    ensures forall k :: 0 <= k < |p.v| ==> Card(p)[1 + |p.u| + k] == VLine(p.v[k])
  {
    forall k | 0 <= k < |p.u|
      ensures Card(p)[1 + k] == ULine(p.u[k])
    {
      CardULine(p, k);
    }
    forall k | 0 <= k < |p.v|
      ensures Card(p)[1 + |p.u| + k] == VLine(p.v[k])
    {
      CardVLine(p, k);
    }
  }

  /** Line `1 + k` of the card is the line of the k-th U entry. */
  lemma CardULine(p: Params, k: nat)
    requires k < |p.u|
    ensures Card(p)[1 + k] == ULine(p.u[k])
  {
    var h, us, vs := Header(p.projector), ULines(p.u), VLines(p.v);
    assert |us| == |p.u|;
    PartIndex(h, us, vs, 1 + k);
    assert Card(p)[1 + k] == us[k];
    assert us[k] == ULine(p.u[k]);
  }

  /** Line `1 + |U| + k` of the card is the line of the k-th V entry. */
  lemma CardVLine(p: Params, k: nat)
    requires k < |p.v|
    ensures Card(p)[1 + |p.u| + k] == VLine(p.v[k])
  {
    var h, us, vs := Header(p.projector), ULines(p.u), VLines(p.v);
    assert |us| == |p.u|;
    PartIndex(h, us, vs, 1 + |p.u| + k);
    assert Card(p)[1 + |p.u| + k] == vs[k];
    assert vs[k] == VLine(p.v[k]);
  }

  lemma PartIndex<T>(h: T, a: seq<T>, b: seq<T>, n: nat)
    requires 0 < n < 1 + |a| + |b|
    ensures n <= |a| ==> ([h] + a + b)[n] == a[n - 1]
    ensures n > |a| ==> ([h] + a + b)[n] == b[n - 1 - |a|]
  {
  }

  // ---------------------------------------------------------------
  // to_old_format_dict
  // ---------------------------------------------------------------

  /** A SYSTEM namelist entry name, "Hubbard_<tag>(<args>)". */
  function Entry(tag: string, args: string): string
  {
    "Hubbard_" + tag + "(" + args + ")"
  }

  lemma EntryTag(tag: string, args: string)
    requires tag != ""
    ensures |Entry(tag, args)| > 8 && Entry(tag, args)[8] == tag[0]
  {
  }

  /** `key.split('-')[0]`: the species of a U key. */
  function Base(key: string): string
  {
    Split(key, "-")[0]
  }

  function Stripped(u: Dict<string, Value>): Dict<string, Value>
  {
    seq(|u|, k requires 0 <= k < |u| => (Base(u[k].0), u[k].1))
  }

  /** The entry one species-keyed value yields: present only for a species listed in `info`. */
  function SpeciesEmit(tag: string, e: (string, Value), info: Dict<string, Value>): Pairs
  {
    match Get(info, e.0)
    case Some(idx) => [(Entry(tag, Show(idx)), e.1)]
    case None => []
  }

  /** The items each entry yields, entry after entry. */
  function FlatMap<A, B>(f: A -> seq<B>, xs: seq<A>): seq<B>
  {
    if |xs| == 0 then [] else FlatMap(f, xs[..|xs| - 1]) + f(xs[|xs| - 1])
  }

  lemma {:induction false} FlatMapMember<A, B>(f: A -> seq<B>, xs: seq<A>, x: B)
    ensures x in FlatMap(f, xs) <==> exists k :: 0 <= k < |xs| && x in f(xs[k])
  {
    if |xs| > 0 {
      var init := xs[..|xs| - 1];
      FlatMapMember(f, init, x);
      assert forall k :: 0 <= k < |init| ==> init[k] == xs[k];
    }
  }

  lemma FlatMapSnoc<A, B>(f: A -> seq<B>, xs: seq<A>, k: nat)
    requires k < |xs|
    ensures FlatMap(f, xs[..k + 1]) == FlatMap(f, xs[..k]) + f(xs[k])
  {
    assert xs[..k + 1][..k] == xs[..k];
  }

  lemma FlatMapPush<A, B>(f: A -> seq<B>, xs: seq<A>, e: A)
    ensures FlatMap(f, xs + [e]) == FlatMap(f, xs) + f(e)
  {
    assert (xs + [e])[..|xs|] == xs;
  }

  function SpeciesEmitter(tag: string, info: Dict<string, Value>): ((string, Value)) -> Pairs
  {
    e => SpeciesEmit(tag, e, info)
  }

  function SpeciesPairs(tag: string, d: Dict<string, Value>, info: Dict<string, Value>): Pairs
  {
    FlatMap(SpeciesEmitter(tag, info), d)
  }

  function VName(e: VParam): string
  {
    Entry("V", Show(e.i) + "," + Show(e.j) + ",1")
  }

  function VPairs(v: seq<VParam>): Pairs
  {
    seq(|v|, k requires 0 <= k < |v| => (VName(v[k]), v[k].value))
  }

  /** The J component written first: the pair's own, or 1 for a bare species. */
  function JComponent(key: JKey): string
  {
    match key
    case Typed(_, k) => IntToString(k)
    case Plain(_) => "1"
  }

  function JEmit(e: (JKey, Value), info: Dict<string, Value>): Pairs
  {
    match Get(info, e.0.species)
    case Some(idx) => [(Entry("J", JComponent(e.0) + "," + Show(idx)), e.1)]
    case None => []
  }

  function JEmitter(info: Dict<string, Value>): ((JKey, Value)) -> Pairs
  {
    e => JEmit(e, info)
  }

  function JPairs(j: Dict<JKey, Value>, info: Dict<string, Value>): Pairs
  {
    FlatMap(JEmitter(info), j)
  }

  /** Everything the old form writes, U, V, J, alpha and beta in that order. */
  function Emitted(p: Params, info: Dict<string, Value>): Pairs
  {
    SpeciesPairs("U", Stripped(p.u), info) + VPairs(p.v) + JPairs(p.j, info)
      + SpeciesPairs("alpha", p.alpha, info) + SpeciesPairs("beta", p.beta, info)
  }

  /** `d[k] = v` for every pair in turn. */
  function PutAll<K(==)>(d: Dict<K, Value>, xs: seq<(K, Value)>): Dict<K, Value>
  {
    if |xs| == 0 then d else Put(PutAll(d, xs[..|xs| - 1]), xs[|xs| - 1].0, xs[|xs| - 1].1)
  }

  /**
   * The old-form SYSTEM entries as evidently intended, a J value under a
   * bare species using component 1; OldFormatAsWritten is what
   * `to_old_format_dict` returns.
   */
  function OldFormat(p: Params, info: Dict<string, Value>): Dict<string, Value>
  {
    PutAll([], Emitted(p, info))
  }

  /** The value of the last pair with key `k`. */
  function LastValue<K(==)>(xs: seq<(K, Value)>, k: K): Option<Value>
  {
    if |xs| == 0 then None
    else if xs[|xs| - 1].0 == k then Some(xs[|xs| - 1].1)
    else LastValue(xs[..|xs| - 1], k)
  }

  lemma {:induction false} LastValueSome<K>(xs: seq<(K, Value)>, k: K)
    ensures LastValue(xs, k).Some? <==> exists x :: x in xs && x.0 == k
  {
    if |xs| > 0 {
      LastValueSome(xs[..|xs| - 1], k);
      assert xs == xs[..|xs| - 1] + [xs[|xs| - 1]];
    }
  }

  /** A key written several times keeps the last value written; an unwritten key keeps its old value. */
  lemma {:induction false} PutAllGet<K>(d: Dict<K, Value>, xs: seq<(K, Value)>, k: K)
    ensures Get(PutAll(d, xs), k) == if LastValue(xs, k).Some? then LastValue(xs, k) else Get(d, k)
  {
    if |xs| > 0 {
      PutAllGet(d, xs[..|xs| - 1], k);
      PutGet(PutAll(d, xs[..|xs| - 1]), xs[|xs| - 1].0, xs[|xs| - 1].1, k);
    }
  }

  lemma PutAllSnoc<K>(d: Dict<K, Value>, xs: seq<(K, Value)>, x: (K, Value))
    ensures PutAll(d, xs + [x]) == Put(PutAll(d, xs), x.0, x.1)
  {
    assert (xs + [x])[..|xs|] == xs;
  }

  lemma SpeciesPairsMember(tag: string, d: Dict<string, Value>, info: Dict<string, Value>, x: (string, Value))
    ensures x in SpeciesPairs(tag, d, info) <==> exists k :: 0 <= k < |d| && x in SpeciesEmit(tag, d[k], info)
  {
    FlatMapMember(SpeciesEmitter(tag, info), d, x);
  }

  lemma JPairsMember(j: Dict<JKey, Value>, info: Dict<string, Value>, x: (string, Value))
    ensures x in JPairs(j, info) <==> exists k :: 0 <= k < |j| && x in JEmit(j[k], info)
  {
    FlatMapMember(JEmitter(info), j, x);
  }

  lemma VPairsSnoc(v: seq<VParam>, k: nat)
    requires k < |v|
    ensures VPairs(v[..k + 1]) == VPairs(v[..k]) + [(VName(v[k]), v[k].value)]
  {
    assert forall m :: 0 <= m < k ==> v[..k + 1][m] == v[..k][m];
  }

  lemma VLetter(v: seq<VParam>, x: (string, Value))
    requires x in VPairs(v)
    ensures |x.0| > 8 && x.0[8] == 'V'
  {
    var k :| 0 <= k < |v| && VPairs(v)[k] == x;
    EntryTag("V", Show(v[k].i) + "," + Show(v[k].j) + ",1");
  }

  lemma JLetter(j: Dict<JKey, Value>, info: Dict<string, Value>, x: (string, Value))
    requires x in JPairs(j, info)
    ensures |x.0| > 8 && x.0[8] == 'J'
  {
    JPairsMember(j, info, x);
    var k :| 0 <= k < |j| && x in JEmit(j[k], info);
    var idx := Get(info, j[k].0.species).value;
    assert x.0 == Entry("J", JComponent(j[k].0) + "," + Show(idx));
    EntryTag("J", JComponent(j[k].0) + "," + Show(idx));
  }

  lemma SpeciesLetter(tag: string, d: Dict<string, Value>, info: Dict<string, Value>, x: (string, Value))
    requires tag != "" && x in SpeciesPairs(tag, d, info)
    ensures |x.0| > 8 && x.0[8] == tag[0]
  {
    SpeciesPairsMember(tag, d, info, x);
    var k :| 0 <= k < |d| && x in SpeciesEmit(tag, d[k], info);
    var idx := Get(info, d[k].0).value;
    assert x.0 == Entry(tag, Show(idx));
    EntryTag(tag, Show(idx));
  }

  /** Every name outside the U section carries another letter at position 8. */
  lemma SectionLetters(p: Params, info: Dict<string, Value>, x: (string, Value))
    requires x in VPairs(p.v) + JPairs(p.j, info) + SpeciesPairs("alpha", p.alpha, info)
                  + SpeciesPairs("beta", p.beta, info)
    ensures |x.0| > 8 && x.0[8] != 'U'
  {
    if x in VPairs(p.v) {
      VLetter(p.v, x);
    } else if x in JPairs(p.j, info) {
      JLetter(p.j, info, x);
    } else if x in SpeciesPairs("alpha", p.alpha, info) {
      SpeciesLetter("alpha", p.alpha, info, x);
    } else {
      SpeciesLetter("beta", p.beta, info, x);
    }
  }

  /** The U value `e` writes the entry `name`. */
  predicate UWrites(e: (string, Value), info: Dict<string, Value>, name: string)
  {
    HasKey(info, Base(e.0)) && name == Entry("U", Show(Get(info, Base(e.0)).value))
  }

  /** A name none of the later pairs carries is present exactly when an earlier pair carries it. */
  lemma PutAllFront(us: Pairs, rest: Pairs, name: string)
    requires forall x :: x in rest ==> x.0 != name
    ensures HasKey(PutAll([], us + rest), name) <==> exists x :: x in us && x.0 == name
  {
    PutAllGet([], us + rest, name);
    LastValueSome(us + rest, name);
  }

  /** A `Hubbard_U(...)` name can only come from the U section. */
  lemma OldFormatUSection(p: Params, info: Dict<string, Value>, name: string)
    requires StartsWith(name, "Hubbard_U(")
    ensures HasKey(OldFormat(p, info), name) <==> exists x :: x in SpeciesPairs("U", Stripped(p.u), info) && x.0 == name
  {
    var us := SpeciesPairs("U", Stripped(p.u), info);
    var rest := VPairs(p.v) + JPairs(p.j, info) + SpeciesPairs("alpha", p.alpha, info)
                + SpeciesPairs("beta", p.beta, info);
    assert Emitted(p, info) == us + rest;
    assert name[8] == name[..10][8] == 'U';
    forall x | x in rest
      ensures x.0 != name
    {
      SectionLetters(p, info, x);
    }
    PutAllFront(us, rest, name);
  }

  /**
   * The old form has a `Hubbard_U(...)` entry exactly for the indices of the
   * U keys whose species, with any orbital suffix removed, is listed in `info`.
   */
  lemma OldFormatU(p: Params, info: Dict<string, Value>, name: string)
    requires StartsWith(name, "Hubbard_U(")
    ensures HasKey(OldFormat(p, info), name) <==> exists k :: 0 <= k < |p.u| && UWrites(p.u[k], info, name)
  {
    var su := Stripped(p.u);
    OldFormatUSection(p, info, name);
    if HasKey(OldFormat(p, info), name) {
      var x :| x in SpeciesPairs("U", su, info) && x.0 == name;
      SpeciesPairsMember("U", su, info, x);
      var k :| 0 <= k < |su| && x in SpeciesEmit("U", su[k], info);
      assert UWrites(p.u[k], info, name);
    }
    if exists k :: 0 <= k < |p.u| && UWrites(p.u[k], info, name) {
      var k :| 0 <= k < |p.u| && UWrites(p.u[k], info, name);
      var x := (name, p.u[k].1);
      assert x in SpeciesEmit("U", su[k], info);
      SpeciesPairsMember("U", su, info, x);
    }
  }

  /** Every V entry appears as `Hubbard_V(i,j,1)`, regardless of its species labels. */
  lemma OldFormatV(p: Params, info: Dict<string, Value>, k: nat)
    requires k < |p.v|
    ensures HasKey(OldFormat(p, info), Entry("V", Show(p.v[k].i) + "," + Show(p.v[k].j) + ",1"))
  {
    var xs := Emitted(p, info);
    assert VPairs(p.v)[k] == (VName(p.v[k]), p.v[k].value);
    assert (VName(p.v[k]), p.v[k].value) in xs;
    PutAllGet([], xs, VName(p.v[k]));
    LastValueSome(xs, VName(p.v[k]));
  }

  /**
   * Every J value whose species is listed in `info` appears as
   * `Hubbard_J(component,index)`; a bare species key uses component 1.
   */
  lemma OldFormatJ(p: Params, info: Dict<string, Value>, k: nat)
    requires k < |p.j| && HasKey(info, p.j[k].0.species)
    ensures HasKey(OldFormat(p, info),
                   Entry("J", JComponent(p.j[k].0) + "," + Show(Get(info, p.j[k].0.species).value)))
  {
    var xs := Emitted(p, info);
    var name := Entry("J", JComponent(p.j[k].0) + "," + Show(Get(info, p.j[k].0.species).value));
    var x := (name, p.j[k].1);
    assert x in JEmit(p.j[k], info);
    JPairsMember(p.j, info, x);
    PutAllGet([], xs, name);
    LastValueSome(xs, name);
  }

  // ---------------------------------------------------------------
  // to_old_format_dict as written: every J key unpacked as a pair
  // ---------------------------------------------------------------

  /**
   * The J loop as written: `for (species, ityp), value in j_params.items()`
   * unpacks every key. A pair key unpacks as meant; a bare species key is a
   * string, which unpacks into its two characters when it has exactly two
   * and raises ValueError (None here) otherwise.
   */
  function JPairsAsWritten(j: Dict<JKey, Value>, info: Dict<string, Value>): Option<Pairs>
  {
    if |j| == 0 then Some([])
    else
      match JPairsAsWritten(j[..|j| - 1], info)
      case None => None
      case Some(xs) =>
        var e := j[|j| - 1];
        match e.0
        case Typed(s, k) => Some(xs + JEmit(e, info))
        case Plain(s) =>
          if |s| != 2 then None
          else
            match Get(info, [s[0]])
            case Some(idx) => Some(xs + [(Entry("J", [s[1]] + "," + Show(idx)), e.1)])
            case None => Some(xs)
  }

  function OldFormatAsWritten(p: Params, info: Dict<string, Value>): Option<Dict<string, Value>>
  {
    match JPairsAsWritten(p.j, info)
    case None => None
    case Some(js) =>
      Some(PutAll([], SpeciesPairs("U", Stripped(p.u), info) + VPairs(p.v) + js
                      + SpeciesPairs("alpha", p.alpha, info) + SpeciesPairs("beta", p.beta, info)))
  }

  /**
   * How the J loop as written unpacks one key into species and component:
   * a pair as meant, a two-character string into its characters, and any
   * other string not at all (ValueError).
   */
  function UnpackJ(key: JKey): (r: Option<(string, string)>)
    ensures key.Typed? ==> r == Some((key.species, JComponent(key)))
    ensures key.Plain? ==> (r.Some? <==> |key.species| == 2)
  {
    match key
    case Typed(s, _) => Some((s, JComponent(key)))
    case Plain(s) => if |s| == 2 then Some(([s[0]], [s[1]])) else None
  }

  /** Once a J key fails to unpack, the whole old form raises, whatever follows it. */
  lemma {:induction false} JPairsAsWrittenRaises(j: Dict<JKey, Value>, m: nat, info: Dict<string, Value>)
    requires m <= |j| && JPairsAsWritten(j[..m], info).None?
    ensures JPairsAsWritten(j, info).None?
    decreases |j|
  {
    if m == |j| {
      assert j[..m] == j;
    } else {
      assert j[..|j| - 1][..m] == j[..m];
      JPairsAsWrittenRaises(j[..|j| - 1], m, info);
    }
  }

  /** When every J key carries its `ityp`, the J loop as written writes what the intended one does. */
  lemma {:induction false} TypedJPairs(j: Dict<JKey, Value>, info: Dict<string, Value>)
    requires forall k :: 0 <= k < |j| ==> j[k].0.Typed?
    ensures JPairsAsWritten(j, info) == Some(JPairs(j, info))
  {
    if |j| > 0 {
      var init, e := j[..|j| - 1], j[|j| - 1];
      assert forall k :: 0 <= k < |init| ==> init[k] == j[k];
      TypedJPairs(init, info);
      assert j == init + [e];
      JPairsSnoc(init, e, info);
      JPairsAsWrittenSnoc(init, e, info);
      assert JEmit(e, info) == JEmitUnpacked(UnpackJ(e.0).value, e.1, info);
    }
  }

  /** The old form as written raises only on a bare J key; without one it is the intended old form. */
  lemma OldFormatAgrees(p: Params, info: Dict<string, Value>)
    ensures (forall k :: 0 <= k < |p.j| ==> p.j[k].0.Typed?) ==> OldFormatAsWritten(p, info) == Some(OldFormat(p, info))
    ensures OldFormatAsWritten(p, info).None? ==> exists k :: 0 <= k < |p.j| && p.j[k].0.Plain?
  {
    if forall k :: 0 <= k < |p.j| ==> p.j[k].0.Typed? {
      TypedJPairs(p.j, info);
    }
  }

  /**
   * The J values `add_j` stores without `ityp` break the old form as written:
   * "Fe1" makes it raise, and "Fe" is read as species "F", component "e",
   * so its entry vanishes; the corrected form writes `Hubbard_J(1,1)` for both.
   */
  lemma PlainJKeyAsWritten()
    ensures var p := WithJ(Initial(None), "Fe1", VNum("0.5"), None);
            var info := [("Fe1", VInt(1))];
            OldFormatAsWritten(p, info) == None && OldFormat(p, info) == [("Hubbard_J(1,1)", VNum("0.5"))]
    ensures var p := WithJ(Initial(None), "Fe", VNum("0.5"), None);
            var info := [("Fe", VInt(1))];
            OldFormatAsWritten(p, info) == Some([]) && OldFormat(p, info) == [("Hubbard_J(1,1)", VNum("0.5"))]
  {
    PlainJKeyRaises();
    PlainJKeyDropped();
  }

  /** A configuration holding only J values writes only their entries. */
  lemma OnlyJ(p: Params, info: Dict<string, Value>)
    requires p.u == [] && p.v == [] && p.alpha == [] && p.beta == []
    ensures OldFormat(p, info) == PutAll([], JPairs(p.j, info))
    ensures OldFormatAsWritten(p, info)
            == if JPairsAsWritten(p.j, info).None? then None else Some(PutAll([], JPairsAsWritten(p.j, info).value))
  {
    assert Stripped(p.u) == [];
    var us, vs := SpeciesPairs("U", Stripped(p.u), info), VPairs(p.v);
    var als, bes := SpeciesPairs("alpha", p.alpha, info), SpeciesPairs("beta", p.beta, info);
    assert us == [] && vs == [] && als == [] && bes == [];
    assert Emitted(p, info) == JPairs(p.j, info);
    var w := JPairsAsWritten(p.j, info);
    if w.Some? {
      assert us + vs + w.value + als + bes == w.value;
    }
  }

  lemma ShowOne()
    ensures Show(VInt(1)) == "1"
  {
    assert NatToString(1) == [DigitChar(1)];
  }

  /** The J table after one `add_j` without `ityp` on a fresh configuration. */
  lemma OneJTable(species: string)
    ensures WithJ(Initial(None), species, VNum("0.5"), None).j == [(Plain(species), VNum("0.5"))]
  {
  }

  lemma OneJPairs(species: string, info: Dict<string, Value>)
    requires Get(info, species) == Some(VInt(1))
    ensures JPairs([(Plain(species), VNum("0.5"))], info) == [("Hubbard_J(1,1)", VNum("0.5"))]
  {
    var j := [(Plain(species), VNum("0.5"))];
    ShowOne();
    assert JComponent(j[0].0) == "1";
    assert Entry("J", "1" + "," + "1") == "Hubbard_J(1,1)";
    assert JEmit(j[0], info) == [("Hubbard_J(1,1)", VNum("0.5"))];
    JPairsSnoc([], j[0], info);
    assert [] + [j[0]] == j;
  }

  lemma PutAllOne(x: (string, Value))
    ensures PutAll([], [x]) == [x]
  {
    assert [x][..0] == [];
  }

  lemma OneJ(species: string, info: Dict<string, Value>)
    requires Get(info, species) == Some(VInt(1))
    ensures var p := WithJ(Initial(None), species, VNum("0.5"), None);
            p.j == [(Plain(species), VNum("0.5"))] && OldFormat(p, info) == [("Hubbard_J(1,1)", VNum("0.5"))]
  {
    var p := WithJ(Initial(None), species, VNum("0.5"), None);
    OneJTable(species);
    OnlyJ(p, info);
    OneJPairs(species, info);
    PutAllOne(("Hubbard_J(1,1)", VNum("0.5")));
  }

  lemma PlainJKeyRaises()
    ensures var p := WithJ(Initial(None), "Fe1", VNum("0.5"), None);
            var info := [("Fe1", VInt(1))];
            OldFormatAsWritten(p, info) == None && OldFormat(p, info) == [("Hubbard_J(1,1)", VNum("0.5"))]
  {
    var info := [("Fe1", VInt(1))];
    var p := WithJ(Initial(None), "Fe1", VNum("0.5"), None);
    OneJ("Fe1", info);
    OnlyJ(p, info);
    RaisedJPairs();
  }

  /** "Fe1" has three characters, so unpacking it raises. */
  lemma RaisedJPairs()
    ensures JPairsAsWritten([(Plain("Fe1"), VNum("0.5"))], [("Fe1", VInt(1))]) == None
  {
    var j := [(Plain("Fe1"), VNum("0.5"))];
    assert j[..0] == [];
  }

  /** "Fe" unpacks as species "F", which `info` does not list. */
  lemma DroppedJPairs()
    ensures JPairsAsWritten([(Plain("Fe"), VNum("0.5"))], [("Fe", VInt(1))]) == Some([])
  {
    var j := [(Plain("Fe"), VNum("0.5"))];
    var info := [("Fe", VInt(1))];
    assert Get(info, "F") == None by {
      assert info[0].0 != "F";
    }
    assert j[..0] == [];
  }

  lemma PlainJKeyDropped()
    ensures var p := WithJ(Initial(None), "Fe", VNum("0.5"), None);
            var info := [("Fe", VInt(1))];
            OldFormatAsWritten(p, info) == Some([]) && OldFormat(p, info) == [("Hubbard_J(1,1)", VNum("0.5"))]
  {
    var info := [("Fe", VInt(1))];
    var p := WithJ(Initial(None), "Fe", VNum("0.5"), None);
    OneJ("Fe", info);
    OnlyJ(p, info);
    DroppedJPairs();
  }

  // ---------------------------------------------------------------
  // from_input_data
  // ---------------------------------------------------------------

  /** Python's `key in c`: None where it raises TypeError (None, booleans and numbers). */
  function In(key: string, c: Value): Option<bool>
  {
    match c
    case VDict(d) => Some(HasKey(d, key))
    case VStr(s) => Some(Contains(s, key))
    case VList(xs) => Some(VStr(key) in xs)
    case _ => None
  }

  /** `c.items()`: only a dict has them. */
  function Items(c: Value): Option<Dict<string, Value>>
  {
    match c
    case VDict(d) => Some(d)
    case _ => None
  }

  /** `for x in c`: a list's items, a dict's keys, a string's characters. */
  function Iter(c: Value): Option<seq<Value>>
  {
    match c
    case VList(xs) => Some(xs)
    case VDict(d) => Some(seq(|d|, k requires 0 <= k < |d| => VStr(d[k].0)))
    case VStr(s) => Some(seq(|s|, k requires 0 <= k < |s| => VStr([s[k]])))
    case _ => None
  }

  /**
   * The choice the QE version makes: `major >= 7` when the first two
   * dot-separated fields both parse as integers; no choice for a missing or
   * empty version, or when parsing fails (the ValueError is swallowed).
   */
  function VersionFlag(version: Option<string>): Option<bool>
  {
    if version.None? || version.value == "" then None
    else
      var parts := Split(version.value, ".");
      if |parts| >= 2 && ParseInt(parts[0]).Some? && ParseInt(parts[1]).Some? then
        Some(ParseInt(parts[0]).value >= 7)
      else None
  }

  /** `input_data['hubbard']` when it is a dict. */
  function CardData(data: Dict<string, Value>): Option<Dict<string, Value>>
  {
    var h := Get(data, "hubbard");
    if h.Some? && h.value.VDict? then Some(h.value.entries) else None
  }

  /** The format flag: the version's choice, overridden by `hubbard_format`, overridden by a `hubbard` dict. */
  function FormatFlag(data: Dict<string, Value>, version: Option<string>): Option<bool>
  {
    if CardData(data).Some? then Some(true)
    else if HasKey(data, "hubbard_format") then Some(Get(data, "hubbard_format").value == VStr("card"))
    else VersionFlag(version)
  }

  /** One entry of the card's `u` dict: "species-orbital" is split at its dash when it has exactly one. */
  function AddSpecOrb(p: Params, e: (string, Value)): Params
  {
    var parts := Split(e.0, "-");
    if |parts| == 2 then WithU(p, parts[0], e.1, VStr(parts[1])) else WithU(p, e.0, e.1, VNone)
  }

  function AddSpecOrbs(p: Params, items: Dict<string, Value>): Params
  {
    if |items| == 0 then p else AddSpecOrb(AddSpecOrbs(p, items[..|items| - 1]), items[|items| - 1])
  }

  /** One entry of the card's `v` list, read with `get` and its defaults. */
  function AddVSpec(p: Params, x: Value): Params
  {
    WithV(p, Show(FieldOr(x, "species1", VStr(""))), Show(FieldOr(x, "species2", VStr(""))),
          FieldOr(x, "value", VNum("0.0")), FieldOr(x, "orbital1", VNone), FieldOr(x, "orbital2", VNone),
          FieldOr(x, "i", VInt(1)), FieldOr(x, "j", VInt(1)))
  }

  function AddVSpecs(p: Params, xs: seq<Value>): Params
  {
    if |xs| == 0 then p else AddVSpec(AddVSpecs(p, xs[..|xs| - 1]), xs[|xs| - 1])
  }

  predicate AllDicts(xs: seq<Value>)
  {
    forall k :: 0 <= k < |xs| ==> xs[k].VDict?
  }

  /**
   * The `hubbard` dict: its projector, its `u` entries, then its `v` entries;
   * None when `u` is not a dict, `v` cannot be iterated or holds a non-dict.
   */
  function CardStage(p: Params, hd: Dict<string, Value>): Option<Params>
  {
    var p1 := if HasKey(hd, "projector") then p.(projector := Get(hd, "projector").value) else p;
    var us := if HasKey(hd, "u") then Items(Get(hd, "u").value) else Some([]);
    var vs := if HasKey(hd, "v") then Iter(Get(hd, "v").value) else Some([]);
    if us.None? || vs.None? || !AllDicts(vs.value) then None
    else Some(AddVSpecs(AddSpecOrbs(p1, us.value), vs.value))
  }

  /** `input_data.get('input_ntyp') or input_data.get('INPUT_NTYP')`. */
  function NtypValue(data: Dict<string, Value>): Value
  {
    var lower := GetOr(data, "input_ntyp", VNone);
    if Truthy(lower) then lower else GetOr(data, "INPUT_NTYP", VNone)
  }

  /** The table `nt[key]` iterated with `.items()`: empty when absent, None when Python raises. */
  function Table(nt: Value, key: string): Option<Dict<string, Value>>
  {
    match In(key, nt)
    case None => None
    case Some(false) => Some([])
    case Some(true) =>
      match nt
      case VDict(d) => Items(Get(d, key).value)
      case _ => None
  }

  /** `d[k] = Plain(k)` for every species of a Hubbard_J table. */
  function PutPlain(j: Dict<JKey, Value>, tbl: Dict<string, Value>): Dict<JKey, Value>
  {
    if |tbl| == 0 then j else Put(PutPlain(j, tbl[..|tbl| - 1]), Plain(tbl[|tbl| - 1].0), tbl[|tbl| - 1].1)
  }

  /** The INPUT_NTYP tables: U by species, J by bare species, alpha, beta. */
  function NtypLoad(p: Params, nt: Value): Option<Params>
  {
    var tu := Table(nt, "Hubbard_U");
    var tj := Table(nt, "Hubbard_J");
    var ta := Table(nt, "Hubbard_alpha");
    var tb := Table(nt, "Hubbard_beta");
    if tu.None? || tj.None? || ta.None? || tb.None? then None
    else Some(p.(u := PutAll(p.u, tu.value), j := PutPlain(p.j, tj.value),
                 alpha := PutAll(p.alpha, ta.value), beta := PutAll(p.beta, tb.value)))
  }

  predicate IsParen(c: char)
  {
    c == '(' || c == ')'
  }

  function StripLeftParens(s: string): string
  {
    if |s| > 0 && IsParen(s[0]) then StripLeftParens(s[1..]) else s
  }

  function StripRightParens(s: string): string
  {
    if |s| > 0 && IsParen(s[|s| - 1]) then StripRightParens(s[..|s| - 1]) else s
  }

  /** `s.strip('()')`. */
  function StripParens(s: string): string
  {
    StripRightParens(StripLeftParens(s))
  }

  /** The two site indices of a "(na,nb,k)" key; None when it has fewer than three integer fields. */
  function ParseVKey(key: string): Option<(int, int)>
  {
    var parts := Split(StripParens(key), ",");
    if |parts| >= 3 && ParseInt(parts[0]).Some? && ParseInt(parts[1]).Some? && ParseInt(parts[2]).Some? then
      Some((ParseInt(parts[0]).value, ParseInt(parts[1]).value))
    else None
  }

  function VKeyParam(e: (string, Value)): seq<VParam>
  {
    var r := ParseVKey(e.0);
    if r.Some? then [VParam("", "", VInt(r.value.0), VInt(r.value.1), e.1)] else []
  }

  function VKeyParams(d: Dict<string, Value>): seq<VParam>
  {
    FlatMap(VKeyParam, d)
  }

  /** The `hubbard_v` dict: one unlabelled V entry per well-formed key; None when it is not a dict. */
  function HubbardVLoad(p: Params, hv: Value): Option<Params>
  {
    match Items(hv)
    case None => None
    case Some(d) => Some(p.(v := p.v + VKeyParams(d)))
  }

  /** `HubbardConfig.from_input_data`; None when it raises. */
  function FromInput(data: Dict<string, Value>, version: Option<string>): Option<Params>
  {
    var p0 := Initial(FormatFlag(data, version));
    var p1 := if CardData(data).Some? then CardStage(p0, CardData(data).value) else Some(p0);
    if p1.None? then None
    else
      var p2 := if HasKey(data, "input_ntyp") || HasKey(data, "INPUT_NTYP") then NtypLoad(p1.value, NtypValue(data))
                else p1;
      if p2.None? then None
      else if HasKey(data, "hubbard_v") then HubbardVLoad(p2.value, Get(data, "hubbard_v").value)
      else p2
  }

  /** "X.Y" with numeric fields chooses the new format exactly when X >= 7; a lone "X" chooses nothing. */
  lemma VersionFlagOf(a: nat, b: nat)
    ensures VersionFlag(Some(NatToString(a) + "." + NatToString(b))) == Some(a >= 7)
    ensures VersionFlag(Some(NatToString(a))) == None
  {
    VersionFlagPair(a, b);
    VersionFlagLone(a);
  }

  lemma VersionFlagPair(a: nat, b: nat)
    ensures VersionFlag(Some(NatToString(a) + "." + NatToString(b))) == Some(a >= 7)
  {
    var x, y := NatToString(a), NatToString(b);
    assert Lacks(x, '.') && Lacks(y, '.');
    SplitChar(x, '.', y);
    SplitLacking(y, '.');
    var parts := Split(x + "." + y, ".");
    assert parts == [x, y];
    ParseIntNatToString(a);
    ParseIntNatToString(b);
  }

  lemma VersionFlagLone(a: nat)
    ensures VersionFlag(Some(NatToString(a))) == None
  {
    var x := NatToString(a);
    assert Lacks(x, '.');
    SplitLacking(x, '.');
  }

  /** The format flag's precedence: a `hubbard` dict, then `hubbard_format`, then the version. */
  lemma FormatPrecedence(data: Dict<string, Value>, a: nat, b: nat)
    ensures CardData(data).Some? ==> FormatFlag(data, Some(NatToString(a) + "." + NatToString(b))) == Some(true)
    ensures CardData(data).None? && Get(data, "hubbard_format") == Some(VStr("card"))
            ==> FormatFlag(data, Some(NatToString(a) + "." + NatToString(b))) == Some(true)
    ensures CardData(data).None? && !HasKey(data, "hubbard_format")
            ==> FormatFlag(data, Some(NatToString(a) + "." + NatToString(b))) == Some(a >= 7)
  {
    VersionFlagOf(a, b);
  }

  lemma StripParensOf(t: string)
    requires |t| > 0 && !IsParen(t[0]) && !IsParen(t[|t| - 1])
    ensures StripParens("(" + t + ")") == t
  {
    var s := "(" + t + ")";
    assert s[1..] == t + ")";
    assert StripLeftParens(s) == t + ")";
    assert (t + ")")[..|t|] == t;
    assert StripRightParens(t + ")") == StripRightParens(t) == t;
  }

  lemma SplitTwo(x: string, y: string)
    requires Lacks(x, ',') && Lacks(y, ',')
    ensures Split(x + "," + y, ",") == [x, y]
  {
    SplitChar(x, ',', y);
    SplitLacking(y, ',');
  }

  lemma SplitThree(x: string, y: string, z: string)
    requires Lacks(x, ',') && Lacks(y, ',') && Lacks(z, ',')
    ensures Split(x + "," + y + "," + z, ",") == [x, y, z]
  {
    var r := y + "," + z;
    assert x + "," + y + "," + z == x + [','] + r;
    SplitChar(x, ',', r);
    SplitTwo(y, z);
  }

  /** A "(na,nb,k)" key gives (na, nb); the third index is checked and dropped. */
  lemma VKeyOf(a: nat, b: nat, c: nat)
    ensures ParseVKey("(" + (NatToString(a) + "," + NatToString(b) + "," + NatToString(c)) + ")") == Some((a as int, b as int))
  {
    var x, y, z := NatToString(a), NatToString(b), NatToString(c);
    var t := x + "," + y + "," + z;
    var key := "(" + t + ")";
    StripParensOf(t);
    SplitThree(x, y, z);
    var parts := Split(StripParens(key), ",");
    assert parts == [x, y, z];
    ParseIntNatToString(a);
    ParseIntNatToString(b);
    ParseIntNatToString(c);
    assert ParseInt(parts[0]) == Some(a as int) && ParseInt(parts[1]) == Some(b as int);
  }

  /** A key with only two fields, "(na,nb)", is ignored. */
  lemma VKeyTooShort(a: nat, b: nat)
    ensures ParseVKey("(" + (NatToString(a) + "," + NatToString(b)) + ")") == None
  {
    var x, y := NatToString(a), NatToString(b);
    var t := x + "," + y;
    StripParensOf(t);
    SplitTwo(x, y);
  }

  /**
   * `hubbard_v` adds, after the existing V entries, an unlabelled entry for
   * exactly the keys that parse, keeping each key's value.
   */
  lemma HubbardVEntries(p: Params, d: Dict<string, Value>, x: VParam)
    ensures HubbardVLoad(p, VDict(d)).Some?
    ensures HubbardVLoad(p, VDict(d)).value.v[..|p.v|] == p.v
    ensures x in HubbardVLoad(p, VDict(d)).value.v[|p.v|..]
            <==> exists k :: 0 <= k < |d| && ParseVKey(d[k].0).Some?
                   && x == VParam("", "", VInt(ParseVKey(d[k].0).value.0), VInt(ParseVKey(d[k].0).value.1), d[k].1)
  {
    var q := HubbardVLoad(p, VDict(d)).value;
    assert q.v[|p.v|..] == VKeyParams(d);
    FlatMapMember(VKeyParam, d, x);
  }

  /**
   * A `u` entry "species-orbital" of the card dict, with one dash and a
   * non-empty orbital, is stored under exactly that key.
   */
  lemma CardUKey(p: Params, species: string, orbital: string, value: Value)
    requires p.useNewFormat == Some(true)
    requires Lacks(species, '-') && Lacks(orbital, '-') && orbital != ""
    ensures AddSpecOrb(p, (species + "-" + orbital, value)) == p.(u := Put(p.u, species + "-" + orbital, value))
  {
    SplitChar(species, '-', orbital);
    SplitLacking(orbital, '-');
  }

  // ---------------------------------------------------------------
  // build_hubbard_str
  // ---------------------------------------------------------------

  /** Whether the input has Hubbard markers; None when an `in` test raises. */
  function HasHubbard(data: Dict<string, Value>): Option<bool>
  {
    var lower := if HasKey(data, "input_ntyp") then In("Hubbard_U", Get(data, "input_ntyp").value) else Some(false);
    var upper := if HasKey(data, "INPUT_NTYP") then In("Hubbard_U", Get(data, "INPUT_NTYP").value) else Some(false);
    if lower.None? || upper.None? then None
    else Some(HasKey(data, "hubbard") || lower.value || upper.value || HasKey(data, "hubbard_v"))
  }

  /** `build_hubbard_str`; None when it raises. */
  function BuildHubbard(data: Dict<string, Value>, info: Dict<string, Value>, version: Option<string>)
    : Option<seq<string>>
  {
    match HasHubbard(data)
    case None => None
    case Some(false) => Some([])
    case Some(true) =>
      match FromInput(data, version)
      case None => None
      case Some(p) => Some(if NewFormat(p) then Card(p) else [])
  }

  /**
   * `build_hubbard_str` gives [] without Hubbard markers and when the old
   * format applies; any lines it gives are the card of the configuration
   * read from the input, which uses the new format.
   */
  lemma BuildHubbardCases(data: Dict<string, Value>, info: Dict<string, Value>, version: Option<string>)
    ensures HasHubbard(data) == Some(false) ==> BuildHubbard(data, info, version) == Some([])
    ensures FromInput(data, version).Some? && !NewFormat(FromInput(data, version).value)
            ==> BuildHubbard(data, info, version) in {None, Some([])}
    ensures BuildHubbard(data, info, version).Some? && BuildHubbard(data, info, version).value != []
            ==> FromInput(data, version).Some? && NewFormat(FromInput(data, version).value)
                && BuildHubbard(data, info, version).value == Card(FromInput(data, version).value)
                && BuildHubbard(data, info, version).value[0] == Header(FromInput(data, version).value.projector)
                && |BuildHubbard(data, info, version).value|
                   == 1 + |FromInput(data, version).value.u| + |FromInput(data, version).value.v|
  {
    if FromInput(data, version).Some? {
      CardShape(FromInput(data, version).value);
    }
  }

  lemma SpeciesPairsSnoc(tag: string, d: Dict<string, Value>, e: (string, Value), info: Dict<string, Value>)
    ensures SpeciesPairs(tag, d + [e], info) == SpeciesPairs(tag, d, info) + SpeciesEmit(tag, e, info)
  {
    FlatMapPush(SpeciesEmitter(tag, info), d, e);
  }

  lemma JPairsSnoc(j: Dict<JKey, Value>, e: (JKey, Value), info: Dict<string, Value>)
    ensures JPairs(j + [e], info) == JPairs(j, info) + JEmit(e, info)
  {
    FlatMapPush(JEmitter(info), j, e);
  }

  /** Writing a section one entry at a time: an entry yields at most one pair. */
  lemma PutAllStep(prefix: Pairs, a: Pairs, e: Pairs)
    requires |e| <= 1
    ensures PutAll([], prefix + (a + e))
      == if e == [] then PutAll([], prefix + a) else Put(PutAll([], prefix + a), e[0].0, e[0].1)
  {
    assert prefix + (a + e) == (prefix + a) + e;
    if e != [] {
      assert e == [e[0]];
      PutAllSnoc([], prefix + a, e[0]);
    } else {
      assert a + e == a;
    }
  }

  lemma WriteUStep(pre: Pairs, u: Dict<string, Value>, k: nat, info: Dict<string, Value>)
    requires k < |u|
    ensures var before := PutAll([], pre + SpeciesPairs("U", Stripped(u[..k]), info));
            PutAll([], pre + SpeciesPairs("U", Stripped(u[..k + 1]), info))
            == if HasKey(info, Base(u[k].0)) then Put(before, Entry("U", Show(Get(info, Base(u[k].0)).value)), u[k].1)
               else before
  {
    var e := (Base(u[k].0), u[k].1);
    assert Stripped(u[..k + 1]) == Stripped(u[..k]) + [e];
    SpeciesPairsSnoc("U", Stripped(u[..k]), e, info);
    PutAllStep(pre, SpeciesPairs("U", Stripped(u[..k]), info), SpeciesEmit("U", e, info));
  }

  /** The pair an unpacked J key writes, if its species is listed. */
  function JEmitUnpacked(sc: (string, string), v: Value, info: Dict<string, Value>): (r: Pairs)
    ensures |r| <= 1
  {
    if HasKey(info, sc.0) then [(Entry("J", sc.1 + "," + Show(Get(info, sc.0).value)), v)] else []
  }

  lemma JPairsAsWrittenSnoc(j: Dict<JKey, Value>, e: (JKey, Value), info: Dict<string, Value>)
    requires JPairsAsWritten(j, info).Some?
    ensures JPairsAsWritten(j + [e], info)
            == if UnpackJ(e.0).None? then None
               else Some(JPairsAsWritten(j, info).value + JEmitUnpacked(UnpackJ(e.0).value, e.1, info))
  {
    var je := j + [e];
    assert je[..|je| - 1] == j && je[|je| - 1] == e;
    var xs := JPairsAsWritten(j, info).value;
    if e.0.Typed? {
      assert JEmit(e, info) == JEmitUnpacked(UnpackJ(e.0).value, e.1, info);
    } else if |e.0.species| == 2 {
      var s := e.0.species;
      assert UnpackJ(e.0).value == ([s[0]], [s[1]]);
      assert e.0 == Plain(s) && |s| == 2;
      if HasKey(info, [s[0]]) {
        var idx := Get(info, [s[0]]).value;
        assert JPairsAsWritten(je, info) == Some(xs + [(Entry("J", [s[1]] + "," + Show(idx)), e.1)]);
      } else {
        assert JPairsAsWritten(je, info) == Some(xs);
        assert xs + [] == xs;
      }
    }
  }

  lemma WriteJAsWrittenStep(pre: Pairs, j: Dict<JKey, Value>, k: nat, info: Dict<string, Value>)
    requires k < |j| && JPairsAsWritten(j[..k], info).Some?
    ensures JPairsAsWritten(j[..k + 1], info).None? <==> UnpackJ(j[k].0).None?
    ensures UnpackJ(j[k].0).Some? ==>
            PutAll([], pre + JPairsAsWritten(j[..k + 1], info).value)
            == PutAll([], pre + (JPairsAsWritten(j[..k], info).value + JEmitUnpacked(UnpackJ(j[k].0).value, j[k].1, info)))
  {
    assert j[..k + 1] == j[..k] + [j[k]];
    JPairsAsWrittenSnoc(j[..k], j[k], info);
  }

  lemma WriteSpeciesStep(pre: Pairs, tag: string, d: Dict<string, Value>, k: nat, info: Dict<string, Value>)
    requires k < |d|
    ensures var before := PutAll([], pre + SpeciesPairs(tag, d[..k], info));
            PutAll([], pre + SpeciesPairs(tag, d[..k + 1], info))
            == if HasKey(info, d[k].0) then Put(before, Entry(tag, Show(Get(info, d[k].0).value)), d[k].1)
               else before
  {
    assert d[..k + 1] == d[..k] + [d[k]];
    SpeciesPairsSnoc(tag, d[..k], d[k], info);
    PutAllStep(pre, SpeciesPairs(tag, d[..k], info), SpeciesEmit(tag, d[k], info));
  }

  lemma AddVSpecsStep(p: Params, vs: seq<Value>, k: nat)
    requires k < |vs| && AllDicts(vs[..k]) && vs[k].VDict?
    ensures AllDicts(vs[..k + 1])
    ensures AddVSpecs(p, vs[..k + 1]) == AddVSpec(AddVSpecs(p, vs[..k]), vs[k])
  {
    assert forall m :: 0 <= m < k ==> vs[..k + 1][m] == vs[..k][m];
    assert vs[..k + 1][..k] == vs[..k];
  }

  // ---------------------------------------------------------------
  // The configuration object
  // ---------------------------------------------------------------

  class HubbardConfig {
    var useNewFormat: Option<bool>
    var projector: Value
    var uParams: Dict<string, Value>
    var vParams: seq<VParam>
    var jParams: Dict<JKey, Value>
    var alphaParams: Dict<string, Value>
    var betaParams: Dict<string, Value>

    /** `HubbardConfig(use_new_format)`: projector 'atomic', every table empty. */
    constructor (flag: Option<bool>)
      ensures State() == Initial(flag)
    {
      useNewFormat, projector := flag, VStr("atomic");
      uParams, vParams, jParams, alphaParams, betaParams := [], [], [], [], [];
    }

    function State(): Params
      reads this
    {
      Params(useNewFormat, projector, uParams, vParams, jParams, alphaParams, betaParams)
    }

    /** `add_u`: the value goes under the key `UKey` chooses, overwriting an earlier one. */
    method AddU(species: string, value: Value, orbital: Value)
      modifies this
      ensures State() == WithU(old(State()), species, value, orbital)
    {
      var key := if Truthy(orbital) && useNewFormat != Some(false) then species + "-" + Show(orbital) else species;
      uParams := Put(uParams, key, value);
    }

    /** `add_v`: one entry is appended, with orbital-qualified labels when both orbitals are given. */
    method AddV(s1: string, s2: string, value: Value, o1: Value, o2: Value, i: Value, j: Value)
      modifies this
      ensures State() == WithV(old(State()), s1, s2, value, o1, o2, i, j)
    {
      if Truthy(o1) && Truthy(o2) && useNewFormat != Some(false) {
        vParams := vParams + [VParam(s1 + "-" + Show(o1), s2 + "-" + Show(o2), i, j, value)];
      } else {
        vParams := vParams + [VParam(s1, s2, i, j, value)];
      }
    }

    /** `add_j`: keyed by (species, ityp) for a non-zero `ityp`, else by the species alone. */
    method AddJ(species: string, value: Value, ityp: Option<int>)
      modifies this
      ensures State() == WithJ(old(State()), species, value, ityp)
    {
      var key := if ityp.Some? && ityp.value != 0 then Typed(species, ityp.value) else Plain(species);
      jParams := Put(jParams, key, value);
    }

    /** `add_alpha`. */
    method AddAlpha(species: string, value: Value)
      modifies this
      ensures State() == old(State()).(alpha := Put(old(alphaParams), species, value))
    {
      alphaParams := Put(alphaParams, species, value);
    }

    /** `add_beta`. */
    method AddBeta(species: string, value: Value)
      modifies this
      ensures State() == old(State()).(beta := Put(old(betaParams), species, value))
    {
      betaParams := Put(betaParams, species, value);
    }

    /** `should_use_new_format`: the explicit flag, else a scan for an orbital-qualified key or label. */
    method ShouldUseNewFormat() returns (r: bool)
      ensures r == NewFormat(State())
    {
      if useNewFormat.Some? {
        return useNewFormat.value;
      }
      var k := 0;
      while k < |uParams|
        invariant 0 <= k <= |uParams|
        invariant forall m :: 0 <= m < k ==> !Contains(uParams[m].0, "-")
      {
        if Contains(uParams[k].0, "-") {
          return true;
        }
        k := k + 1;
      }
      k := 0;
      while k < |vParams|
        invariant 0 <= k <= |vParams|
        invariant forall m :: 0 <= m < k ==> !Contains(vParams[m].label1, "-")
      {
        if Contains(vParams[k].label1, "-") {
          return true;
        }
        k := k + 1;
      }
      return false;
    }

    /** `to_new_format_card`: the header, then a line per U entry, then a line per V entry. */
    method ToNewFormatCard() returns (lines: seq<string>)
      ensures lines == Card(State())
    {
      lines := [Header(projector)];
      var k := 0;
      while k < |uParams|
        invariant 0 <= k <= |uParams|
        invariant lines == [Header(projector)] + ULines(uParams[..k])
      {
        ULinesSnoc(uParams, k);
        lines := lines + [ULine(uParams[k])];
        k := k + 1;
      }
      assert uParams[..k] == uParams;
      k := 0;
      while k < |vParams|
        invariant 0 <= k <= |vParams|
        invariant lines == [Header(projector)] + ULines(uParams) + VLines(vParams[..k])
      {
        VLinesSnoc(vParams, k);
        lines := lines + [VLine(vParams[k])];
        k := k + 1;
      }
      assert vParams[..k] == vParams;
    }

    /**
     * `to_old_format_dict`: the U, V, J, alpha and beta entries in that
     * order, or None where unpacking a bare J key raises.
     */
    method ToOldFormatDict(info: Dict<string, Value>) returns (params: Option<Dict<string, Value>>)
      ensures params == OldFormatAsWritten(State(), info)
    {
      var us := SpeciesPairs("U", Stripped(uParams), info);
      var vs := VPairs(vParams);
      var als := SpeciesPairs("alpha", alphaParams, info);
      var d := WriteU([], [], uParams, info);
      assert [] + us == us;
      d := WriteV(d, us, vParams);
      var dj := WriteJAsWritten(d, us + vs, jParams, info);
      if dj.None? {
        return None;
      }
      ghost var js := JPairsAsWritten(jParams, info).value;
      d := WriteSpecies(dj.value, us + vs + js, "alpha", alphaParams, info);
      d := WriteSpecies(d, us + vs + js + als, "beta", betaParams, info);
      params := Some(d);
    }

    /** The `u` entries of the `hubbard` dict, each split at its dash. */
    method LoadSpecOrbs(us: Dict<string, Value>)
      modifies this
      ensures State() == AddSpecOrbs(old(State()), us)
    {
      ghost var p0 := State();
      var k := 0;
      while k < |us|
        invariant 0 <= k <= |us|
        invariant State() == AddSpecOrbs(p0, us[..k])
      {
        var parts := Split(us[k].0, "-");
        if |parts| == 2 {
          AddU(parts[0], us[k].1, VStr(parts[1]));
        } else {
          AddU(us[k].0, us[k].1, VNone);
        }
        assert us[..k + 1][..k] == us[..k];
        k := k + 1;
      }
      assert us[..k] == us;
    }

    /** The `v` entries of the `hubbard` dict; false at the first one that is not a dict. */
    method LoadVSpecs(vs: seq<Value>) returns (ok: bool)
      modifies this
      ensures ok == AllDicts(vs)
      ensures ok ==> State() == AddVSpecs(old(State()), vs)
    {
      ghost var p0 := State();
      var k := 0;
      while k < |vs|
        invariant 0 <= k <= |vs|
        invariant AllDicts(vs[..k])
        invariant State() == AddVSpecs(p0, vs[..k])
      {
        var x := vs[k];
        if !x.VDict? {
          assert !vs[k].VDict?;
          return false;
        }
        AddVSpecsStep(p0, vs, k);
        var s1, s2 := Show(FieldOr(x, "species1", VStr(""))), Show(FieldOr(x, "species2", VStr("")));
        var value, o1, o2 := FieldOr(x, "value", VNum("0.0")), FieldOr(x, "orbital1", VNone), FieldOr(x, "orbital2", VNone);
        var i, j := FieldOr(x, "i", VInt(1)), FieldOr(x, "j", VInt(1));
        assert AddVSpec(State(), x) == WithV(State(), s1, s2, value, o1, o2, i, j);
        AddV(s1, s2, value, o1, o2, i, j);
        k := k + 1;
      }
      assert vs[..k] == vs;
      return true;
    }

    /** The `hubbard` dict of `from_input_data`: projector, then `u`, then `v`; false where Python raises. */
    method LoadCard(hd: Dict<string, Value>) returns (ok: bool)
      modifies this
      ensures ok == CardStage(old(State()), hd).Some?
      ensures ok ==> State() == CardStage(old(State()), hd).value
    {
      if HasKey(hd, "projector") {
        projector := Get(hd, "projector").value;
      }
      var us: Dict<string, Value> := [];
      if HasKey(hd, "u") {
        var items := Items(Get(hd, "u").value);
        if items.None? {
          return false;
        }
        us := items.value;
      }
      LoadSpecOrbs(us);
      var vs: seq<Value> := [];
      if HasKey(hd, "v") {
        var items := Iter(Get(hd, "v").value);
        if items.None? {
          return false;
        }
        vs := items.value;
      }
      ok := LoadVSpecs(vs);
    }

    /** A Hubbard_U table: each species is a U key. */
    method LoadUTable(tbl: Dict<string, Value>)
      modifies this
      ensures State() == old(State()).(u := PutAll(old(uParams), tbl))
    {
      ghost var p0 := State();
      var k := 0;
      while k < |tbl|
        invariant 0 <= k <= |tbl|
        invariant State() == p0.(u := PutAll(p0.u, tbl[..k]))
      {
        AddU(tbl[k].0, tbl[k].1, VNone);
        assert tbl[..k + 1][..k] == tbl[..k];
        k := k + 1;
      }
      assert tbl[..k] == tbl;
    }

    /** A Hubbard_J table: each species is a bare J key. */
    method LoadJTable(tbl: Dict<string, Value>)
      modifies this
      ensures State() == old(State()).(j := PutPlain(old(jParams), tbl))
    {
      ghost var p0 := State();
      var k := 0;
      while k < |tbl|
        invariant 0 <= k <= |tbl|
        invariant State() == p0.(j := PutPlain(p0.j, tbl[..k]))
      {
        AddJ(tbl[k].0, tbl[k].1, None);
        assert tbl[..k + 1][..k] == tbl[..k];
        k := k + 1;
      }
      assert tbl[..k] == tbl;
    }

    method LoadAlphaTable(tbl: Dict<string, Value>)
      modifies this
      ensures State() == old(State()).(alpha := PutAll(old(alphaParams), tbl))
    {
      ghost var p0 := State();
      var k := 0;
      while k < |tbl|
        invariant 0 <= k <= |tbl|
        invariant State() == p0.(alpha := PutAll(p0.alpha, tbl[..k]))
      {
        AddAlpha(tbl[k].0, tbl[k].1);
        assert tbl[..k + 1][..k] == tbl[..k];
        k := k + 1;
      }
      assert tbl[..k] == tbl;
    }

    method LoadBetaTable(tbl: Dict<string, Value>)
      modifies this
      ensures State() == old(State()).(beta := PutAll(old(betaParams), tbl))
    {
      ghost var p0 := State();
      var k := 0;
      while k < |tbl|
        invariant 0 <= k <= |tbl|
        invariant State() == p0.(beta := PutAll(p0.beta, tbl[..k]))
      {
        AddBeta(tbl[k].0, tbl[k].1);
        assert tbl[..k + 1][..k] == tbl[..k];
        k := k + 1;
      }
      assert tbl[..k] == tbl;
    }

    /** The INPUT_NTYP tables of `from_input_data`; false where Python raises. */
    method LoadNtyp(nt: Value) returns (ok: bool)
      modifies this
      ensures ok == NtypLoad(old(State()), nt).Some?
      ensures ok ==> State() == NtypLoad(old(State()), nt).value
    {
      var tu := Table(nt, "Hubbard_U");
      if tu.None? {
        return false;
      }
      LoadUTable(tu.value);
      var tj := Table(nt, "Hubbard_J");
      if tj.None? {
        return false;
      }
      LoadJTable(tj.value);
      var ta := Table(nt, "Hubbard_alpha");
      if ta.None? {
        return false;
      }
      LoadAlphaTable(ta.value);
      var tb := Table(nt, "Hubbard_beta");
      if tb.None? {
        return false;
      }
      LoadBetaTable(tb.value);
      return true;
    }

    /** The `hubbard_v` dict of `from_input_data`; false when it is not a dict. */
    method LoadHubbardV(hv: Value) returns (ok: bool)
      modifies this
      ensures ok == HubbardVLoad(old(State()), hv).Some?
      ensures ok ==> State() == HubbardVLoad(old(State()), hv).value
    {
      var items := Items(hv);
      if items.None? {
        return false;
      }
      var d := items.value;
      ghost var p0 := State();
      var k := 0;
      while k < |d|
        invariant 0 <= k <= |d|
        invariant State() == p0.(v := p0.v + VKeyParams(d[..k]))
      {
        FlatMapSnoc(VKeyParam, d, k);
        assert p0.v + VKeyParams(d[..k + 1]) == vParams + VKeyParam(d[k]);
        var parsed := ParseVKey(d[k].0);
        if parsed.Some? {
          vParams := vParams + [VParam("", "", VInt(parsed.value.0), VInt(parsed.value.1), d[k].1)];
        } else {
          assert vParams + VKeyParam(d[k]) == vParams;
        }
        k := k + 1;
      }
      assert d[..k] == d;
      return true;
    }

    /** `HubbardConfig.from_input_data`; null where Python raises. */
    static method FromInputData(data: Dict<string, Value>, version: Option<string>) returns (c: HubbardConfig?)
      ensures c == null <==> FromInput(data, version).None?
      ensures c != null ==> fresh(c) && c.State() == FromInput(data, version).value
    {
      c := new HubbardConfig(FormatFlag(data, version));
      var hd := CardData(data);
      if hd.Some? {
        var ok := c.LoadCard(hd.value);
        if !ok {
          return null;
        }
      }
      if HasKey(data, "input_ntyp") || HasKey(data, "INPUT_NTYP") {
        var ok := c.LoadNtyp(NtypValue(data));
        if !ok {
          return null;
        }
      }
      if HasKey(data, "hubbard_v") {
        var ok := c.LoadHubbardV(Get(data, "hubbard_v").value);
        if !ok {
          return null;
        }
      }
    }
  }

  // The loops of `to_old_format_dict`, one per section; `pre` is what the
  // earlier sections wrote.

  method WriteU(params: Dict<string, Value>, ghost pre: Pairs, u: Dict<string, Value>, info: Dict<string, Value>)
    returns (r: Dict<string, Value>)
    requires params == PutAll([], pre)
    ensures r == PutAll([], pre + SpeciesPairs("U", Stripped(u), info))
  {
    r := params;
    var k := 0;
    assert pre + SpeciesPairs("U", Stripped(u[..0]), info) == pre;
    while k < |u|
      invariant 0 <= k <= |u|
      invariant r == PutAll([], pre + SpeciesPairs("U", Stripped(u[..k]), info))
    {
      WriteUStep(pre, u, k, info);
      var base := Base(u[k].0);
      if HasKey(info, base) {
        r := Put(r, Entry("U", Show(Get(info, base).value)), u[k].1);
      }
      k := k + 1;
    }
    assert u[..k] == u;
  }

  method WriteV(params: Dict<string, Value>, ghost pre: Pairs, v: seq<VParam>) returns (r: Dict<string, Value>)
    requires params == PutAll([], pre)
    ensures r == PutAll([], pre + VPairs(v))
  {
    r := params;
    var k := 0;
    assert pre + VPairs(v[..0]) == pre;
    while k < |v|
      invariant 0 <= k <= |v|
      invariant r == PutAll([], pre + VPairs(v[..k]))
    {
      VPairsSnoc(v, k);
      PutAllStep(pre, VPairs(v[..k]), [(VName(v[k]), v[k].value)]);
      r := Put(r, Entry("V", Show(v[k].i) + "," + Show(v[k].j) + ",1"), v[k].value);
      k := k + 1;
    }
    assert v[..k] == v;
  }

  /** The J loop as written: each key unpacked in turn, None as soon as one fails to unpack. */
  method WriteJAsWritten(params: Dict<string, Value>, ghost pre: Pairs, j: Dict<JKey, Value>, info: Dict<string, Value>)
    returns (r: Option<Dict<string, Value>>)
    requires params == PutAll([], pre)
    ensures r.None? <==> JPairsAsWritten(j, info).None?
    ensures r.Some? ==> r.value == PutAll([], pre + JPairsAsWritten(j, info).value)
  {
    var d := params;
    var k := 0;
    assert j[..0] == [];
    assert pre + [] == pre;
    while k < |j|
      invariant 0 <= k <= |j|
      invariant JPairsAsWritten(j[..k], info).Some?
      invariant d == PutAll([], pre + JPairsAsWritten(j[..k], info).value)
    {
      WriteJAsWrittenStep(pre, j, k, info);
      var u := UnpackJ(j[k].0);
      if u.None? {
        JPairsAsWrittenRaises(j, k + 1, info);
        return None;
      }
      var (species, component) := u.value;
      PutAllStep(pre, JPairsAsWritten(j[..k], info).value, JEmitUnpacked(u.value, j[k].1, info));
      if HasKey(info, species) {
        d := Put(d, Entry("J", component + "," + Show(Get(info, species).value)), j[k].1);
      }
      k := k + 1;
    }
    assert j[..k] == j;
    r := Some(d);
  }

  method WriteSpecies(params: Dict<string, Value>, ghost pre: Pairs, tag: string, d: Dict<string, Value>,
                      info: Dict<string, Value>)
    returns (r: Dict<string, Value>)
    requires params == PutAll([], pre)
    ensures r == PutAll([], pre + SpeciesPairs(tag, d, info))
  {
    r := params;
    var k := 0;
    assert pre + SpeciesPairs(tag, d[..0], info) == pre;
    while k < |d|
      invariant 0 <= k <= |d|
      invariant r == PutAll([], pre + SpeciesPairs(tag, d[..k], info))
    {
      WriteSpeciesStep(pre, tag, d, k, info);
      if HasKey(info, d[k].0) {
        r := Put(r, Entry(tag, Show(Get(info, d[k].0).value)), d[k].1);
      }
      k := k + 1;
    }
    assert d[..k] == d;
  }

  /** `build_hubbard_str`: the HUBBARD card lines when the new format applies, else []; None where it raises. */
  method BuildHubbardStr(data: Dict<string, Value>, info: Dict<string, Value>, version: Option<string>)
    returns (r: Option<seq<string>>)
    ensures r == BuildHubbard(data, info, version)
  {
    var has := HasHubbard(data);
    if has.None? {
      return None;
    }
    if !has.value {
      return Some([]);
    }
    var c := HubbardConfig.FromInputData(data, version);
    if c == null {
      return None;
    }
    var useNew := c.ShouldUseNewFormat();
    if useNew {
      var lines := c.ToNewFormatCard();
      return Some(lines);
    }
    return Some([]);
  }
}
