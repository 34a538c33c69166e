// The configuration of the Quantum ESPRESSO executables of one machine: one
// `Code` per executable, and a `CodesConfig` holding them by name with the
// machine-wide prefix, version, modules and environment. Dicts keep
// insertion order, as Python's do.

module Codes {
  import opened PyStr
  import opened PyErr
  import opened PyDict
  import opened Json
  import ConfigStore

  /**
   * One executable. The name is the key it is stored under; the other
   * fields hold whatever value the dataclass was given (None by default
   * for the optional ones).
   */
  datatype Code = Code(name: string, path: Value, version: Value, parallelCommand: Value, defaultParallel: Value)

  /** The dataclass fields of `Code`, in declaration order. */
  const CodeFields: seq<string> := ["name", "path", "version", "parallel_command", "default_parallel"]

  /** The optional fields of `CodesConfig` that `to_dict` writes only when truthy. */
  const OptionalFields: seq<string> := ["qe_prefix", "qe_version", "modules", "environment"]

  /** The keyword arguments `CodesConfig` accepts besides `codes`. */
  const ConfigFields: seq<string> := ["machine_name"] + OptionalFields

  /** The state of a `CodesConfig`. */
  datatype Settings = Settings(
    machineName: Value,
    codes: Dict<string, Code>,
    qePrefix: Value,
    qeVersion: Value,
    modules: Value,
    environment: Value)

  // ---------------------------------------------------------------
  // Dict literals with some entries left out
  // ---------------------------------------------------------------

  /** The entries of the dict literal `ks: vs` whose values satisfy `keep`, in order. */
  function Kept(ks: seq<string>, vs: seq<Value>, keep: Value -> bool): (r: Dict<string, Value>)
    requires |ks| == |vs|
    ensures forall k :: HasKey(r, k) ==> k in ks
    ensures forall i :: 0 <= i < |r| ==> keep(r[i].1)
    decreases |ks|
  {
    if |ks| == 0 then []
    else
      var rest := Kept(ks[1..], vs[1..], keep);
      var r := (if keep(vs[0]) then [(ks[0], vs[0])] else []) + rest;
      assert forall k :: HasKey(r, k) ==> k == ks[0] || HasKey(rest, k) by {
        forall k | HasKey(r, k) ensures k == ks[0] || HasKey(rest, k) {
          var i :| 0 <= i < |r| && r[i].0 == k;
          if keep(vs[0]) && i > 0 {
            assert rest[i - 1].0 == k;
          }
        }
      }
      r
  }

  /** A key of a literal with distinct keys is found with its value when kept, and is absent otherwise. */
  lemma {:induction false} KeptGet(ks: seq<string>, vs: seq<Value>, keep: Value -> bool, i: nat)
    requires |ks| == |vs| && Distinct(ks) && i < |ks|
    ensures Get(Kept(ks, vs, keep), ks[i]) == if keep(vs[i]) then Some(vs[i]) else None
    decreases |ks|
  {
    var rest := Kept(ks[1..], vs[1..], keep);
    var head := if keep(vs[0]) then [(ks[0], vs[0])] else [];
    GetConcat(head, rest, ks[i]);
    if i == 0 {
      assert ks[0] !in ks[1..] by {
        forall j | 0 <= j < |ks| - 1 ensures ks[1..][j] != ks[0] {
          assert ks[1..][j] == ks[j + 1];
        }
      }
    } else {
      assert Distinct(ks[1..]) by {
        forall a, b | 0 <= a < b < |ks| - 1 ensures ks[1..][a] != ks[1..][b] {
          assert ks[1..][a] == ks[a + 1] && ks[1..][b] == ks[b + 1];
        }
      }
      KeptGet(ks[1..], vs[1..], keep, i - 1);
      assert ks[1..][i - 1] == ks[i] && vs[1..][i - 1] == vs[i];
      assert ks[0] != ks[i];
    }
  }

  /** A value `to_dict` of a Code keeps: anything but None. */
  predicate NotNone(v: Value)
  {
    v != VNone
  }

  /** `v if v else None`: what a truthy-only entry comes back as. */
  function IfTruthy(v: Value): (r: Value)
    ensures Truthy(v) ==> r == v
    ensures !Truthy(v) ==> r == VNone
  {
    if Truthy(v) then v else VNone
  }

  /** `d.get(k)` with None for a missing key, as a dataclass default. */
  function FieldOr(d: Dict<string, Value>, k: string): Value
  {
    GetOr(d, k, VNone)
  }

  /** The first key that is not an accepted keyword argument. */
  function FirstUnknown(keys: seq<string>, accepted: seq<string>): (r: Option<string>)
    ensures r.Some? ==> r.value in keys && r.value !in accepted
    ensures r.None? <==> forall k :: k in keys ==> k in accepted
  {
    if |keys| == 0 then None
    else if keys[0] !in accepted then Some(keys[0])
    else
      var r := FirstUnknown(keys[1..], accepted);
      assert forall k :: k in keys <==> k == keys[0] || k in keys[1..];
      r
  }

  // ---------------------------------------------------------------
  // Code
  // ---------------------------------------------------------------

  /** `Code.to_dict`: the fields in declaration order, those holding None left out. */
  function CodeToDict(c: Code): (r: Dict<string, Value>)
    ensures forall i :: 0 <= i < |r| ==> r[i].1 != VNone
    ensures forall k :: HasKey(r, k) ==> k in CodeFields
  {
    Kept(CodeFields, [VStr(c.name), c.path, c.version, c.parallelCommand, c.defaultParallel], NotNone)
  }

  function Unexpected(cls: string, k: string): Exc
  {
    Exc("TypeError", cls + ".__init__() got an unexpected keyword argument '" + k + "'")
  }

  function MissingOne(cls: string, field: string): Exc
  {
    Exc("TypeError", cls + ".__init__() missing 1 required positional argument: '" + field + "'")
  }

  /** `Code.from_dict` (`Code(**data)`): unknown keys and missing name or path raise TypeError. */
  function CodeFromDict(data: Value): (r: Result<Code>)
    ensures r.Ok? ==> data.VDict? && HasKey(data.entries, "name") && HasKey(data.entries, "path")
    ensures r.Ok? ==> r.value.path == Get(data.entries, "path").value &&
                      r.value.version == FieldOr(data.entries, "version") &&
                      r.value.parallelCommand == FieldOr(data.entries, "parallel_command") &&
                      r.value.defaultParallel == FieldOr(data.entries, "default_parallel") &&
                      Get(data.entries, "name") == Some(VStr(r.value.name))
  {
    if !data.VDict? then
      Err(Exc("TypeError", "Code() argument after ** must be a mapping, not " + TypeName(data)))
    else
      var d := data.entries;
      match FirstUnknown(Keys(d), CodeFields)
      case Some(k) => Err(Unexpected("Code", k))
      case None =>
        if !HasKey(d, "name") && !HasKey(d, "path") then
          Err(Exc("TypeError", "Code.__init__() missing 2 required positional arguments: 'name' and 'path'"))
        else if !HasKey(d, "name") then Err(MissingOne("Code", "name"))
        else if !HasKey(d, "path") then Err(MissingOne("Code", "path"))
        else
          match Get(d, "name").value
          case VStr(n) =>
            Ok(Code(n, Get(d, "path").value, FieldOr(d, "version"), FieldOr(d, "parallel_command"),
                    FieldOr(d, "default_parallel")))
          case _ => Err(Exc("TypeError", "code name must be a str"))
  }

  lemma CodeFieldsDistinct()
    ensures Distinct(CodeFields) && Distinct(ConfigFields) && Distinct(["machine_name", "codes"])
  {
  }

  /** What `to_dict` of a Code answers for each field: the field's value, or nothing for a None. */
  lemma CodeDictGets(c: Code)
    requires c.path != VNone
    ensures var d := CodeToDict(c);
      Get(d, "name") == Some(VStr(c.name)) && Get(d, "path") == Some(c.path) &&
      FieldOr(d, "version") == c.version && FieldOr(d, "parallel_command") == c.parallelCommand &&
      FieldOr(d, "default_parallel") == c.defaultParallel
  {
    var vs := [VStr(c.name), c.path, c.version, c.parallelCommand, c.defaultParallel];
    CodeFieldsDistinct();
    KeptGet(CodeFields, vs, NotNone, 0);
    KeptGet(CodeFields, vs, NotNone, 1);
    KeptGet(CodeFields, vs, NotNone, 2);
    KeptGet(CodeFields, vs, NotNone, 3);
    KeptGet(CodeFields, vs, NotNone, 4);
  }

  /** `Code.from_dict(c.to_dict()) == c` whenever the path is not None. */
  lemma CodeRoundTrip(c: Code)
    requires c.path != VNone
    ensures CodeFromDict(VDict(CodeToDict(c))) == Ok(c)
  {
    var d := CodeToDict(c);
    CodeDictGets(c);
    assert FirstUnknown(Keys(d), CodeFields).None?;
  }

  // ---------------------------------------------------------------
  // CodesConfig as a value
  // ---------------------------------------------------------------

  /** `{name: code.to_dict() for name, code in codes.items()}`. */
  function CodesToDict(codes: Dict<string, Code>): (r: Dict<string, Value>)
    ensures |r| == |codes|
    ensures forall i :: 0 <= i < |r| ==> r[i] == (codes[i].0, VDict(CodeToDict(codes[i].1)))
  {
    if |codes| == 0 then [] else [(codes[0].0, VDict(CodeToDict(codes[0].1)))] + CodesToDict(codes[1..])
  }

  /** `CodesConfig.to_dict`: machine name and codes always, the optional fields only when truthy. */
  function SettingsToDict(s: Settings): (r: Dict<string, Value>)
  {
    RequiredPart(s) + OptionalPart(s)
  }

  /** The entries `to_dict` always writes. */
  function RequiredPart(s: Settings): Dict<string, Value>
  {
    Zip(["machine_name", "codes"], [s.machineName, VDict(CodesToDict(s.codes))])
  }

  /** The values of the optional fields, in the order of `OptionalFields`. */
  function OptionalValues(s: Settings): seq<Value>
  {
    [s.qePrefix, s.qeVersion, s.modules, s.environment]
  }

  /** The entries `to_dict` writes only when truthy. */
  function OptionalPart(s: Settings): Dict<string, Value>
  {
    Kept(OptionalFields, OptionalValues(s), Truthy)
  }

  /** The codes table read by `from_dict`: each entry through `Code.from_dict`, the first failure raised. */
  function CodesFrom(entries: Dict<string, Value>): (r: Result<Dict<string, Code>>)
    ensures r.Ok? ==> |r.value| == |entries| && forall i :: 0 <= i < |entries| ==> r.value[i].0 == entries[i].0
  {
    if |entries| == 0 then Ok([])
    else Prepend(entries[0].0, CodeFromDict(entries[0].1), CodesFrom(entries[1..]))
  }

  /** The entry `(name, code)` in front of the rest; the code's own error comes first. */
  function Prepend(name: string, code: Result<Code>, rest: Result<Dict<string, Code>>): (r: Result<Dict<string, Code>>)
    ensures r.Ok? <==> code.Ok? && rest.Ok?
    ensures r.Ok? ==> r.value == [(name, code.value)] + rest.value
    ensures code.Err? ==> r == Err(code.exc)
  {
    match code
    case Err(e) => Err(e)
    case Ok(c) =>
      match rest
      case Err(e) => Err(e)
      case Ok(more) => Ok([(name, c)] + more)
  }

  /** `data.pop('codes', {})` on the value `from_dict` is given. */
  function PopCodes(data: Value): Result<Value>
  {
    match data
    case VDict(d) => Ok(GetOr(d, "codes", VDict([])))
    case VList(_) => Err(Exc("TypeError", "pop expected at most 1 argument, got 2"))
    case _ => Err(ConfigStore.NoAttribute(data, "pop"))
  }

  /** The caller's dict after `from_dict`: without its "codes" entry. */
  function AfterFromDict(data: Value): (r: Value)
    ensures data.VDict? ==>
      r.VDict? && !HasKey(r.entries, "codes") && forall k :: k != "codes" ==> Get(r.entries, k) == Get(data.entries, k)
    ensures !data.VDict? ==> r == data
  {
    if data.VDict? then
      PopCodesGet(data.entries);
      VDict(Pop(data.entries, "codes"))
    else data
  }

  lemma PopCodesGet(d: Dict<string, Value>)
    ensures forall k :: Get(Pop(d, "codes"), k) == if k == "codes" then None else Get(d, k)
    ensures !HasKey(Pop(d, "codes"), "codes")
  {
    PopGet(d, "codes", "codes");
    forall k ensures Get(Pop(d, "codes"), k) == if k == "codes" then None else Get(d, k) {
      PopGet(d, "codes", k);
    }
  }

  /** `CodesConfig.from_dict`: the codes table first, then `CodesConfig(codes=..., **rest)`. */
  function SettingsFromDict(data: Value): (r: Result<Settings>)
  {
    match PopCodes(data)
    case Err(e) => Err(e)
    case Ok(codesData) =>
      if !codesData.VDict? then Err(ConfigStore.NoAttribute(codesData, "items"))
      else
        match CodesFrom(codesData.entries)
        case Err(e) => Err(e)
        case Ok(codes) =>
          var rest := Pop(data.entries, "codes");
          match FirstUnknown(Keys(rest), ConfigFields)
          case Some(k) => Err(Unexpected("CodesConfig", k))
          case None =>
            if !HasKey(rest, "machine_name") then Err(MissingOne("CodesConfig", "machine_name"))
            else
              Ok(Settings(Get(rest, "machine_name").value, codes, FieldOr(rest, "qe_prefix"),
                          FieldOr(rest, "qe_version"), FieldOr(rest, "modules"), FieldOr(rest, "environment")))
  }

  /** Every stored code has a path, so that its `to_dict` can be read back. */
  predicate PathsSet(codes: Dict<string, Code>)
  {
    forall i :: 0 <= i < |codes| ==> codes[i].1.path != VNone
  }

  /** `s` as `from_dict(to_dict(s))` gives it back: falsy optional fields become None. */
  function Normalized(s: Settings): Settings
  {
    s.(qePrefix := IfTruthy(s.qePrefix), qeVersion := IfTruthy(s.qeVersion), modules := IfTruthy(s.modules),
       environment := IfTruthy(s.environment))
  }

  /** Reading back the codes table of `to_dict` gives the codes. */
  lemma CodesRoundTrip(codes: Dict<string, Code>)
    requires PathsSet(codes)
    ensures CodesFrom(CodesToDict(codes)) == Ok(codes)
  {
    var e := CodesToDict(codes);
    forall i | 0 <= i < |codes| ensures CodeFromDict(e[i].1) == Ok(codes[i].1) {
      CodeRoundTrip(codes[i].1);
    }
    CodesFromEach(e, codes);
  }

  /** A table whose every entry reads back as the code under the same name reads back as those codes. */
  lemma {:induction false} CodesFromEach(e: Dict<string, Value>, codes: Dict<string, Code>)
    requires |e| == |codes|
    requires forall i :: 0 <= i < |e| ==> e[i].0 == codes[i].0 && CodeFromDict(e[i].1) == Ok(codes[i].1)
    ensures CodesFrom(e) == Ok(codes)
    decreases |e|
  {
    if |e| > 0 {
      assert forall i :: 0 <= i < |e| - 1 ==> e[1..][i] == e[i + 1] && codes[1..][i] == codes[i + 1];
      CodesFromEach(e[1..], codes[1..]);
      CodesFromCons(e, codes);
    }
  }

  lemma CodesFromCons(e: Dict<string, Value>, codes: Dict<string, Code>)
    requires |e| > 0 && |codes| > 0 && e[0].0 == codes[0].0
    requires CodeFromDict(e[0].1) == Ok(codes[0].1) && CodesFrom(e[1..]) == Ok(codes[1..])
    ensures CodesFrom(e) == Ok(codes)
  {
    assert CodesFrom(e) == Prepend(e[0].0, CodeFromDict(e[0].1), CodesFrom(e[1..]));
    assert (e[0].0, codes[0].1) == codes[0];
    HeadTail(codes);
  }

  /** `to_dict` always has machine_name and codes, and each optional field exactly when it is truthy. */
  lemma ToDictShape(s: Settings)
    ensures var d := SettingsToDict(s);
      Get(d, "machine_name") == Some(s.machineName) && Get(d, "codes") == Some(VDict(CodesToDict(s.codes))) &&
      Get(d, "qe_prefix") == (if Truthy(s.qePrefix) then Some(s.qePrefix) else None) &&
      Get(d, "qe_version") == (if Truthy(s.qeVersion) then Some(s.qeVersion) else None) &&
      Get(d, "modules") == (if Truthy(s.modules) then Some(s.modules) else None) &&
      Get(d, "environment") == (if Truthy(s.environment) then Some(s.environment) else None)
  {
    RequiredGet(s);
    OptionalGet(s, 0);
    OptionalGet(s, 1);
    OptionalGet(s, 2);
    OptionalGet(s, 3);
  }

  lemma RequiredGet(s: Settings)
    ensures Get(SettingsToDict(s), "machine_name") == Some(s.machineName)
    ensures Get(SettingsToDict(s), "codes") == Some(VDict(CodesToDict(s.codes)))
  {
    var ks := ["machine_name", "codes"];
    var vs := [s.machineName, VDict(CodesToDict(s.codes))];
    CodeFieldsDistinct();
    ZipGet(ks, vs, 0);
    ZipGet(ks, vs, 1);
    GetConcat(RequiredPart(s), OptionalPart(s), "machine_name");
    GetConcat(RequiredPart(s), OptionalPart(s), "codes");
  }

  lemma OptionalFieldsApart()
    ensures Distinct(OptionalFields)
    ensures forall i :: 0 <= i < |OptionalFields| ==> OptionalFields[i] !in ["machine_name", "codes"]
  {
  }

  lemma OptionalGet(s: Settings, i: nat)
    requires i < 4
    ensures Get(SettingsToDict(s), OptionalFields[i]) ==
      if Truthy(OptionalValues(s)[i]) then Some(OptionalValues(s)[i]) else None
  {
    var k := OptionalFields[i];
    OptionalFieldsApart();
    KeptGet(OptionalFields, OptionalValues(s), Truthy, i);
    ZipMissing(["machine_name", "codes"], [s.machineName, VDict(CodesToDict(s.codes))], k);
    GetConcat(RequiredPart(s), OptionalPart(s), k);
  }

  /** `CodesConfig.from_dict(cfg.to_dict())` is `cfg` with its falsy optional fields set to None. */
  lemma SettingsRoundTrip(s: Settings)
    requires PathsSet(s.codes)
    ensures SettingsFromDict(VDict(SettingsToDict(s))) == Ok(Normalized(s))
  {
    CodesRoundTrip(s.codes);
    RestAccepted(s);
    RestValues(s);
    PopCodesOfToDict(s);
    ReadBack(VDict(SettingsToDict(s)), s);
  }

  /** The codes table `from_dict` pops from `to_dict` is the one `to_dict` wrote. */
  lemma PopCodesOfToDict(s: Settings)
    ensures PopCodes(VDict(SettingsToDict(s))) == Ok(VDict(CodesToDict(s.codes)))
  {
    ToDictShape(s);
  }

  /** `from_dict` of a dict whose codes table and remaining entries read back as `s` normalized. */
  lemma ReadBack(data: Value, s: Settings)
    requires data.VDict? && PopCodes(data) == Ok(VDict(CodesToDict(s.codes)))
    requires CodesFrom(CodesToDict(s.codes)) == Ok(s.codes)
    requires FirstUnknown(Keys(Pop(data.entries, "codes")), ConfigFields).None?
    requires Get(Pop(data.entries, "codes"), "machine_name") == Some(s.machineName)
    requires FieldOr(Pop(data.entries, "codes"), "qe_prefix") == IfTruthy(s.qePrefix)
    requires FieldOr(Pop(data.entries, "codes"), "qe_version") == IfTruthy(s.qeVersion)
    requires FieldOr(Pop(data.entries, "codes"), "modules") == IfTruthy(s.modules)
    requires FieldOr(Pop(data.entries, "codes"), "environment") == IfTruthy(s.environment)
    ensures SettingsFromDict(data) == Ok(Normalized(s))
  {
  }

  /** The entries left once "codes" is popped from `to_dict`. */
  lemma RestValues(s: Settings)
    ensures var rest := Pop(SettingsToDict(s), "codes");
      Get(rest, "machine_name") == Some(s.machineName) &&
      FieldOr(rest, "qe_prefix") == IfTruthy(s.qePrefix) && FieldOr(rest, "qe_version") == IfTruthy(s.qeVersion) &&
      FieldOr(rest, "modules") == IfTruthy(s.modules) && FieldOr(rest, "environment") == IfTruthy(s.environment)
  {
    var d := SettingsToDict(s);
    ToDictShape(s);
    PopCodesGet(d);
  }

  /** Once "codes" is popped, every key left in `to_dict` is an accepted keyword. */
  lemma RestAccepted(s: Settings)
    ensures FirstUnknown(Keys(Pop(SettingsToDict(s), "codes")), ConfigFields).None?
  {
    var d := SettingsToDict(s);
    var rest := Pop(d, "codes");
    PopCodesGet(d);
    forall k | k in Keys(rest) ensures k in ConfigFields {
      var i :| 0 <= i < |rest| && Keys(rest)[i] == k;
      assert rest[i].0 == k;
      KeyOfToDict(s, k);
    }
  }

  /** Every key of `to_dict` but "codes" is an accepted keyword. */
  lemma KeyOfToDict(s: Settings, k: string)
    requires HasKey(Pop(SettingsToDict(s), "codes"), k)
    ensures k in ConfigFields
  {
    PopCodesGet(SettingsToDict(s));
    assert k != "codes";
    GetConcat(RequiredPart(s), OptionalPart(s), k);
    if !HasKey(RequiredPart(s), k) {
      assert HasKey(OptionalPart(s), k);
    }
  }

  // ---------------------------------------------------------------
  // CodesConfig as an object
  // ---------------------------------------------------------------

  class CodesConfig {
    var machineName: Value
    var codes: Dict<string, Code>
    var qePrefix: Value
    var qeVersion: Value
    var modules: Value
    var environment: Value

    /** `CodesConfig(machine_name, codes, qe_prefix, qe_version, modules, environment)`. */
    constructor (s: Settings)
      ensures State() == s
    {
      machineName, codes, qePrefix, qeVersion, modules, environment :=
        s.machineName, s.codes, s.qePrefix, s.qeVersion, s.modules, s.environment;
    }

    function State(): Settings
      reads this
    {
      Settings(machineName, codes, qePrefix, qeVersion, modules, environment)
    }

    /** `get_code`: the code stored under `name`, if any. */
    function GetCode(name: string): (r: Option<Code>)
      reads this
      ensures r.Some? <==> HasCode(name)
    {
      Get(codes, name)
    }

    /** `has_code`: `name in self.codes`. */
    predicate HasCode(name: string)
      reads this
      ensures HasCode(name) <==> name in ListCodes()
    {
      var ks := Keys(codes);
      assert HasKey(codes, name) ==> name in ks by {
        if HasKey(codes, name) {
          var i :| 0 <= i < |codes| && codes[i].0 == name;
          assert ks[i] == name;
        }
      }
      HasKey(codes, name)
    }

    /** `list_codes`: the names in insertion order. */
    function ListCodes(): (r: seq<string>)
      reads this
      ensures |r| == |codes| && forall i :: 0 <= i < |r| ==> r[i] == codes[i].0
    {
      Keys(codes)
    }

    /**
     * `add_code`: the code is stored under its name, replacing a code of the
     * same name in place; every other name keeps its code.
     */
    method AddCode(code: Code)
      modifies this
      ensures State() == old(State()).(codes := Put(old(codes), code.name, code))
      ensures GetCode(code.name) == Some(code)
      ensures forall n :: n != code.name ==> GetCode(n) == old(GetCode(n))
      ensures ListCodes() == if old(HasCode(code.name)) then old(ListCodes()) else old(ListCodes()) + [code.name]
    {
      ghost var before := codes;
      codes := Put(codes, code.name, code);
      forall n ensures Get(codes, n) == if n == code.name then Some(code) else Get(before, n) {
        PutGet(before, code.name, code, n);
      }
      if !HasKey(before, code.name) {
        assert Keys(codes) == Keys(before) + [code.name];
      }
    }

    /** `to_dict`. */
    function ToDict(): (r: Value)
      reads this
      ensures r.VDict? && r.entries == SettingsToDict(State())
    {
      VDict(SettingsToDict(State()))
    }
  }

  /** `CodesConfig.from_dict`: a new object, or the exception; the caller's dict loses "codes" either way. */
  method FromDict(data: Value) returns (r: Result<CodesConfig>, after: Value)
    ensures after == AfterFromDict(data)
    ensures r.Ok? <==> SettingsFromDict(data).Ok?
    ensures r.Ok? ==> fresh(r.value) && r.value.State() == SettingsFromDict(data).value
    ensures r.Err? ==> r.exc == SettingsFromDict(data).exc
  {
    after := AfterFromDict(data);
    var s := SettingsFromDict(data);
    if s.Ok? {
      var cfg := new CodesConfig(s.value);
      r := Ok(cfg);
    } else {
      r := Err(s.exc);
    }
  }
}
