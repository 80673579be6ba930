/**
 * Environment-variable substitution in the raw configuration tree, and the
 * checks that the provider and model-mapping sections are not empty. The
 * environment is a parameter: a map from variable names to values.
 */
module ConfigLoader {
  import opened Wrappers
  import opened Json
  import Text

  type Env = map<string, string>

  datatype LoadError =
    | UnsetVariable(name: string)
    | NoProviders
    | NoModelMappings
    | NotAList(section: string)

  // ---------------------------------------------------------------------
  // `${NAME}` references in one string
  // ---------------------------------------------------------------------

  /**
   * `s` starts with a reference as the pattern `\$\{([^}]+)\}` sees it:
   * `${`, then at least one character that is not `}`, then `}`.
   */
  predicate ReferenceAt(s: string) {
    |s| >= 3 && s[0] == '$' && s[1] == '{' && s[2] != '}' && '}' in s[2..]
  }

  /** Where the reference at the start of `s` closes. */
  function CloseOf(s: string): (j: nat)
    requires ReferenceAt(s)
    ensures 3 <= j < |s| && s[j] == '}' && '}' !in s[2..j]
  {
    2 + Text.FirstIndex(s[2..], '}')
  }

  /** The variable named by the reference at the start of `s`. */
  function NameOf(s: string): (name: string)
    requires ReferenceAt(s)
    ensures name != [] && '}' !in name
  {
    s[2..CloseOf(s)]
  }

  /**
   * `re.sub` with the replacement callback: references are replaced left to
   * right by their values, the replaced text is not scanned again, and the
   * first reference to an unset variable raises.
   */
  function Substitute(s: string, env: Env): (r: Result<string, LoadError>)
    ensures r.Err? ==> r.error.UnsetVariable? && r.error.name !in env
    decreases |s|
  {
    if s == [] then Ok([])
    else if ReferenceAt(s) then
      var name := NameOf(s);
      if name !in env then Err(UnsetVariable(name))
      else
        var rest :- Substitute(s[CloseOf(s) + 1..], env);
        Ok(env[name] + rest)
    else
      var rest :- Substitute(s[1..], env);
      Ok([s[0]] + rest)
  }

  /** No reference starts anywhere in `s`. */
  predicate NoReference(s: string) {
    forall i :: 0 <= i < |s| ==> !ReferenceAt(s[i..])
  }

  /** A string without references comes back unchanged, whatever the environment. */
  lemma {:induction false} NoReferenceUnchanged(s: string, env: Env)
    requires NoReference(s)
    ensures Substitute(s, env) == Ok(s)
    decreases |s|
  {
    if s != [] {
      assert s[0..] == s;
      assert NoReference(s[1..]) by {
        forall i | 0 <= i < |s[1..]| ensures !ReferenceAt(s[1..][i..]) {
          assert s[1..][i..] == s[i + 1..];
        }
      }
      NoReferenceUnchanged(s[1..], env);
      assert [s[0]] + s[1..] == s;
    }
  }

  /** How a string that begins with a well-formed reference is taken apart. */
  lemma {:induction false} ReferenceShape(name: string, rest: string)
    requires name != [] && '}' !in name
    ensures ReferenceAt("${" + name + "}" + rest)
    ensures CloseOf("${" + name + "}" + rest) == 2 + |name|
    ensures NameOf("${" + name + "}" + rest) == name
    ensures ("${" + name + "}" + rest)[2 + |name| + 1..] == rest
  {
    var s := "${" + name + "}" + rest;
    assert s[2..] == name + "}" + rest;
    assert s[2] == name[0];
    assert s[2..][|name|] == '}';
    var j := CloseOf(s);
    assert forall k :: 2 <= k < 2 + |name| ==> s[k] == name[k - 2];
    assert s[2 + |name|] == '}';
    assert forall k :: 2 <= k < j ==> s[2..j][k - 2] == s[k] != '}';
    assert s[2..2 + |name|] == name;
  }

  /**
   * One reference followed by the rest: the value is put in place and only
   * the rest is scanned further, so a value that itself looks like a
   * reference stays as it is.
   */
  lemma {:induction false} SubstituteReference(name: string, rest: string, env: Env)
    requires name != [] && '}' !in name && name in env
    ensures Substitute("${" + name + "}" + rest, env) ==
            (match Substitute(rest, env)
             case Ok(t) => Ok(env[name] + t)
             case Err(e) => Err(e))
  {
    ReferenceShape(name, rest);
  }

  /** A reference to a variable the environment does not have raises, naming it. */
  lemma {:induction false} UnsetReferenceRaises(name: string, rest: string, env: Env)
    requires name != [] && '}' !in name && name !in env
    ensures Substitute("${" + name + "}" + rest, env) == Err(UnsetVariable(name))
  {
    ReferenceShape(name, rest);
  }

  /** Values are inserted once: a value of the form `${B}` is not looked up again. */
  lemma {:induction false} SinglePass()
    ensures Substitute("${A}", map["A" := "${B}"]) == Ok("${B}")
  {
    SubstituteReference("A", "", map["A" := "${B}"]);
    assert "${" + "A" + "}" + "" == "${A}";
    assert Substitute("", map["A" := "${B}"]) == Ok("");
    assert "${B}" + "" == "${B}";
  }

  // ---------------------------------------------------------------------
  // The configuration tree
  // ---------------------------------------------------------------------

  /**
   * `b` is `a` with every string substituted: dictionaries with the same
   * keys in the same order, lists of the same length, each string leaf
   * replaced by its substitution, and every other value equal.
   */
  predicate Substituted(a: Json, b: Json, env: Env)
    decreases a
  {
    match a
    case JStr(s) => b.JStr? && Substitute(s, env) == Ok(b.s)
    case JArr(xs) =>
      b.JArr? && |xs| == |b.items| && forall i :: 0 <= i < |xs| ==> Substituted(xs[i], b.items[i], env)
    case JObj(fs) =>
      b.JObj? && |fs| == |b.fields|
      && forall i :: 0 <= i < |fs| ==> fs[i].0 == b.fields[i].0 && Substituted(fs[i].1, b.fields[i].1, env)
    case _ => b == a
  }

  /** `_substitute_env_vars`: strings are substituted, dictionaries and lists recursively, anything else kept. */
  function SubstituteEnvVars(v: Json, env: Env): (r: Result<Json, LoadError>)
    ensures r.Ok? ==> Substituted(v, r.value, env)
    ensures r.Err? ==> r.error.UnsetVariable? && r.error.name !in env
    decreases v, 2
  {
    match v
    case JStr(s) =>
      var t :- Substitute(s, env);
      Ok(JStr(t))
    case JArr(items) =>
      var ys :- SubstituteItems(items, env);
      Ok(JArr(ys))
    case JObj(fields) =>
      var gs :- SubstituteFields(fields, env);
      Ok(JObj(gs))
    case _ => Ok(v)
  }

  function SubstituteItems(items: seq<Json>, env: Env): (r: Result<seq<Json>, LoadError>)
    ensures r.Ok? ==> |r.value| == |items| && forall i :: 0 <= i < |items| ==> Substituted(items[i], r.value[i], env)
    ensures r.Err? ==> r.error.UnsetVariable? && r.error.name !in env
    decreases items, 0
  {
    if items == [] then Ok([])
    else
      var y :- SubstituteEnvVars(items[0], env);
      var ys :- SubstituteItems(items[1..], env);
      Ok([y] + ys)
  }

  function SubstituteFields(fields: seq<(string, Json)>, env: Env): (r: Result<seq<(string, Json)>, LoadError>)
    ensures r.Ok? ==> |r.value| == |fields|
    ensures r.Ok? ==> forall i :: 0 <= i < |fields| ==>
                        (r.value[i].0 == fields[i].0 && Substituted(fields[i].1, r.value[i].1, env))
    ensures r.Err? ==> r.error.UnsetVariable? && r.error.name !in env
    decreases fields, 0
  {
    if fields == [] then Ok([])
    else
      var y :- SubstituteEntry(fields[0], env);
      var ys :- SubstituteFields(fields[1..], env);
      Ok([y] + ys)
  }

  /** One `key: value` entry of a dictionary: the key is kept, the value substituted. */
  function SubstituteEntry(entry: (string, Json), env: Env): (r: Result<(string, Json), LoadError>)
    ensures r.Ok? ==> r.value.0 == entry.0 && Substituted(entry.1, r.value.1, env)
    ensures r.Err? ==> r.error.UnsetVariable? && r.error.name !in env
    decreases entry, 1
  {
    var y :- SubstituteEnvVars(entry.1, env);
    Ok((entry.0, y))
  }

  /** A value that is not a string, list or dictionary is returned unchanged. */
  lemma {:induction false} ScalarUnchanged(v: Json, env: Env)
    requires !v.JStr? && !v.JArr? && !v.JObj?
    ensures SubstituteEnvVars(v, env) == Ok(v)
  {
  }

  /** A tree none of whose strings holds a reference. */
  predicate NoReferences(v: Json)
    decreases v
  {
    match v
    case JStr(s) => NoReference(s)
    case JArr(xs) => forall i :: 0 <= i < |xs| ==> NoReferences(xs[i])
    case JObj(fs) => forall i :: 0 <= i < |fs| ==> NoReferences(fs[i].1)
    case _ => true
  }

  /** A tree without references comes back unchanged. */
  lemma {:induction false} NoReferencesUnchanged(v: Json, env: Env)
    requires NoReferences(v)
    ensures SubstituteEnvVars(v, env) == Ok(v)
    decreases v, 2
  {
    match v
    case JStr(s) => NoReferenceUnchanged(s, env);
    case JArr(xs) => ItemsUnchanged(xs, env);
    case JObj(fs) => FieldsUnchanged(fs, env);
    case _ =>
  }

  lemma {:induction false} ItemsUnchanged(xs: seq<Json>, env: Env)
    requires forall i :: 0 <= i < |xs| ==> NoReferences(xs[i])
    ensures SubstituteItems(xs, env) == Ok(xs)
    decreases xs, 0
  {
    if xs != [] {
      NoReferencesUnchanged(xs[0], env);
      ItemsUnchanged(xs[1..], env);
      assert [xs[0]] + xs[1..] == xs;
    }
  }

  lemma {:induction false} FieldsUnchanged(fs: seq<(string, Json)>, env: Env)
    requires forall i :: 0 <= i < |fs| ==> NoReferences(fs[i].1)
    ensures SubstituteFields(fs, env) == Ok(fs)
    decreases fs, 0
  {
    if fs != [] {
      EntryUnchanged(fs[0], env);
      FieldsUnchanged(fs[1..], env);
      assert [fs[0]] + fs[1..] == fs;
    }
  }

  lemma {:induction false} EntryUnchanged(entry: (string, Json), env: Env)
    requires NoReferences(entry.1)
    ensures SubstituteEntry(entry, env) == Ok(entry)
    decreases entry, 1
  {
    NoReferencesUnchanged(entry.1, env);
  }

  // ---------------------------------------------------------------------
  // Provider and model-mapping sections
  // ---------------------------------------------------------------------

  /**
   * `_parse_providers` up to the record construction: a missing or empty
   * section raises; otherwise each entry is substituted, in order.
   */
  function ParseProviders(data: seq<(string, Json)>, env: Env): (r: Result<seq<Json>, LoadError>)
    ensures !Truthy(GetOr(data, "providers", JArr([]))) ==> r == Err(NoProviders)
    ensures r.Ok? ==> GetOr(data, "providers", JArr([])).JArr?
                      && |r.value| == |GetOr(data, "providers", JArr([])).items| > 0
    ensures r.Ok? ==> forall i :: 0 <= i < |r.value| ==>
                        Substituted(GetOr(data, "providers", JArr([])).items[i], r.value[i], env)
  {
    var section := GetOr(data, "providers", JArr([]));
    if !Truthy(section) then Err(NoProviders)
    else if !section.JArr? then Err(NotAList("providers"))
    else SubstituteItems(section.items, env)
  }

  /**
   * `_parse_model_mappings` up to the record construction: a missing or
   * empty section raises; the entries are not substituted.
   */
  function ParseModelMappings(data: seq<(string, Json)>): (r: Result<seq<Json>, LoadError>)
    ensures !Truthy(GetOr(data, "model_mappings", JArr([]))) ==> r == Err(NoModelMappings)
    ensures r.Ok? ==> GetOr(data, "model_mappings", JArr([])) == JArr(r.value) && r.value != []
  {
    var section := GetOr(data, "model_mappings", JArr([]));
    if !Truthy(section) then Err(NoModelMappings)
    else if !section.JArr? then Err(NotAList("model_mappings"))
    else Ok(section.items)
  }
}
