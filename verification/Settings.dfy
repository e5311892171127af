/** Settings read from an environment, a file and a `.env` file, and saved without copying
    what the environment supplies. */
module Settings {
  import opened Options

  datatype Scalar =
    | Null
    | Bool(b: bool)
    | Number(n: real)
    | Text(s: string)
    | List(items: seq<Scalar>)

  /** A nested dictionary; only sections contain others. */
  datatype Value =
    | Leaf(scalar: Scalar)
    | Section(entries: map<string, Value>)

  const NOTHING := Section(map[])

  // ---------------------------------------------------------------------------
  // Merging

  function Merge(target: Value, extra: Value): Value
    decreases extra
  {
    if target.Section? && extra.Section? then
      Section(map k | k in target.entries.Keys + extra.entries.Keys ::
        if k !in extra.entries then target.entries[k]
        else if k in target.entries then Merge(target.entries[k], extra.entries[k])
        else extra.entries[k])
    else extra
  }

  method DeepMerge(target: map<string, Value>, extra: map<string, Value>) returns (merged: map<string, Value>)
    ensures Section(merged) == Merge(Section(target), Section(extra))
    decreases Section(extra)
  {
    merged := target;
    var todo := extra.Keys;
    while todo != {}
      invariant todo <= extra.Keys
      invariant forall k | k in todo :: (k in merged <==> k in target) && (k in merged ==> merged[k] == target[k])
      invariant merged.Keys == target.Keys + (extra.Keys - todo)
      invariant forall k | k in merged && k !in todo ::
        merged[k] == Merge(Section(target), Section(extra)).entries[k]
      decreases todo
    {
      var key :| key in todo;
      var value := extra[key];
      if value.Section? && key in merged && merged[key].Section? {
        assert Section(extra).entries[key] == value;
        var inner := DeepMerge(merged[key].entries, value.entries);
        merged := merged[key := Section(inner)];
      } else {
        merged := merged[key := value];
      }
      todo := todo - {key};
    }
  }

  // ---------------------------------------------------------------------------
  // What a save writes

  function Below(v: Value, key: string): Value {
    if v.Section? && key in v.entries && v.entries[key].Section? then v.entries[key] else NOTHING
  }

  function Lookup(entries: map<string, Value>, key: string): Option<Value> {
    if key in entries then Some(entries[key]) else None
  }

  /** What a save keeps under one key. A file value equal to the environment's goes too. */
  function KeptAt(values: Value, environment: Value, existing: Value, key: string): Option<Value>
    requires values.Section? && environment.Section? && existing.Section?
    decreases environment, 0
  {
    var v, x, f := values.entries, environment.entries, existing.entries;
    if key !in x then Lookup(v, key)
    else if x[key].Section? && key in v && v[key].Section? then
      Some(KeepFile(v[key], x[key], Below(existing, key)))
    else if key in f && f[key] != x[key] then Some(f[key])
    else None
  }

  /** `values` with every value the environment set replaced by the file's own, or left out. */
  function KeepFile(values: Value, environment: Value, existing: Value): (kept: Value)
    requires values.Section? && environment.Section? && existing.Section?
    ensures kept.Section?
    decreases environment, 1
  {
    Section(map k | k in values.entries.Keys + environment.entries.Keys
                 && KeptAt(values, environment, existing, k).Some? ::
      KeptAt(values, environment, existing, k).value)
  }

  lemma {:induction false} KeepFileAt(values: Value, environment: Value, existing: Value, key: string)
    requires values.Section? && environment.Section? && existing.Section?
    ensures Lookup(KeepFile(values, environment, existing).entries, key) == KeptAt(values, environment, existing, key)
  {
  }

  method KeepFileValues(values: map<string, Value>, environment: map<string, Value>, existing: map<string, Value>)
    returns (kept: map<string, Value>)
    ensures Section(kept) == KeepFile(Section(values), Section(environment), Section(existing))
    decreases Section(environment)
  {
    kept := values;
    var todo := environment.Keys;
    ghost var v, x, f := Section(values), Section(environment), Section(existing);
    while todo != {}
      invariant todo <= environment.Keys
      invariant forall k :: Lookup(kept, k) == if k in todo then Lookup(values, k) else KeptAt(v, x, f, k)
      decreases todo
    {
      var key :| key in todo;
      var envValue := environment[key];
      assert Lookup(kept, key) == Lookup(values, key);
      ghost var before := kept;
      if envValue.Section? && key in kept && kept[key].Section? {
        var previous := if key in existing && existing[key].Section? then existing[key].entries else map[];
        assert x.entries[key] == envValue && Section(previous) == Below(f, key);
        var inner := KeepFileValues(kept[key].entries, envValue.entries, previous);
        kept := kept[key := Section(inner)];
      } else if key in existing && existing[key] != envValue {
        kept := kept[key := existing[key]];
      } else {
        kept := kept - {key};
      }
      todo := todo - {key};
      assert forall k | k != key :: Lookup(kept, k) == Lookup(before, k);
    }
    SameLookups(kept, KeepFile(v, x, f).entries);
  }

  lemma {:induction false} SameLookups(a: map<string, Value>, b: map<string, Value>)
    requires forall k :: Lookup(a, k) == Lookup(b, k)
    ensures a == b
  {
    forall k ensures (k in a <==> k in b) && (k in a ==> a[k] == b[k]) {
      assert Lookup(a, k) == Lookup(b, k);
    }
  }

  // ---------------------------------------------------------------------------
  // Loading

  /** The settings' fields: `check` is what validation makes of a value. */
  datatype Schema =
    | Field(default: Scalar, check: Scalar -> Scalar)
    | Group(fields: map<string, Schema>)

  function Default(schema: Schema): Value {
    match schema
    case Field(default, _) => Leaf(default)
    case Group(fields) => Section(map k | k in fields :: Default(fields[k]))
  }

  /** What of a layer validation accepts: sections for groups, leaves for fields. Keys that are
      no field are ignored. */
  predicate Conforms(schema: Schema, layer: Value) {
    match schema
    case Field(_, _) => layer.Leaf?
    case Group(fields) =>
      layer.Section? && forall k | k in fields && k in layer.entries :: Conforms(fields[k], layer.entries[k])
  }

  function Load(schema: Schema, layer: Value): Value
    requires Conforms(schema, layer)
  {
    match schema
    case Field(_, check) => Leaf(check(layer.scalar))
    case Group(fields) =>
      Section(map k | k in fields ::
        if k in layer.entries then Load(fields[k], layer.entries[k]) else Default(fields[k]))
  }

  /** Validation changes neither a default nor anything it has already accepted. */
  ghost predicate Settled(schema: Schema) {
    match schema
    case Field(default, check) => check(default) == default && forall v :: check(check(v)) == check(v)
    case Group(fields) => forall k | k in fields :: Settled(fields[k])
  }

  lemma {:induction false} MergeConforms(schema: Schema, a: Value, b: Value)
    requires Conforms(schema, a) && Conforms(schema, b)
    ensures Conforms(schema, Merge(a, b))
  {
    match schema
    case Field(_, _) =>
    case Group(fields) =>
      forall k | k in fields && k in a.entries && k in b.entries
        ensures Conforms(fields[k], Merge(a.entries[k], b.entries[k]))
      {
        MergeConforms(fields[k], a.entries[k], b.entries[k]);
      }
  }

  /** The sources under environment over file over `.env`. */
  function Layers(dotenv: Value, file: Value, env: Value): Value {
    Merge(Merge(dotenv, file), env)
  }

  function Effective(schema: Schema, dotenv: Value, file: Value, env: Value): Value
    requires Conforms(schema, dotenv) && Conforms(schema, file) && Conforms(schema, env)
  {
    MergeConforms(schema, dotenv, file);
    MergeConforms(schema, Merge(dotenv, file), env);
    Load(schema, Layers(dotenv, file, env))
  }

  function Saved(values: Value, dotenv: Value, file: Value, env: Value): Value
    requires values.Section? && dotenv.Section? && file.Section? && env.Section?
  {
    KeepFile(values, Merge(dotenv, env), file)
  }

  // ---------------------------------------------------------------------------
  // Saving untouched settings changes nothing

  lemma {:induction false} MergeNothing(v: Value)
    requires v.Section?
    ensures Merge(NOTHING, v) == v && Merge(v, NOTHING) == v
  {
  }

  lemma {:induction false} KeepFileNothing(v: Value, f: Value)
    requires v.Section? && f.Section?
    ensures KeepFile(v, NOTHING, f) == v
  {
    forall k ensures KeptAt(v, NOTHING, f, k) == Lookup(v.entries, k) {
    }
  }

  /** Under a key that is a group, everything is as if absent layers were empty sections. */
  lemma {:induction false} GroupKey(schema: Schema, k: string, n: Value, f: Value, e: Value)
    requires schema.Group? && k in schema.fields && schema.fields[k].Group?
    requires Conforms(schema, n) && Conforms(schema, f) && Conforms(schema, e)
    ensures Conforms(schema.fields[k], Below(n, k)) && Conforms(schema.fields[k], Below(f, k)) && Conforms(schema.fields[k], Below(e, k))
    ensures Effective(schema, n, f, e).entries[k] == Effective(schema.fields[k], Below(n, k), Below(f, k), Below(e, k))
  {
    MergeNothing(Below(n, k));
    MergeNothing(Below(f, k));
    MergeNothing(Below(e, k));
    MergeNothing(Merge(Below(n, k), Below(f, k)));
    MergeConforms(schema, n, f);
    MergeConforms(schema, Merge(n, f), e);
  }

  lemma {:induction false} SavedGroupKey(schema: Schema, k: string, v: Value, n: Value, f: Value, e: Value)
    requires schema.Group? && k in schema.fields && schema.fields[k].Group?
    requires Conforms(schema, n) && Conforms(schema, f) && Conforms(schema, e)
    requires v.Section? && k in v.entries && v.entries[k].Section?
    ensures Lookup(Saved(v, n, f, e).entries, k) == Some(Saved(v.entries[k], Below(n, k), Below(f, k), Below(e, k)))
  {
    MergeNothing(Below(n, k));
    MergeNothing(Below(e, k));
    KeepFileNothing(v.entries[k], Below(f, k));
    KeepFileAt(v, Merge(n, e), f, k);
  }

  /** The layer that decides a field: environment, then file, then `.env`. */
  function Raw(n: Value, f: Value, e: Value, k: string): Option<Value>
    requires n.Section? && f.Section? && e.Section?
  {
    if k in e.entries then Some(e.entries[k])
    else if k in f.entries then Some(f.entries[k])
    else Lookup(n.entries, k)
  }

  lemma {:induction false} LeafAt(schema: Schema, layer: Value, k: string)
    requires schema.Group? && k in schema.fields && schema.fields[k].Field? && Conforms(schema, layer)
    ensures layer.Section? && (k in layer.entries ==> layer.entries[k].Leaf?)
  {
    if k in layer.entries {
      assert Conforms(schema.fields[k], layer.entries[k]);
    }
  }

  lemma {:induction false} LeafMerge(a: Value, b: Value, k: string)
    requires a.Section? && b.Section? && (k in b.entries ==> b.entries[k].Leaf?)
    ensures Merge(a, b).Section?
    ensures Lookup(Merge(a, b).entries, k) == if k in b.entries then Some(b.entries[k]) else Lookup(a.entries, k)
  {
    if k in a.entries && k in b.entries {
      assert Merge(a.entries[k], b.entries[k]) == b.entries[k];
    }
  }

  lemma {:induction false} FieldKey(schema: Schema, k: string, n: Value, f: Value, e: Value)
    requires schema.Group? && k in schema.fields && schema.fields[k].Field?
    requires Conforms(schema, n) && Conforms(schema, f) && Conforms(schema, e)
    ensures
      var raw, field := Raw(n, f, e, k), schema.fields[k];
      && (raw.Some? ==> raw.value.Leaf?)
      && Effective(schema, n, f, e).entries[k] ==
           Leaf(if raw.None? then field.default else field.check(raw.value.scalar))
  {
    LeafAt(schema, n, k);
    LeafAt(schema, f, k);
    LeafAt(schema, e, k);
    LeafMerge(n, f, k);
    LeafMerge(Merge(n, f), e, k);
    MergeConforms(schema, n, f);
    MergeConforms(schema, Merge(n, f), e);
    var field, raw := schema.fields[k], Raw(n, f, e, k);
    assert Lookup(Layers(n, f, e).entries, k) == raw;
    assert Default(field) == Leaf(field.default);
    assert raw.Some? ==> Load(field, raw.value) == Leaf(field.check(raw.value.scalar));
  }

  lemma {:induction false} SavedFieldKey(schema: Schema, k: string, n: Value, f: Value, e: Value)
    requires schema.Group? && k in schema.fields && schema.fields[k].Field? && Settled(schema)
    requires Conforms(schema, n) && Conforms(schema, f) && Conforms(schema, e)
    ensures
      var v := Effective(schema, n, f, e);
      var s := Saved(v, n, f, e);
      && (k in s.entries ==> s.entries[k].Leaf?)
      && (Conforms(schema, s) ==> Effective(schema, n, s, e).entries[k] == v.entries[k])
  {
    var v := Effective(schema, n, f, e);
    var s := Saved(v, n, f, e);
    FieldKey(schema, k, n, f, e);
    KeepFileAt(v, Merge(n, e), f, k);
    LeafAt(schema, n, k);
    LeafAt(schema, f, k);
    LeafAt(schema, e, k);
    assert Settled(schema.fields[k]);
    if Conforms(schema, s) {
      FieldKey(schema, k, n, s, e);
    }
  }

  ghost predicate KeyKept(schema: Schema, k: string, n: Value, f: Value, e: Value)
    requires schema.Group? && k in schema.fields
    requires Conforms(schema, n) && Conforms(schema, f) && Conforms(schema, e)
  {
    var v := Effective(schema, n, f, e);
    var s := Saved(v, n, f, e);
    && (k in s.entries ==> Conforms(schema.fields[k], s.entries[k]))
    && (Conforms(schema, s) ==> Effective(schema, n, s, e).entries[k] == v.entries[k])
  }

  lemma {:induction false} AllKeysKept(schema: Schema, n: Value, f: Value, e: Value)
    requires schema.Group? && Conforms(schema, n) && Conforms(schema, f) && Conforms(schema, e)
    requires forall k | k in schema.fields :: KeyKept(schema, k, n, f, e)
    ensures
      var v := Effective(schema, n, f, e);
      var s := Saved(v, n, f, e);
      Conforms(schema, s) && Effective(schema, n, s, e) == v
  {
    var v := Effective(schema, n, f, e);
    var s := Saved(v, n, f, e);
    assert Conforms(schema, s) by {
      forall k | k in schema.fields && k in s.entries ensures Conforms(schema.fields[k], s.entries[k]) {
        assert KeyKept(schema, k, n, f, e);
      }
    }
    var w := Effective(schema, n, s, e);
    assert w.entries.Keys == schema.fields.Keys == v.entries.Keys;
    forall k | k in schema.fields ensures w.entries[k] == v.entries[k] {
      assert KeyKept(schema, k, n, f, e);
    }
    assert w.entries == v.entries;
  }

  /** Reloading what a save wrote gives the settings that were saved. */
  lemma {:induction false} SaveKeepsSettings(schema: Schema, n: Value, f: Value, e: Value)
    requires schema.Group? && Settled(schema)
    requires Conforms(schema, n) && Conforms(schema, f) && Conforms(schema, e)
    ensures
      var v := Effective(schema, n, f, e);
      var s := Saved(v, n, f, e);
      Conforms(schema, s) && Effective(schema, n, s, e) == v
    decreases schema, 0
  {
    forall k | k in schema.fields ensures KeyKept(schema, k, n, f, e) {
      if schema.fields[k].Field? {
        SavedFieldKey(schema, k, n, f, e);
      } else {
        SavedGroup(schema, k, n, f, e);
      }
    }
    AllKeysKept(schema, n, f, e);
  }

  lemma {:induction false} SavedGroup(schema: Schema, k: string, n: Value, f: Value, e: Value)
    requires schema.Group? && k in schema.fields && schema.fields[k].Group? && Settled(schema)
    requires Conforms(schema, n) && Conforms(schema, f) && Conforms(schema, e)
    ensures
      var v := Effective(schema, n, f, e);
      var s := Saved(v, n, f, e);
      && (k in s.entries ==> Conforms(schema.fields[k], s.entries[k]))
      && (Conforms(schema, s) ==> Effective(schema, n, s, e).entries[k] == v.entries[k])
    decreases schema.fields[k], 1
  {
    var v := Effective(schema, n, f, e);
    var s := Saved(v, n, f, e);
    GroupKey(schema, k, n, f, e);
    SaveKeepsSettings(schema.fields[k], Below(n, k), Below(f, k), Below(e, k));
    SavedGroupKey(schema, k, v, n, f, e);
    if Conforms(schema, s) {
      GroupKey(schema, k, n, s, e);
    }
  }

  /** Saving again over what was saved writes the same file. */
  lemma {:induction false} SecondSaveIsTheSame(v: Value, x: Value, f: Value)
    requires v.Section? && x.Section? && f.Section?
    ensures KeepFile(v, x, KeepFile(v, x, f)) == KeepFile(v, x, f)
    decreases x
  {
    var s := KeepFile(v, x, f);
    forall k ensures KeptAt(v, x, s, k) == KeptAt(v, x, f, k) {
      KeepFileAt(v, x, f, k);
      if k in x.entries && x.entries[k].Section? && k in v.entries && v.entries[k].Section? {
        SecondSaveIsTheSame(v.entries[k], x.entries[k], Below(f, k));
      }
    }
    forall k ensures Lookup(KeepFile(v, x, s).entries, k) == Lookup(s.entries, k) {
      KeepFileAt(v, x, s, k);
      KeepFileAt(v, x, f, k);
    }
    SameLookups(KeepFile(v, x, s).entries, s.entries);
  }

  // ---------------------------------------------------------------------------
  // What is in the file, setting by setting

  function At(v: Value, path: seq<string>): Option<Value> {
    if path == [] then Some(v)
    else if v.Section? && path[0] in v.entries then At(v.entries[path[0]], path[1..])
    else None
  }

  predicate IsField(schema: Schema, path: seq<string>) {
    match schema
    case Field(_, _) => path == []
    case Group(fields) => path != [] && path[0] in fields && IsField(fields[path[0]], path[1..])
  }

  /** A whole settings tree: every field has a value. */
  predicate Full(schema: Schema, v: Value) {
    match schema
    case Field(_, _) => v.Leaf?
    case Group(fields) => v.Section? && forall k | k in fields :: k in v.entries && Full(fields[k], v.entries[k])
  }

  lemma {:induction false} DefaultIsFull(schema: Schema)
    ensures Full(schema, Default(schema))
  {
    match schema
    case Field(_, _) =>
    case Group(fields) =>
      forall k | k in fields ensures Full(fields[k], Default(fields[k])) {
        DefaultIsFull(fields[k]);
      }
  }

  lemma {:induction false} LoadIsFull(schema: Schema, layer: Value)
    requires Conforms(schema, layer)
    ensures Full(schema, Load(schema, layer))
  {
    match schema
    case Field(_, _) =>
    case Group(fields) =>
      forall k | k in fields ensures Full(fields[k], Load(schema, layer).entries[k]) {
        if k in layer.entries {
          LoadIsFull(fields[k], layer.entries[k]);
        } else {
          DefaultIsFull(fields[k]);
        }
      }
  }

  /** A setting the environment did not set is saved as it is; one it did set keeps the file's
      own value, or is left out when the file had none or had the environment's. */
  lemma {:induction false} SavedSetting(schema: Schema, v: Value, x: Value, f: Value, path: seq<string>)
    requires schema.Group? && IsField(schema, path)
    requires Full(schema, v) && Conforms(schema, x) && Conforms(schema, f)
    ensures At(KeepFile(v, x, f), path) ==
      if At(x, path).None? then At(v, path)
      else if At(f, path) != At(x, path) then At(f, path)
      else None
    decreases path
  {
    var k, rest := path[0], path[1..];
    KeepFileAt(v, x, f, k);
    if schema.fields[k].Group? && k in x.entries {
      if k in f.entries {
        SavedSetting(schema.fields[k], v.entries[k], x.entries[k], f.entries[k], rest);
      } else {
        SavedSetting(schema.fields[k], v.entries[k], x.entries[k], NOTHING, rest);
        assert At(NOTHING, rest) == None;
      }
    }
  }

  /** So no setting is saved with the value the environment gave it. */
  lemma {:induction false} NothingLeaks(schema: Schema, n: Value, f: Value, e: Value, path: seq<string>)
    requires schema.Group? && IsField(schema, path)
    requires Conforms(schema, n) && Conforms(schema, f) && Conforms(schema, e)
    ensures
      var s := Saved(Effective(schema, n, f, e), n, f, e);
      At(Merge(n, e), path).Some? ==> At(s, path) != At(Merge(n, e), path)
  {
    MergeConforms(schema, n, e);
    MergeConforms(schema, n, f);
    MergeConforms(schema, Merge(n, f), e);
    LoadIsFull(schema, Layers(n, f, e));
    SavedSetting(schema, Effective(schema, n, f, e), Merge(n, e), f, path);
  }

  function FieldAt(schema: Schema, path: seq<string>): (field: Schema)
    requires IsField(schema, path)
    ensures field.Field?
  {
    if path == [] then schema else FieldAt(schema.fields[path[0]], path[1..])
  }

  /** The value that counts for a setting: the environment's, else the file's, else that of
      `.env`. */
  function Counting(n: Value, f: Value, e: Value, path: seq<string>): Option<Value> {
    if At(e, path).Some? then At(e, path) else if At(f, path).Some? then At(f, path) else At(n, path)
  }

  /** Every setting has the value that counts, as validation leaves it, or else its default. */
  lemma {:induction false} EffectiveSetting(schema: Schema, n: Value, f: Value, e: Value, path: seq<string>)
    requires schema.Group? && IsField(schema, path)
    requires Conforms(schema, n) && Conforms(schema, f) && Conforms(schema, e)
    ensures
      var raw, field := Counting(n, f, e, path), FieldAt(schema, path);
      && (raw.Some? ==> raw.value.Leaf?)
      && At(Effective(schema, n, f, e), path) == Some(Leaf(if raw.None? then field.default else field.check(raw.value.scalar)))
    decreases path
  {
    var k, rest := path[0], path[1..];
    if schema.fields[k].Field? {
      FieldKey(schema, k, n, f, e);
      AtKey(n, k);
      AtKey(f, k);
      AtKey(e, k);
      AtKey(Effective(schema, n, f, e), k);
      assert path == [k];
    } else {
      GroupKey(schema, k, n, f, e);
      EffectiveSetting(schema.fields[k], Below(n, k), Below(f, k), Below(e, k), rest);
      AtBelow(schema, n, path);
      AtBelow(schema, f, path);
      AtBelow(schema, e, path);
    }
  }

  lemma {:induction false} AtKey(v: Value, k: string)
    requires v.Section?
    ensures At(v, [k]) == Lookup(v.entries, k)
  {
    assert [k][1..] == [];
  }

  lemma {:induction false} AtBelow(schema: Schema, v: Value, path: seq<string>)
    requires schema.Group? && IsField(schema, path) && schema.fields[path[0]].Group? && Conforms(schema, v)
    ensures At(Below(v, path[0]), path[1..]) == At(v, path)
  {
  }
}
