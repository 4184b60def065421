/** Template inheritance, and the explanation the config TUI gives of it
    (gateway/config.py _deep_merge, _resolve_inherits, _parse_templates_block;
    gateway/configtool/model.py entry_template_name, field_provenance). */
module Inherit {
  import opened Values

  const INHERITS := "inherits"
  const DESCRIPTION := "description"

  type Fields = map<string, Value>

  function Get(m: Fields, k: string): Value {
    if k in m then m[k] else Null
  }

  /** `override` wins at every level; only two mappings merge, and an explicit null is a value. */
  function Over(base: Value, override: Value): Value
    decreases override
  {
    if base.Map? && override.Map? then
      Map(map k | k in base.entries.Keys + override.entries.Keys ::
            if k !in override.entries then base.entries[k]
            else if k in base.entries then Over(base.entries[k], override.entries[k])
            else override.entries[k])
    else override
  }

  function Merged(base: Fields, override: Fields): Fields {
    Over(Map(base), Map(override)).entries
  }

  method DeepMerge(base: Fields, override: Fields) returns (merged: Fields)
    ensures merged == Merged(base, override)
    decreases Map(override)
  {
    merged := base;
    var done := {};
    while done != override.Keys
      invariant done <= override.Keys
      invariant merged.Keys == base.Keys + done
      invariant forall k :: k in merged ==>
        merged[k] == if k in done then (if k in base then Over(base[k], override[k]) else override[k]) else base[k]
      decreases override.Keys - done
    {
      var k :| k in override && k !in done;
      var v := override[k];
      if k in merged && merged[k].Map? && v.Map? {
        assert v == Map(override).entries[k];
        var below := DeepMerge(merged[k].entries, v.entries);
        merged := merged[k := Map(below)];
      } else {
        merged := merged[k := v];
      }
      done := done + {k};
    }
  }

  /** What stands at the end of a path through mappings. */
  function Dig(v: Value, path: seq<string>): Option<Value> {
    if path == [] then Some(v)
    else if v.Map? && path[0] in v.entries then Dig(v.entries[path[0]], path[1..])
    else None
  }

  /** The value is a mapping as far down the path as it says anything, and then says nothing. */
  predicate Silent(v: Value, path: seq<string>) {
    path != [] && v.Map? && (path[0] in v.entries ==> Silent(v.entries[path[0]], path[1..]))
  }

  lemma {:induction false} SilentHasNothing(v: Value, path: seq<string>)
    requires Silent(v, path)
    ensures Dig(v, path).None?
    decreases |path|
  {
    if path[0] in v.entries { SilentHasNothing(v.entries[path[0]], path[1..]); }
  }

  /** At any depth: what the entry writes, other than a mapping, stands; where it is silent the
      template's value does, and nothing else appears. */
  lemma {:induction false} WinsAtEveryLevel(base: Value, override: Value, path: seq<string>)
    ensures Dig(override, path).Some? && !Dig(override, path).value.Map? ==>
      Dig(Over(base, override), path) == Dig(override, path)
    ensures base.Map? && Silent(override, path) ==> Dig(Over(base, override), path) == Dig(base, path)
    decreases |path|
  {
    if Silent(override, path) { SilentHasNothing(override, path); }
    if path != [] && base.Map? && override.Map? && path[0] in override.entries && path[0] in base.entries {
      var k := path[0];
      assert Over(base, override).entries[k] == Over(base.entries[k], override.entries[k]);
      WinsAtEveryLevel(base.entries[k], override.entries[k], path[1..]);
    }
  }

  lemma {:induction false} OverItself(v: Value)
    ensures Over(v, v) == v
    decreases v
  {
    if v.Map? {
      forall k | k in v.entries ensures Over(v.entries[k], v.entries[k]) == v.entries[k] {
        OverItself(v.entries[k]);
      }
      assert Over(v, v).entries == v.entries;
    }
  }

  /** Merging the result over the same base again changes nothing. */
  lemma {:induction false} OverAgain(base: Value, override: Value)
    ensures Over(base, Over(base, override)) == Over(base, override)
    decreases override
  {
    if base.Map? && override.Map? {
      var once := Over(base, override).entries;
      var twice := Over(base, Over(base, override)).entries;
      forall k | k in base.entries && k in override.entries
        ensures Over(base.entries[k], Over(base.entries[k], override.entries[k])) == Over(base.entries[k],
          override.entries[k])
      {
        OverAgain(base.entries[k], override.entries[k]);
      }
      forall k | k in base.entries ensures Over(base.entries[k], base.entries[k]) == base.entries[k] {
        OverItself(base.entries[k]);
      }
      assert twice.Keys == once.Keys;
      assert forall k :: k in once ==> twice[k] == once[k];
      assert twice == once;
    }
  }

  // ---- Templates ----

  datatype Resolution =
    | Resolved(fields: Fields)
    | InheritsNotAName
    | UnknownTemplate(name: string)
    | TypeMismatch(name: string)

  /** One entry resolved against the templates it may inherit. */
  function Resolve(entry: Fields, templates: map<string, Fields>): Resolution {
    var own := entry - {INHERITS};
    match Get(entry, INHERITS)
    case Null => Resolved(own)
    case Str(name) =>
      if name == "" then InheritsNotAName
      else if name !in templates then UnknownTemplate(name)
      else if Truthy(Get(own, "type")) && Truthy(Get(templates[name], "type")) &&
        Get(own, "type") != Get(templates[name], "type")
      then TypeMismatch(name)
      else Resolved(Merged(templates[name], own))
    case _ => InheritsNotAName
  }

  /** The entry asks for no template; null is as good as nothing. */
  predicate Alone(entry: Fields) {
    INHERITS !in entry || entry[INHERITS] == Null
  }

  /** The entry asks for the template of this name. */
  predicate AsksFor(entry: Fields, name: string) {
    INHERITS in entry && entry[INHERITS] == Str(name) && name != ""
  }

  /** Both say what type they are of, and not the same. */
  predicate Contradicts(entry: Fields, template: Fields) {
    && "type" in entry && "type" in template && entry["type"] != template["type"]
    && Truthy(entry["type"]) && Truthy(template["type"])
  }

  /** What a template gives an entry: the entry's own fields stand, mappings on both sides are merged,
      the rest comes from the template, and the request itself is gone. */
  ghost predicate Inherits(entry: Fields, template: Fields, fields: Fields) {
    && (forall k :: k in fields <==> k in template || (k in entry && k != INHERITS))
    && (forall k :: k in entry && k != INHERITS ==>
          fields[k] == if k in template then Over(template[k], entry[k]) else entry[k])
    && (forall k :: k in template && (k !in entry || k == INHERITS) ==> fields[k] == template[k])
  }

  // An entry resolves exactly when it asks for nothing, or for a template that exists and is of no
  // other type. Each other case has its own error.
  method ResolveInherits(entry: Fields, templates: map<string, Fields>) returns (r: Resolution)
    ensures r == Resolve(entry, templates)
    ensures r.Resolved? <==>
      Alone(entry) || exists n :: n in templates && AsksFor(entry, n) && !Contradicts(entry, templates[n])
    ensures r.Resolved? && Alone(entry) ==> r.fields == entry - {INHERITS}
    ensures forall n :: n in templates && AsksFor(entry, n) && r.Resolved? ==> Inherits(entry, templates[n], r.fields)
    ensures r.InheritsNotAName? <==> !Alone(entry) && forall n :: !AsksFor(entry, n)
    ensures forall n :: r == UnknownTemplate(n) <==> AsksFor(entry, n) && n !in templates
    ensures forall n :: r == TypeMismatch(n) <==>
      AsksFor(entry, n) && n in templates && Contradicts(entry, templates[n])
  {
    var own := entry - {INHERITS};
    var name := Get(entry, INHERITS);
    if name.Null? { return Resolved(own); }
    if !name.Str? || name.s == "" { return InheritsNotAName; }
    assert AsksFor(entry, name.s);
    if name.s !in templates { return UnknownTemplate(name.s); }
    var template := templates[name.s];
    var entryType, templateType := Get(own, "type"), Get(template, "type");
    if Truthy(entryType) && Truthy(templateType) && entryType != templateType { return TypeMismatch(name.s); }
    var merged := DeepMerge(template, own);
    r := Resolved(merged);
  }

  predicate GoodTemplate(v: Value, forbidden: set<string>) {
    v.Map? && INHERITS !in v.entries && v.entries.Keys !! forbidden
  }

  /** Not a mapping, or one that inherits itself or names what it is a template for. */
  predicate Unfit(v: Value, forbidden: set<string>) {
    !v.Map? || "inherits" in v.entries || exists k :: k in forbidden && k in v.entries
  }

  function BlockOf(raw: Fields, key: string): Value {
    if Truthy(Get(raw, key)) then Get(raw, key) else Map(map[])
  }

  // The named templates of one block, or nothing when any of it is malformed.
  method ParseTemplates(raw: Fields, key: string, forbidden: set<string>) returns (r: Option<map<string, Fields>>)
    ensures r.Some? <==> BlockOf(raw, key).Map? && forall n :: n in BlockOf(raw, key).entries ==>
      GoodTemplate(BlockOf(raw, key).entries[n], forbidden)
    ensures r.Some? ==> Flat(r.value) && forall n :: n in r.value ==> r.value[n].Keys !! forbidden
    ensures r.None? && BlockOf(raw, key).Map? ==>
      exists n :: n in BlockOf(raw, key).entries && Unfit(BlockOf(raw, key).entries[n], forbidden)
    ensures r.Some? ==> r.value.Keys == BlockOf(raw, key).entries.Keys
    ensures r.Some? ==> forall n :: n in r.value ==> r.value[n] == BlockOf(raw, key).entries[n].entries - {DESCRIPTION}
  {
    var block := BlockOf(raw, key);
    if !block.Map? { return None; }
    var templates: map<string, Fields> := map[];
    var done := {};
    while done != block.entries.Keys
      invariant done <= block.entries.Keys && templates.Keys == done
      invariant forall n :: n in done ==> GoodTemplate(block.entries[n], forbidden)
      invariant forall n :: n in templates ==> templates[n] == block.entries[n].entries - {DESCRIPTION}
      decreases block.entries.Keys - done
    {
      var n :| n in block.entries && n !in done;
      if !GoodTemplate(block.entries[n], forbidden) { return None; }
      templates := templates[n := block.entries[n].entries - {DESCRIPTION}];
      done := done + {n};
    }
    r := Some(templates);
  }

  /** An identity key no template may set is always the entry's own. */
  lemma IdentityIsOwn(entry: Fields, templates: map<string, Fields>, forbidden: set<string>, k: string)
    requires forall n :: n in templates ==> templates[n].Keys !! forbidden
    requires k in forbidden && k != INHERITS
    requires Resolve(entry, templates).Resolved?
    ensures k in Resolve(entry, templates).fields <==> k in entry
    ensures k in entry ==> Resolve(entry, templates).fields[k] == entry[k]
  {
  }

  lemma TypeSettled(own: Fields, template: Fields)
    requires !(Truthy(Get(own, "type")) && Truthy(Get(template, "type")) && Get(own, "type") != Get(template, "type"))
    ensures var merged := Merged(template, own);
      !(Truthy(Get(merged, "type")) && Truthy(Get(template, "type")) && Get(merged, "type") != Get(template, "type"))
  {
    var a, t := Get(own, "type"), Get(template, "type");
    if "type" in own && "type" in template {
      assert Merged(template, own)["type"] == Over(t, a);
      OverItself(t);
      if a.Map? && t.Map? && a.entries == map[] { assert Over(t, a).entries == t.entries; }
    }
  }

  /** Inheriting the same template again from the resolved fields gives the same fields. */
  lemma InheritAgain(entry: Fields, templates: map<string, Fields>)
    requires Resolve(entry, templates).Resolved? && Get(entry, INHERITS).Str?
    requires Flat(templates)
    ensures Resolve(Resolve(entry, templates).fields[INHERITS := entry[INHERITS]], templates) == Resolve(entry,
      templates)
  {
    var own, template := entry - {INHERITS}, templates[entry[INHERITS].s];
    var merged := Merged(template, own);
    assert INHERITS !in merged;
    assert merged[INHERITS := entry[INHERITS]] - {INHERITS} == merged;
    TypeSettled(own, template);
    OverAgain(Map(template), Map(own));
  }

  // ---- Provenance ----

  datatype Provenance = Default | Inherited | Explicit | ExplicitSuppressing

  // A field is a key, or a key and one key below it.
  datatype Field = Key(key: string) | Below(parent: string, sub: string)

  function Root(f: Field): string {
    match f
    case Key(k) => k
    case Below(p, _) => p
  }

  function TemplateName(entry: Fields): Option<string> {
    if Get(entry, INHERITS).Str? && entry[INHERITS].s != "" then Some(entry[INHERITS].s) else None
  }

  function TemplateOf(entry: Fields, templates: map<string, Fields>): Fields {
    match TemplateName(entry)
    case None => map[]
    case Some(n) => if n in templates then templates[n] else map[]
  }

  function FieldProvenance(entry: Fields, templates: map<string, Fields>, f: Field): Provenance {
    var template := TemplateOf(entry, templates);
    match f
    case Key(k) =>
      if k in entry then
        if entry[k].Null? && k in template then ExplicitSuppressing else Explicit
      else if k in template then Inherited else Default
    case Below(p, sub) =>
      var entryParent, templateParent := Get(entry, p), Get(template, p);
      var templateHas := templateParent.Map? && sub in templateParent.entries;
      if p in entry && !entryParent.Map? then
        if entryParent.Null? && templateHas then ExplicitSuppressing else Explicit
      else if entryParent.Map? && sub in entryParent.entries then
        if entryParent.entries[sub].Null? && templateHas then ExplicitSuppressing else Explicit
      else if templateHas then Inherited else Default
  }

  /** What a block of fields says about one field. */
  function ValueAt(m: Fields, f: Field): Option<Value> {
    match f
    case Key(k) => if k in m then Some(m[k]) else None
    case Below(p, sub) => if p in m && m[p].Map? && sub in m[p].entries then Some(m[p].entries[sub]) else None
  }

  /** Did the entry say anything about the field, if only by putting something else in its place? */
  predicate Wrote(entry: Fields, f: Field) {
    ValueAt(entry, f).Some? || (f.Below? && f.parent in entry && !entry[f.parent].Map?)
  }

  /** Each answer, and what it says of the merge. */
  ghost predicate TellsTruth(entry: Fields, templates: map<string, Fields>, f: Field)
    requires Resolve(entry, templates).Resolved?
  {
    var own, inherited, merged :=
      ValueAt(entry, f), ValueAt(TemplateOf(entry, templates), f), ValueAt(Resolve(entry, templates).fields, f);
    match FieldProvenance(entry, templates, f)
    case Default => !Wrote(entry, f) && merged.None?
    case Inherited => !Wrote(entry, f) && merged.Some? && merged == inherited
    case ExplicitSuppressing => Wrote(entry, f) && inherited.Some? && (merged.None? || merged == Some(Null))
    case Explicit => Wrote(entry, f) && (merged == own || MergedMappings(inherited, own, merged))
  }

  /** No template inherits: the block parser refuses one that tries. */
  ghost predicate Flat(templates: map<string, Fields>) {
    forall n :: n in templates ==> INHERITS !in templates[n]
  }

  /** Both sides hold a mapping, and the two are merged. */
  predicate MergedMappings(base: Option<Value>, override: Option<Value>, merged: Option<Value>) {
    && base.Some? && base.value.Map? && override.Some? && override.value.Map?
    && merged == Some(Over(base.value, override.value))
  }

  lemma ValueMerged(base: Fields, override: Fields, f: Field)
    ensures ValueAt(Merged(base, override), f) ==
      if f.Below? && f.parent in override && !override[f.parent].Map? then None
      else match (ValueAt(base, f), ValueAt(override, f))
        case (_, None) => ValueAt(base, f)
        case (None, Some(v)) => Some(v)
        case (Some(b), Some(v)) => Some(Over(b, v))
  {
    var k := Root(f);
    assert k in Merged(base, override) <==> k in base || k in override;
    if k in base && k in override {
      assert Merged(base, override)[k] == Over(base[k], override[k]);
    }
  }

  /** Provenance tells the truth about the merge, for every entry, every existing template and every
      field, with one exact exception: asked about the `inherits` an entry writes, which the merge
      consumes, it answers explicit while the resolved entry has no such field. */
  lemma ProvenanceIsTrue(entry: Fields, templates: map<string, Fields>, f: Field)
    requires Resolve(entry, templates).Resolved? && Flat(templates)
    ensures TellsTruth(entry, templates, f) <==> !(f == Key(INHERITS) && INHERITS in entry)
  {
    var own, template := entry - {INHERITS}, TemplateOf(entry, templates);
    if Root(f) != INHERITS {
      assert ValueAt(own, f) == ValueAt(entry, f);
    }
    if TemplateName(entry).Some? {
      ValueMerged(template, own, f);
    }
  }

  /** And it leaves no case out, whatever the field: a merged value the entry did not write is always
      called inherited, a field with no value that the entry did not touch is always called default,
      and an entry that writes null where the template has a value is always called suppressing. */
  lemma ProvenanceIsComplete(entry: Fields, templates: map<string, Fields>, f: Field)
    requires Resolve(entry, templates).Resolved? && Flat(templates)
    ensures FieldProvenance(entry, templates, f) == Inherited <==>
      !Wrote(entry, f) && ValueAt(Resolve(entry, templates).fields, f).Some?
    ensures FieldProvenance(entry, templates, f) == Default <==>
      !Wrote(entry, f) && ValueAt(Resolve(entry, templates).fields, f).None?
    ensures FieldProvenance(entry, templates, f) == ExplicitSuppressing <==>
      && ValueAt(TemplateOf(entry, templates), f).Some?
      && (ValueAt(entry, f) == Some(Null) || (f.Below? && f.parent in entry && entry[f.parent].Null?))
  {
    ProvenanceIsTrue(entry, templates, f);
  }

  /** Asked about `inherits`, named or null, it answers explicit while the resolved entry has no such field. */
  lemma InheritsIsConsumed(entry: Fields, templates: map<string, Fields>)
    requires Resolve(entry, templates).Resolved? && Flat(templates) && INHERITS in entry
    ensures FieldProvenance(entry, templates, Key(INHERITS)) == Explicit
    ensures ValueAt(Resolve(entry, templates).fields, Key(INHERITS)) == None
    ensures ValueAt(entry, Key(INHERITS)).Some?
  {
  }
}
