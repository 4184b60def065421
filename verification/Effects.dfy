/** What a list of edits does, as one effect: when the one fragment does the same as its edits in turn
    (gateway/config_edit.py fragment_from_paths, merge_patch). */
module Effects {
  import opened Values
  import opened Patch

  // Merge patches are not closed under doing one after the other: a value put in place first stays put.
  datatype Effect = Deletes | Puts(value: Value) | Edits(entries: map<string, Effect>)

  function Apply(e: Effect, target: Value): Value
    decreases e
  {
    match e
    case Deletes => Null
    case Puts(v) => v
    case Edits(m) =>
      var base := Base(target);
      Map(map k | k in base.Keys + m.Keys && !(k in m && m[k].Deletes?) ::
            if k in m then Apply(m[k], Get(base, k)) else base[k])
  }

  /** The effect of merging a patch. */
  function EffectOf(patch: Value): Effect
    decreases patch
  {
    match patch
    case Null => Deletes
    case Map(entries) => Edits(map k | k in entries :: EffectOf(entries[k]))
    case _ => Puts(patch)
  }

  lemma AppliedAt(target: Value, m: map<string, Effect>, q: string)
    ensures var r := Apply(Edits(m), target).entries;
      && (q in r <==> if q in m then !m[q].Deletes? else q in Base(target))
      && (q in r ==> r[q] == if q in m then Apply(m[q], Get(Base(target), q)) else Base(target)[q])
  {
  }

  lemma {:induction false} ApplyIsMerge(target: Value, patch: Value)
    ensures Apply(EffectOf(patch), target) == Merge(target, patch)
    decreases patch
  {
    if patch.Map? {
      var m := EffectOf(patch).entries;
      var r, n := Apply(Edits(m), target).entries, Merge(target, patch).entries;
      forall q ensures (q in r <==> q in n) && (q in r && q in n ==> r[q] == n[q]) {
        AppliedAt(target, m, q);
        MergeAt(target, patch.entries, q);
        if q in patch.entries { ApplyIsMerge(Get(Base(target), q), patch.entries[q]); }
      }
      SameMaps(r, n);
    }
  }

  /** One effect after another. */
  function Then(a: Effect, b: Effect): Effect
    decreases b
  {
    match b
    case Deletes => Deletes
    case Puts(_) => b
    case Edits(n) =>
      match a
      case Deletes => Puts(Apply(b, Null))
      case Puts(v) => Puts(Apply(b, v))
      case Edits(m) =>
        Edits(map k | k in m.Keys + n.Keys ::
                if k in m && k in n then Then(m[k], n[k]) else if k in n then n[k] else m[k])
  }

  lemma {:induction false} ThenApplies(a: Effect, b: Effect, target: Value)
    ensures Apply(Then(a, b), target) == Apply(b, Apply(a, target))
    decreases b
  {
    if a.Edits? && b.Edits? {
      var m, n, both := a.entries, b.entries, Then(a, b).entries;
      var mid := Apply(a, target);
      var r, u := Apply(Edits(both), target).entries, Apply(b, mid).entries;
      forall q ensures (q in r <==> q in u) && (q in r && q in u ==> r[q] == u[q]) {
        AppliedAt(target, both, q);
        AppliedAt(mid, n, q);
        AppliedAt(target, m, q);
        if q in m && q in n { ThenApplies(m[q], n[q], Get(Base(target), q)); }
      }
      SameMaps(r, u);
    }
  }

  /** Different effects show on some mapping. */
  lemma {:induction false} EffectsDiffer(a: Effect, b: Effect) returns (t: Value)
    requires a != b && !a.Deletes? && !b.Deletes?
    ensures t.Map? && Apply(a, t) != Apply(b, t)
    decreases a
  {
    if a.Edits? && b.Edits? {
      t := EntriesDiffer(a.entries, b.entries);
    } else if a.Edits? {
      t := PutOrEdited(b.value, a.entries);
    } else if b.Edits? {
      t := PutOrEdited(a.value, b.entries);
    } else {
      t := Map(map[]);
    }
  }

  lemma {:induction false} EntriesDiffer(m: map<string, Effect>, n: map<string, Effect>) returns (t: Value)
    requires m != n
    ensures t.Map? && Apply(Edits(m), t) != Apply(Edits(n), t)
    decreases Edits(m), 0
  {
    var k :| (k in m) != (k in n) || (k in m && k in n && m[k] != n[k]);
    if k in m && k in n && !m[k].Deletes? && !n[k].Deletes? {
      var x := EffectsDiffer(m[k], n[k]);
      t := Map(map[k := x]);
    } else if (k in m && !m[k].Deletes?) || (k in n && !n[k].Deletes?) {
      t := Map(map[]);
    } else {
      t := Map(map[k := Int(1)]);
    }
    AppliedAt(t, m, k);
    AppliedAt(t, n, k);
  }

  lemma PutOrEdited(v: Value, m: map<string, Effect>) returns (t: Value)
    ensures t.Map? && Apply(Edits(m), t) != v
  {
    var z := FreshKey(Base(v).Keys + m.Keys);
    t := Map(map[z := Int(1)]);
    AppliedAt(t, m, z);
    assert z !in Base(v).Keys + m.Keys;
  }

  /** What the edits do in turn, as one effect. */
  function InTurnEffect(edits: seq<Edit>): (e: Effect)
    requires Keyed(edits)
    ensures e.Edits?
  {
    if edits == [] then Edits(map[])
    else Then(InTurnEffect(edits[..|edits| - 1]), EffectOf(Single(edits[|edits| - 1])))
  }

  lemma {:induction false} InTurnApplies(document: map<string, Value>, edits: seq<Edit>)
    requires Keyed(edits)
    ensures Apply(InTurnEffect(edits), Map(document)) == InTurn(Map(document), edits)
    decreases |edits|
  {
    if edits == [] {
      assert Apply(Edits(map[]), Map(document)).entries == document;
    } else {
      var front, last := edits[..|edits| - 1], Single(edits[|edits| - 1]);
      InTurnApplies(document, front);
      ThenApplies(InTurnEffect(front), EffectOf(last), Map(document));
      ApplyIsMerge(InTurn(Map(document), front), last);
    }
  }

  /** The one fragment does on every document what the edits do in turn, exactly when it comes to the
      same effect. */
  lemma ListComposesIff(edits: seq<Edit>)
    requires Keyed(edits)
    ensures (forall d: map<string, Value> :: Compose(d, edits)) <==>
      EffectOf(Map(Fragment(edits))) == InTurnEffect(edits)
  {
    var one, turn := EffectOf(Map(Fragment(edits))), InTurnEffect(edits);
    if one == turn {
      forall d: map<string, Value> ensures Compose(d, edits) { ComposesAt(d, edits); }
    } else {
      var t := EffectsDiffer(one, turn);
      assert t == Map(t.entries);
      ComposesAt(t.entries, edits);
    }
  }

  lemma ComposesAt(d: map<string, Value>, edits: seq<Edit>)
    requires Keyed(edits)
    ensures Compose(d, edits) <==> Apply(EffectOf(Map(Fragment(edits))), Map(d)) == Apply(InTurnEffect(edits), Map(d))
  {
    ApplyIsMerge(Map(d), Map(Fragment(edits)));
    InTurnApplies(d, edits);
  }

  // A list that composes although its second edit finds a plain value in its way: the third one covers it.
  function HealedList(): (edits: seq<Edit>)
    ensures Keyed(edits)
  {
    [Edit(["a"], Int(1)), Edit(["a", "b"], Int(2)), Edit(["a"], Int(3))]
  }

  lemma LaterEditHeals()
    ensures !EachCanNest(HealedList()) && forall d: map<string, Value> :: Compose(d, HealedList())
  {
    var edits := HealedList();
    var one := edits[..1];
    assert edits[..2] == [edits[0], edits[1]] && edits[..2][..1] == one && one[..0] == [];
    assert Fragment(one) == map["a" := Int(1)];
    assert !CanNest(Fragment(one), edits[1].keys, edits[1].value);
    HealedEffects();
    ListComposesIff(edits);
  }

  lemma OneMore(edits: seq<Edit>, e: Edit)
    requires Keyed(edits + [e]) && Keyed(edits) && e.keys != []
    ensures Fragment(edits + [e]) == NestInto(Fragment(edits), e.keys, e.value)
    ensures InTurnEffect(edits + [e]) == Then(InTurnEffect(edits), EffectOf(Single(e)))
  {
    assert (edits + [e])[..|edits|] == edits;
  }

  lemma PutEffect(k: string, v: Value)
    requires !v.Null? && !v.Map?
    ensures EffectOf(Single(Edit([k], v))) == Edits(map[k := Puts(v)])
  {
    assert Single(Edit([k], v)) == Map(map[k := v]);
    assert EffectOf(Map(map[k := v])).entries == map[k := Puts(v)];
  }

  // Putting a value under the one key an effect touches is all that is left of it.
  lemma PutOver(e: Effect, k: string, v: Value)
    requires e.Edits? && e.entries.Keys <= {k}
    ensures Then(e, Edits(map[k := Puts(v)])) == Edits(map[k := Puts(v)])
  {
    assert Then(e, Edits(map[k := Puts(v)])).entries == map[k := Puts(v)];
  }

  /** A value put last under the only key a list touches is all that is left of the list. */
  lemma LastPut(edits: seq<Edit>, k: string, v: Value)
    requires Keyed(edits) && Keyed(edits + [Edit([k], v)]) && !v.Null? && !v.Map?
    requires Fragment(edits).Keys <= {k} && InTurnEffect(edits).entries.Keys <= {k}
    ensures EffectOf(Map(Fragment(edits + [Edit([k], v)]))) == InTurnEffect(edits + [Edit([k], v)])
  {
    OneMore(edits, Edit([k], v));
    assert Fragment(edits)[k := v] == map[k := v];
    PutEffect(k, v);
    assert Single(Edit([k], v)) == Map(map[k := v]);
    PutOver(InTurnEffect(edits), k, v);
  }

  lemma HealedEffects()
    ensures EffectOf(Map(Fragment(HealedList()))) == InTurnEffect(HealedList())
  {
    var one, two := Edit(["a"], Int(1)), Edit(["a", "b"], Int(2));
    assert [one, two] + [Edit(["a"], Int(3))] == HealedList();
    HealedKeys(one, two);
    LastPut([one, two], "a", Int(3));
  }

  lemma HealedKeys(one: Edit, two: Edit)
    requires one.keys == ["a"] && two.keys == ["a", "b"] && !one.value.Null? && !one.value.Map?
    requires Keyed([one]) && Keyed([one, two])
    ensures Fragment([one, two]).Keys <= {"a"} && InTurnEffect([one, two]).entries.Keys <= {"a"}
  {
    assert [] + [one] == [one] && [one] + [two] == [one, two];
    OneMore([], one);
    OneMore([one], two);
    PutEffect("a", one.value);
    PutOver(Edits(map[]), "a", one.value);
    NestNew(two.keys, two.value);
    assert EffectOf(Single(two)).entries.Keys == {"a"};
  }
}
