/** JSON merge patch (section 2 of RFC 7386) over the raw document, and edits by path
    (gateway/config_edit.py merge_patch, _nest_into, fragment_from_paths, _unsets_have_parents). */
module Patch {
  import opened Values
  import opened Redaction

  function Base(v: Value): map<string, Value> {
    if v.Map? then v.entries else map[]
  }

  function Get(m: map<string, Value>, k: string): Value {
    if k in m then m[k] else Null
  }

  /** A mapping merges into a mapping, null deletes, anything else replaces. */
  function Merge(target: Value, patch: Value): Value
    decreases patch
  {
    if !patch.Map? then patch
    else
      var base := Base(target);
      Map(map k | k in base.Keys + patch.entries.Keys && !(k in patch.entries && patch.entries[k].Null?) ::
            if k in patch.entries then Merge(Get(base, k), patch.entries[k]) else base[k])
  }

  method MergePatch(target: Value, patch: Value) returns (out: Value)
    ensures out == Merge(target, patch)
    decreases patch
  {
    if !patch.Map? { return patch; }
    var entries := Base(target);
    var done := {};
    while done != patch.entries.Keys
      invariant done <= patch.entries.Keys
      invariant forall k :: k in entries <==>
        if k in done then !patch.entries[k].Null? else k in Base(target)
      invariant forall k :: k in entries ==>
        entries[k] == if k in done then Merge(Get(Base(target), k), patch.entries[k]) else Base(target)[k]
      decreases patch.entries.Keys - done
    {
      var key :| key in patch.entries && key !in done;
      var value := patch.entries[key];
      if value.Null? {
        entries := entries - {key};
      } else {
        var merged := MergePatch(Get(entries, key), value);
        entries := entries[key := merged];
      }
      done := done + {key};
    }
    out := Map(entries);
  }

  /** No mapping in the value, outside its lists, has a null entry. */
  predicate NoNullFields(v: Value) {
    v.Map? ==> forall k :: k in v.entries ==> !v.entries[k].Null? && NoNullFields(v.entries[k])
  }

  /** Merging the same patch again changes nothing. */
  lemma {:induction false} MergeTwice(target: Value, patch: Value)
    ensures Merge(Merge(target, patch), patch) == Merge(target, patch)
    decreases patch
  {
    if patch.Map? {
      forall k | k in patch.entries
        ensures Merge(Merge(Get(Base(target), k), patch.entries[k]), patch.entries[k]) == Merge(Get(Base(target), k),
          patch.entries[k])
      {
        MergeTwice(Get(Base(target), k), patch.entries[k]);
      }
    }
  }

  /** A value merged into nothing, or into itself, comes out as it is exactly when it deletes nothing. */
  lemma {:induction false} MergeIntoNothing(v: Value)
    ensures Merge(Null, v) == v <==> NoNullFields(v)
    ensures Merge(v, v) == v <==> NoNullFields(v)
    decreases v
  {
    if v.Map? {
      forall k | k in v.entries
        ensures Merge(Null, v.entries[k]) == v.entries[k] <==> NoNullFields(v.entries[k])
        ensures Merge(v.entries[k], v.entries[k]) == v.entries[k] <==> NoNullFields(v.entries[k])
      {
        MergeIntoNothing(v.entries[k]);
      }
      var m, n := Merge(Null, v).entries, Merge(v, v).entries;
      if NoNullFields(v) {
        assert m == v.entries && n == v.entries;
      } else {
        var k :| k in v.entries && !(!v.entries[k].Null? && NoNullFields(v.entries[k]));
        assert k !in m || m[k] != v.entries[k];
        assert k !in n || n[k] != v.entries[k];
      }
    }
  }

  /** Merging brings in no sentinel that neither side held. */
  lemma {:induction false} MergeStaysClean(target: Value, patch: Value)
    requires !HasSentinel(target) && !HasSentinel(patch)
    ensures !HasSentinel(Merge(target, patch))
    decreases patch
  {
    if patch.Map? {
      var r := Merge(target, patch).entries;
      forall k | k in r ensures !HasSentinel(r[k]) {
        if k in patch.entries { MergeStaysClean(Get(Base(target), k), patch.entries[k]); }
      }
    }
  }

  // ---- Paths ----

  /** `body` with `value` placed at the path, an explicit null included. */
  function NestInto(body: map<string, Value>, keys: seq<string>, value: Value): map<string, Value>
    requires keys != []
    decreases |keys|
  {
    if |keys| == 1 then body[keys[0] := value]
    else body[keys[0] := Map(NestInto(Base(Get(body, keys[0])), keys[1..], value))]
  }

  datatype Edit = Edit(keys: seq<string>, value: Value)

  ghost predicate Keyed(edits: seq<Edit>) {
    forall i :: 0 <= i < |edits| ==> edits[i].keys != []
  }

  // An unset is an edit with a null value.
  ghost predicate PathEdits(edits: seq<Edit>) {
    Keyed(edits) && forall i :: 0 <= i < |edits| ==> !edits[i].value.Map?
  }

  /** `fragment_from_paths`: every edit nested into one mapping, in order. */
  function Fragment(edits: seq<Edit>): map<string, Value>
    requires Keyed(edits)
  {
    if edits == [] then map[]
    else
      var last := edits[|edits| - 1];
      NestInto(Fragment(edits[..|edits| - 1]), last.keys, last.value)
  }

  method FragmentFromPaths(edits: seq<Edit>) returns (body: map<string, Value>)
    requires Keyed(edits)
    ensures body == Fragment(edits)
  {
    body := map[];
    for i := 0 to |edits|
      invariant body == Fragment(edits[..i])
    {
      assert edits[..i + 1][..i] == edits[..i];
      body := NestInto(body, edits[i].keys, edits[i].value);
    }
    assert edits[..|edits|] == edits;
  }

  function Single(e: Edit): Value
    requires e.keys != []
  {
    Map(NestInto(map[], e.keys, e.value))
  }

  /** The edits applied one merge patch at a time. */
  function InTurn(document: Value, edits: seq<Edit>): Value
    requires Keyed(edits)
  {
    if edits == [] then document
    else Merge(InTurn(document, edits[..|edits| - 1]), Single(edits[|edits| - 1]))
  }

  /** Where a walk down the mappings of `v` ends. */
  function Lookup(v: Value, keys: seq<string>): Option<Value>
    decreases |keys|
  {
    if keys == [] then Some(v)
    else if v.Map? && keys[0] in v.entries then Lookup(v.entries[keys[0]], keys[1..])
    else None
  }

  ghost predicate ProperPrefix(p: seq<string>, q: seq<string>) {
    |p| < |q| && q[..|p|] == p
  }

  /** Nothing on the way to `keys` is set to something other than a mapping. */
  ghost predicate Open(body: map<string, Value>, keys: seq<string>) {
    forall n :: 0 < n < |keys| ==> var at := Lookup(Map(body), keys[..n]); at.None? || at.value.Map?
  }

  lemma OpenBelow(body: map<string, Value>, keys: seq<string>)
    requires |keys| > 1 && Open(body, keys)
    ensures keys[0] in body ==> body[keys[0]].Map?
    ensures Open(Base(Get(body, keys[0])), keys[1..])
  {
    var next := Base(Get(body, keys[0]));
    assert keys[..1] == [keys[0]];
    if keys[0] in body {
      assert Lookup(Map(body), keys[..1]) == Lookup(body[keys[0]], []);
    }
    forall n | 0 < n < |keys[1..]| ensures var at := Lookup(Map(next), keys[1..][..n]); at.None? || at.value.Map? {
      assert keys[..n + 1][0] == keys[0] && keys[..n + 1][1..] == keys[1..][..n];
      if keys[0] in body {
        assert Lookup(Map(body), keys[..n + 1]) == Lookup(body[keys[0]], keys[1..][..n]);
      }
    }
  }

  lemma MergeAt(target: Value, p: map<string, Value>, q: string)
    ensures Merge(target, Map(p)).Map?
    ensures q in Merge(target, Map(p)).entries <==> if q in p then !p[q].Null? else q in Base(target)
    ensures q in Merge(target, Map(p)).entries ==>
      Merge(target, Map(p)).entries[q] == if q in p then Merge(Get(Base(target), q), p[q]) else Base(target)[q]
  {
  }

  lemma SameMaps(m: map<string, Value>, n: map<string, Value>)
    requires forall q :: (q in m <==> q in n) && (q in m && q in n ==> m[q] == n[q])
    ensures m == n
  {
  }

  /** Setting one more key of a patch sets that key of the result. */
  lemma MergeOneMore(target: Value, body: map<string, Value>, k: string, v: Value)
    requires !v.Null?
    ensures Merge(target, Map(body[k := v])) == Map(Base(Merge(target, Map(body)))[k := Merge(Get(Base(target), k), v)])
  {
    var m := Base(Merge(target, Map(body[k := v])));
    var n := Base(Merge(target, Map(body)))[k := Merge(Get(Base(target), k), v)];
    forall q ensures (q in m <==> q in n) && (q in m && q in n ==> m[q] == n[q]) {
      MergeAt(target, body[k := v], q);
      MergeAt(target, body, q);
    }
    SameMaps(m, n);
  }

  lemma MergeNothing(target: Value)
    ensures Merge(target, Map(map[])) == Map(Base(target))
  {
    assert Merge(target, Map(map[])).entries == Base(target);
  }

  lemma MergeOne(target: Value, k: string, v: Value)
    requires !v.Null?
    ensures Merge(target, Map(map[k := v])) == Map(Base(target)[k := Merge(Get(Base(target), k), v)])
  {
    MergeNothing(target);
    MergeOneMore(target, map[], k, v);
    assert map[][k := v] == map[k := v];
  }

  /** What a merge leaves under one key. */
  lemma GetMerged(target: Value, w: map<string, Value>, q: string)
    ensures Get(Base(Merge(target, Map(w))), q) == if q in w then Merge(Get(Base(target), q),
      w[q]) else Get(Base(target), q)
  {
  }

  // ---- One value over another ----

  /** `v` overrides `w`: a value that is no mapping overrides anything; a mapping overrides a mapping
      all of whose keys it sets, at every level. */
  ghost predicate Covers(w: Value, v: Value)
    decreases v
  {
    v.Map? ==> w.Map? && forall k :: k in w.entries ==> k in v.entries && Covers(w.entries[k], v.entries[k])
  }

  lemma {:induction false} CoveredIsMoot(target: Value, w: Value, v: Value)
    requires Covers(w, v)
    ensures Merge(Merge(target, w), v) == Merge(target, v)
    decreases v
  {
    if v.Map? {
      var m, n := Base(Merge(Merge(target, w), v)), Base(Merge(target, v));
      forall q ensures (q in m <==> q in n) && (q in m && q in n ==> m[q] == n[q]) {
        MergeAt(Merge(target, w), v.entries, q);
        MergeAt(target, v.entries, q);
        GetMerged(target, w.entries, q);
        MergeAt(target, w.entries, q);
        if q in w.entries { CoveredIsMoot(Get(Base(target), q), w.entries[q], v.entries[q]); }
      }
      SameMaps(m, n);
    }
  }

  lemma {:induction false} FreshKey(used: set<string>) returns (z: string)
    ensures forall k :: k in used ==> |k| < |z|
    decreases used
  {
    if used == {} {
      z := "";
    } else {
      var k :| k in used;
      var y := FreshKey(used - {k});
      z := if |k| < |y| then y else k + "x";
      assert forall j :: j in used && j != k ==> j in used - {k};
    }
  }

  /** What is not overridden shows on some target. */
  lemma {:induction false} UncoveredShows(w: Value, v: Value) returns (t: Value)
    requires !Covers(w, v)
    ensures t.Map? && Merge(Merge(t, w), v) != Merge(t, v)
    decreases v
  {
    if !w.Map? {
      var z := FreshKey(v.entries.Keys);
      t := Map(map[z := Int(1)]);
      MergeAt(t, v.entries, z);
      MergeAt(w, v.entries, z);
    } else {
      var k :| k in w.entries && !(k in v.entries && Covers(w.entries[k], v.entries[k]));
      if k in v.entries {
        var x := UncoveredShows(w.entries[k], v.entries[k]);
        t := Map(map[k := x]);
      } else {
        t := if w.entries[k].Null? then Map(map[k := Int(1)]) else Map(map[]);
        MergeAt(t, w.entries, k);
      }
      GetMerged(t, w.entries, k);
      MergeAt(t, v.entries, k);
      MergeAt(Merge(t, w), v.entries, k);
    }
  }

  // ---- One more path ----

  /** Nesting the edit does what merging it afterwards would. */
  ghost predicate NestsAs(target: Value, body: map<string, Value>, e: Edit)
    requires e.keys != []
  {
    Merge(target, Map(NestInto(body, e.keys, e.value))) == Merge(Merge(target, Map(body)), Single(e))
  }

  /** What the fragment holds on the way is a mapping, and what it holds at the path is overridden. */
  ghost predicate CanNest(body: map<string, Value>, keys: seq<string>, value: Value)
    requires keys != []
    decreases |keys|
  {
    keys[0] in body ==>
      if |keys| == 1 then Covers(body[keys[0]], value)
      else body[keys[0]].Map? && CanNest(body[keys[0]].entries, keys[1..], value)
  }

  lemma SetAt(target: Value, body: map<string, Value>, k: string, u: Value, v: Value)
    requires u.Null? <==> v.Null?
    ensures var x := Get(Base(target), k);
      Merge(target, Map(body[k := u])) == Merge(Merge(target, Map(body)), Map(map[k := v])) <==>
      u.Null? || Merge(x, u) == Merge(if k in body then Merge(x, body[k]) else x, v)
  {
    var m, n := Merge(target, Map(body[k := u])).entries, Merge(Merge(target, Map(body)), Map(map[k := v])).entries;
    forall q | q != k ensures (q in m <==> q in n) && (q in m && q in n ==> m[q] == n[q]) {
      SetElsewhere(target, body, k, u, v, q);
    }
    MergeAt(target, body[k := u], k);
    MergeAt(Merge(target, Map(body)), map[k := v], k);
    GetMerged(target, body, k);
    SameButOne(m, n, k);
  }

  lemma SetElsewhere(target: Value, body: map<string, Value>, k: string, u: Value, v: Value, q: string)
    requires q != k
    ensures var m, n := Merge(target, Map(body[k := u])).entries,
      Merge(Merge(target, Map(body)), Map(map[k := v])).entries;
      (q in m <==> q in n) && (q in m && q in n ==> m[q] == n[q])
  {
    MergeAt(target, body[k := u], q);
    MergeAt(target, body, q);
    MergeAt(Merge(target, Map(body)), map[k := v], q);
  }

  lemma SameButOne(m: map<string, Value>, n: map<string, Value>, k: string)
    requires forall q :: q != k ==> (q in m <==> q in n) && (q in m && q in n ==> m[q] == n[q])
    requires k in m <==> k in n
    ensures m == n <==> (k in m ==> m[k] == n[k])
  {
    if k in m ==> m[k] == n[k] { SameMaps(m, n); }
  }

  lemma NestNew(keys: seq<string>, v: Value)
    requires |keys| > 1
    ensures NestInto(map[], keys, v) == map[keys[0] := Map(NestInto(map[], keys[1..], v))]
  {
    assert Base(Get(map[], keys[0])) == map[];
  }

  /** The question for a path is the question for what lies under its first key. */
  lemma NestsBelow(target: Value, body: map<string, Value>, e: Edit)
    requires |e.keys| > 1
    ensures var k, rest := e.keys[0], Edit(e.keys[1..], e.value);
      var x := Get(Base(target), k);
      NestsAs(target, body, e) <==>
      Merge(x, Map(NestInto(Base(Get(body, k)), rest.keys, e.value))) == Merge(if k in body then Merge(x,
        body[k]) else x, Single(rest))
  {
    var rest := Edit(e.keys[1..], e.value);
    NestNew(e.keys, e.value);
    SetAt(target, body, e.keys[0], Map(NestInto(Base(Get(body, e.keys[0])), rest.keys, e.value)), Single(rest));
  }

  lemma NestsHere(target: Value, body: map<string, Value>, e: Edit)
    requires |e.keys| == 1
    ensures var x, k := Get(Base(target), e.keys[0]), e.keys[0];
      NestsAs(target, body, e) <==>
        e.value.Null? || Merge(x, e.value) == Merge(if k in body then Merge(x, body[k]) else x, e.value)
  {
    SetAt(target, body, e.keys[0], e.value, e.value);
    assert map[][e.keys[0] := e.value] == map[e.keys[0] := e.value];
  }

  lemma {:induction false} NestMerges(target: Value, body: map<string, Value>, e: Edit)
    requires e.keys != [] && CanNest(body, e.keys, e.value)
    ensures NestsAs(target, body, e)
    decreases |e.keys|
  {
    var k := e.keys[0];
    var x := Get(Base(target), k);
    if |e.keys| == 1 {
      NestsHere(target, body, e);
      if k in body { CoveredIsMoot(x, body[k], e.value); }
    } else {
      NestsBelow(target, body, e);
      if k in body { NestMerges(x, body[k].entries, Edit(e.keys[1..], e.value)); }
    }
  }

  lemma {:induction false} NestBreaks(body: map<string, Value>, e: Edit) returns (t: Value)
    requires e.keys != [] && !CanNest(body, e.keys, e.value)
    ensures t.Map? && !NestsAs(t, body, e)
    decreases |e.keys|
  {
    var k := e.keys[0];
    var x: Value;
    if |e.keys| == 1 {
      x := UncoveredShows(body[k], e.value);
      t := Map(map[k := x]);
      NestsHere(t, body, e);
    } else {
      var rest := Edit(e.keys[1..], e.value);
      if body[k].Map? {
        x := NestBreaks(body[k].entries, rest);
      } else {
        x := UncoveredShows(body[k], Single(rest));
      }
      t := Map(map[k := x]);
      NestsBelow(t, body, e);
    }
  }

  /** One more path: nesting it into the fragment does what merging it afterwards does, on every
      document, exactly when the fragment holds nothing in its way that it does not override. */
  lemma NestMergesIff(body: map<string, Value>, e: Edit)
    requires e.keys != []
    ensures (forall d: map<string, Value> :: NestsAs(Map(d), body, e)) <==> CanNest(body, e.keys, e.value)
  {
    if CanNest(body, e.keys, e.value) {
      forall d: map<string, Value> ensures NestsAs(Map(d), body, e) {
        NestMerges(Map(d), body, e);
      }
    } else {
      var t := NestBreaks(body, e);
      assert !NestsAs(Map(t.entries), body, e);
    }
  }

  lemma {:induction false} OpenCanNest(body: map<string, Value>, keys: seq<string>, value: Value)
    requires keys != [] && Open(body, keys) && !value.Map?
    ensures CanNest(body, keys, value)
    decreases |keys|
  {
    if |keys| > 1 {
      OpenBelow(body, keys);
      if keys[0] in body { OpenCanNest(body[keys[0]].entries, keys[1..], value); }
    }
  }

  /** A value that is not a mapping got where it is by an edit of exactly that path. */
  lemma {:induction false} NestLookup(body: map<string, Value>, keys: seq<string>, value: Value, q: seq<string>)
    requires keys != []
    requires var at := Lookup(Map(NestInto(body, keys, value)), q); at.Some? && !at.value.Map?
    requires q != keys && !value.Map?
    ensures Lookup(Map(body), q) == Lookup(Map(NestInto(body, keys, value)), q)
    decreases |keys|
  {
    if |keys| > 1 && q != [] && q[0] == keys[0] {
      NestLookup(Base(Get(body, keys[0])), keys[1..], value, q[1..]);
    }
  }

  lemma {:induction false} FragmentLookup(edits: seq<Edit>, q: seq<string>)
    requires PathEdits(edits)
    requires var at := Lookup(Map(Fragment(edits)), q); at.Some? && !at.value.Map?
    ensures exists j :: 0 <= j < |edits| && edits[j].keys == q
    decreases |edits|
  {
    if edits != [] {
      var n := |edits| - 1;
      if edits[n].keys != q {
        NestLookup(Fragment(edits[..n]), edits[n].keys, edits[n].value, q);
        FragmentLookup(edits[..n], q);
        var j :| 0 <= j < n && edits[..n][j].keys == q;
        assert edits[j].keys == q;
      }
    }
  }

  lemma NotSetAt(edits: seq<Edit>, q: seq<string>)
    requires PathEdits(edits) && forall j :: 0 <= j < |edits| ==> edits[j].keys != q
    ensures var at := Lookup(Map(Fragment(edits)), q); at.None? || at.value.Map?
  {
    var at := Lookup(Map(Fragment(edits)), q);
    if at.Some? && !at.value.Map? { FragmentLookup(edits, q); }
  }

  /** No path is a proper prefix of a later one. */
  ghost predicate NoneBelowEarlier(edits: seq<Edit>) {
    forall i, j :: 0 <= i < j < |edits| ==> !ProperPrefix(edits[i].keys, edits[j].keys)
  }

  /** Each edit finds nothing in the fragment so far that it does not override. */
  ghost predicate EachCanNest(edits: seq<Edit>)
    requires Keyed(edits)
  {
    forall n :: 0 <= n < |edits| ==> CanNest(Fragment(edits[..n]), edits[n].keys, edits[n].value)
  }

  /** On this document, the one fragment does what the edits do in turn. */
  ghost predicate Compose(d: map<string, Value>, edits: seq<Edit>)
    requires Keyed(edits)
  {
    Merge(Map(d), Map(Fragment(edits))) == InTurn(Map(d), edits)
  }

  /** Path edits compose: one fragment carrying every set and unset does what they do in turn. */
  lemma {:induction false} EditsCompose(document: Value, edits: seq<Edit>)
    requires document.Map? && Keyed(edits) && EachCanNest(edits)
    ensures Merge(document, Map(Fragment(edits))) == InTurn(document, edits)
    decreases |edits|
  {
    if edits != [] {
      var n := |edits| - 1;
      EachPrefix(edits, n);
      EditsCompose(document, edits[..n]);
      NestMerges(document, Fragment(edits[..n]), edits[n]);
    } else {
      assert Merge(document, Map(map[])).entries == document.entries;
    }
  }

  /** And however far one goes through the list, on every document, only then. */
  lemma EditsComposeIff(edits: seq<Edit>)
    requires Keyed(edits)
    ensures (forall n, d: map<string, Value> :: 0 <= n <= |edits| ==> Compose(d, edits[..n])) <==> EachCanNest(edits)
  {
    if EachCanNest(edits) {
      forall n, d: map<string, Value> | 0 <= n <= |edits| ensures Compose(d, edits[..n]) {
        EachPrefix(edits, n);
        EditsCompose(Map(d), edits[..n]);
      }
    } else {
      var n :| 0 <= n < |edits| && !CanNest(Fragment(edits[..n]), edits[n].keys, edits[n].value);
      var t := BreaksAt(edits, n);
      assert 0 <= n + 1 <= |edits|;
    }
  }

  lemma BreaksAt(edits: seq<Edit>, n: nat) returns (d: map<string, Value>)
    requires Keyed(edits) && n < |edits| && !CanNest(Fragment(edits[..n]), edits[n].keys, edits[n].value)
    ensures !Compose(d, edits[..n]) || !Compose(d, edits[..n + 1])
  {
    var t := NestBreaks(Fragment(edits[..n]), edits[n]);
    d := t.entries;
    assert t == Map(d);
    assert edits[..n + 1][..n] == edits[..n];
  }

  lemma EachPrefix(edits: seq<Edit>, n: nat)
    requires Keyed(edits) && EachCanNest(edits) && n <= |edits|
    ensures EachCanNest(edits[..n])
  {
    forall m | 0 <= m < n ensures CanNest(Fragment(edits[..n][..m]), edits[..n][m].keys, edits[..n][m].value) {
      assert edits[..n][..m] == edits[..m];
    }
  }

  /** Values that are no mappings compose when no path is a proper prefix of a later one. */
  lemma PlainEditsNest(edits: seq<Edit>)
    requires PathEdits(edits) && NoneBelowEarlier(edits)
    ensures EachCanNest(edits)
  {
    forall n | 0 <= n < |edits| ensures CanNest(Fragment(edits[..n]), edits[n].keys, edits[n].value) {
      var front, last := edits[..n], edits[n];
      forall m | 0 < m < |last.keys|
        ensures var at := Lookup(Map(Fragment(front)), last.keys[..m]); at.None? || at.value.Map?
      {
        forall j | 0 <= j < n ensures front[j].keys != last.keys[..m] {
          assert !ProperPrefix(edits[j].keys, edits[n].keys);
        }
        NotSetAt(front, last.keys[..m]);
      }
      OpenCanNest(Fragment(front), last.keys, last.value);
    }
  }

  function Pair(a: Edit, b: Edit): (edits: seq<Edit>)
    requires a.keys != [] && b.keys != []
    ensures Keyed(edits)
  {
    [a, b]
  }

  lemma PairUnfolds(d: map<string, Value>, a: Edit, b: Edit)
    requires a.keys != [] && b.keys != []
    ensures Compose(d, Pair(a, b)) <==> NestsAs(Map(d), NestInto(map[], a.keys, a.value), b)
  {
    assert [a, b][..1] == [a] && [a][..0] == [] && [a, b][1] == b;
    assert Fragment([a][..0]) == map[] && InTurn(Map(d), [a][..0]) == Map(d);
    assert Fragment([a]) == NestInto(map[], a.keys, a.value) && InTurn(Map(d), [a]) == Merge(Map(d), Single(a));
  }

  /** Two edits compose on every document exactly when the first puts nothing in the way of the second
      that it does not override. */
  lemma PairComposes(a: Edit, b: Edit)
    requires a.keys != [] && b.keys != []
    ensures (forall d: map<string, Value> :: Compose(d, Pair(a, b))) <==>
      CanNest(NestInto(map[], a.keys, a.value), b.keys, b.value)
  {
    var body := NestInto(map[], a.keys, a.value);
    if CanNest(body, b.keys, b.value) {
      forall d: map<string, Value> ensures Compose(d, Pair(a, b)) {
        NestMerges(Map(d), body, b);
        PairUnfolds(d, a, b);
      }
    } else {
      var t := NestBreaks(body, b);
      PairUnfolds(t.entries, a, b);
      assert !Compose(t.entries, Pair(a, b));
    }
  }

  /** For values that are no mappings: exactly when the first path is no proper prefix of the second. */
  lemma PlainPairComposes(a: Edit, b: Edit)
    requires a.keys != [] && b.keys != [] && !a.value.Map? && !b.value.Map?
    ensures (forall d: map<string, Value> :: Compose(d, Pair(a, b))) <==> !ProperPrefix(a.keys, b.keys)
  {
    PairComposes(a, b);
    PlainCanNest(a.keys, a.value, b.keys, b.value);
  }

  /** At one path: exactly when the second value overrides the first. */
  lemma SamePathComposes(a: Edit, b: Edit)
    requires a.keys == b.keys != []
    ensures (forall d: map<string, Value> :: Compose(d, Pair(a, b))) <==> Covers(a.value, b.value)
  {
    PairComposes(a, b);
    SamePathCanNest(a.keys, a.value, b.value);
  }

  lemma {:induction false} PlainCanNest(p: seq<string>, v: Value, q: seq<string>, w: Value)
    requires p != [] && q != [] && !v.Map? && !w.Map?
    ensures CanNest(NestInto(map[], p, v), q, w) <==> !ProperPrefix(p, q)
    decreases |p|
  {
    if |p| > 1 { NestNew(p, v); }
    if p[0] == q[0] {
      if |p| > 1 && |q| > 1 {
        PlainCanNest(p[1..], v, q[1..], w);
        if |p| < |q| {
          assert q[..|p|] == [q[0]] + q[1..][..|p| - 1] && p == [p[0]] + p[1..];
          assert q[..|p|][1..] == q[1..][..|p| - 1];
        }
      } else if |p| == 1 && |q| > 1 {
        assert q[..1] == p;
      }
    } else if |p| < |q| {
      assert q[..|p|][0] != p[0];
    }
  }

  lemma {:induction false} SamePathCanNest(p: seq<string>, v: Value, w: Value)
    requires p != []
    ensures CanNest(NestInto(map[], p, v), p, w) <==> Covers(v, w)
    decreases |p|
  {
    if |p| > 1 {
      NestNew(p, v);
      SamePathCanNest(p[1..], v, w);
    }
  }

  /** Setting a mapping is not a merge: two of them at one path do not compose. */
  lemma MappingsDoNotCompose()
    ensures var one, two := Edit(["a"], Map(map["x" := Int(1)])), Edit(["a"], Map(map["y" := Int(2)]));
      exists d: map<string, Value> :: !Compose(d, Pair(one, two))
  {
    var one, two := Edit(["a"], Map(map["x" := Int(1)])), Edit(["a"], Map(map["y" := Int(2)]));
    SamePathComposes(one, two);
    assert "x" in one.value.entries && "x" !in two.value.entries;
  }

  // ---- Unsets ----

  lemma SetDiffers(m: map<string, Value>, k: string, x: Value, y: Value)
    ensures m[k := x] == m[k := y] <==> x == y
  {
    assert m[k := x][k] == x && m[k := y][k] == y;
  }

  /** The document with the leaf at `keys` gone, if there is one. */
  function WithoutPath(v: Value, keys: seq<string>): Value
    requires keys != []
    decreases |keys|
  {
    if !v.Map? then v
    else if |keys| == 1 then Map(v.entries - {keys[0]})
    else if keys[0] in v.entries then Map(v.entries[keys[0] := WithoutPath(v.entries[keys[0]], keys[1..])])
    else v
  }

  // Walks to the parent; an absent one refuses the unset.
  method UnsetHasParent(document: Value, keys: seq<string>) returns (ok: bool)
    requires keys != []
    ensures ok == Lookup(document, keys[..|keys| - 1]).Some?
  {
    var parents := keys[..|keys| - 1];
    var cursor := document;
    var i := 0;
    while i < |parents|
      invariant i <= |parents|
      invariant Lookup(document, parents) == Lookup(cursor, parents[i..])
    {
      if !cursor.Map? || parents[i] !in cursor.entries { return false; }
      cursor := cursor.entries[parents[i]];
      assert parents[i..][1..] == parents[i + 1..];
      i := i + 1;
    }
    ok := true;
  }

  /** An accepted unset removes its leaf and touches nothing else exactly when the parent is a
      mapping; a parent that is a plain value is replaced by an empty one. */
  lemma {:induction false} UnsetRemoves(v: Value, keys: seq<string>)
    requires v.Map? && keys != []
    requires Lookup(v, keys[..|keys| - 1]).Some?
    ensures Merge(v, Single(Edit(keys, Null))) == WithoutPath(v, keys) <==> Lookup(v, keys[..|keys| - 1]).value.Map?
    decreases |keys|
  {
    var k := keys[0];
    if |keys| == 1 {
      var m, n := Base(Merge(v, Map(map[k := Null]))), v.entries - {k};
      forall q ensures (q in m <==> q in n) && (q in m && q in n ==> m[q] == n[q]) {
        MergeAt(v, map[k := Null], q);
      }
      SameMaps(m, n);
      assert map[][k := Null] == map[k := Null];
    } else {
      var rest := keys[1..];
      assert keys[..|keys| - 1][1..] == rest[..|rest| - 1];
      assert Lookup(v, keys[..|keys| - 1]) == Lookup(v.entries[k], rest[..|rest| - 1]);
      var below := Single(Edit(rest, Null));
      assert Single(Edit(keys, Null)) == Map(map[k := below]);
      MergeOne(v, k, below);
      SetDiffers(v.entries, k, Merge(v.entries[k], below), WithoutPath(v.entries[k], rest));
      if v.entries[k].Map? { UnsetRemoves(v.entries[k], rest); }
    }
  }

  /** An unset with no parent would have created one, which is why it is refused. */
  lemma {:induction false} UnsetWouldCreate(v: Value, keys: seq<string>)
    requires v.Map? && keys != []
    requires Lookup(v, keys[..|keys| - 1]).None?
    ensures Merge(v, Single(Edit(keys, Null))) != v
    decreases |keys|
  {
    var k, rest := keys[0], keys[1..];
    assert keys[..|keys| - 1][1..] == rest[..|rest| - 1];
    var below := Single(Edit(rest, Null));
    assert Single(Edit(keys, Null)) == Map(map[k := below]);
    MergeOne(v, k, below);
    if k in v.entries && v.entries[k].Map? {
      assert Lookup(v, keys[..|keys| - 1]) == Lookup(v.entries[k], rest[..|rest| - 1]);
      UnsetWouldCreate(v.entries[k], rest);
    }
  }
}
