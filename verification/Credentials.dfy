/** Values read from credential files, and whether an edit's report shows them (gateway/config_edit.py
    resolve_from_file, prepare_fragment, edit_document). */
module Credentials {
  import opened Values
  import opened Redaction
  import opened Patch
  import opened Fragments

  const FROM_FILE_KEY := "from_file"

  function LastSegment(key: string): string {
    if key == "" then ""
    else if key[|key| - 1] == '.' then ""
    else LastSegment(key[..|key| - 1]) + [key[|key| - 1]]
  }

  // `key` is the key the value stands under; `files` the credential files that can be read.
  predicate Resolves(v: Value, key: string, files: map<string, string>) {
    match v
    case Map(entries) =>
      if FROM_FILE_KEY in entries then
        && entries.Keys == {FROM_FILE_KEY} && entries[FROM_FILE_KEY].Str?
        && SecretKey(LastSegment(key))
        && entries[FROM_FILE_KEY].s in files
      else forall k :: k in entries ==> Resolves(entries[k], k, files)
    case List(items) => forall i :: 0 <= i < |items| ==> Resolves(items[i], key, files)
    case _ => true
  }

  function Resolved(v: Value, key: string, files: map<string, string>): Value
    requires Resolves(v, key, files)
    decreases v
  {
    match v
    case Map(entries) =>
      if FROM_FILE_KEY in entries then Str(files[entries[FROM_FILE_KEY].s])
      else Map(map k | k in entries :: Resolved(entries[k], k, files))
    case List(items) => List(seq(|items|, i requires 0 <= i < |items| => Resolved(items[i], key, files)))
    case _ => v
  }

  lemma {:induction false} LastSegmentIsSuffix(key: string)
    ensures |LastSegment(key)| <= |key| && key[|key| - |LastSegment(key)|..] == LastSegment(key)
    decreases |key|
  {
    if key != "" && key[|key| - 1] != '.' {
      LastSegmentIsSuffix(key[..|key| - 1]);
    }
  }

  lemma SecretSegment(key: string)
    requires SecretKey(LastSegment(key))
    ensures key != "" && SecretKey(key)
  {
    LastSegmentIsSuffix(key);
    var tail, low := LastSegment(key), Lower(key);
    var m :| m in SECRET_KEY_MARKERS && Contains(Lower(tail), m);
    var i :| 0 <= i <= |tail| && StandsAt(Lower(tail), i, m);
    var cut := |key| - |tail|;
    assert low[cut + i..cut + i + |m|] == Lower(tail)[i..i + |m|];
    assert StandsAt(low, cut + i, m);
  }

  // ---- The walk over fields ----

  /** A file read in the value's own place: the value is a `from_file` mapping, or a list that holds one
      at some depth of lists. */
  predicate Exposed(v: Value) {
    match v
    case Map(entries) => FROM_FILE_KEY in entries
    case List(items) => exists i :: 0 <= i < |items| && Exposed(items[i])
    case _ => false
  }

  /** Whatever the files say, the resolved values differ only beneath secret keys. That is judged by the
      key a value is shown under: the one it was resolved under, or any other if no file is exposed. */
  lemma {:induction false} ResolvedAgree(v: Value, key: string, under: string, f: map<string, string>, g: map<string,
                                         string>)
    requires Resolves(v, key, f) && Resolves(v, key, g)
    requires under == key || !Exposed(v)
    ensures AgreeModuloSecrets(Resolved(v, key, f), Resolved(v, key, g), under)
    decreases v
  {
    match v
    case Map(entries) =>
      if FROM_FILE_KEY in entries {
        SecretSegment(key);
      } else {
        forall k | k in entries ensures AgreeModuloSecrets(Resolved(entries[k], k, f), Resolved(entries[k], k, g), k) {
          ResolvedAgree(entries[k], k, k, f, g);
        }
      }
    case List(items) =>
      forall i | 0 <= i < |items|
        ensures AgreeModuloSecrets(Resolved(items[i], key, f), Resolved(items[i], key, g), under)
      {
        ResolvedAgree(items[i], key, under, f, g);
      }
    case _ =>
  }

  /** What a credential file holds never shows where the key it is read under is tested: whatever the
      files say, the resolved values redact alike. */
  lemma FileValuesAreMasked(v: Value, key: string, f: map<string, string>, g: map<string, string>)
    requires Resolves(v, key, f) && Resolves(v, key, g)
    ensures Redact(Resolved(v, key, f), key) == Redact(Resolved(v, key, g), key)
  {
    ResolvedAgree(v, key, key, f, g);
    RedactsAlike(Resolved(v, key, f), Resolved(v, key, g), key);
  }

  /** Files that hold something else at every path. */
  ghost predicate Elsewise(f: map<string, string>, g: map<string, string>) {
    forall p :: p in f && p in g ==> f[p] != g[p]
  }

  lemma {:induction false} ExposedShows(v: Value, key: string, f: map<string, string>, g: map<string, string>)
    requires Resolves(v, key, f) && Resolves(v, key, g) && Elsewise(f, g) && Exposed(v)
    ensures !AgreeModuloSecrets(Resolved(v, key, f), Resolved(v, key, g), "")
    decreases v
  {
    if v.List? {
      var i :| 0 <= i < |v.items| && Exposed(v.items[i]);
      ExposedShows(v.items[i], key, f, g);
      var a, b := Resolved(v, key, f), Resolved(v, key, g);
      assert a.items[i] == Resolved(v.items[i], key, f) && b.items[i] == Resolved(v.items[i], key, g);
    }
  }

  /** The fragment can be prepared with these files: all can be read, and no sentinel is written back. */
  predicate Readable(fragment: Value, files: map<string, string>) {
    && fragment.Map? && !HasSentinel(fragment) && Resolves(fragment, "", files)
    && !HasSentinel(Resolved(fragment, "", files))
  }

  // The sentinel is refused before any file is read, and again in what the files held.
  method PrepareFragment(fragment: Value, files: map<string, string>) returns (r: Result<Value>)
    ensures r.Ok? <==> Readable(fragment, files)
    ensures r.Ok? ==> r.value == Resolved(fragment, "", files)
  {
    if !fragment.Map? { return Refused(FragmentNotMapping); }
    if HasSentinel(fragment) { return Refused(MaskedValue); }
    if !Resolves(fragment, "", files) { return Refused(Unreadable); }
    var resolved := Resolved(fragment, "", files);
    if HasSentinel(resolved) { return Refused(MaskedValue); }
    r := Ok(resolved);
  }

  // ---- Merged into a document ----

  lemma {:induction false} AgreesWithItself(v: Value, key: string)
    ensures AgreeModuloSecrets(v, v, key)
    decreases v
  {
    match v
    case Map(entries) => forall k | k in entries ensures AgreeModuloSecrets(entries[k], entries[k],
      k) { AgreesWithItself(entries[k], k); }
    case List(items) =>
      forall i | 0 <= i < |items|
        ensures AgreeModuloSecrets(items[i], items[i], key) { AgreesWithItself(items[i], key); }
    case _ =>
  }

  lemma {:induction false} AgreeUnderAnyKey(v: Value, w: Value, key: string)
    requires AgreeModuloSecrets(v, w, "")
    ensures AgreeModuloSecrets(v, w, key)
    decreases v
  {
    if v.List? && w.List? {
      forall i | 0 <= i < |v.items| ensures AgreeModuloSecrets(v.items[i], w.items[i], key) {
        AgreeUnderAnyKey(v.items[i], w.items[i], key);
      }
    }
  }

  /** Merging keeps the agreement, whatever the files say. */
  lemma {:induction false} MergedAgree(t: Value, u: Value, v: Value, key: string, under: string, f: map<string,
                                       string>, g: map<string, string>)
    requires Resolves(v, key, f) && Resolves(v, key, g)
    requires under == key || !Exposed(v)
    requires AgreeModuloSecrets(t, u, under)
    ensures AgreeModuloSecrets(Merge(t, Resolved(v, key, f)), Merge(u, Resolved(v, key, g)), under)
    decreases v
  {
    if under == "" || !SecretKey(under) {
      if v.Map? && FROM_FILE_KEY !in v.entries {
        var m, n := Merge(t, Resolved(v, key, f)).entries, Merge(u, Resolved(v, key, g)).entries;
        forall q ensures (q in m <==> q in n) && (q in m && q in n ==> AgreeModuloSecrets(m[q], n[q], q)) {
          EntryMerged(t, v.entries, key, f, q);
          EntryMerged(u, v.entries, key, g, q);
          BasesAgree(t, u, under, q);
          if q in v.entries { MergedAgree(Get(Base(t), q), Get(Base(u), q), v.entries[q], q, q, f, g); }
        }
        MapsAgree(m, n, under);
      } else {
        ResolvedAgree(v, key, under, f, g);
      }
    }
  }

  lemma BasesAgree(t: Value, u: Value, under: string, q: string)
    requires AgreeModuloSecrets(t, u, under) && (under == "" || !SecretKey(under))
    ensures (q in Base(t) <==> q in Base(u)) && AgreeModuloSecrets(Get(Base(t), q), Get(Base(u), q), q)
  {
    if t.Map? && u.Map? && q in t.entries { assert q in u.entries; }
  }

  lemma MapsAgree(m: map<string, Value>, n: map<string, Value>, under: string)
    requires forall q :: (q in m <==> q in n) && (q in m && q in n ==> AgreeModuloSecrets(m[q], n[q], q))
    ensures AgreeModuloSecrets(Map(m), Map(n), under)
  {
    assert m.Keys == n.Keys;
  }

  lemma EntryMerged(t: Value, entries: map<string, Value>, key: string, f: map<string, string>, q: string)
    requires FROM_FILE_KEY !in entries && Resolves(Map(entries), key, f)
    ensures var m := Merge(t, Resolved(Map(entries), key, f)).entries;
      && (q in m <==> if q in entries then !entries[q].Null? else q in Base(t))
      && (q in m ==> m[q] == if q in entries then Merge(Get(Base(t), q), Resolved(entries[q], q, f)) else Base(t)[q])
  {
    MergeAt(t, Resolved(Map(entries), key, f).entries, q);
  }

  // ---- Named lists ----

  /** The lists are shown alike, item by item. */
  ghost predicate ListsAgree(a: seq<Value>, b: seq<Value>) {
    |a| == |b| && forall i :: 0 <= i < |a| ==> AgreeModuloSecrets(a[i], b[i], "")
  }

  lemma PlainKeys()
    ensures !SecretKey(NAME_KEY) && !SecretKey(OP_KEY) && !SecretKey("")
  {
  }

  /** Both are the same text, or neither is a text, and both or neither are null. */
  predicate ReadAlike(x: Value, y: Value) {
    (x.Str? || y.Str? ==> x == y) && (x.Null? <==> y.Null?)
  }

  // A field that is shown reads the same on both sides.
  lemma SameField(v: Value, w: Value, k: string)
    requires v.Map? && w.Map? && AgreeModuloSecrets(v, w, "") && !SecretKey(k)
    ensures ReadAlike(Get(v.entries, k), Get(w.entries, k))
  {
    if k in v.entries { assert AgreeModuloSecrets(v.entries[k], w.entries[k], k); }
  }

  lemma SameName(v: Value, w: Value)
    requires AgreeModuloSecrets(v, w, "")
    ensures forall n :: Named(v, n) <==> Named(w, n)
  {
    PlainKeys();
    if v.Map? && w.Map? { SameField(v, w, NAME_KEY); }
  }

  lemma SameIndex(a: seq<Value>, b: seq<Value>, name: string)
    requires ListsAgree(a, b)
    ensures IndexOf(a, name) == IndexOf(b, name)
  {
    forall i | 0 <= i < |a| ensures Named(a[i], name) <==> Named(b[i], name) { SameName(a[i], b[i]); }
  }

  /** Without its `op`, a resolved item is the resolved rest. */
  lemma RestResolved(entries: map<string, Value>, key: string, f: map<string, string>)
    requires FROM_FILE_KEY !in entries && Resolves(Map(entries), key, f)
    ensures Resolves(Map(entries - {OP_KEY}), key, f)
    ensures Resolved(Map(entries), key, f).Map?
    ensures Map(Resolved(Map(entries), key, f).entries - {OP_KEY}) == Resolved(Map(entries - {OP_KEY}), key, f)
  {
    var rest := entries - {OP_KEY};
    forall k | k in rest ensures Resolves(rest[k], k, f) && rest[k] == entries[k] {
      assert k in entries;
    }
    SameMaps(Resolved(Map(entries), key, f).entries - {OP_KEY}, Resolved(Map(rest), key, f).entries);
  }

  /** Both are refused alike, or both are accepted and the lists still agree. */
  ghost predicate SameOutcome(r: Result<seq<Value>>, q: Result<seq<Value>>) {
    if r.Ok? then q.Ok? && ListsAgree(r.value, q.value) else r == q
  }

  lemma ItemAgrees(a: seq<Value>, b: seq<Value>, index: nat, item: Value, key: string, f: map<string, string>,
                   g: map<string, string>)
    requires ListsAgree(a, b) && Resolves(item, key, f) && Resolves(item, key, g)
    ensures SameOutcome(MergeItem(a, index, Resolved(item, key, f)), MergeItem(b, index, Resolved(item, key, g)))
  {
    if item.Map? && FROM_FILE_KEY !in item.entries {
      var v, w := Resolved(item, key, f), Resolved(item, key, g);
      ResolvedAgree(item, key, "", f, g);
      RestResolved(item.entries, key, f);
      RestResolved(item.entries, key, g);
      SameIndex(a, b, ItemName(v));
      RestAgrees(a, b, Map(item.entries - {OP_KEY}), key, IndexOf(a, ItemName(v)), f, g);
      PlainKeys();
      SameField(v, w, NAME_KEY);
      SameField(v, w, OP_KEY);
      ItemOutcome(a, b, index, v, w);
    }
  }

  lemma ItemOutcome(a: seq<Value>, b: seq<Value>, index: nat, v: Value, w: Value)
    requires v.Map? && w.Map?
    requires ReadAlike(Get(v.entries, NAME_KEY), Get(w.entries, NAME_KEY)) &&
      ReadAlike(Get(v.entries, OP_KEY), Get(w.entries, OP_KEY))
    requires IndexOf(a, ItemName(v)) == IndexOf(b, ItemName(v))
    requires RestKept(a, b, Map(v.entries - {OP_KEY}), Map(w.entries - {OP_KEY}), IndexOf(a, ItemName(v)))
    ensures SameOutcome(MergeItem(a, index, v), MergeItem(b, index, w))
  {
    if Get(v.entries, NAME_KEY).Str? && Get(v.entries, NAME_KEY).s != "" {
      var op, at := Get(v.entries, OP_KEY), IndexOf(a, ItemName(v));
      var rv, rw := Map(v.entries - {OP_KEY}), Map(w.entries - {OP_KEY});
      if op.Null? {
        assert MergeItem(a, index, v) == Ok(if at.None? then a + [rv] else a[at.value := Merge(a[at.value], rv)]);
        assert MergeItem(b, index, w) == Ok(if at.None? then b + [rw] else b[at.value := Merge(b[at.value], rw)]);
      } else if op == Str("add") {
        assert at.None? ==> MergeItem(a, index, v) == Ok(a + [rv]) && MergeItem(b, index, w) == Ok(b + [rw]);
      } else if op == Str("remove") {
        assert at.Some? && rv.entries.Keys == {NAME_KEY} ==>
          MergeItem(a, index, v) == Ok(a[..at.value] + a[at.value + 1..]) &&
            MergeItem(b, index, w) == Ok(b[..at.value] + b[at.value + 1..]);
      }
    }
  }

  /** The three things an accepted item may do to the list keep the agreement. */
  ghost predicate RestKept(a: seq<Value>, b: seq<Value>, v: Value, w: Value, at: Option<nat>) {
    && (at.Some? ==> at.value < |a| && at.value < |b|)
    && v.Map? && w.Map? && v.entries.Keys == w.entries.Keys
    && ListsAgree(a + [v], b + [w])
    && (at.Some? ==> ListsAgree(a[..at.value] + a[at.value + 1..], b[..at.value] + b[at.value + 1..]))
    && (at.Some? ==> ListsAgree(a[at.value := Merge(a[at.value], v)], b[at.value := Merge(b[at.value], w)]))
  }

  lemma RestAgrees(a: seq<Value>, b: seq<Value>, rest: Value, key: string, at: Option<nat>, f: map<string, string>,
                   g: map<string, string>)
    requires ListsAgree(a, b) && Resolves(rest, key, f) && Resolves(rest, key, g) && rest.Map? && !Exposed(rest)
    requires at.Some? ==> at.value < |a|
    ensures RestKept(a, b, Resolved(rest, key, f), Resolved(rest, key, g), at)
  {
    ResolvedAgree(rest, key, "", f, g);
    if at.Some? { MergedAgree(a[at.value], b[at.value], rest, key, "", f, g); }
  }

  function ResolvedItems(items: seq<Value>, key: string, files: map<string, string>): (r: seq<Value>)
    requires Resolves(List(items), key, files)
    ensures |r| == |items| && List(r) == Resolved(List(items), key, files)
  {
    Resolved(List(items), key, files).items
  }

  lemma {:induction false} ItemsAgree(a: seq<Value>, b: seq<Value>, items: seq<Value>, from: nat, key: string,
                                      f: map<string, string>, g: map<string, string>)
    requires ListsAgree(a, b) && Resolves(List(items), key, f) && Resolves(List(items), key, g) && from <= |items|
    ensures SameOutcome(MergeItems(a, ResolvedItems(items, key, f), from),
      MergeItems(b, ResolvedItems(items, key, g), from))
    decreases |items| - from
  {
    if from < |items| {
      var v, w := ResolvedItems(items, key, f), ResolvedItems(items, key, g);
      assert Resolves(items[from], key, f) && Resolves(items[from], key, g);
      ItemAgrees(a, b, from, items[from], key, f, g);
      var r, q := MergeItem(a, from, v[from]), MergeItem(b, from, w[from]);
      if r.Ok? { ItemsAgree(r.value, q.value, items, from + 1, key, f, g); }
    }
  }

  lemma NamedListAgrees(existing: Value, items: seq<Value>, key: string, f: map<string, string>, g: map<string, string>)
    requires Resolves(List(items), key, f) && Resolves(List(items), key, g)
    ensures SameOutcome(NamedListMerged(existing, ResolvedItems(items, key, f)),
      NamedListMerged(existing, ResolvedItems(items, key, g)))
  {
    var list := if existing.List? then existing.items else [];
    forall i | 0 <= i < |list| ensures AgreeModuloSecrets(list[i], list[i], "") { AgreesWithItself(list[i], ""); }
    ItemsAgree(list, list, items, 0, key, f, g);
  }

  // ---- What an edit reports ----

  /** What an edit with this fragment reports: the masked document, valid or not; none if the fragment
      does not apply. */
  function Report(document: map<string, Value>, fragment: Value, files: map<string, string>): Option<map<string, Value>>
    requires Readable(fragment, files)
  {
    var resolved := Resolved(fragment, "", files);
    if Accepted(document, resolved) then Some(RedactedDocument(Patched(document, resolved))) else None
  }

  /** An agent, template or preset is itself read from a file, under a name that counts as a credential
      key there and as a plain name in the report. */
  predicate ExposedEntity(fragment: map<string, Value>, block: string, name: string) {
    && block in RAW_NAMED_BLOCKS && block in fragment && fragment[block].Map?
    && name in fragment[block].entries && Exposed(fragment[block].entries[name])
  }

  ghost predicate ExposesFile(fragment: map<string, Value>) {
    exists block, name :: ExposedEntity(fragment, block, name)
  }

  lemma TopLevel(fragment: Value, f: map<string, string>)
    requires Readable(fragment, f)
    ensures FROM_FILE_KEY !in fragment.entries
    ensures var r := Resolved(fragment, "", f);
      && r.Map? && r.entries.Keys == fragment.entries.Keys && ListBlocks(r.entries) == ListBlocks(fragment.entries)
      && forall k :: k in r.entries ==>
        Resolves(fragment.entries[k], k, f) && r.entries[k] == Resolved(fragment.entries[k], k, f)
  {
    PlainKeys();
  }

  function At(m: map<string, Value>, q: string): Option<Value> {
    if q in m then Some(m[q]) else None
  }

  /** One key of a patched document. */
  function PatchedKey(document: map<string, Value>, fragment: Value, q: string): Option<Value>
    requires Accepted(document, fragment)
  {
    if q in ListBlocks(fragment.entries) then Some(BlockMerged(document, q, fragment.entries[q].items))
    else if q !in fragment.entries then At(document, q)
    else if fragment.entries[q].Null? then None
    else Some(Merge(Get(document, q), fragment.entries[q]))
  }

  lemma PatchedAt(document: map<string, Value>, fragment: Value, q: string)
    requires Accepted(document, fragment)
    ensures At(Patched(document, fragment), q) == PatchedKey(document, fragment, q)
  {
    MergeAt(Map(document), fragment.entries - ListBlocks(fragment.entries), q);
  }

  lemma ListAgrees(document: map<string, Value>, fragment: Value, block: string, f: map<string, string>, g: map<string,
                   string>)
    requires Readable(fragment, f) && Readable(fragment, g) && block in ListBlocks(fragment.entries)
    ensures var v, w := Resolved(fragment, "", f).entries, Resolved(fragment, "", g).entries;
      && block in v && block in w && v[block].List? && w[block].List? && |v[block].items| == |w[block].items|
      && SameOutcome(NamedListMerged(Get(document, block), v[block].items),
        NamedListMerged(Get(document, block), w[block].items))
  {
    TopLevel(fragment, f);
    TopLevel(fragment, g);
    NamedListAgrees(Get(document, block), fragment.entries[block].items, block, f, g);
  }

  /** Whether a fragment applies does not depend on what its files hold. */
  lemma AcceptedAlike(document: map<string, Value>, fragment: Value, f: map<string, string>, g: map<string, string>)
    requires Readable(fragment, f) && Readable(fragment, g)
    requires Accepted(document, Resolved(fragment, "", f))
    ensures Accepted(document, Resolved(fragment, "", g))
  {
    TopLevel(fragment, f);
    TopLevel(fragment, g);
    var v, w := Resolved(fragment, "", f).entries, Resolved(fragment, "", g).entries;
    forall block | block in ListBlocks(w)
      ensures w[block].items != [] && NamedListMerged(Get(document, block), w[block].items).Ok?
    {
      ListAgrees(document, fragment, block, f, g);
      assert block in ListBlocks(v);
    }
  }

  lemma EntityShownAlike(t: Value, entities: map<string, Value>, block: string, f: map<string, string>, g: map<string,
                         string>, q: string)
    requires Resolves(Map(entities), block, f) && Resolves(Map(entities), block, g) && FROM_FILE_KEY !in entities
    requires q in entities ==> !Exposed(entities[q])
    ensures var m, n := Merge(t, Resolved(Map(entities), block, f)).entries,
      Merge(t, Resolved(Map(entities), block, g)).entries;
      (q in m <==> q in n) && (q in m && q in n ==> AgreeModuloSecrets(m[q], n[q], ""))
  {
    EntryMerged(t, entities, block, f, q);
    EntryMerged(t, entities, block, g, q);
    AgreesWithItself(Get(Base(t), q), "");
    if q in entities { MergedAgree(Get(Base(t), q), Get(Base(t), q), entities[q], q, "", f, g); }
  }

  /** Two blocks of named entities, entity by entity. */
  lemma EntitiesAlike(m: map<string, Value>, n: map<string, Value>, block: string)
    requires block in RAW_NAMED_BLOCKS
    requires forall q :: (q in m <==> q in n) && (q in m && q in n ==> AgreeModuloSecrets(m[q], n[q], ""))
    ensures BlocksAgree(block, Map(m), Map(n))
  {
    assert m.Keys == n.Keys;
  }

  lemma NamedBlockShownAlike(t: Value, entities: map<string, Value>, block: string, f: map<string, string>,
                             g: map<string, string>)
    requires Resolves(Map(entities), block, f) && Resolves(Map(entities), block, g) && FROM_FILE_KEY !in entities
    requires block in RAW_NAMED_BLOCKS && forall n :: n in entities ==> !Exposed(entities[n])
    ensures BlocksAgree(block, Merge(t, Resolved(Map(entities), block, f)), Merge(t, Resolved(Map(entities), block, g)))
  {
    var m, n := Merge(t, Resolved(Map(entities), block, f)).entries,
      Merge(t, Resolved(Map(entities), block, g)).entries;
    forall q ensures (q in m <==> q in n) && (q in m && q in n ==> AgreeModuloSecrets(m[q], n[q], "")) {
      EntityShownAlike(t, entities, block, f, g, q);
    }
    EntitiesAlike(m, n, block);
  }

  /** One block of the report, where no entity of it is exposed. */
  lemma BlockShownAlike(t: Value, v: Value, block: string, f: map<string, string>, g: map<string, string>)
    requires Resolves(v, block, f) && Resolves(v, block, g)
    requires block in RAW_NAMED_BLOCKS && v.Map? ==> forall n :: n in v.entries ==> !Exposed(v.entries[n])
    ensures BlocksAgree(block, Merge(t, Resolved(v, block, f)), Merge(t, Resolved(v, block, g)))
  {
    if block in RAW_NAMED_BLOCKS && v.Map? && FROM_FILE_KEY !in v.entries {
      NamedBlockShownAlike(t, v.entries, block, f, g);
    } else {
      AgreesWithItself(t, block);
      MergedAgree(t, t, v, block, block, f, g);
    }
  }

  /** The same key, shown alike or absent from both. */
  ghost predicate KeyAlike(q: string, x: Option<Value>, y: Option<Value>) {
    (x.Some? <==> y.Some?) && (x.Some? && y.Some? ==> BlocksAgree(q, x.value, y.value))
  }

  lemma OldKeyAlike(x: Option<Value>, q: string)
    ensures KeyAlike(q, x, x)
  {
    if x.Some? {
      AgreesWithItself(x.value, q);
      AgreesWithItself(x.value, "");
      if x.value.Map? {
        forall n | n in x.value.entries ensures AgreeModuloSecrets(x.value.entries[n], x.value.entries[n], "") {
          AgreesWithItself(x.value.entries[n], "");
        }
      }
    }
  }

  lemma ListKeyAlike(document: map<string, Value>, fragment: Value, f: map<string, string>, g: map<string, string>,
                     q: string)
    requires Readable(fragment, f) && Readable(fragment, g) && q in ListBlocks(fragment.entries)
    requires Accepted(document, Resolved(fragment, "", f)) && Accepted(document, Resolved(fragment, "", g))
    ensures KeyAlike(q, PatchedKey(document, Resolved(fragment, "", f), q),
      PatchedKey(document, Resolved(fragment, "", g), q))
  {
    TopLevel(fragment, f);
    TopLevel(fragment, g);
    ListAgrees(document, fragment, q, f, g);
    var m, n := PatchedKey(document, Resolved(fragment, "", f), q).value,
      PatchedKey(document, Resolved(fragment, "", g), q).value;
    assert ListsAgree(m.items, n.items);
    AgreeUnderAnyKey(m, n, q);
  }

  lemma ReportedAlike(document: map<string, Value>, fragment: Value, f: map<string, string>, g: map<string, string>,
                      q: string)
    requires Readable(fragment, f) && Readable(fragment, g) && !ExposesFile(fragment.entries)
    requires Accepted(document, Resolved(fragment, "", f)) && Accepted(document, Resolved(fragment, "", g))
    ensures KeyAlike(q, PatchedKey(document, Resolved(fragment, "", f), q),
      PatchedKey(document, Resolved(fragment, "", g), q))
  {
    TopLevel(fragment, f);
    TopLevel(fragment, g);
    if q in ListBlocks(fragment.entries) {
      ListKeyAlike(document, fragment, f, g, q);
    } else if q in fragment.entries {
      if q in RAW_NAMED_BLOCKS && fragment.entries[q].Map? {
        forall n | n in fragment.entries[q].entries ensures !Exposed(fragment.entries[q].entries[n]) {
          assert !ExposedEntity(fragment.entries, q, n);
        }
      }
      BlockShownAlike(Get(document, q), fragment.entries[q], q, f, g);
    } else {
      OldKeyAlike(At(document, q), q);
    }
  }

  // ---- Files that give themselves away ----

  function AllHolding(files: map<string, string>, text: string): map<string, string> {
    map p | p in files :: text
  }

  lemma {:induction false} StillResolves(v: Value, key: string, f: map<string, string>, text: string)
    requires Resolves(v, key, f) && !HasSentinel(v) && text != REDACTED
    ensures Resolves(v, key, AllHolding(f, text)) && !HasSentinel(Resolved(v, key, AllHolding(f, text)))
    decreases v
  {
    var h := AllHolding(f, text);
    match v
    case Map(entries) =>
      if FROM_FILE_KEY !in entries {
        forall k | k in entries ensures Resolves(entries[k], k, h) && !HasSentinel(Resolved(entries[k], k, h)) {
          StillResolves(entries[k], k, f, text);
        }
      }
    case List(items) =>
      forall i | 0 <= i < |items| ensures Resolves(items[i], key, h) && !HasSentinel(Resolved(items[i], key, h)) {
        StillResolves(items[i], key, f, text);
      }
    case _ =>
  }

  lemma BlockGivesAway(t: Value, v: Value, block: string, f: map<string, string>, g: map<string, string>, name: string)
    requires Resolves(v, block, f) && Resolves(v, block, g) && Elsewise(f, g)
    requires block in RAW_NAMED_BLOCKS && v.Map? && name in v.entries && Exposed(v.entries[name])
    ensures !BlocksAgree(block, Merge(t, Resolved(v, block, f)), Merge(t, Resolved(v, block, g)))
  {
    var x := v.entries[name];
    assert FROM_FILE_KEY !in v.entries;
    EntryMerged(t, v.entries, block, f, name);
    EntryMerged(t, v.entries, block, g, name);
    ExposedShows(x, name, f, g);
    assert !Resolved(x, name, f).Map? && !Resolved(x, name, g).Map?;
  }

  lemma KeyGivesAway(document: map<string, Value>, fragment: Value, f: map<string, string>, g: map<string, string>,
                     block: string, name: string)
    requires Readable(fragment, f) && Readable(fragment, g) && Elsewise(f, g)
    requires ExposedEntity(fragment.entries, block, name)
    requires Accepted(document, Resolved(fragment, "", f)) && Accepted(document, Resolved(fragment, "", g))
    ensures var x, y := PatchedKey(document, Resolved(fragment, "", f), block),
      PatchedKey(document, Resolved(fragment, "", g), block);
      x.Some? && y.Some? && !BlocksAgree(block, x.value, y.value)
  {
    TopLevel(fragment, f);
    TopLevel(fragment, g);
    BlockGivesAway(Get(document, block), fragment.entries[block], block, f, g, name);
  }

  lemma ReportGivesAway(document: map<string, Value>, fragment: Value, f: map<string, string>, g: map<string, string>,
                        block: string, name: string)
    requires Readable(fragment, f) && Readable(fragment, g) && Elsewise(f, g)
    requires ExposedEntity(fragment.entries, block, name)
    requires Accepted(document, Resolved(fragment, "", f)) && Accepted(document, Resolved(fragment, "", g))
    ensures Report(document, fragment, f) != Report(document, fragment, g)
  {
    KeyGivesAway(document, fragment, f, g, block, name);
    var v, w := Resolved(fragment, "", f), Resolved(fragment, "", g);
    PatchedAt(document, v, block);
    PatchedAt(document, w, block);
    ShownApart(Patched(document, v), Patched(document, w), block);
  }

  lemma ShownApart(m: map<string, Value>, n: map<string, Value>, block: string)
    requires block in m && block in n && !BlocksAgree(block, m[block], n[block])
    ensures RedactedDocument(m) != RedactedDocument(n)
  {
    DocumentsAlike(m, n);
  }

  /** What an edit reports is the same whatever its credential files hold, exactly when no agent,
      template or preset of the fragment is itself read from a file. */
  lemma ReportShowsNoFile(document: map<string, Value>, fragment: Value, files: map<string, string>)
    requires Readable(fragment, files) && Accepted(document, Resolved(fragment, "", files))
    ensures (forall f, g :: Readable(fragment, f) && Readable(fragment, g) ==>
      Report(document, fragment, f) == Report(document, fragment, g))
      <==> !ExposesFile(fragment.entries)
  {
    if block, name :| ExposedEntity(fragment.entries, block, name) {
      var f, g := AllHolding(files, "a"), AllHolding(files, "b");
      StillResolves(fragment, "", files, "a");
      StillResolves(fragment, "", files, "b");
      AcceptedAlike(document, fragment, files, f);
      AcceptedAlike(document, fragment, files, g);
      ReportGivesAway(document, fragment, f, g, block, name);
    } else {
      forall f, g | Readable(fragment, f) && Readable(fragment, g)
        ensures Report(document, fragment, f) == Report(document, fragment, g) {
        AcceptedAlike(document, fragment, files, f);
        AcceptedAlike(document, fragment, files, g);
        SameReport(document, fragment, f, g);
      }
    }
  }

  const TOKEN_BOT := Map(map["agents" := Map(map["token-bot" := Map(map[FROM_FILE_KEY := Str("/run/cred")])])])

  // An agent whose name counts as a credential key: the report of setting it from a file is the file.
  lemma TokenBotShown(f: map<string, string>)
    requires "/run/cred" in f && f["/run/cred"] != REDACTED
    ensures Readable(TOKEN_BOT, f)
    ensures Report(map[], TOKEN_BOT, f) == Some(map["agents" := Map(map["token-bot" := Str(f["/run/cred"])])])
  {
    TokenBotReadable(f);
    var entity := Str(f["/run/cred"]);
    var block := Map(map["token-bot" := entity]);
    var v := Map(map["agents" := block]);
    MergeOne(Null, "token-bot", entity);
    OneBlockPatched("agents", block);
    EntityTextShown("agents", "token-bot", entity);
  }

  // An entity that is a text is shown, whatever its name.
  lemma EntityTextShown(block: string, name: string, entity: Value)
    requires block in RAW_NAMED_BLOCKS && entity.Str?
    ensures RedactedDocument(map[block := Map(map[name := entity])]) == map[block := Map(map[name := entity])]
  {
    assert RedactBlock(block, Map(map[name := entity])).entries == map[name := entity];
  }

  lemma OneBlockPatched(key: string, block: Value)
    requires block.Map? && Merge(Null, block) == block && !HasSentinel(block)
    ensures Accepted(map[], Map(map[key := block])) && Patched(map[], Map(map[key := block])) == map[key := block]
  {
    OneSentinel(key, block);
    var v: map<string, Value> := map[key := block];
    assert ListBlocks(v) == {} && v - {} == v;
    MergeOne(Map(map[]), key, block);
  }

  lemma TokenBotReadable(f: map<string, string>)
    requires "/run/cred" in f && f["/run/cred"] != REDACTED
    ensures Readable(TOKEN_BOT, f)
    ensures Resolved(TOKEN_BOT, "", f) == Map(map["agents" := Map(map["token-bot" := Str(f["/run/cred"])])])
  {
    NoDots("token-bot");
    assert StandsAt(Lower("token-bot"), 0, "token") && SECRET_KEY_MARKERS[1] == "token";
    assert Contains(Lower("token-bot"), "token") && SecretKey("token-bot");
    var entity := Map(map[FROM_FILE_KEY := Str("/run/cred")]);
    assert Resolves(entity, "token-bot", f) && Resolved(entity, "token-bot", f) == Str(f["/run/cred"]);
    assert !HasSentinel(entity) by { OneSentinel(FROM_FILE_KEY, Str("/run/cred")); }
    OneEntry("token-bot", entity, "agents", f);
    OneEntry("agents", Map(map["token-bot" := entity]), "", f);
  }

  lemma OneSentinel(k: string, v: Value)
    ensures HasSentinel(Map(map[k := v])) <==> HasSentinel(v)
  {
    assert map[k := v][k] == v;
  }

  lemma OneEntry(k: string, v: Value, key: string, f: map<string, string>)
    requires k != FROM_FILE_KEY && Resolves(v, k, f) && !HasSentinel(v) && !HasSentinel(Resolved(v, k, f))
    ensures Resolves(Map(map[k := v]), key, f)
    ensures Resolved(Map(map[k := v]), key, f) == Map(map[k := Resolved(v, k, f)])
    ensures !HasSentinel(Map(map[k := v])) && !HasSentinel(Resolved(Map(map[k := v]), key, f))
  {
    OneSentinel(k, v);
    OneSentinel(k, Resolved(v, k, f));
    assert Resolved(Map(map[k := v]), key, f).entries == map[k := Resolved(v, k, f)];
  }

  lemma {:induction false} NoDots(key: string)
    requires forall i :: 0 <= i < |key| ==> key[i] != '.'
    ensures LastSegment(key) == key
    decreases |key|
  {
    if key != "" { NoDots(key[..|key| - 1]); }
  }

  lemma SameReport(document: map<string, Value>, fragment: Value, f: map<string, string>, g: map<string, string>)
    requires Readable(fragment, f) && Readable(fragment, g) && !ExposesFile(fragment.entries)
    requires Accepted(document, Resolved(fragment, "", f)) && Accepted(document, Resolved(fragment, "", g))
    ensures Report(document, fragment, f) == Report(document, fragment, g)
  {
    var m, n := Patched(document, Resolved(fragment, "", f)), Patched(document, Resolved(fragment, "", g));
    forall q ensures KeyAlike(q, At(m, q), At(n, q)) {
      PatchedAt(document, Resolved(fragment, "", f), q);
      PatchedAt(document, Resolved(fragment, "", g), q);
      ReportedAlike(document, fragment, f, g, q);
    }
    assert forall q :: (q in m <==> q in n) && (q in m && q in n ==> BlocksAgree(q, m[q], n[q])) by {
      forall q ensures (q in m <==> q in n) && (q in m && q in n ==> BlocksAgree(q, m[q], n[q])) {
        assert KeyAlike(q, At(m, q), At(n, q));
      }
    }
    assert m.Keys == n.Keys;
    DocumentsAlike(m, n);
  }
}
