/** Fragments: named lists merged by name, values read from files, and the one door every write
    passes (gateway/config_edit.py merge_named_list, apply_fragment, resolve_from_file, prepare_fragment). */
module Fragments {
  import opened Values
  import opened Redaction
  import opened Patch

  const NAMED_LISTS := {"connectors", "watcher_rules"}
  const OP_KEY := "op"
  const NAME_KEY := "name"

  datatype EditError =
    | NotAList
    | NotAMapping(index: nat)
    | NeedsName(index: nat)
    | AlreadyExists(name: string)
    | CarriesFields(name: string)
    | NoEntry(name: string)
    | UnknownOp(name: string)
    | FragmentNotMapping
    | MaskedValue
    | EmptyList(block: string)
    | BadFromFile
    | NotACredentialKey
    | Unreadable

  datatype Result<+T> = Ok(value: T) | Refused(error: EditError)

  // ---- Lists of named entries ----

  predicate Named(entry: Value, name: string) {
    entry.Map? && Get(entry.entries, NAME_KEY) == Str(name)
  }

  function IndexOf(list: seq<Value>, name: string): (at: Option<nat>)
    ensures at.Some? ==> at.value < |list| && Named(list[at.value], name) && forall j :: 0 <= j < at.value ==>
      !Named(list[j], name)
    ensures at.None? ==> forall j :: 0 <= j < |list| ==> !Named(list[j], name)
  {
    if list == [] then None
    else if Named(list[0], name) then Some(0)
    else match IndexOf(list[1..], name)
      case None => None
      case Some(i) => Some(i + 1)
  }

  method FindEntry(list: seq<Value>, name: string) returns (at: Option<nat>)
    ensures at == IndexOf(list, name)
  {
    for i := 0 to |list|
      invariant forall j :: 0 <= j < i ==> !Named(list[j], name)
    {
      if Named(list[i], name) { return Some(i); }
    }
    at := None;
  }

  /** One item of a fragment's list, merged into `list`. */
  function MergeItem(list: seq<Value>, index: nat, item: Value): Result<seq<Value>> {
    if !item.Map? then Refused(NotAMapping(index))
    else if !Get(item.entries, NAME_KEY).Str? || Get(item.entries, NAME_KEY).s == "" then Refused(NeedsName(index))
    else
      var name := item.entries[NAME_KEY].s;
      var entry := item.entries - {OP_KEY};
      var at := IndexOf(list, name);
      match Get(item.entries, OP_KEY)
      case Null =>
        if at.None? then Ok(list + [Map(entry)]) else Ok(list[at.value := Merge(list[at.value], Map(entry))])
      case Str("add") =>
        if at.Some? then Refused(AlreadyExists(name)) else Ok(list + [Map(entry)])
      case Str("remove") =>
        if entry.Keys != {NAME_KEY} then Refused(CarriesFields(name))
        else if at.None? then Refused(NoEntry(name))
        else Ok(list[..at.value] + list[at.value + 1..])
      case _ => Refused(UnknownOp(name))
  }

  function MergeItems(list: seq<Value>, items: seq<Value>, from: nat): Result<seq<Value>>
    requires from <= |items|
    decreases |items| - from
  {
    if from == |items| then Ok(list)
    else match MergeItem(list, from, items[from])
      case Refused(e) => Refused(e)
      case Ok(next) => MergeItems(next, items, from + 1)
  }

  function NamedListMerged(existing: Value, items: seq<Value>): Result<seq<Value>> {
    match existing
    case Null => MergeItems([], items, 0)
    case List(list) => MergeItems(list, items, 0)
    case _ => Refused(NotAList)
  }

  method MergeNamedList(existing: Value, items: seq<Value>) returns (r: Result<seq<Value>>)
    ensures r == NamedListMerged(existing, items)
  {
    if !existing.Null? && !existing.List? { return Refused(NotAList); }
    var out := if existing.Null? then [] else existing.items;
    for i := 0 to |items|
      invariant MergeItems(out, items, i) == NamedListMerged(existing, items)
    {
      var step := MergeOneItem(out, i, items[i]);
      if step.Refused? { return Refused(step.error); }
      out := step.value;
    }
    r := Ok(out);
  }

  method MergeOneItem(list: seq<Value>, index: nat, item: Value) returns (r: Result<seq<Value>>)
    ensures r == MergeItem(list, index, item)
  {
    if !item.Map? { return Refused(NotAMapping(index)); }
    var n := Get(item.entries, NAME_KEY);
    if !n.Str? || n.s == "" { return Refused(NeedsName(index)); }
    var op := Get(item.entries, OP_KEY);
    var entry := item.entries - {OP_KEY};
    var at := FindEntry(list, n.s);
    if op.Null? {
      if at.None? {
        r := Ok(list + [Map(entry)]);
      } else {
        var merged := MergePatch(list[at.value], Map(entry));
        r := Ok(list[at.value := merged]);
      }
    } else if op == Str("add") {
      if at.Some? { return Refused(AlreadyExists(n.s)); }
      r := Ok(list + [Map(entry)]);
    } else if op == Str("remove") {
      if entry.Keys != {NAME_KEY} { return Refused(CarriesFields(n.s)); }
      if at.None? { return Refused(NoEntry(n.s)); }
      r := Ok(list[..at.value] + list[at.value + 1..]);
    } else {
      r := Refused(UnknownOp(n.s));
    }
  }

  // ---- What a named list keeps ----

  function ItemName(item: Value): string {
    if item.Map? && Get(item.entries, NAME_KEY).Str? then item.entries[NAME_KEY].s else ""
  }

  function ItemNames(items: seq<Value>, from: nat): set<string>
    requires from <= |items|
  {
    set i | from <= i < |items| :: ItemName(items[i])
  }

  ghost predicate NamedIn(entry: Value, names: set<string>) {
    exists n :: n in names && Named(entry, n)
  }

  /** The entries no name of `names` addresses, in order. */
  ghost function Others(list: seq<Value>, names: set<string>): seq<Value> {
    if list == [] then []
    else (if NamedIn(list[0], names) then [] else [list[0]]) + Others(list[1..], names)
  }

  lemma {:induction false} OthersAppend(a: seq<Value>, b: seq<Value>, names: set<string>)
    ensures Others(a + b, names) == Others(a, names) + Others(b, names)
    decreases |a|
  {
    if a == [] {
      assert a + b == b;
    } else {
      assert (a + b)[1..] == a[1..] + b;
      OthersAppend(a[1..], b, names);
    }
  }

  lemma OthersOne(list: seq<Value>, i: nat, middle: seq<Value>, names: set<string>)
    requires i < |list| && NamedIn(list[i], names)
    requires forall e :: e in middle ==> NamedIn(e, names)
    requires |middle| <= 1
    ensures Others(list[..i] + middle + list[i + 1..], names) == Others(list, names)
  {
    assert list == list[..i] + [list[i]] + list[i + 1..];
    OthersAppend(list[..i] + middle, list[i + 1..], names);
    OthersAppend(list[..i], middle, names);
    OthersAppend(list[..i] + [list[i]], list[i + 1..], names);
    OthersAppend(list[..i], [list[i]], names);
    if |middle| == 1 { assert middle == [middle[0]] && middle[0] in middle; }
  }

  lemma MergeKeepsName(target: Value, entry: map<string, Value>, name: string)
    requires Get(entry, NAME_KEY) == Str(name)
    ensures Named(Merge(target, Map(entry)), name)
  {
    MergeAt(target, entry, NAME_KEY);
  }

  /** The entry a fragment's item leaves still answers to the item's name. */
  lemma ItemKeepsOthers(list: seq<Value>, index: nat, item: Value, names: set<string>)
    requires MergeItem(list, index, item).Ok? && ItemName(item) in names
    ensures Others(MergeItem(list, index, item).value, names) == Others(list, names)
  {
    var name, entry, at := ItemName(item), item.entries - {OP_KEY}, IndexOf(list, ItemName(item));
    assert Named(Map(entry), name);
    if at.None? {
      OthersAppend(list, [Map(entry)], names);
    } else {
      MergeKeepsName(list[at.value], entry, name);
      var merged := Merge(list[at.value], Map(entry));
      OthersOne(list, at.value, [merged], names);
      OthersOne(list, at.value, [], names);
      assert list[at.value := merged] == list[..at.value] + [merged] + list[at.value + 1..];
      assert list[..at.value] + [] + list[at.value + 1..] == list[..at.value] + list[at.value + 1..];
    }
  }

  /** Entries a fragment does not name keep their content and their order. */
  lemma {:induction false} ItemsKeepOthers(list: seq<Value>, items: seq<Value>, from: nat, names: set<string>)
    requires from <= |items| && MergeItems(list, items, from).Ok?
    requires ItemNames(items, from) <= names
    ensures Others(MergeItems(list, items, from).value, names) == Others(list, names)
    decreases |items| - from
  {
    if from < |items| {
      assert ItemName(items[from]) in ItemNames(items, from);
      assert ItemNames(items, from + 1) <= ItemNames(items, from);
      ItemKeepsOthers(list, from, items[from], names);
      ItemsKeepOthers(MergeItem(list, from, items[from]).value, items, from + 1, names);
    }
  }

  /** The entry a name stands for. */
  function EntryOf(list: seq<Value>, name: string): Option<Value> {
    match IndexOf(list, name)
    case None => None
    case Some(i) => Some(list[i])
  }

  ghost predicate NamesDistinct(list: seq<Value>) {
    forall i, j, n :: 0 <= i < j < |list| && Named(list[i], n) ==> !Named(list[j], n)
  }

  lemma EntryAt(list: seq<Value>, i: nat, name: string)
    requires NamesDistinct(list) && i < |list| && Named(list[i], name)
    ensures IndexOf(list, name) == Some(i) && EntryOf(list, name) == Some(list[i])
  {
  }

  /** What an item means: its own name's entry is created, merged into or removed, and every other
      name stands for what it stood for. */
  lemma ItemMeans(list: seq<Value>, index: nat, item: Value)
    requires NamesDistinct(list) && MergeItem(list, index, item).Ok?
    ensures NamesDistinct(MergeItem(list, index, item).value)
    ensures EntryOf(MergeItem(list, index, item).value, ItemName(item)) ==
      if Get(item.entries, OP_KEY) == Str("remove") then None
      else if EntryOf(list, ItemName(item)).None? then Some(Map(item.entries - {OP_KEY}))
      else Some(Merge(EntryOf(list, ItemName(item)).value, Map(item.entries - {OP_KEY})))
    ensures forall n :: n != ItemName(item) ==> EntryOf(MergeItem(list, index, item).value, n) == EntryOf(list, n)
  {
    var name, entry, at := ItemName(item), item.entries - {OP_KEY}, IndexOf(list, ItemName(item));
    var out := MergeItem(list, index, item).value;
    assert Named(Map(entry), name);
    if at.None? {
      Appended(list, Map(entry), name);
    } else if Get(item.entries, OP_KEY) == Str("remove") {
      Removed(list, at.value, name);
    } else {
      MergeKeepsName(list[at.value], entry, name);
      Updated(list, at.value, Merge(list[at.value], Map(entry)), name);
    }
  }

  /** The item names an entry, if only one that is not there. */
  ghost predicate NamesSomething(item: Value) {
    item.Map? && exists n :: n != "" && Named(item, n)
  }

  function OpOf(item: Value): Value {
    if item.Map? then Get(item.entries, OP_KEY) else Null
  }

  lemma NamesAndNothingElse(entries: map<string, Value>)
    requires NAME_KEY in entries
    ensures (entries - {OP_KEY}).Keys == {NAME_KEY} <==> forall k :: k in entries ==> k == NAME_KEY || k == OP_KEY
  {
    var rest := (entries - {OP_KEY}).Keys;
    assert forall k :: k in rest <==> k in entries && k != OP_KEY;
    assert NAME_KEY in rest;
  }

  /** When an item is accepted: it names an entry and merges, or adds one that was not there, or is
      nothing but the removal of one that is. */
  lemma ItemAccepted(list: seq<Value>, index: nat, item: Value)
    ensures MergeItem(list, index, item).Ok? <==>
      && NamesSomething(item)
      && (|| OpOf(item) == Null
          || (OpOf(item) == Str("add") && EntryOf(list, ItemName(item)).None?)
          || (EntryOf(list, ItemName(item)).Some?
              && item == Map(map[NAME_KEY := Str(ItemName(item)), OP_KEY := Str("remove")])))
  {
    if item.Map? && Get(item.entries, NAME_KEY).Str? {
      assert Named(item, ItemName(item));
      NamesAndNothingElse(item.entries);
      var plain := map[NAME_KEY := Str(ItemName(item)), OP_KEY := Str("remove")];
      if OpOf(item) == Str("remove") && forall k :: k in item.entries ==> k == NAME_KEY || k == OP_KEY {
        assert item.entries.Keys == plain.Keys;
        assert item.entries == plain;
      }
    }
  }

  /** And the complaint about one that is not: the first of these that applies. */
  lemma ItemRefused(list: seq<Value>, index: nat, item: Value)
    requires MergeItem(list, index, item).Refused?
    ensures MergeItem(list, index, item).error ==
      if !item.Map? then NotAMapping(index)
      else if !NamesSomething(item) then NeedsName(index)
      else if OpOf(item) !in {Str("add"), Str("remove")} then UnknownOp(ItemName(item))
      else if OpOf(item) == Str("add") then AlreadyExists(ItemName(item))
      else if exists k :: k in item.entries && k != NAME_KEY && k != OP_KEY then CarriesFields(ItemName(item))
      else NoEntry(ItemName(item))
  {
    if item.Map? && Get(item.entries, NAME_KEY).Str? {
      assert Named(item, ItemName(item));
      NamesAndNothingElse(item.entries);
    }
  }

  lemma Appended(list: seq<Value>, e: Value, name: string)
    requires NamesDistinct(list) && IndexOf(list, name).None? && Named(e, name)
    ensures NamesDistinct(list + [e]) && EntryOf(list + [e], name) == Some(e)
    ensures forall n :: n != name ==> EntryOf(list + [e], n) == EntryOf(list, n)
  {
    var out := list + [e];
    EntryAt(out, |list|, name);
    forall n | n != name ensures EntryOf(out, n) == EntryOf(list, n) {
      if IndexOf(list, n).Some? { EntryAt(out, IndexOf(list, n).value, n); }
    }
  }

  lemma Updated(list: seq<Value>, i: nat, e: Value, name: string)
    requires NamesDistinct(list) && IndexOf(list, name) == Some(i) && Named(e, name)
    ensures NamesDistinct(list[i := e]) && EntryOf(list[i := e], name) == Some(e)
    ensures forall n :: n != name ==> EntryOf(list[i := e], n) == EntryOf(list, n)
  {
    var out := list[i := e];
    assert NamesDistinct(out);
    EntryAt(out, i, name);
    forall n | n != name ensures EntryOf(out, n) == EntryOf(list, n) {
      if IndexOf(list, n).Some? { EntryAt(out, IndexOf(list, n).value, n); }
      if IndexOf(out, n).Some? { EntryAt(list, IndexOf(out, n).value, n); }
    }
  }

  function Dropped(list: seq<Value>, i: nat): seq<Value>
    requires i < |list|
  {
    list[..i] + list[i + 1..]
  }

  lemma DroppedAt(list: seq<Value>, i: nat, j: nat)
    requires i < |list| && j < |list| - 1
    ensures Dropped(list, i)[j] == if j < i then list[j] else list[j + 1]
  {
  }

  lemma DroppedDistinct(list: seq<Value>, i: nat)
    requires NamesDistinct(list) && i < |list|
    ensures NamesDistinct(Dropped(list, i))
  {
    var out := Dropped(list, i);
    forall j, k, n | 0 <= j < k < |out| && Named(out[j], n) ensures !Named(out[k], n) {
      DroppedAt(list, i, j);
      DroppedAt(list, i, k);
    }
  }

  lemma Removed(list: seq<Value>, i: nat, name: string)
    requires NamesDistinct(list) && IndexOf(list, name) == Some(i)
    ensures NamesDistinct(Dropped(list, i)) && EntryOf(Dropped(list, i), name) == None
    ensures forall n :: n != name ==> EntryOf(Dropped(list, i), n) == EntryOf(list, n)
  {
    DroppedDistinct(list, i);
    if IndexOf(Dropped(list, i), name).Some? {
      DroppedAt(list, i, IndexOf(Dropped(list, i), name).value);
    }
    forall n | n != name ensures EntryOf(Dropped(list, i), n) == EntryOf(list, n) {
      RemovedOther(list, i, n);
    }
  }

  lemma RemovedOther(list: seq<Value>, i: nat, n: string)
    requires NamesDistinct(list) && i < |list| && !Named(list[i], n)
    ensures EntryOf(Dropped(list, i), n) == EntryOf(list, n)
  {
    DroppedDistinct(list, i);
    var out := Dropped(list, i);
    if IndexOf(list, n).Some? {
      var k := IndexOf(list, n).value;
      DroppedAt(list, i, if k < i then k else k - 1);
      EntryAt(out, if k < i then k else k - 1, n);
    } else if IndexOf(out, n).Some? {
      DroppedAt(list, i, IndexOf(out, n).value);
    }
  }

  lemma IndexAtEnd(list: seq<Value>, e: Value, name: string)
    requires IndexOf(list, name).None? && Named(e, name)
    ensures IndexOf(list + [e], name) == Some(|list|)
  {
    var out := list + [e];
    assert Named(out[|list|], name);
    assert forall j :: 0 <= j < |list| ==> out[j] == list[j];
  }

  /** An added entry can be taken out again: the list is what it was. */
  lemma AddThenRemove(list: seq<Value>, name: string, fields: map<string, Value>)
    requires name != "" && IndexOf(list, name).None?
    ensures var add := Map(fields[NAME_KEY := Str(name)][OP_KEY := Str("add")]);
      var remove := Map(map[NAME_KEY := Str(name), OP_KEY := Str("remove")]);
      MergeItems(list, [add, remove], 0) == Ok(list)
  {
    var add := Map(fields[NAME_KEY := Str(name)][OP_KEY := Str("add")]);
    var remove := Map(map[NAME_KEY := Str(name), OP_KEY := Str("remove")]);
    var e := Map(add.entries - {OP_KEY});
    assert MergeItem(list, 0, add) == Ok(list + [e]);
    RemoveLast(list, e, name);
    TwoItems(list, add, remove);
  }

  lemma TwoItems(list: seq<Value>, first: Value, second: Value)
    requires MergeItem(list, 0, first).Ok?
    ensures MergeItems(list, [first, second], 0) == MergeItem(MergeItem(list, 0, first).value, 1, second)
  {
    var items := [first, second];
    var one := MergeItem(list, 0, first).value;
    assert MergeItems(list, items, 0) == MergeItems(one, items, 1);
    if MergeItem(one, 1, second).Ok? {
      assert MergeItems(one, items, 1) == MergeItems(MergeItem(one, 1, second).value, items, 2);
    }
  }

  lemma RemoveLast(list: seq<Value>, e: Value, name: string)
    requires name != "" && IndexOf(list, name).None? && Named(e, name)
    ensures MergeItem(list + [e], 1, Map(map[NAME_KEY := Str(name), OP_KEY := Str("remove")])) == Ok(list)
  {
    var remove := map[NAME_KEY := Str(name), OP_KEY := Str("remove")];
    IndexAtEnd(list, e, name);
    assert (remove - {OP_KEY}).Keys == {NAME_KEY};
    assert (list + [e])[..|list|] + (list + [e])[|list| + 1..] == list;
  }

  /** Merging one plain item twice changes nothing more, exactly when the name was there already or
      the item deletes nothing: a new entry is appended as written, nulls and all. */
  lemma PlainItemTwice(list: seq<Value>, item: Value)
    requires item.Map? && OP_KEY !in item.entries && ItemName(item) != ""
    ensures MergeItem(list, 0, item).Ok?
    ensures MergeItem(MergeItem(list, 0, item).value, 0, item) == MergeItem(list, 0, item)
      <==> IndexOf(list, ItemName(item)).Some? || NoNullFields(item)
  {
    assert item.entries - {OP_KEY} == item.entries;
    if IndexOf(list, ItemName(item)).Some? {
      PresentTwice(list, item);
    } else {
      AbsentTwice(list, item);
    }
  }

  lemma IndexAfterUpdate(list: seq<Value>, i: nat, e: Value, name: string)
    requires IndexOf(list, name) == Some(i) && Named(e, name)
    ensures IndexOf(list[i := e], name) == Some(i)
  {
    var out := list[i := e];
    assert Named(out[i], name) && forall j :: 0 <= j < i ==> out[j] == list[j];
  }

  lemma PresentTwice(list: seq<Value>, item: Value)
    requires item.Map? && OP_KEY !in item.entries && item.entries - {OP_KEY} == item.entries && ItemName(item) != ""
    requires IndexOf(list, ItemName(item)).Some?
    ensures MergeItem(list, 0, item).Ok?
    ensures MergeItem(MergeItem(list, 0, item).value, 0, item) == MergeItem(list, 0, item)
  {
    var i, name := IndexOf(list, ItemName(item)).value, ItemName(item);
    var e := Merge(list[i], item);
    MergeKeepsName(list[i], item.entries, name);
    IndexAfterUpdate(list, i, e, name);
    MergeTwice(list[i], item);
    assert list[i := e][i := e] == list[i := e];
  }

  lemma AbsentTwice(list: seq<Value>, item: Value)
    requires item.Map? && OP_KEY !in item.entries && item.entries - {OP_KEY} == item.entries && ItemName(item) != ""
    requires IndexOf(list, ItemName(item)).None?
    ensures MergeItem(list, 0, item).Ok?
    ensures MergeItem(MergeItem(list, 0, item).value, 0, item) == MergeItem(list, 0, item) <==> NoNullFields(item)
  {
    var out := list + [item];
    assert Named(item, ItemName(item));
    IndexAtEnd(list, item, ItemName(item));
    MergeIntoNothing(item);
    var again := out[|list| := Merge(item, item)];
    assert again[|list|] == Merge(item, item) && out[|list|] == item;
    if Merge(item, item) == item { assert again == out; }
  }

  // ---- The one door ----

  function ListBlocks(fragment: map<string, Value>): set<string> {
    set k | k in NAMED_LISTS && k in fragment && fragment[k].List?
  }

  /** Why a fragment may be refused. */
  predicate Complains(document: map<string, Value>, fragment: Value, error: EditError) {
    if !fragment.Map? then error == FragmentNotMapping
    else if HasSentinel(fragment) then error == MaskedValue
    else exists b :: b in ListBlocks(fragment.entries) && BlockComplains(document, b, fragment.entries[b].items, error)
  }

  predicate BlockComplains(document: map<string, Value>, block: string, items: seq<Value>, error: EditError) {
    if items == [] then error == EmptyList(block)
    else NamedListMerged(Get(document, block), items) == Refused(error)
  }

  predicate Accepted(document: map<string, Value>, fragment: Value) {
    && fragment.Map? && !HasSentinel(fragment)
    && forall block :: block in ListBlocks(fragment.entries) ==>
         fragment.entries[block].items != [] && NamedListMerged(Get(document, block), fragment.entries[block].items).Ok?
  }

  /** The document an accepted fragment leaves: its named lists merged by name, the rest merged as a patch. */
  function Patched(document: map<string, Value>, fragment: Value): map<string, Value>
    requires Accepted(document, fragment)
  {
    var lists := ListBlocks(fragment.entries);
    var merged := Base(Merge(Map(document), Map(fragment.entries - lists)));
    map k | k in merged.Keys + lists :: if k in lists then BlockMerged(document, k,
      fragment.entries[k].items) else merged[k]
  }

  function BlockMerged(document: map<string, Value>, block: string, items: seq<Value>): Value
    requires NamedListMerged(Get(document, block), items).Ok?
  {
    List(NamedListMerged(Get(document, block), items).value)
  }

  method ApplyFragment(document: map<string, Value>, fragment: Value) returns (r: Result<map<string, Value>>)
    ensures r.Ok? <==> Accepted(document, fragment)
    ensures r.Ok? ==> r.value == Patched(document, fragment)
    ensures r.Refused? ==> Complains(document, fragment, r.error)
  {
    if !fragment.Map? { return Refused(FragmentNotMapping); }
    if HasSentinel(fragment) { return Refused(MaskedValue); }
    r := ApplyClean(document, fragment);
  }

  method ApplyClean(document: map<string, Value>, fragment: Value) returns (r: Result<map<string, Value>>)
    requires fragment.Map? && !HasSentinel(fragment)
    ensures r.Ok? <==> Accepted(document, fragment)
    ensures r.Ok? ==> r.value == Patched(document, fragment)
    ensures r.Refused? ==>
      exists b :: b in ListBlocks(fragment.entries) && BlockComplains(document, b, fragment.entries[b].items, r.error)
  {
    var lists := ListBlocks(fragment.entries);
    var refused, block := NoneEmpty(fragment.entries, lists);
    if refused { return Refused(EmptyList(block)); }
    var patched := MergePatch(Map(document), Map(fragment.entries - lists));
    r := MergeBlocks(document, fragment.entries, lists, patched.entries);
    if r.Ok? { IsPatched(document, fragment, patched.entries, r.value); }
  }

  // What the loop over the lists leaves is the patched document.
  lemma IsPatched(document: map<string, Value>, fragment: Value, patched: map<string, Value>, out: map<string, Value>)
    requires Accepted(document, fragment)
    requires patched == Base(Merge(Map(document), Map(fragment.entries - ListBlocks(fragment.entries))))
    requires out.Keys == patched.Keys + ListBlocks(fragment.entries)
    requires forall k :: k in out ==>
      out[k] == if k in ListBlocks(fragment.entries) then BlockMerged(document, k,
        fragment.entries[k].items) else patched[k]
    ensures out == Patched(document, fragment)
  {
  }

  method MergeBlocks(document: map<string, Value>, fragment: map<string, Value>, lists: set<string>,
                     patched: map<string, Value>)
    returns (r: Result<map<string, Value>>)
    requires forall b :: b in lists ==> b in fragment && fragment[b].List?
    ensures r.Ok? <==> forall b :: b in lists ==> NamedListMerged(Get(document, b), fragment[b].items).Ok?
    ensures r.Ok? ==> r.value.Keys == patched.Keys + lists
    ensures r.Ok? ==> forall k :: k in r.value ==>
      r.value[k] == if k in lists then BlockMerged(document, k, fragment[k].items) else patched[k]
    ensures r.Refused? ==>
      exists b :: b in lists && NamedListMerged(Get(document, b), fragment[b].items) == Refused(r.error)
  {
    var merged := patched;
    var done := {};
    while done != lists
      invariant done <= lists
      invariant merged.Keys == patched.Keys + done
      invariant forall b :: b in done ==> NamedListMerged(Get(document, b), fragment[b].items).Ok?
      invariant forall k :: k in merged ==>
        merged[k] == if k in done then BlockMerged(document, k, fragment[k].items) else patched[k]
      decreases lists - done
    {
      var b :| b in lists && b !in done;
      var list := MergeNamedList(Get(document, b), fragment[b].items);
      if list.Refused? { return Refused(list.error); }
      merged := merged[b := List(list.value)];
      done := done + {b};
    }
    r := Ok(merged);
  }

  method NoneEmpty(fragment: map<string, Value>, lists: set<string>) returns (refused: bool, block: string)
    requires forall b :: b in lists ==> b in fragment && fragment[b].List?
    ensures refused ==> block in lists && fragment[block].items == []
    ensures !refused ==> forall b :: b in lists ==> fragment[b].items != []
  {
    refused, block := false, "";
    var done := {};
    while done != lists
      invariant done <= lists
      invariant forall b :: b in done ==> fragment[b].items != []
      decreases lists - done
    {
      var b :| b in lists && b !in done;
      if fragment[b].items == [] { return true, b; }
      done := done + {b};
    }
  }

  /** A block the fragment does not name is left as it is. */
  lemma OtherBlocksStay(document: map<string, Value>, fragment: Value, k: string)
    requires Accepted(document, fragment) && k !in fragment.entries
    ensures k in Patched(document, fragment) <==> k in document
    ensures k in document ==> Patched(document, fragment)[k] == document[k]
  {
    MergeAt(Map(document), fragment.entries - ListBlocks(fragment.entries), k);
  }

  ghost predicate CleanList(list: seq<Value>) {
    forall i :: 0 <= i < |list| ==> !HasSentinel(list[i])
  }

  lemma EntryIsClean(item: Value)
    requires item.Map? && !HasSentinel(item)
    ensures !HasSentinel(Map(item.entries - {OP_KEY}))
  {
    assert forall k :: k in item.entries - {OP_KEY} ==> (item.entries - {OP_KEY})[k] == item.entries[k];
  }

  lemma ItemStaysClean(list: seq<Value>, index: nat, item: Value)
    requires CleanList(list) && !HasSentinel(item) && MergeItem(list, index, item).Ok?
    ensures CleanList(MergeItem(list, index, item).value)
  {
    var e, at := Map(item.entries - {OP_KEY}), IndexOf(list, ItemName(item));
    EntryIsClean(item);
    ItemResults(list, index, item);
    if at.Some? {
      MergeStaysClean(list[at.value], e);
      UpdatesStayClean(list, at.value, Merge(list[at.value], e));
    } else {
      AppendStaysClean(list, e);
    }
  }

  // What an item that is accepted can leave.
  lemma ItemResults(list: seq<Value>, index: nat, item: Value)
    requires MergeItem(list, index, item).Ok?
    ensures item.Map?
    ensures var at, e, r := IndexOf(list, ItemName(item)), Map(item.entries - {OP_KEY}),
      MergeItem(list, index, item).value;
      if at.None? then r == list + [e]
      else r == list[at.value := Merge(list[at.value], e)] || r == list[..at.value] + list[at.value + 1..]
  {
  }

  lemma AppendStaysClean(list: seq<Value>, e: Value)
    requires CleanList(list) && !HasSentinel(e)
    ensures CleanList(list + [e])
  {
  }

  lemma UpdatesStayClean(list: seq<Value>, i: nat, e: Value)
    requires CleanList(list) && i < |list| && !HasSentinel(e)
    ensures CleanList(list[i := e]) && CleanList(list[..i] + list[i + 1..])
  {
  }

  lemma {:induction false} ItemsStayClean(list: seq<Value>, items: seq<Value>, from: nat)
    requires from <= |items| && CleanList(list) && CleanList(items) && MergeItems(list, items, from).Ok?
    ensures CleanList(MergeItems(list, items, from).value)
    decreases |items| - from
  {
    if from < |items| {
      ItemStaysClean(list, from, items[from]);
      ItemsStayClean(MergeItem(list, from, items[from]).value, items, from + 1);
    }
  }

  /** A document without the sentinel never gains one through an accepted fragment. */
  lemma PatchedStaysClean(document: map<string, Value>, fragment: Value)
    requires Accepted(document, fragment) && !HasSentinel(Map(document))
    ensures !HasSentinel(Map(Patched(document, fragment)))
  {
    var lists := ListBlocks(fragment.entries);
    var rest := fragment.entries - lists;
    assert forall k :: k in rest ==> rest[k] == fragment.entries[k] && !HasSentinel(rest[k]);
    MergeStaysClean(Map(document), Map(rest));
    var out := Patched(document, fragment);
    forall k | k in out ensures !HasSentinel(out[k]) {
      if k in lists {
        BlockStaysClean(Get(document, k), fragment.entries[k]);
      } else {
        assert k in Base(Merge(Map(document), Map(rest)));
      }
    }
  }

  lemma BlockStaysClean(existing: Value, block: Value)
    requires block.List? && !HasSentinel(existing) && !HasSentinel(block)
    requires NamedListMerged(existing, block.items).Ok?
    ensures !HasSentinel(List(NamedListMerged(existing, block.items).value))
  {
    var list := if existing.List? then existing.items else [];
    assert CleanList(list) && CleanList(block.items);
    ItemsStayClean(list, block.items, 0);
  }

  /** A view that masked anything is refused, whatever document it is applied to. */
  lemma MaskedViewRefused(shown: map<string, Value>, document: map<string, Value>)
    requires exists k :: k in shown && BlockHoldsSecret(k, shown[k])
    ensures !Accepted(document, Map(RedactedDocument(shown)))
  {
    DocumentLeavesSentinel(shown);
  }

  // ---- Path edits addressed to one entry ----

  // `--entry`: the selector and the edits, as one item of the block's list.
  function EntryItem(name: string, body: map<string, Value>): Value {
    Map(body[NAME_KEY := Str(name)])
  }

  lemma SelectorIsNoChange(entry: Value, name: string, body: map<string, Value>)
    requires Named(entry, name) && NAME_KEY !in body
    ensures Merge(entry, EntryItem(name, body)) == Merge(entry, Map(body))
  {
    MergeOneMore(entry, body, NAME_KEY, Str(name));
    MergeAt(entry, body, NAME_KEY);
    assert Base(Merge(entry, Map(body)))[NAME_KEY := Str(name)] == Base(Merge(entry, Map(body)));
  }

  /** The item does what its edits do in turn to the entry it addresses, and nothing to the others. */
  ghost predicate EditsEntry(list: seq<Value>, name: string, edits: seq<Edit>)
    requires Keyed(edits) && EntryOf(list, name).Some?
  {
    var r := MergeItem(list, 0, EntryItem(name, Fragment(edits)));
    && r.Ok?
    && EntryOf(r.value, name) == Some(InTurn(EntryOf(list, name).value, edits))
    && (forall n :: n != name ==> EntryOf(r.value, n) == EntryOf(list, n))
  }

  /** Edits by path do to the entry they address exactly what they would do one at a time, and
      nothing to any other entry, exactly when none of them sets `op` for good, or they only unset an
      `op` the entry does not have: the fragment takes that key for its own word. */
  lemma EntryEdits(list: seq<Value>, name: string, edits: seq<Edit>)
    requires name != "" && NamesDistinct(list) && EntryOf(list, name).Some?
    requires Keyed(edits) && EachCanNest(edits)
    requires NAME_KEY !in Fragment(edits)
    ensures EditsEntry(list, name, edits) <==>
      || OP_KEY !in Fragment(edits)
      || (Fragment(edits)[OP_KEY].Null? && OP_KEY !in EntryOf(list, name).value.entries)
  {
    var body, entry := Fragment(edits), EntryOf(list, name).value;
    var item := EntryItem(name, body);
    assert ItemName(item) == name;
    EditsCompose(entry, edits);
    SelectorIsNoChange(entry, name, body);
    if OP_KEY !in body {
      assert item.entries - {OP_KEY} == item.entries;
      ItemMeans(list, 0, item);
    } else if body[OP_KEY].Null? {
      ItemMeans(list, 0, item);
      OpUnset(entry, item.entries);
    } else if MergeItem(list, 0, item).Ok? {
      ItemMeans(list, 0, item);
    }
  }

  /** Leaving a deletion out of a patch changes the result exactly when there was something to delete. */
  lemma OpUnset(entry: Value, patch: map<string, Value>)
    requires entry.Map? && OP_KEY in patch && patch[OP_KEY].Null?
    ensures Merge(entry, Map(patch - {OP_KEY})) == Merge(entry, Map(patch)) <==> OP_KEY !in entry.entries
  {
    var m, n := Base(Merge(entry, Map(patch - {OP_KEY}))), Base(Merge(entry, Map(patch)));
    MergeAt(entry, patch - {OP_KEY}, OP_KEY);
    MergeAt(entry, patch, OP_KEY);
    if OP_KEY !in entry.entries {
      forall q ensures (q in m <==> q in n) && (q in m && q in n ==> m[q] == n[q]) {
        MergeAt(entry, patch - {OP_KEY}, q);
        MergeAt(entry, patch, q);
      }
      SameMaps(m, n);
    }
  }

  /** Setting `op` on an addressed entry is read as the fragment's own word: this one removes it. */
  lemma OpPathRemoves(list: seq<Value>, name: string)
    requires name != "" && NamesDistinct(list) && EntryOf(list, name).Some?
    ensures var r := MergeItem(list, 0, EntryItem(name, Fragment([Edit([OP_KEY], Str("remove"))])));
      r.Ok? && EntryOf(r.value, name) == None
  {
    var edits := [Edit([OP_KEY], Str("remove"))];
    assert edits[..0] == [];
    assert Fragment(edits) == map[OP_KEY := Str("remove")];
    var item := EntryItem(name, Fragment(edits));
    assert (item.entries - {OP_KEY}).Keys == {NAME_KEY};
    assert ItemName(item) == name;
    ItemMeans(list, 0, item);
  }
}
