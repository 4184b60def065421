/** The one redaction walk and the sentinel it prints (gateway/config_diff.py, gateway/config_edit.py
    find_sentinel). */
module Redaction {
  import opened Values

  const REDACTED := "***"
  const SECRET_KEY_MARKERS := ["password", "token", "secret"]
  const RAW_NAMED_BLOCKS := {"agents", "connector_templates", "agent_templates", "watcher_templates", "tool_presets"}

  // The letters that lower-case into a marker's alphabet: ASCII capitals and the Kelvin sign.
  function LowerChar(c: char): char {
    if 'A' <= c <= 'Z' then c - 'A' + 'a' else if c == '\U{212A}' then 'k' else c
  }

  function Lower(s: string): (r: string)
    ensures |r| == |s|
  {
    seq(|s|, i requires 0 <= i < |s| => LowerChar(s[i]))
  }

  predicate StandsAt(s: string, i: nat, part: string) {
    i + |part| <= |s| && s[i..i + |part|] == part
  }

  predicate Contains(s: string, part: string) {
    exists i :: 0 <= i <= |s| && StandsAt(s, i, part)
  }

  predicate SecretKey(key: string) {
    exists m :: m in SECRET_KEY_MARKERS && Contains(Lower(key), m)
  }

  /** Which keys those are: the ones in which "password", "token" or "secret" stands somewhere, in
      whatever letters. */
  lemma SecretKeyMeans(key: string)
    ensures SecretKey(key) <==>
      exists i, j :: 0 <= i <= j <= |key| && Lower(key[i..j]) in {"password", "token", "secret"}
  {
    if m :| m in SECRET_KEY_MARKERS && Contains(Lower(key), m) {
      var i :| 0 <= i <= |Lower(key)| && StandsAt(Lower(key), i, m);
      LowerSlice(key, i, i + |m|);
      MarkersAre(m);
    }
    if i, j :| 0 <= i <= j <= |key| && Lower(key[i..j]) in {"password", "token", "secret"} {
      LowerSlice(key, i, j);
      MarkersAre(Lower(key[i..j]));
      assert StandsAt(Lower(key), i, Lower(key[i..j]));
    }
  }

  /** One letter in either case, the Kelvin sign being a capital k. */
  predicate SameLetter(a: char, b: char) {
    || a == b
    || ('A' <= a <= 'Z' && b == a - 'A' + 'a') || ('A' <= b <= 'Z' && a == b - 'A' + 'a')
    || (a == '\U{212A}' && b == 'k') || (b == '\U{212A}' && a == 'k')
  }

  /** Two spellings of a key that differ in case are both secret or both not. */
  lemma CaseDoesNotCount(key: string, other: string)
    requires |key| == |other| && forall i :: 0 <= i < |key| ==> SameLetter(key[i], other[i])
    ensures SecretKey(key) <==> SecretKey(other)
  {
    assert Lower(key) == Lower(other);
  }

  lemma LowerSlice(s: string, i: nat, j: nat)
    requires i <= j <= |s|
    ensures Lower(s[i..j]) == Lower(s)[i..j]
  {
  }

  lemma MarkersAre(m: string)
    ensures m in SECRET_KEY_MARKERS <==> m in {"password", "token", "secret"}
  {
    var markers := SECRET_KEY_MARKERS;
    assert markers[0] == "password" && markers[1] == "token" && markers[2] == "secret";
  }

  /** Whatever sits under a secret key becomes the sentinel, at any depth. List items keep the key
      they are listed under; "" is no key. */
  function Redact(v: Value, key: string): Value
    decreases v
  {
    if key != "" && SecretKey(key) then Str(REDACTED)
    else match v
      case Map(entries) => Map(map k | k in entries :: Redact(entries[k], k))
      case List(items) => List(seq(|items|, i requires 0 <= i < |items| => Redact(items[i], key)))
      case _ => v
  }

  predicate HasSentinel(v: Value) {
    match v
    case Str(s) => s == REDACTED
    case Map(entries) => exists k :: k in entries && HasSentinel(entries[k])
    case List(items) => exists i :: 0 <= i < |items| && HasSentinel(items[i])
    case _ => false
  }

  // ---- What redaction hides, said without redacting ----

  /** The values differ at most beneath secret keys. */
  ghost predicate AgreeModuloSecrets(v: Value, w: Value, key: string) {
    if key != "" && SecretKey(key) then true
    else match (v, w)
      case (Map(a), Map(b)) => a.Keys == b.Keys && forall k :: k in a ==> AgreeModuloSecrets(a[k], b[k], k)
      case (List(a), List(b)) => |a| == |b| && forall i :: 0 <= i < |a| ==> AgreeModuloSecrets(a[i], b[i], key)
      case _ => v == w
  }

  /** Something in the value sits under a secret key. */
  predicate HoldsSecret(v: Value, key: string) {
    || (key != "" && SecretKey(key))
    || match v
       case Map(entries) => exists k :: k in entries && HoldsSecret(entries[k], k)
       case List(items) => exists i :: 0 <= i < |items| && HoldsSecret(items[i], key)
       case _ => false
  }

  /** Two values redact alike exactly when they differ only beneath secret keys: the view shows
      everything else and nothing of those. */
  lemma {:induction false} RedactsAlike(v: Value, w: Value, key: string)
    ensures Redact(v, key) == Redact(w, key) <==> AgreeModuloSecrets(v, w, key)
    decreases v
  {
    if key == "" || !SecretKey(key) {
      match (v, w)
      case (Map(a), Map(b)) =>
        forall k | k in a && k in b ensures Redact(a[k], k) == Redact(b[k], k) <==> AgreeModuloSecrets(a[k], b[k], k) {
          RedactsAlike(a[k], b[k], k);
        }
        MapsAlike(a, b);
      case (List(a), List(b)) =>
        forall i | 0 <= i < |a| && i < |b|
          ensures Redact(a[i], key) == Redact(b[i], key) <==> AgreeModuloSecrets(a[i], b[i], key) {
          RedactsAlike(a[i], b[i], key);
        }
        ListsAlike(a, b, key);
      case _ =>
    }
  }

  function RedactedEntries(a: map<string, Value>): map<string, Value> {
    map k | k in a :: Redact(a[k], k)
  }

  function RedactedItems(a: seq<Value>, key: string): seq<Value> {
    seq(|a|, i requires 0 <= i < |a| => Redact(a[i], key))
  }

  lemma MapsAlike(a: map<string, Value>, b: map<string, Value>)
    ensures RedactedEntries(a) == RedactedEntries(b) <==>
      a.Keys == b.Keys && forall k :: k in a ==> Redact(a[k], k) == Redact(b[k], k)
  {
    var ra, rb := RedactedEntries(a), RedactedEntries(b);
    assert ra.Keys == a.Keys && rb.Keys == b.Keys;
    if ra == rb {
      forall k | k in a ensures k in b && Redact(a[k], k) == Redact(b[k], k) {
        assert k in ra && ra[k] == rb[k];
      }
    }
  }

  lemma ListsAlike(a: seq<Value>, b: seq<Value>, key: string)
    ensures RedactedItems(a, key) == RedactedItems(b, key) <==>
      |a| == |b| && forall i :: 0 <= i < |a| ==> Redact(a[i], key) == Redact(b[i], key)
  {
    var ra, rb := RedactedItems(a, key), RedactedItems(b, key);
    if ra == rb {
      assert |a| == |ra| == |rb| == |b|;
      forall i | 0 <= i < |a| ensures Redact(a[i], key) == Redact(b[i], key) {
        assert ra[i] == rb[i];
      }
    }
  }

  lemma {:induction false} RedactsOnce(v: Value, key: string)
    ensures Redact(Redact(v, key), key) == Redact(v, key)
    decreases v
  {
    if key == "" || !SecretKey(key) {
      match v
      case Map(entries) =>
        forall k | k in entries ensures Redact(Redact(entries[k], k), k) == Redact(entries[k], k) {
          RedactsOnce(entries[k], k);
        }
      case List(items) =>
        forall i | 0 <= i < |items| ensures Redact(Redact(items[i], key), key) == Redact(items[i], key) {
          RedactsOnce(items[i], key);
        }
      case _ =>
    }
  }

  /** A view carries the sentinel exactly when it masked something, or the value already held it. */
  lemma {:induction false} MaskLeavesSentinel(v: Value, key: string)
    ensures HasSentinel(Redact(v, key)) <==> HoldsSecret(v, key) || HasSentinel(v)
    decreases v
  {
    if key == "" || !SecretKey(key) {
      match v
      case Map(entries) =>
        forall k | k in entries
          ensures HasSentinel(Redact(entries[k], k)) <==> HoldsSecret(entries[k], k) || HasSentinel(entries[k]) {
          MaskLeavesSentinel(entries[k], k);
        }
        var r := RedactedEntries(entries);
        assert Redact(v, key) == Map(r);
        if k :| k in entries && (HoldsSecret(entries[k], k) || HasSentinel(entries[k])) {
          assert k in r && HasSentinel(r[k]);
        }
      case List(items) =>
        forall i | 0 <= i < |items|
          ensures HasSentinel(Redact(items[i], key)) <==> HoldsSecret(items[i], key) || HasSentinel(items[i]) {
          MaskLeavesSentinel(items[i], key);
        }
        var r := RedactedItems(items, key);
        assert Redact(v, key) == List(r);
        if i :| 0 <= i < |items| && (HoldsSecret(items[i], key) || HasSentinel(items[i])) {
          assert HasSentinel(r[i]);
        }
      case _ =>
    }
  }

  // ---- The raw document ----

  // Keys of these blocks are names of agents or templates, not field names.
  function RedactBlock(key: string, v: Value): Value {
    if key in RAW_NAMED_BLOCKS && v.Map? then Map(map n | n in v.entries :: Redact(v.entries[n], ""))
    else Redact(v, key)
  }

  function RedactedDocument(document: map<string, Value>): map<string, Value> {
    map k | k in document :: RedactBlock(k, document[k])
  }

  /** The names of agents, templates and presets are shown whatever they are called, and what stands
      under them is tested field by field; every other block goes by its own key. */
  predicate ShownAs(key: string, block: Value, shown: Value) {
    if key in {"agents", "connector_templates", "agent_templates", "watcher_templates", "tool_presets"} && block.Map?
    then
      && shown.Map? && shown.entries.Keys == block.entries.Keys
      && forall n :: n in shown.entries ==> shown.entries[n] == Redact(block.entries[n], "")
    else shown == Redact(block, key)
  }

  method RedactRawDocument(document: map<string, Value>) returns (out: map<string, Value>)
    ensures out == RedactedDocument(document)
    ensures out.Keys == document.Keys && forall k :: k in out ==> ShownAs(k, document[k], out[k])
  {
    out := map[];
    var done := {};
    while done != document.Keys
      invariant done <= document.Keys && out.Keys == done
      invariant forall k :: k in out ==> out[k] == RedactBlock(k, document[k])
      decreases document.Keys - done
    {
      var key :| key in document.Keys && key !in done;
      done := done + {key};
      out := out[key := RedactBlock(key, document[key])];
    }
  }

  ghost predicate BlocksAgree(key: string, v: Value, w: Value) {
    if key in RAW_NAMED_BLOCKS && (v.Map? || w.Map?) then
      && v.Map? && w.Map? && v.entries.Keys == w.entries.Keys
      && forall n :: n in v.entries ==> AgreeModuloSecrets(v.entries[n], w.entries[n], "")
    else
      AgreeModuloSecrets(v, w, key)
  }

  predicate BlockHoldsSecret(key: string, v: Value) {
    if key in RAW_NAMED_BLOCKS && v.Map? then exists n :: n in v.entries && HoldsSecret(v.entries[n], "")
    else HoldsSecret(v, key)
  }

  function RedactedNames(a: map<string, Value>): map<string, Value> {
    map n | n in a :: Redact(a[n], "")
  }

  lemma BlocksAlike(key: string, v: Value, w: Value)
    ensures RedactBlock(key, v) == RedactBlock(key, w) <==> BlocksAgree(key, v, w)
  {
    if key in RAW_NAMED_BLOCKS && v.Map? && w.Map? {
      var a, b := v.entries, w.entries;
      assert RedactBlock(key, v) == Map(RedactedNames(a)) && RedactBlock(key, w) == Map(RedactedNames(b));
      forall n | n in a && n in b ensures Redact(a[n], "") == Redact(b[n], "") <==> AgreeModuloSecrets(a[n], b[n], "") {
        RedactsAlike(a[n], b[n], "");
      }
      if RedactedNames(a) == RedactedNames(b) {
        assert RedactedNames(a).Keys == a.Keys && RedactedNames(b).Keys == b.Keys;
        forall n | n in a ensures AgreeModuloSecrets(a[n], b[n], "") {
          assert RedactedNames(a)[n] == RedactedNames(b)[n];
        }
      }
    } else {
      RedactsAlike(v, w, key);
    }
  }

  /** Two files are shown alike exactly when they differ only beneath secret keys; the name of an
      agent, template or preset never makes its entry a secret. */
  lemma DocumentsAlike(d: map<string, Value>, e: map<string, Value>)
    ensures RedactedDocument(d) == RedactedDocument(e) <==>
      d.Keys == e.Keys && forall k :: k in d ==> BlocksAgree(k, d[k], e[k])
  {
    var rd, re := RedactedDocument(d), RedactedDocument(e);
    assert rd.Keys == d.Keys && re.Keys == e.Keys;
    forall k | k in d && k in e ensures RedactBlock(k, d[k]) == RedactBlock(k, e[k]) <==> BlocksAgree(k, d[k], e[k]) {
      BlocksAlike(k, d[k], e[k]);
    }
    if rd == re {
      forall k | k in d ensures BlocksAgree(k, d[k], e[k]) {
        assert rd[k] == re[k];
      }
    }
  }

  lemma DocumentRedactsOnce(d: map<string, Value>)
    ensures RedactedDocument(RedactedDocument(d)) == RedactedDocument(d)
  {
    forall k | k in d ensures RedactBlock(k, RedactBlock(k, d[k])) == RedactBlock(k, d[k]) {
      if k in RAW_NAMED_BLOCKS && d[k].Map? {
        var a := d[k].entries;
        forall n | n in a ensures Redact(Redact(a[n], ""), "") == Redact(a[n], "") {
          RedactsOnce(a[n], "");
        }
      } else {
        RedactsOnce(d[k], k);
      }
    }
  }

  lemma BlockLeavesSentinel(key: string, v: Value)
    ensures HasSentinel(RedactBlock(key, v)) <==> BlockHoldsSecret(key, v) || HasSentinel(v)
  {
    if key in RAW_NAMED_BLOCKS && v.Map? {
      var a := v.entries;
      var r := RedactedNames(a);
      assert RedactBlock(key, v) == Map(r);
      forall n | n in a ensures HasSentinel(r[n]) <==> HoldsSecret(a[n], "") || HasSentinel(a[n]) {
        MaskLeavesSentinel(a[n], "");
      }
    } else {
      MaskLeavesSentinel(v, key);
    }
  }

  /** A document as shown holds the sentinel exactly when something was masked, or it already did. */
  lemma DocumentLeavesSentinel(d: map<string, Value>)
    ensures HasSentinel(Map(RedactedDocument(d))) <==>
      (exists k :: k in d && BlockHoldsSecret(k, d[k])) || HasSentinel(Map(d))
  {
    var r := RedactedDocument(d);
    forall k | k in d ensures HasSentinel(r[k]) <==> BlockHoldsSecret(k, d[k]) || HasSentinel(d[k]) {
      BlockLeavesSentinel(k, d[k]);
    }
    if k :| k in d && (BlockHoldsSecret(k, d[k]) || HasSentinel(d[k])) {
      assert k in r && HasSentinel(r[k]);
    }
  }
}
