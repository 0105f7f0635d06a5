/**
 * `_redact` (app/ops_agent/evidence.py): secrets under sensitive keys are replaced at every depth,
 * inline secrets inside every remaining string.
 */
module Redaction {
  import opened Common

  const REDACTED := "[REDACTED]"

  /**
   * The key test and the substitution of inline secrets; `found` tells whether a string holds any.
   */
  datatype Secrets = Secrets(sensitive: string -> bool, found: string -> bool, replaced: string -> string)

  function Substituted(rules: Secrets, s: string): string { if rules.found(s) then rules.replaced(s) else s }

  function Redact(rules: Secrets, v: Json): Json {
    match v
    case JObj(fields) =>
      JObj(map key | key in fields :: if rules.sensitive(key) then JStr(REDACTED) else Redact(rules, fields[key]))
    case JArr(items) => JArr(seq(|items|, i requires 0 <= i < |items| => Redact(rules, items[i])))
    case JStr(s) => JStr(Substituted(rules, s))
    case _ => v
  }

  /** The flag returned beside the value. */
  predicate Changed(rules: Secrets, v: Json) {
    match v
    case JObj(fields) => exists key | key in fields :: rules.sensitive(key) || Changed(rules, fields[key])
    case JArr(items) => exists i | 0 <= i < |items| :: Changed(rules, items[i])
    case JStr(s) => rules.found(s)
    case _ => false
  }

  /**
   * No sensitive key keeps its value and no string holds an inline secret that substitution would
   * still replace, at any depth.
   */
  predicate Clean(rules: Secrets, v: Json) {
    match v
    case JObj(fields) =>
      forall key | key in fields :: if rules.sensitive(key) then fields[key] == JStr(REDACTED) else Clean(rules, fields[key])
    case JArr(items) => forall i | 0 <= i < |items| :: Clean(rules, items[i])
    case JStr(s) => Substituted(rules, s) == s
    case _ => true
  }

  /** The same keys, lengths and kinds; only what is secret differs. */
  predicate SameShape(rules: Secrets, v: Json, w: Json) {
    match v
    case JObj(fields) =>
      && w.JObj? && w.fields.Keys == fields.Keys
      && forall key | key in fields && !rules.sensitive(key) :: SameShape(rules, fields[key], w.fields[key])
    case JArr(items) =>
      w.JArr? && |w.items| == |items| && forall i | 0 <= i < |items| :: SameShape(rules, items[i], w.items[i])
    case JStr(s) => w.JStr? && (!rules.found(s) ==> w == v)
    case _ => w == v
  }

  /** Substituting again replaces each placeholder by itself. */
  ghost predicate Settles(rules: Secrets) {
    forall s :: Substituted(rules, Substituted(rules, s)) == Substituted(rules, s)
  }

  /** Redaction leaves no secret, and changes nothing but secrets. */
  lemma {:induction false} RedactCleans(rules: Secrets, v: Json)
    requires Settles(rules)
    ensures Clean(rules, Redact(rules, v)) && SameShape(rules, v, Redact(rules, v))
  {
    match v
    case JObj(fields) =>
      forall key | key in fields
        ensures Clean(rules, Redact(rules, fields[key])) && SameShape(rules, fields[key], Redact(rules, fields[key]))
      {
        RedactCleans(rules, fields[key]);
      }
    case JArr(items) =>
      forall i | 0 <= i < |items|
        ensures Clean(rules, Redact(rules, items[i])) && SameShape(rules, items[i], Redact(rules, items[i]))
      {
        RedactCleans(rules, items[i]);
      }
    case _ =>
  }

  /** A value is left as it is exactly when it is clean. */
  lemma {:induction false} FixedIffClean(rules: Secrets, v: Json)
    ensures Redact(rules, v) == v <==> Clean(rules, v)
  {
    match v
    case JObj(fields) =>
      forall key | key in fields && !rules.sensitive(key)
        ensures Redact(rules, fields[key]) == fields[key] <==> Clean(rules, fields[key])
      {
        FixedIffClean(rules, fields[key]);
      }
      if Clean(rules, v) {
        assert Redact(rules, v).fields == fields;
      }
    case JArr(items) =>
      forall i | 0 <= i < |items| ensures Redact(rules, items[i]) == items[i] <==> Clean(rules, items[i]) {
        FixedIffClean(rules, items[i]);
      }
      if Clean(rules, v) {
        assert Redact(rules, v).items == items;
      }
    case _ =>
  }

  lemma RedactIsIdempotent(rules: Secrets, v: Json)
    requires Settles(rules)
    ensures Redact(rules, Redact(rules, v)) == Redact(rules, v)
  {
    RedactCleans(rules, v);
    FixedIffClean(rules, Redact(rules, v));
  }

  /** Without the flag nothing was secret: the value is clean and unchanged. */
  lemma {:induction false} UnflaggedIsUnchanged(rules: Secrets, v: Json)
    requires !Changed(rules, v)
    ensures Clean(rules, v) && Redact(rules, v) == v
  {
    match v
    case JObj(fields) =>
      forall key | key in fields ensures Clean(rules, fields[key]) && Redact(rules, fields[key]) == fields[key] {
        UnflaggedIsUnchanged(rules, fields[key]);
      }
    case JArr(items) =>
      forall i | 0 <= i < |items| ensures Clean(rules, items[i]) && Redact(rules, items[i]) == items[i] {
        UnflaggedIsUnchanged(rules, items[i]);
      }
      assert Redact(rules, v).items == items;
    case _ =>
  }

  // ---- The flag against a difference ----

  /** One key or position on the way to a part of a value. */
  datatype Part = Key(name: string) | Position(index: nat)

  /** The path leads to a sensitive key, whatever its value, or to a string that holds an inline secret. */
  predicate SecretAt(rules: Secrets, v: Json, path: seq<Part>) {
    if path == [] then v.JStr? && rules.found(v.s)
    else
      match path[0]
      case Key(name) =>
        v.JObj? && name in v.fields
        && ((|path| == 1 && rules.sensitive(name)) || SecretAt(rules, v.fields[name], path[1..]))
      case Position(i) => v.JArr? && i < |v.items| && SecretAt(rules, v.items[i], path[1..])
  }

  ghost predicate HoldsSecret(rules: Secrets, v: Json) { exists path :: SecretAt(rules, v, path) }

  lemma {:induction false} SecretRaisesFlag(rules: Secrets, v: Json, path: seq<Part>)
    requires SecretAt(rules, v, path)
    ensures Changed(rules, v)
    decreases |path|
  {
    if path != [] {
      match path[0]
      case Key(name) =>
        if !rules.sensitive(name) {
          SecretRaisesFlag(rules, v.fields[name], path[1..]);
        }
      case Position(i) => SecretRaisesFlag(rules, v.items[i], path[1..]);
    }
  }

  lemma {:induction false} FlagPointsAtSecret(rules: Secrets, v: Json) returns (path: seq<Part>)
    requires Changed(rules, v)
    ensures SecretAt(rules, v, path)
  {
    match v
    case JObj(fields) =>
      var key :| key in fields && (rules.sensitive(key) || Changed(rules, fields[key]));
      path := [];
      if !rules.sensitive(key) {
        path := FlagPointsAtSecret(rules, fields[key]);
      }
      assert ([Key(key)] + path)[1..] == path;
      path := [Key(key)] + path;
    case JArr(items) =>
      var i :| 0 <= i < |items| && Changed(rules, items[i]);
      path := FlagPointsAtSecret(rules, items[i]);
      assert ([Position(i)] + path)[1..] == path;
      path := [Position(i)] + path;
    case JStr(s) => path := [];
  }

  /** The flag is set exactly when some path leads to a secret. */
  lemma FlaggedIffHoldsSecret(rules: Secrets, v: Json)
    ensures Changed(rules, v) <==> HoldsSecret(rules, v)
  {
    if Changed(rules, v) {
      var path := FlagPointsAtSecret(rules, v);
      assert SecretAt(rules, v, path);
    } else {
      forall path | SecretAt(rules, v, path) ensures false {
        SecretRaisesFlag(rules, v, path);
      }
    }
  }

  /**
   * The flag is no difference: it says something else than a comparison of value and result exactly
   * for a clean value that holds a secret somewhere, one whose secrets are all placeholders already.
   */
  lemma FlagIsNoDifferenceIff(rules: Secrets, v: Json)
    ensures !(Changed(rules, v) <==> Redact(rules, v) != v) <==> Clean(rules, v) && HoldsSecret(rules, v)
  {
    FlaggedIffHoldsSecret(rules, v);
    FixedIffClean(rules, v);
    if !Changed(rules, v) {
      UnflaggedIsUnchanged(rules, v);
    }
  }

  /** Such values exist: an object whose sensitive key already holds the placeholder. */
  lemma FlagStaysAfterRedaction(rules: Secrets, key: string)
    requires rules.sensitive(key)
    ensures var v := JObj(map[key := JStr(REDACTED)]); Redact(rules, v) == v && Changed(rules, v)
  {
    var fields: map<string, Json> := map[key := JStr(REDACTED)];
    assert key in fields;
    assert Redact(rules, JObj(fields)).fields == fields;
  }

  // ---- sanitize_content ----

  /** What the size limit leaves of a payload (module TextLimit): the kept text and the size before. */
  datatype Cut = Cut(data: string, originalBytes: nat)

  const ENVELOPE_KEYS := {"data", "truncated", "original_bytes"}

  function Enveloped(cut: Cut): map<string, Json> {
    map["data" := JStr(cut.data), "truncated" := JBool(true), "original_bytes" := JNum(cut.originalBytes)]
  }

  /** `sanitize_content`; `oversize` is None for a redacted payload within the limit. */
  function SanitizeContent(
    rules: Secrets, oversize: map<string, Json> -> Option<Cut>, content: map<string, Json>): map<string, Json>
  {
    var clean := Redact(rules, JObj(content)).fields;
    match oversize(clean)
    case None => clean
    case Some(cut) => Enveloped(cut)
  }

  /** A payload that is no envelope itself is kept as it is exactly when it is clean and within the limit. */
  lemma SanitizedIsSameIff(
    rules: Secrets, oversize: map<string, Json> -> Option<Cut>, content: map<string, Json>, key: string)
    requires key in content && key !in ENVELOPE_KEYS
    ensures SanitizeContent(rules, oversize, content) == content
            <==> Clean(rules, JObj(content)) && oversize(content).None?
  {
    FixedIffClean(rules, JObj(content));
    var clean := Redact(rules, JObj(content)).fields;
    if oversize(clean).Some? {
      assert key !in Enveloped(oversize(clean).value);
    }
  }
}
