/**
 * `redact_for_logs`: the sanitiser applied to every value before it is
 * shown in the tool-activity log. It masks secret-looking strings and the
 * values of secret-looking dictionary keys, truncates long strings, and
 * recurses into dictionaries and lists.
 */
module Redaction {
  import opened Text

  /** The loosely typed values the sanitiser is applied to (string-keyed dictionaries only). */
  datatype Value =
    | Str(s: string)
    | Dict(entries: map<string, Value>)
    | List(items: seq<Value>)
    | Int(i: int)
    | Bool(b: bool)
    | Null

  const RedactedMarker := "[redacted]"
  /** "… [truncated]"; the ellipsis is the single character U+2026. */
  const TruncationMarker := "\U{2026} [truncated]"
  /** Strings up to this length are never truncated. */
  const MaxUntruncated := 300
  /** How much of a long string is kept. */
  const KeptPrefix := 120

  /** Fragments that mark a string value as secret. */
  const SecretValueWords := ["api_key", "token", "secret", "password"]
  /** Fragments that mark a dictionary key as secret (note "key", not "api_key"). */
  const SecretKeyWords := ["key", "token", "secret", "password"]

  /** Some fragment of `words` occurs in the lower-cased `s`. */
  predicate MentionsAny(s: string, words: seq<string>) {
    exists w :: w in words && Contains(Lower(s), w)
  }

  predicate LooksSecret(s: string) {
    MentionsAny(s, SecretValueWords)
  }

  predicate SecretKey(k: string) {
    MentionsAny(k, SecretKeyWords)
  }

  /** A string without the letters 'p', 'o' and 's' contains none of the secret-value fragments. */
  lemma NoSecretFragmentIn(s: string)
    requires 'p' !in s && 'o' !in s && 's' !in s
    ensures forall w :: w in SecretValueWords ==> !Contains(s, w)
  {
    MissingCharNotContained(s, "api_key", 1);
    MissingCharNotContained(s, "token", 1);
    MissingCharNotContained(s, "secret", 0);
    MissingCharNotContained(s, "password", 0);
  }

  lemma MarkersLowerCase()
    ensures Lower(RedactedMarker) == RedactedMarker
    ensures Lower(TruncationMarker) == TruncationMarker
  {
  }

  /** The redaction marker mentions no secret fragment. */
  lemma RedactedMarkerNotSecret()
    ensures !LooksSecret(RedactedMarker)
  {
    MarkersLowerCase();
    NoSecretFragmentIn(RedactedMarker);
  }

  /** The truncation marker is already lower case and mentions no secret fragment. */
  lemma TruncationMarkerNotSecret()
    ensures Lower(TruncationMarker) == TruncationMarker
    ensures !LooksSecret(TruncationMarker)
  {
    MarkersLowerCase();
    NoSecretFragmentIn(TruncationMarker);
  }

  /** The ellipsis that starts the truncation marker occurs in no secret fragment. */
  lemma EllipsisInNoFragment()
    ensures forall w :: w in SecretValueWords ==> TruncationMarker[0] !in w
  {
    assert TruncationMarker[0] == '\U{2026}';
  }

  /** The string case of `redact_for_logs`. */
  function RedactString(s: string): (r: string)
    ensures |r| <= MaxUntruncated
    ensures LooksSecret(s) ==> r == RedactedMarker && r != s
    ensures !LooksSecret(r)
  {
    RedactedMarkerNotSecret();
    if LooksSecret(s) then RedactedMarker
    else if |s| <= MaxUntruncated then s
    else
      TruncatedNotSecret(s);
      s[..KeptPrefix] + TruncationMarker
  }

  /** Truncating a string that does not look secret cannot make it look secret. */
  lemma TruncatedNotSecret(s: string)
    requires !LooksSecret(s) && |s| > MaxUntruncated
    ensures !LooksSecret(s[..KeptPrefix] + TruncationMarker)
  {
    var t := s[..KeptPrefix] + TruncationMarker;
    TruncationMarkerNotSecret();
    EllipsisInNoFragment();
    LowerConcat(s[..KeptPrefix], TruncationMarker);
    assert Lower(s[..KeptPrefix]) == Lower(s)[..KeptPrefix];
    forall w | w in SecretValueWords
      ensures !Contains(Lower(t), w)
    {
      if Contains(Lower(t), w) {
        ContainsConcat(Lower(s[..KeptPrefix]), TruncationMarker, w);
        ContainsInPrefix(Lower(s), KeptPrefix, w);
      }
    }
  }

  /** A non-secret string of at most 300 characters is kept; a longer one keeps its first 120 characters and grows a marker, 133 characters in all. */
  lemma RedactStringLength(s: string)
    requires !LooksSecret(s)
    ensures |s| <= MaxUntruncated ==> RedactString(s) == s
    ensures |s| > MaxUntruncated ==>
      RedactString(s) == s[..KeptPrefix] + TruncationMarker && |RedactString(s)| == 133
  {
  }

  /** `redact_for_logs`. */
  function Redact(v: Value): (r: Value)
    ensures v.Str? ==> r == Str(RedactString(v.s))
    ensures v.Dict? ==> r.Dict? && r.entries.Keys == v.entries.Keys
    ensures v.Dict? ==> forall k :: k in v.entries && SecretKey(k) ==> r.entries[k] == Str(RedactedMarker)
    ensures v.Dict? ==> forall k :: k in v.entries && !SecretKey(k) ==> r.entries[k] == Redact(v.entries[k])
    ensures v.List? ==> r.List? && |r.items| == |v.items|
    ensures v.List? ==> forall i :: 0 <= i < |v.items| ==> r.items[i] == Redact(v.items[i])
    ensures v.Int? || v.Bool? || v.Null? ==> r == v
  {
    match v
    case Str(s) => Str(RedactString(s))
    case Dict(m) => Dict(map k | k in m :: if SecretKey(k) then Str(RedactedMarker) else Redact(m[k]))
    case List(xs) => List(seq(|xs|, i requires 0 <= i < |xs| => Redact(xs[i])))
    case _ => v
  }

  /**
   * What a log may show: every string (at any depth, dictionary keys aside)
   * is at most 300 characters and does not look secret, and every value
   * under a secret-looking key is the redaction marker.
   */
  predicate Sanitized(v: Value) {
    match v
    case Str(s) => |s| <= MaxUntruncated && !LooksSecret(s)
    case Dict(m) =>
      forall k :: k in m ==> (SecretKey(k) ==> m[k] == Str(RedactedMarker)) && Sanitized(m[k])
    case List(xs) => forall i :: 0 <= i < |xs| ==> Sanitized(xs[i])
    case _ => true
  }

  /** Whatever goes in, what comes out is sanitized. */
  lemma {:induction false} RedactSanitizes(v: Value)
    ensures Sanitized(Redact(v))
  {
    match v
    case Str(s) =>
    case Dict(m) =>
      var r := Redact(v);
      forall k | k in m
        ensures (SecretKey(k) ==> r.entries[k] == Str(RedactedMarker)) && Sanitized(r.entries[k])
      {
        if SecretKey(k) {
          RedactedMarkerNotSecret();
        } else {
          RedactSanitizes(m[k]);
        }
      }
    case List(xs) =>
      forall i | 0 <= i < |xs|
        ensures Sanitized(Redact(v).items[i])
      {
        RedactSanitizes(xs[i]);
      }
    case _ =>
  }

  /** A sanitized value passes through unchanged. */
  lemma {:induction false} SanitizedUnchanged(v: Value)
    requires Sanitized(v)
    ensures Redact(v) == v
  {
    match v
    case Str(s) =>
    case Dict(m) =>
      var r := Redact(v);
      forall k | k in m
        ensures r.entries[k] == m[k]
      {
        if !SecretKey(k) {
          SanitizedUnchanged(m[k]);
        }
      }
      assert r.entries == m;
    case List(xs) =>
      var r := Redact(v);
      forall i | 0 <= i < |xs|
        ensures r.items[i] == xs[i]
      {
        SanitizedUnchanged(xs[i]);
      }
      assert r.items == xs;
    case _ =>
  }

  /** Redacting twice is redacting once. */
  lemma RedactIdempotent(v: Value)
    ensures Redact(Redact(v)) == Redact(v)
  {
    RedactSanitizes(v);
    SanitizedUnchanged(Redact(v));
  }

  /** A dictionary key is never changed and a secret-looking key's value is never echoed, whatever it held. */
  lemma SecretKeyNeverEchoed(m: map<string, Value>, k: string)
    requires k in m && SecretKey(k)
    ensures k in Redact(Dict(m)).entries
    ensures Redact(Dict(m)).entries[k] == Str(RedactedMarker)
    ensures m[k] != Str(RedactedMarker) ==> Redact(Dict(m)).entries[k] != m[k]
  {
  }
}
