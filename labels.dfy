/** Google resource-label checks of the test runner (LabelUtils): a label
    key or value is sanitised by lower-casing it, dropping every character
    outside `a-z0-9-_`, putting an "x" in front unless it starts with a
    letter, and cutting an over-long result; a label map is either checked
    (every key and value must already be in sanitised form) or sanitised. */
module LabelUtils {
  import opened Common
  import opened Strings

  /** The ways validateLabelMap and sanitizeLabel fail (IllegalArgumentException,
      and StringIndexOutOfBoundsException when nothing is left to test). */
  datatype LabelError =
    | TooManyLabels(count: nat)
    | EmptyKey
    | NothingLeft(initialValue: string)
    | InvalidKey(key: string, sanitized: string)
    | InvalidValue(value: string, sanitized: string)
    | DuplicateKey(sanitizedKey: string)

  const MaxLabels := 64

  /** The characters `[a-z0-9-_]` that survive sanitising. */
  predicate LabelChar(c: char) {
    IsLower(c) || IsDigit(c) || c == '-' || c == '_'
  }

  predicate AllLabelChars(s: string) {
    forall i :: 0 <= i < |s| ==> LabelChar(s[i])
  }

  /** `replaceAll("[^a-z0-9-_]", "")`: the label characters of `s`, in order. */
  function KeepLabelChars(s: string): string {
    if s == [] then []
    else (if LabelChar(s[0]) then [s[0]] else []) + KeepLabelChars(s[1..])
  }

  /** The filter keeps only label characters, and keeps a string made of
      them as it is. */
  lemma {:induction false} KeepShape(s: string)
    ensures AllLabelChars(KeepLabelChars(s)) && |KeepLabelChars(s)| <= |s|
    ensures AllLabelChars(s) ==> KeepLabelChars(s) == s
  {
    if s != [] {
      KeepShape(s[1..]);
      assert forall i :: 1 <= i < |s| ==> s[1..][i - 1] == s[i];
      var rest := KeepLabelChars(s[1..]);
      if LabelChar(s[0]) {
        assert forall i :: 1 <= i < |[s[0]] + rest| ==> ([s[0]] + rest)[i] == rest[i - 1];
      }
    }
  }

  /** Nothing survives the filter exactly when `s` has no label character. */
  lemma {:induction false} KeepNothing(s: string)
    ensures KeepLabelChars(s) == [] <==> forall i :: 0 <= i < |s| ==> !LabelChar(s[i])
  {
    if s != [] {
      KeepNothing(s[1..]);
      assert forall i :: 1 <= i < |s| ==> s[1..][i - 1] == s[i];
    }
  }

  /** sanitizeLabel. Java's substring(0, 1) on an empty string throws, which
      is the `NothingLeft` error. A result longer than 63 characters is cut
      to its first 62, as the code does (its comment speaks of 63). */
  function SanitizeLabel(initialValue: string): (r: Result<string, LabelError>)
  {
    var filtered := KeepLabelChars(ToLower(initialValue));
    if filtered == [] then Err(NothingLeft(initialValue))
    else
      var prefixed := if IsLower(filtered[0]) then filtered else "x" + filtered;
      Ok(if |prefixed| > 63 then prefixed[..62] else prefixed)
  }

  /** A string in sanitised form: 1 to 63 label characters, starting with a letter. */
  predicate IsLabel(s: string) {
    1 <= |s| <= 63 && AllLabelChars(s) && IsLower(s[0])
  }

  /** What sanitizeLabel promises of its output, and when it fails. */
  lemma SanitizeShape(initialValue: string)
    ensures SanitizeLabel(initialValue).Err? <==> forall i :: 0 <= i < |initialValue| ==> !LabelChar(ToLowerChar(initialValue[i]))
    ensures SanitizeLabel(initialValue).Ok? ==> IsLabel(SanitizeLabel(initialValue).value)
    ensures SanitizeLabel(initialValue).Ok? ==> ToLower(SanitizeLabel(initialValue).value) == SanitizeLabel(initialValue).value
  {
    var lower := ToLower(initialValue);
    var filtered := KeepLabelChars(lower);
    ToLowerAt(initialValue);
    KeepNothing(lower);
    KeepShape(lower);
    if filtered != [] {
      var prefixed := if IsLower(filtered[0]) then filtered else "x" + filtered;
      assert AllLabelChars(prefixed) by {
        if !IsLower(filtered[0]) {
          assert forall i :: 1 <= i < |prefixed| ==> prefixed[i] == filtered[i - 1];
        }
      }
      var r := SanitizeLabel(initialValue).value;
      assert r == if |prefixed| > 63 then prefixed[..62] else prefixed;
      assert AllLabelChars(r);
      assert IsLowerCase(r);
      ToLowerIsLowerCase(r);
    }
  }

  /** The output: the lower-cased label characters, with an "x" in front
      unless they start with a letter, and only their first 62 whenever
      that would exceed 63. */
  lemma SanitizeLength(initialValue: string)
    requires SanitizeLabel(initialValue).Ok?
    ensures var filtered := KeepLabelChars(ToLower(initialValue));
      var n := |filtered| + (if IsLower(filtered[0]) then 0 else 1);
      |SanitizeLabel(initialValue).value| == (if n > 63 then 62 else n)
    ensures var filtered := KeepLabelChars(ToLower(initialValue));
      var prefixed := if IsLower(filtered[0]) then filtered else "x" + filtered;
      var r := SanitizeLabel(initialValue).value;
      |r| <= |prefixed| && r == prefixed[..|r|]
  {
  }

  /** The filter works character by character: filtering a concatenation
      concatenates the filtered parts. */
  lemma {:induction false} KeepConcat(a: string, b: string)
    ensures KeepLabelChars(a + b) == KeepLabelChars(a) + KeepLabelChars(b)
    decreases |a|
  {
    if a != [] {
      assert (a + b)[0] == a[0];
      assert (a + b)[1..] == a[1..] + b;
      KeepConcat(a[1..], b);
      var head := if LabelChar(a[0]) then [a[0]] else [];
      assert KeepLabelChars(a + b) == head + (KeepLabelChars(a[1..]) + KeepLabelChars(b));
    } else {
      assert a + b == b;
    }
  }

  /** The strings sanitizeLabel leaves as they are are exactly the
      sanitised-form strings. */
  lemma SanitizeFixedPoints(s: string)
    ensures SanitizeLabel(s) == Ok(s) <==> IsLabel(s)
  {
    if IsLabel(s) {
      assert IsLowerCase(s);
      ToLowerIsLowerCase(s);
      KeepShape(s);
    } else if SanitizeLabel(s).Ok? {
      SanitizeShape(s);
    }
  }

  /** Sanitising twice is sanitising once. */
  lemma SanitizeIdempotent(s: string)
    requires SanitizeLabel(s).Ok?
    ensures SanitizeLabel(SanitizeLabel(s).value) == SanitizeLabel(s)
  {
    SanitizeShape(s);
    SanitizeFixedPoints(SanitizeLabel(s).value);
  }

  /** The sanitised form of an accepted key or value. */
  function Sanitized(s: string): string {
    var r := SanitizeLabel(s); if r.Ok? then r.value else ""
  }

  /** One entry passes the per-entry checks of validateLabelMap. */
  predicate EntryAccepted(key: string, value: string, tryToSanitize: bool) {
    && key != ""
    && SanitizeLabel(key).Ok?
    && SanitizeLabel(value).Ok?
    && (!tryToSanitize ==> Sanitized(key) == key && Sanitized(value) == value)
  }

  /** No two keys of `keys` have the same image under `f`. */
  predicate Injective(keys: set<string>, f: string -> string) {
    forall k1, k2 :: k1 in keys && k2 in keys && k1 != k2 ==> f(k1) != f(k2)
  }

  /** No two keys of `keys` sanitise to the same string. */
  predicate SanitizedKeysDistinct(labels: map<string, string>, keys: set<string>) {
    Injective(keys, Sanitized)
  }

  /** The checks of one loop turn of validateLabelMap, in the code's order:
      the key, then sanitising key and value, then (checking mode) the
      comparison of each with its sanitised form. */
  function CheckEntry(key: string, value: string, tryToSanitize: bool): (r: Result<(string, string), LabelError>)
    ensures r.Ok? <==> EntryAccepted(key, value, tryToSanitize)
    ensures r.Ok? ==> r.value == (Sanitized(key), Sanitized(value))
  {
    if key == "" then Err(EmptyKey)
    else
      var sanitizedKey := SanitizeLabel(key);
      if sanitizedKey.Err? then Err(sanitizedKey.error)
      else
        var sanitizedValue := SanitizeLabel(value);
        if sanitizedValue.Err? then Err(sanitizedValue.error)
        else if !tryToSanitize && sanitizedKey.value != key then Err(InvalidKey(key, sanitizedKey.value))
        else if !tryToSanitize && sanitizedValue.value != value then Err(InvalidValue(value, sanitizedValue.value))
        else Ok((sanitizedKey.value, sanitizedValue.value))
  }

  /** When validateLabelMap accepts a map. */
  predicate LabelsAccepted(labels: map<string, string>, tryToSanitize: bool) {
    && |labels| <= MaxLabels
    && (forall k :: k in labels ==> EntryAccepted(k, labels[k], tryToSanitize))
    && (tryToSanitize ==> SanitizedKeysDistinct(labels, labels.Keys))
  }

  /** The images of `keys` under `f`. */
  function Images(keys: set<string>, f: string -> string): set<string> {
    set k | k in keys :: f(k)
  }

  /** `m` maps the image under `f` of each key of `keys` to the image of its
      value, and holds nothing else. */
  ghost predicate MapsUnder(labels: map<string, string>, keys: set<string>, m: map<string, string>, f: string -> string)
    requires keys <= labels.Keys
  {
    && m.Keys == Images(keys, f)
    && forall k :: k in keys ==> f(k) in m && m[f(k)] == f(labels[k])
  }

  /** `m` is the sanitised map of the entries with keys in `keys`. */
  ghost predicate SanitizesTo(labels: map<string, string>, keys: set<string>, m: map<string, string>)
    requires keys <= labels.Keys
  {
    MapsUnder(labels, keys, m, Sanitized)
  }

  /** What the loop of validateLabelMap knows after the entries `seen`: they
      passed their checks and, when sanitising, `sanitized` is their
      sanitised map. */
  ghost predicate Progress(labels: map<string, string>, tryToSanitize: bool, seen: set<string>, sanitized: map<string, string>) {
    && seen <= labels.Keys
    && (forall k :: k in seen ==> EntryAccepted(k, labels[k], tryToSanitize))
    && (tryToSanitize ==> SanitizedKeysDistinct(labels, seen) && SanitizesTo(labels, seen, sanitized))
  }

  /** The entry checks of validateLabelMap, without the size limit. */
  predicate EntriesAccepted(labels: map<string, string>, tryToSanitize: bool) {
    && (forall k :: k in labels ==> EntryAccepted(k, labels[k], tryToSanitize))
    && (tryToSanitize ==> SanitizedKeysDistinct(labels, labels.Keys))
  }

  /** validateLabelMap: too many labels, else the checks of each entry. */
  method ValidateLabelMap(labels: map<string, string>, tryToSanitize: bool) returns (r: Result<map<string, string>, LabelError>)
    ensures r.Ok? <==> LabelsAccepted(labels, tryToSanitize)
    ensures |labels| > MaxLabels ==> r == Err(TooManyLabels(|labels|))
    ensures r.Ok? && !tryToSanitize ==> r.value == labels
    ensures r.Ok? && tryToSanitize ==> SanitizesTo(labels, labels.Keys, r.value)
  {
    if |labels| > MaxLabels {
      return Err(TooManyLabels(|labels|));
    }
    r := ValidateEntries(labels, tryToSanitize);
  }

  /** The loop of validateLabelMap. The order in which a HashMap hands out
      its entries is unspecified, so each turn picks any entry not yet seen;
      the outcome does not depend on that order, only which error is
      reported does. */
  method ValidateEntries(labels: map<string, string>, tryToSanitize: bool) returns (r: Result<map<string, string>, LabelError>)
    ensures r.Ok? <==> EntriesAccepted(labels, tryToSanitize)
    ensures r.Ok? && !tryToSanitize ==> r.value == labels
    ensures r.Ok? && tryToSanitize ==> SanitizesTo(labels, labels.Keys, r.value)
  {
    var sanitized: map<string, string> := map[];
    var remaining := labels.Keys;
    ghost var seen: set<string> := {};
    while remaining != {}
      invariant remaining == labels.Keys - seen
      invariant Progress(labels, tryToSanitize, seen, sanitized)
      decreases remaining
    {
      var key :| key in remaining;
      var turn := LabelTurn(labels, tryToSanitize, key, sanitized, seen);
      if turn.Err? {
        return turn;
      }
      sanitized := turn.value;
      seen := seen + {key};
      remaining := remaining - {key};
    }
    assert seen == labels.Keys;
    if tryToSanitize {
      return Ok(sanitized);
    }
    return Ok(labels);
  }

  /** One turn of the loop of validateLabelMap on the entry `key`, for the
      sanitised map `sanitized` of the entries `seen` before it. */
  method LabelTurn(labels: map<string, string>, tryToSanitize: bool, key: string,
                   sanitized: map<string, string>, ghost seen: set<string>) returns (r: Result<map<string, string>, LabelError>)
    requires key in labels && key !in seen
    requires Progress(labels, tryToSanitize, seen, sanitized)
    ensures r.Err? ==> !EntriesAccepted(labels, tryToSanitize)
    ensures r.Ok? ==> Progress(labels, tryToSanitize, seen + {key}, r.value)
  {
    var checked := CheckEntry(key, labels[key], tryToSanitize);
    if checked.Err? {
      return Err(checked.error);
    }
    if !tryToSanitize {
      return Ok(sanitized);
    }
    var (sanitizedKey, sanitizedValue) := checked.value;
    if sanitizedKey in sanitized {
      DuplicateFound(labels, seen, key, sanitized, Sanitized);
      return Err(DuplicateKey(sanitizedKey));
    }
    AddMapped(labels, seen, key, sanitized, Sanitized);
    return Ok(sanitized[sanitizedKey := sanitizedValue]);
  }

  /** A key whose image is already in the map shares it with another key. */
  lemma DuplicateFound(labels: map<string, string>, seen: set<string>, key: string, m: map<string, string>, f: string -> string)
    requires seen <= labels.Keys && key in labels && key !in seen
    requires MapsUnder(labels, seen, m, f)
    requires f(key) in m
    ensures !Injective(labels.Keys, f)
  {
    var k' :| k' in seen && f(k') == f(key);
  }

  /** Adding one more key whose image is new. */
  lemma AddMapped(labels: map<string, string>, seen: set<string>, key: string, m: map<string, string>, f: string -> string)
    requires seen <= labels.Keys && key in labels && key !in seen
    requires Injective(seen, f) && MapsUnder(labels, seen, m, f)
    requires f(key) !in m
    ensures Injective(seen + {key}, f)
    ensures MapsUnder(labels, seen + {key}, m[f(key) := f(labels[key])], f)
  {
    assert Images(seen + {key}, f) == Images(seen, f) + {f(key)};
  }

  /** The sanitised map does not depend on the order the entries are
      visited in: there is only one. */
  lemma MappedUnique(labels: map<string, string>, keys: set<string>, m1: map<string, string>, m2: map<string, string>, f: string -> string)
    requires keys <= labels.Keys
    requires Injective(keys, f)
    requires MapsUnder(labels, keys, m1, f) && MapsUnder(labels, keys, m2, f)
    ensures m1 == m2
  {
    forall y | y in m1
      ensures m2[y] == m1[y]
    {
      var k :| k in keys && f(k) == y;
    }
  }

  /** Checking mode accepts exactly the maps of at most 64 entries whose
      keys and values are all in sanitised form; sanitising mode returns
      such a map unchanged. */
  lemma StrictAcceptsSanitised(labels: map<string, string>)
    ensures LabelsAccepted(labels, false) <==> |labels| <= MaxLabels && forall k :: k in labels ==> IsLabel(k) && IsLabel(labels[k])
    ensures LabelsAccepted(labels, false) ==> LabelsAccepted(labels, true) && SanitizesTo(labels, labels.Keys, labels)
  {
    forall k | k in labels
      ensures EntryAccepted(k, labels[k], false) <==> IsLabel(k) && IsLabel(labels[k])
    {
      SanitizeFixedPoints(k);
      SanitizeFixedPoints(labels[k]);
    }
  }
}
