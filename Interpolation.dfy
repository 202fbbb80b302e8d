/**
 * Template interpolation of workflow action configuration
 * (`interpolateValue`): every `{{path}}` in a string is replaced by the value
 * the trimmed dotted path names in the trigger data, converted with
 * `String(...)`; when that value is falsy the placeholder text stays as it was.
 *
 * The placeholder is the regular expression `/\{\{([^}]+)\}\}/g`: two opening
 * braces, at least one character that is not a closing brace, two closing
 * braces. Matches are found left to right and do not overlap.
 */
module Interpolation {
  import opened Wrappers
  import opened Json

  /** The first index at or after `from` where `s` holds `c`. */
  function FirstIndexOf(s: string, c: char, from: nat): (r: Option<nat>)
    ensures r.Some? ==> from <= r.value < |s| && s[r.value] == c
    ensures r.Some? ==> forall j :: from <= j < r.value ==> s[j] != c
    ensures r.None? ==> forall j :: from <= j < |s| ==> s[j] != c
    decreases |s| - from
  {
    if from >= |s| then None
    else if s[from] == c then Some(from)
    else FirstIndexOf(s, c, from + 1)
  }

  /**
   * When `s` starts with a placeholder, the index just past it. The regular
   * expression's `[^}]+` runs up to the first closing brace, which must be
   * followed by a second one.
   */
  function PlaceholderEnd(s: string): (r: Option<nat>)
    ensures r.Some? ==> 5 <= r.value <= |s|
    ensures r.Some? ==> s[..2] == "{{" && s[r.value - 2..r.value] == "}}"
    ensures r.Some? ==> '}' !in s[2..r.value - 2]
  {
    if |s| >= 2 && s[0] == '{' && s[1] == '{' then
      match FirstIndexOf(s, '}', 2)
      case Some(k) =>
        if k > 2 && k + 1 < |s| && s[k + 1] == '}' then
          assert forall j :: 0 <= j < k - 2 ==> s[2..k][j] == s[j + 2];
          Some(k + 2)
        else None
      case None => None
    else None
  }

  /** The text that replaces one placeholder token `{{path}}`. */
  function Replacement(token: string, data: Json): (r: string)
    requires |token| >= 4
    ensures !Truthy(GetNestedValue(data, Trim(token[2..|token| - 2]))) ==> r == token
  {
    var v := GetNestedValue(data, Trim(token[2..|token| - 2]));
    if Truthy(v) then ToStr(v) else token
  }

  /** `template.replace(/\{\{([^}]+)\}\}/g, ...)`. */
  function Interpolate(s: string, data: Json): (r: string)
    ensures '{' !in s ==> r == s
    decreases |s|
  {
    if s == [] then []
    else match PlaceholderEnd(s)
      case Some(e) => Replacement(s[..e], data) + Interpolate(s[e..], data)
      case None => [s[0]] + Interpolate(s[1..], data)
  }

  /** `interpolateValue(template, data)`: only strings are interpolated. */
  function InterpolateValue(template: Json, data: Json): (r: Json)
    ensures !template.Str? ==> r == template
    ensures template.Str? ==> r.Str?
  {
    if template.Str? then Str(Interpolate(template.s, data)) else template
  }

  /** Any `{{p}}` whose `p` is non-empty and free of closing braces is a placeholder. */
  lemma PlaceholderRecognised(p: string, rest: string)
    requires p != [] && '}' !in p
    ensures PlaceholderEnd("{{" + p + "}}" + rest) == Some(|p| + 4)
  {
    var s := "{{" + p + "}}" + rest;
    assert forall j :: 2 <= j < |p| + 2 ==> s[j] == p[j - 2];
    assert s[|p| + 2] == '}' && s[|p| + 3] == '}';
    assert FirstIndexOf(s, '}', 2) == Some(|p| + 2);
  }

  /** `{{}}` is not a placeholder. */
  lemma EmptyBracesNotPlaceholder(rest: string)
    ensures PlaceholderEnd("{{}}" + rest) == None
  {
    var s := "{{}}" + rest;
    assert FirstIndexOf(s, '}', 2) == Some(2);
  }

  /** A character other than an opening brace is copied and interpolation goes on after it. */
  lemma InterpolateCopiesChar(c: char, s: string, data: Json)
    requires c != '{'
    ensures Interpolate([c] + s, data) == [c] + Interpolate(s, data)
  {
    assert ([c] + s)[1..] == s;
  }

  /** A placeholder whose path resolves to a truthy value is replaced by that value's string form. */
  lemma ResolvedPlaceholderReplaced(p: string, rest: string, data: Json)
    requires p != [] && '}' !in p
    requires Truthy(GetNestedValue(data, Trim(p)))
    ensures Interpolate("{{" + p + "}}" + rest, data)
         == ToStr(GetNestedValue(data, Trim(p))) + Interpolate(rest, data)
  {
    var s := "{{" + p + "}}" + rest;
    PlaceholderRecognised(p, rest);
    assert s[..|p| + 4][2..|p| + 2] == p;
    assert s[|p| + 4..] == rest;
  }

  /** A placeholder whose path is missing or falsy stays in the text literally. */
  lemma UnresolvedPlaceholderKept(p: string, rest: string, data: Json)
    requires p != [] && '}' !in p
    requires !Truthy(GetNestedValue(data, Trim(p)))
    ensures Interpolate("{{" + p + "}}" + rest, data) == "{{" + p + "}}" + Interpolate(rest, data)
  {
    var s := "{{" + p + "}}" + rest;
    PlaceholderRecognised(p, rest);
    assert s[..|p| + 4] == "{{" + p + "}}";
    assert s[..|p| + 4][2..|p| + 2] == p;
    assert s[|p| + 4..] == rest;
  }

  /** Text with no two adjacent opening braces is returned unchanged. */
  lemma {:induction false} NoPlaceholderUnchanged(s: string, data: Json)
    requires forall i :: 0 <= i < |s| - 1 ==> !(s[i] == '{' && s[i + 1] == '{')
    ensures Interpolate(s, data) == s
    decreases |s|
  {
    if s != [] {
      assert PlaceholderEnd(s) == None;
      var t := s[1..];
      forall i | 0 <= i < |t| - 1 ensures !(t[i] == '{' && t[i + 1] == '{') {
        assert t[i] == s[i + 1] && t[i + 1] == s[i + 2];
      }
      NoPlaceholderUnchanged(t, data);
      assert s == [s[0]] + s[1..];
    }
  }

  /** When no path resolves to a truthy value, every placeholder is left in place: the text is unchanged. */
  lemma {:induction false} UnresolvableDataLeavesTextUnchanged(s: string, data: Json)
    requires forall path :: !Truthy(GetNestedValue(data, path))
    ensures Interpolate(s, data) == s
    decreases |s|
  {
    if s != [] {
      match PlaceholderEnd(s)
      case Some(e) =>
        assert s == s[..e] + s[e..];
        var token := s[..e];
        assert !Truthy(GetNestedValue(data, Trim(token[2..|token| - 2])));
        UnresolvableDataLeavesTextUnchanged(s[e..], data);
      case None =>
        assert s == [s[0]] + s[1..];
        UnresolvableDataLeavesTextUnchanged(s[1..], data);
    }
  }

  /** Interpolating against `undefined` data changes nothing. */
  lemma InterpolateAgainstUndefined(s: string)
    ensures Interpolate(s, Undefined) == s
  {
    forall path ensures !Truthy(GetNestedValue(Undefined, path)) {
      GetPathOfUndefined(Split(path, '.'));
    }
    UnresolvableDataLeavesTextUnchanged(s, Undefined);
  }
}
