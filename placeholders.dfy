/** `replacePlaceholders` of the SEO route page: the four tokens of a template
    title or description are replaced, one token after the other, by the phrase
    of the matching endpoint. */
module Placeholders {
  import opened Base
  import opened Strings
  import opened Catalog

  const NgaCity: string := "{nga_city}"
  const PerCity: string := "{per_city}"
  const NgaState: string := "{nga_state}"
  const PerState: string := "{per_state}"

  /** `from.nga_format || `${from.city}``: a null city prints as "null". */
  function NgaCityPhrase(d: LocationData): string
  {
    OrElse(d.fromLocation.ngaFormat, Interp(d.fromLocation.city))
  }

  function PerCityPhrase(d: LocationData): string
  {
    OrElse(d.toLocation.perFormat, Interp(d.toLocation.city))
  }

  function NgaStatePhrase(d: LocationData): string
  {
    OrElse(d.fromLocation.ngaFormat, d.fromLocation.state)
  }

  function PerStatePhrase(d: LocationData): string
  {
    OrElse(d.toLocation.perFormat, d.toLocation.state)
  }

  /** `replacePlaceholders(text, locationData)`: `''` for an empty text, else
      the four `replace(/token/g, phrase)` steps, each on the previous result. */
  function ReplacePlaceholders(text: string, d: LocationData): (r: string)
    ensures text == "" ==> r == ""
  {
    if text == "" then ""
    else
      var r1 := ReplaceAll(text, NgaCity, NgaCityPhrase(d));
      var r2 := ReplaceAll(r1, PerCity, PerCityPhrase(d));
      var r3 := ReplaceAll(r2, NgaState, NgaStatePhrase(d));
      ReplaceAll(r3, PerState, PerStatePhrase(d))
  }

  predicate NoToken(s: string)
  {
    !Occurs(s, NgaCity) && !Occurs(s, PerCity) && !Occurs(s, NgaState) && !Occurs(s, PerState)
  }

  /** A text holding none of the four tokens is returned unchanged. */
  lemma NoTokenUnchanged(text: string, d: LocationData)
    requires NoToken(text)
    ensures ReplacePlaceholders(text, d) == text
  {
    ReplaceAbsent(text, NgaCity, NgaCityPhrase(d));
    ReplaceAbsent(text, PerCity, PerCityPhrase(d));
    ReplaceAbsent(text, NgaState, NgaStatePhrase(d));
    ReplaceAbsent(text, PerState, PerStatePhrase(d));
  }

  lemma ReplaceWhole(s: string, rep: string)
    requires |s| > 0
    ensures ReplaceAll(s, s, rep) == rep
  {
    assert s[..|s|] == s;
    assert s[|s|..] == "";
  }

  lemma {:induction false} SameLengthOccurs(s: string, pat: string)
    requires |s| == |pat| && s != pat
    ensures !Occurs(s, pat)
  {
    NoRoomNoOccurrence(s[1..], pat);
  }

  lemma {:induction false} OneLongerOccurs(s: string, pat: string)
    requires |s| == |pat| + 1 && s[..|pat|] != pat && s[1..] != pat
    ensures !Occurs(s, pat)
  {
    SameLengthOccurs(s[1..], pat);
  }

  /** No token occurs inside a later one, so a lone later token survives the
      earlier steps. */
  lemma PerCityApart()
    ensures !Occurs(PerCity, NgaCity)
  {
    assert PerCity[1] != NgaCity[1];
    SameLengthOccurs(PerCity, NgaCity);
  }

  lemma NgaStateApart()
    ensures !Occurs(NgaState, NgaCity) && !Occurs(NgaState, PerCity)
  {
    NgaStateApartFrom(NgaCity);
    NgaStateApartFrom(PerCity);
  }

  lemma NgaStateApartFrom(token: string)
    requires token == NgaCity || token == PerCity
    ensures !Occurs(NgaState, token)
  {
    assert NgaState[5] != token[5] && NgaState[1..][0] != token[0];
    OneLongerOccurs(NgaState, token);
  }

  lemma PerStateApart()
    ensures !Occurs(PerState, NgaCity) && !Occurs(PerState, PerCity) && !Occurs(PerState, NgaState)
  {
    PerStateApartFrom(NgaCity);
    PerStateApartFrom(PerCity);
    PerStateApartFromNgaState();
  }

  lemma PerStateApartFromNgaState()
    ensures !Occurs(PerState, NgaState)
  {
    assert PerState[1] != NgaState[1];
    SameLengthOccurs(PerState, NgaState);
  }

  lemma PerStateApartFrom(token: string)
    requires token == NgaCity || token == PerCity
    ensures !Occurs(PerState, token)
  {
    assert PerState[5] != token[5] && PerState[1..][0] != token[0];
    OneLongerOccurs(PerState, token);
  }

  /** `{nga_city}` alone becomes `from.nga_format` when it is non-empty, else the
      raw `from.city` (no "nga " is added; a null city prints "null"), as long
      as that phrase holds none of the later tokens. */
  lemma NgaCityAlone(d: LocationData)
    requires !Occurs(NgaCityPhrase(d), PerCity) && !Occurs(NgaCityPhrase(d), NgaState)
    requires !Occurs(NgaCityPhrase(d), PerState)
    ensures ReplacePlaceholders(NgaCity, d) ==
            if Truthy(d.fromLocation.ngaFormat) then d.fromLocation.ngaFormat.value
            else Interp(d.fromLocation.city)
  {
    var p := NgaCityPhrase(d);
    ReplaceWhole(NgaCity, p);
    ReplaceAbsent(p, PerCity, PerCityPhrase(d));
    ReplaceAbsent(p, NgaState, NgaStatePhrase(d));
    ReplaceAbsent(p, PerState, PerStatePhrase(d));
  }

  /** `{per_city}` alone becomes `to.per_format` or else the raw `to.city`. */
  lemma PerCityAlone(d: LocationData)
    requires !Occurs(PerCityPhrase(d), NgaState) && !Occurs(PerCityPhrase(d), PerState)
    ensures ReplacePlaceholders(PerCity, d) ==
            if Truthy(d.toLocation.perFormat) then d.toLocation.perFormat.value
            else Interp(d.toLocation.city)
  {
    var p := PerCityPhrase(d);
    PerCityApart();
    ReplaceAbsent(PerCity, NgaCity, NgaCityPhrase(d));
    ReplaceWhole(PerCity, p);
    ReplaceAbsent(p, NgaState, NgaStatePhrase(d));
    ReplaceAbsent(p, PerState, PerStatePhrase(d));
  }

  /** `{nga_state}` alone becomes `from.nga_format` or else `from.state`. */
  lemma NgaStateAlone(d: LocationData)
    requires !Occurs(NgaStatePhrase(d), PerState)
    ensures ReplacePlaceholders(NgaState, d) ==
            if Truthy(d.fromLocation.ngaFormat) then d.fromLocation.ngaFormat.value
            else d.fromLocation.state
  {
    var p := NgaStatePhrase(d);
    NgaStateApart();
    ReplaceAbsent(NgaState, NgaCity, NgaCityPhrase(d));
    ReplaceAbsent(NgaState, PerCity, PerCityPhrase(d));
    ReplaceWhole(NgaState, p);
    ReplaceAbsent(p, PerState, PerStatePhrase(d));
  }

  /** `{per_state}` alone becomes `to.per_format` or else `to.state`. */
  lemma PerStateAlone(d: LocationData)
    ensures ReplacePlaceholders(PerState, d) ==
            if Truthy(d.toLocation.perFormat) then d.toLocation.perFormat.value
            else d.toLocation.state
  {
    PerStateApart();
    ReplaceAbsent(PerState, NgaCity, NgaCityPhrase(d));
    ReplaceAbsent(PerState, PerCity, PerCityPhrase(d));
    ReplaceAbsent(PerState, NgaState, NgaStatePhrase(d));
    ReplaceWhole(PerState, PerStatePhrase(d));
  }

  /** The steps run in order, so a phrase that itself holds a later token is
      expanded again: a `nga_format` of "{per_city}" ends up as the destination. */
  lemma LaterStepsRewriteEarlierPhrases(d: LocationData)
    requires d.fromLocation.ngaFormat == Some(PerCity)
    requires !Occurs(PerCityPhrase(d), NgaState) && !Occurs(PerCityPhrase(d), PerState)
    ensures ReplacePlaceholders(NgaCity, d) == PerCityPhrase(d)
  {
    var p := PerCityPhrase(d);
    ReplaceWhole(NgaCity, PerCity);
    ReplaceWhole(PerCity, p);
    ReplaceAbsent(p, NgaState, NgaStatePhrase(d));
    ReplaceAbsent(p, PerState, PerStatePhrase(d));
  }
}
