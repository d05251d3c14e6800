/** The head component used by the SEO route pages (`SEOHead` of the
    seo-component templates): the same tags as the generic head, a schema.org
    `TravelAction` record built when the caller gives none, and a
    `geo.placename` tag. */
module SeoHeadTemplate {
  import opened Base
  import opened SeoHead

  /** Fields of a JSON object in insertion order. */
  type Fields = seq<(string, Json)>

  /** The value of a key of an object. */
  function Field(fields: Fields, key: string): Option<Json>
    decreases |fields|
  {
    if fields == [] then None
    else if fields[0].0 == key then Some(fields[0].1)
    else Field(fields[1..], key)
  }

  function Keys(fields: Fields): seq<string>
  {
    seq(|fields|, i requires 0 <= i < |fields| => fields[i].0)
  }

  /** Assigning a property: an existing key keeps its place and takes the new
      value; a new key is added at the end. */
  function SetField(fields: Fields, key: string, value: Json): (r: Fields)
    ensures Field(r, key) == Some(value)
    ensures forall k :: k != key ==> Field(r, k) == Field(fields, k)
    ensures Field(fields, key).Some? ==> Keys(r) == Keys(fields)
    ensures Field(fields, key).None? ==> Keys(r) == Keys(fields) + [key]
    decreases |fields|
  {
    if fields == [] then [(key, value)]
    else if fields[0].0 == key then [(key, value)] + fields[1..]
    else
      var rest := SetField(fields[1..], key, value);
      assert Keys([fields[0]] + rest) == [fields[0].0] + Keys(rest);
      assert Keys(fields) == [fields[0].0] + Keys(fields[1..]);
      [fields[0]] + rest
  }

  /** `{ ...fields, ...extra }`: the properties of `extra` assigned in order. */
  function Spread(fields: Fields, extra: Fields): Fields
    decreases |extra|
  {
    if extra == [] then fields else Spread(SetField(fields, extra[0].0, extra[0].1), extra[1..])
  }

  lemma SpreadTwo(fields: Fields, extra: Fields)
    requires |extra| == 2
    ensures Spread(fields, extra) == SetField(SetField(fields, extra[0].0, extra[0].1), extra[1].0, extra[1].1)
  {
    var once := SetField(fields, extra[0].0, extra[0].1);
    assert extra[1..][0] == extra[1];
    assert extra[1..][1..] == [];
    assert Spread(once, extra[1..]) == Spread(SetField(once, extra[1].0, extra[1].1), []);
  }

  lemma {:induction false} FieldAbsent(fields: Fields, key: string)
    requires forall i :: 0 <= i < |fields| ==> fields[i].0 != key
    ensures Field(fields, key).None?
    decreases |fields|
  {
    if fields != [] {
      FieldAbsent(fields[1..], key);
    }
  }

  /** `{ '@type': kind, name: name }` */
  function Place(kind: string, name: string): Json
  {
    JObject([("@type", JString(kind)), ("name", JString(name))])
  }

  function LocationPair(kind: string, from: string, to: string): Fields
  {
    [("fromLocation", Place(kind, from)), ("toLocation", Place(kind, to))]
  }

  datatype TemplateProps = TemplateProps(
    title: string,
    description: string,
    canonicalUrl: Option<string>,
    structuredData: Option<Json>,
    imageUrl: Option<string>,
    pageType: Option<string>,
    fromCity: Option<string>,
    toCity: Option<string>,
    fromState: Option<string>,
    toState: Option<string>)

  function Opening(p: TemplateProps): Fields
  {
    [ ("@context", JString("https://schema.org")),
      ("@type", JString("TravelAction")),
      ("name", JString(p.title)),
      ("description", JString(p.description)),
      ("url", JString(FullUrl(p.canonicalUrl))) ]
  }

  /** `...(a && b && {...})`: spreading a falsy value adds nothing. */
  function SpreadIf(fields: Fields, cond: bool, extra: Fields): Fields
  {
    if cond then Spread(fields, extra) else fields
  }

  const Provider: Json := JObject([("@type", JString("TravelAgency")), ("name", JString("Hima Travel")),
                                   ("url", JString(BaseUrl))])

  /** `defaultStructuredData`: the opening keys, then the city pair when both
      cities are given, then the state pair when both states are given, then the
      provider. */
  function DefaultFields(p: TemplateProps): Fields
  {
    SetField(WithStatePair(p), "provider", Provider)
  }

  /** The opening keys and the city pair when both cities are given. */
  function WithCityPair(p: TemplateProps): Fields
  {
    SpreadIf(Opening(p), Truthy(p.fromCity) && Truthy(p.toCity),
             LocationPair("City", OrElse(p.fromCity, ""), OrElse(p.toCity, "")))
  }

  /** Then the state pair when both states are given. */
  function WithStatePair(p: TemplateProps): Fields
  {
    SpreadIf(WithCityPair(p), Truthy(p.fromState) && Truthy(p.toState),
             LocationPair("State", OrElse(p.fromState, ""), OrElse(p.toState, "")))
  }

  lemma SpreadPair(fields: Fields, kind: string, from: string, to: string)
    ensures var r := Spread(fields, LocationPair(kind, from, to));
            && Field(r, "fromLocation") == Some(Place(kind, from))
            && Field(r, "toLocation") == Some(Place(kind, to))
            && (forall k :: k != "fromLocation" && k != "toLocation" ==> Field(r, k) == Field(fields, k))
  {
    SpreadTwo(fields, LocationPair(kind, from, to));
  }

  lemma OpeningHasNoLocation(p: TemplateProps)
    ensures Field(Opening(p), "fromLocation").None? && Field(Opening(p), "toLocation").None?
  {
    FieldAbsent(Opening(p), "fromLocation");
    FieldAbsent(Opening(p), "toLocation");
  }

  /** With both states given the locations are `State`s, whatever the cities. */
  lemma StatePairOverridesCityPair(p: TemplateProps)
    requires Truthy(p.fromState) && Truthy(p.toState)
    ensures Field(DefaultFields(p), "fromLocation") == Some(Place("State", p.fromState.value))
    ensures Field(DefaultFields(p), "toLocation") == Some(Place("State", p.toState.value))
  {
    SpreadPair(WithCityPair(p), "State", p.fromState.value, p.toState.value);
  }

  /** With both cities but not both states the locations are `City`s. */
  lemma CityPairWithoutStatePair(p: TemplateProps)
    requires Truthy(p.fromCity) && Truthy(p.toCity)
    requires !(Truthy(p.fromState) && Truthy(p.toState))
    ensures Field(DefaultFields(p), "fromLocation") == Some(Place("City", p.fromCity.value))
    ensures Field(DefaultFields(p), "toLocation") == Some(Place("City", p.toCity.value))
  {
    SpreadPair(Opening(p), "City", p.fromCity.value, p.toCity.value);
  }

  /** With neither pair complete the record has no location keys at all. */
  lemma NoPairNoLocations(p: TemplateProps)
    requires !(Truthy(p.fromCity) && Truthy(p.toCity))
    requires !(Truthy(p.fromState) && Truthy(p.toState))
    ensures Field(DefaultFields(p), "fromLocation").None?
    ensures Field(DefaultFields(p), "toLocation").None?
  {
    OpeningHasNoLocation(p);
    assert WithCityPair(p) == Opening(p);
    assert WithStatePair(p) == Opening(p);
  }

  /** Spreading a pair into a record without location keys appends both keys. */
  lemma PairKeysAppended(fields: Fields, kind: string, from: string, to: string)
    requires Field(fields, "fromLocation").None? && Field(fields, "toLocation").None?
    ensures var r := Spread(fields, LocationPair(kind, from, to));
            && Keys(r) == Keys(fields) + ["fromLocation", "toLocation"]
            && Field(r, "fromLocation").Some? && Field(r, "toLocation").Some?
            && Field(r, "provider") == Field(fields, "provider")
  {
    SpreadTwo(fields, LocationPair(kind, from, to));
    SetTwoKeys(fields, "fromLocation", Place(kind, from), "toLocation", Place(kind, to), "provider");
  }

  /** Spreading a pair into a record that has both location keys keeps the keys. */
  lemma PairKeysKept(fields: Fields, kind: string, from: string, to: string)
    requires Field(fields, "fromLocation").Some? && Field(fields, "toLocation").Some?
    ensures var r := Spread(fields, LocationPair(kind, from, to));
            && Keys(r) == Keys(fields)
            && Field(r, "provider") == Field(fields, "provider")
  {
    SpreadTwo(fields, LocationPair(kind, from, to));
    SetTwoKeys(fields, "fromLocation", Place(kind, from), "toLocation", Place(kind, to), "provider");
  }

  /** Assigning two distinct keys: each new key goes to the end, an existing one
      keeps its place, and a third key keeps its value. */
  lemma SetTwoKeys(fields: Fields, k1: string, v1: Json, k2: string, v2: Json, other: string)
    requires k1 != k2 && other != k1 && other != k2
    ensures var r := SetField(SetField(fields, k1, v1), k2, v2);
            && (Field(fields, k1).None? && Field(fields, k2).None? ==> Keys(r) == Keys(fields) + [k1, k2])
            && (Field(fields, k1).Some? && Field(fields, k2).Some? ==> Keys(r) == Keys(fields))
            && Field(r, k1).Some? && Field(r, k2).Some?
            && Field(r, other) == Field(fields, other)
  {
    var once := SetField(fields, k1, v1);
    assert Field(once, k2) == Field(fields, k2);
    assert Field(once, other) == Field(fields, other);
    var twice := SetField(once, k2, v2);
    assert Field(twice, k1) == Field(once, k1);
    if Field(fields, k1).None? && Field(fields, k2).None? {
      assert Keys(twice) == Keys(fields) + [k1] + [k2];
    }
  }

  /** The state pair overwrites the city pair in place: the record keeps one
      `fromLocation` and one `toLocation`, right after `url`, then `provider`. */
  lemma BothPairsKeyOrder(p: TemplateProps)
    requires Truthy(p.fromCity) && Truthy(p.toCity)
    requires Truthy(p.fromState) && Truthy(p.toState)
    ensures Keys(DefaultFields(p)) ==
            ["@context", "@type", "name", "description", "url", "fromLocation", "toLocation", "provider"]
  {
    BothPairsKeysAfterOpening(p);
    OpeningKeys(p);
  }

  lemma OpeningKeys(p: TemplateProps)
    ensures Keys(Opening(p)) == ["@context", "@type", "name", "description", "url"]
  {
  }

  lemma BothPairsKeysAfterOpening(p: TemplateProps)
    requires Truthy(p.fromCity) && Truthy(p.toCity)
    requires Truthy(p.fromState) && Truthy(p.toState)
    ensures Keys(DefaultFields(p)) == Keys(Opening(p)) + ["fromLocation", "toLocation", "provider"]
  {
    OpeningHasNoLocation(p);
    FieldAbsent(Opening(p), "provider");
    PairKeysAppended(Opening(p), "City", p.fromCity.value, p.toCity.value);
    PairKeysKept(WithCityPair(p), "State", p.fromState.value, p.toState.value);
  }

  function PlaceName(p: TemplateProps): string
  {
    OrElse(p.fromCity, OrElse(p.fromState, "Albania"))
  }

  /** The data of the first structured-data script. */
  function ScriptData(tags: seq<Tag>): Option<Json>
    decreases |tags|
  {
    if tags == [] then None
    else if tags[0].LdJson? then Some(tags[0].data)
    else ScriptData(tags[1..])
  }

  lemma {:induction false} ScriptAt(tags: seq<Tag>, i: nat)
    requires i < |tags| && tags[i].LdJson?
    requires forall j :: 0 <= j < i ==> !tags[j].LdJson?
    ensures ScriptData(tags) == Some(tags[i].data)
    decreases i
  {
    if i > 0 {
      ScriptAt(tags[1..], i - 1);
    }
  }

  /** The tag list of the template component, in order, for values already worked out. */
  function TemplateTags(title: string, description: string, url: string, image: string,
                        pageType: string, data: Json, place: string): seq<Tag>
  {
    var basic := [TitleTag(title), Meta(Name, "description", description), LinkTag("canonical", url)];
    var social := SocialTags(title, description, pageType, url, image);
    var extra := [ Meta(Name, "robots", "index, follow"),
                   Meta(HttpEquiv, "Content-Type", "text/html; charset=utf-8"),
                   Meta(Name, "language", "Albanian"),
                   Meta(Name, "author", "Hima Travel"),
                   Meta(Name, "geo.region", "AL"),
                   Meta(Name, "geo.placename", place) ];
    basic + social + [LdJson(data)] + extra
  }

  /** The title, the canonical link and the structured-data script. */
  lemma TemplateTagsLinks(title: string, description: string, url: string, image: string,
                          pageType: string, data: Json, place: string)
    ensures var tags := TemplateTags(title, description, url, image, pageType, data, place);
            && TitleOf(tags) == Some(title)
            && CanonicalOf(tags) == Some(url)
            && ScriptData(tags) == Some(data)
  {
    var tags := TemplateTags(title, description, url, image, pageType, data, place);
    CanonicalAt(tags, 2);
    ScriptAt(tags, 13);
  }

  /** The open-graph title, URL, image and type. */
  lemma TemplateTagsOpenGraph(title: string, description: string, url: string, image: string,
                              pageType: string, data: Json, place: string)
    ensures var tags := TemplateTags(title, description, url, image, pageType, data, place);
            && MetaContent(tags, "og:title") == Some(title)
            && MetaContent(tags, "og:url") == Some(url)
            && MetaContent(tags, "og:image") == Some(image)
            && MetaContent(tags, "og:type") == Some(pageType)
  {
    var tags := TemplateTags(title, description, url, image, pageType, data, place);
    MetaAt(tags, 3, "og:title");
    MetaAt(tags, 5, "og:type");
    MetaAt(tags, 6, "og:url");
    MetaAt(tags, 7, "og:image");
  }

  /** The twitter title and the place name. */
  lemma TemplateTagsTwitterAndPlace(title: string, description: string, url: string, image: string,
                                    pageType: string, data: Json, place: string)
    ensures var tags := TemplateTags(title, description, url, image, pageType, data, place);
            && MetaContent(tags, "twitter:title") == Some(title)
            && MetaContent(tags, "geo.placename") == Some(place)
  {
    var tags := TemplateTags(title, description, url, image, pageType, data, place);
    MetaAt(tags, 10, "twitter:title");
    MetaAt(tags, 19, "geo.placename");
  }

  /** `structuredData || defaultStructuredData`: the caller's record replaces the
      default one entirely. */
  function StructuredRecord(p: TemplateProps): Json
  {
    if p.structuredData.Some? then p.structuredData.value else JObject(DefaultFields(p))
  }

  /** The head tags of the template component. */
  function TemplateHead(p: TemplateProps): (tags: seq<Tag>)
    ensures TitleOf(tags) == Some(p.title)
    ensures CanonicalOf(tags) == Some(FullUrl(p.canonicalUrl))
    ensures ScriptData(tags) ==
            Some(if p.structuredData.Some? then p.structuredData.value else JObject(DefaultFields(p)))
    ensures MetaContent(tags, "og:title") == Some(p.title)
    ensures MetaContent(tags, "twitter:title") == Some(p.title)
    ensures MetaContent(tags, "og:url") == Some(FullUrl(p.canonicalUrl))
    ensures MetaContent(tags, "og:image") == Some(if p.imageUrl.Some? then p.imageUrl.value else DefaultImage)
    ensures MetaContent(tags, "og:type") == Some(if p.pageType.Some? then p.pageType.value else DefaultType)
    ensures MetaContent(tags, "geo.placename") ==
            Some(if Truthy(p.fromCity) then p.fromCity.value
                 else if Truthy(p.fromState) then p.fromState.value else "Albania")
  {
    var url, image, pageType := FullUrl(p.canonicalUrl), Defaulted(p.imageUrl, DefaultImage), Defaulted(p.pageType, DefaultType);
    TemplateTagsLinks(p.title, p.description, url, image, pageType, StructuredRecord(p), PlaceName(p));
    TemplateTagsOpenGraph(p.title, p.description, url, image, pageType, StructuredRecord(p), PlaceName(p));
    TemplateTagsTwitterAndPlace(p.title, p.description, url, image, pageType, StructuredRecord(p), PlaceName(p));
    TemplateTags(p.title, p.description, url, image, pageType, StructuredRecord(p), PlaceName(p))
  }
}
