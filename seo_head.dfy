/** The generic head component (`SEOHead` of the seo components): the canonical
    URL and the list of head tags, with a structured-data script only when the
    caller passes one. Tags are modelled as values; rendering into the document
    head is not part of this model. */
module SeoHead {
  import opened Base

  const BaseUrl: string := "https://himatravel.com"
  const DefaultImage: string := "https://images.unsplash.com/photo-1436491865332-7a61a109cc05?auto=format&fit=crop&q=80"
  const DefaultType: string := "website"

  /** A JSON value, as `JSON.stringify` would print it. */
  datatype Json =
    | JString(s: string)
    | JNumber(n: int)
    | JNull
    | JObject(fields: seq<(string, Json)>)

  datatype MetaAttr = Name | Property | HttpEquiv

  datatype Tag =
    | TitleTag(text: string)
    | Meta(attr: MetaAttr, key: string, content: string)
    | LinkTag(rel: string, href: string)
    | LdJson(data: Json)

  /** The content of the first meta tag with this key. */
  function MetaContent(tags: seq<Tag>, key: string): Option<string>
    decreases |tags|
  {
    if tags == [] then None
    else if tags[0].Meta? && tags[0].key == key then Some(tags[0].content)
    else MetaContent(tags[1..], key)
  }

  /** The text of the first title tag. */
  function TitleOf(tags: seq<Tag>): Option<string>
    decreases |tags|
  {
    if tags == [] then None
    else if tags[0].TitleTag? then Some(tags[0].text)
    else TitleOf(tags[1..])
  }

  /** The target of the first canonical link. */
  function CanonicalOf(tags: seq<Tag>): Option<string>
    decreases |tags|
  {
    if tags == [] then None
    else if tags[0].LinkTag? && tags[0].rel == "canonical" then Some(tags[0].href)
    else CanonicalOf(tags[1..])
  }

  predicate IsMetaWith(t: Tag, key: string)
  {
    t.Meta? && t.key == key
  }

  /** The first meta tag with a key is the one `MetaContent` reports. */
  lemma {:induction false} MetaAt(tags: seq<Tag>, i: nat, key: string)
    requires i < |tags| && IsMetaWith(tags[i], key)
    requires forall j :: 0 <= j < i ==> !IsMetaWith(tags[j], key)
    ensures MetaContent(tags, key) == Some(tags[i].content)
    decreases i
  {
    if i > 0 {
      MetaAt(tags[1..], i - 1, key);
    }
  }

  lemma {:induction false} CanonicalAt(tags: seq<Tag>, i: nat)
    requires i < |tags| && tags[i].LinkTag? && tags[i].rel == "canonical"
    requires forall j :: 0 <= j < i ==> !tags[j].LinkTag?
    ensures CanonicalOf(tags) == Some(tags[i].href)
    decreases i
  {
    if i > 0 {
      CanonicalAt(tags[1..], i - 1);
    }
  }

  predicate HasLdJson(tags: seq<Tag>)
  {
    exists i :: 0 <= i < |tags| && tags[i].LdJson?
  }

  /** `canonicalUrl ? `${baseUrl}${canonicalUrl}` : baseUrl`. */
  function FullUrl(canonicalUrl: Option<string>): (r: string)
    ensures StartsWithBase(r)
    ensures Truthy(canonicalUrl) ==> r[|BaseUrl|..] == canonicalUrl.value
    ensures !Truthy(canonicalUrl) ==> r == BaseUrl
  {
    if Truthy(canonicalUrl) then BaseUrl + canonicalUrl.value else BaseUrl
  }

  predicate StartsWithBase(url: string)
  {
    |BaseUrl| <= |url| && url[..|BaseUrl|] == BaseUrl
  }

  datatype Props = Props(
    title: string,
    description: string,
    canonicalUrl: Option<string>,
    structuredData: Option<Json>,
    imageUrl: Option<string>,
    pageType: Option<string>)

  /** The tags of the open-graph and twitter blocks shared by both head components. */
  function SocialTags(title: string, description: string, pageType: string, url: string, image: string): seq<Tag>
  {
    [ Meta(Property, "og:title", title),
      Meta(Property, "og:description", description),
      Meta(Property, "og:type", pageType),
      Meta(Property, "og:url", url),
      Meta(Property, "og:image", image),
      Meta(Property, "og:site_name", "Hima Travel"),
      Meta(Name, "twitter:card", "summary_large_image"),
      Meta(Name, "twitter:title", title),
      Meta(Name, "twitter:description", description),
      Meta(Name, "twitter:image", image) ]
  }

  /** A defaulted prop: `= default` applies only when the prop is left out. */
  function Defaulted(p: Option<string>, default: string): string
  {
    if p.Some? then p.value else default
  }

  /** The head tags in the order the component lists them. */
  function Head(p: Props): (tags: seq<Tag>)
    ensures TitleOf(tags) == Some(p.title)
    ensures MetaContent(tags, "description") == Some(p.description)
    ensures CanonicalOf(tags) == Some(FullUrl(p.canonicalUrl))
    ensures MetaContent(tags, "robots") == Some("index, follow")
    ensures HasLdJson(tags) <==> p.structuredData.Some?
  {
    var url := FullUrl(p.canonicalUrl);
    var image := Defaulted(p.imageUrl, DefaultImage);
    var pageType := Defaulted(p.pageType, DefaultType);
    var basic := [TitleTag(p.title), Meta(Name, "description", p.description), LinkTag("canonical", url)];
    var social := SocialTags(p.title, p.description, pageType, url, image);
    var script := if p.structuredData.Some? then [LdJson(p.structuredData.value)] else [];
    var extra := [ Meta(Name, "robots", "index, follow"),
                   Meta(HttpEquiv, "Content-Type", "text/html; charset=utf-8"),
                   Meta(Name, "language", "Albanian") ];
    var tags := basic + social + script + extra;
    assert p.structuredData.Some? ==> tags[|basic| + |social|].LdJson?;
    CanonicalAt(tags, 2);
    MetaAt(tags, |basic| + |social| + |script|, "robots");
    tags
  }

  /** The title appears as the open-graph and the twitter title. */
  lemma HeadRepeatsTitle(p: Props)
    ensures MetaContent(Head(p), "og:title") == Some(p.title)
    ensures MetaContent(Head(p), "twitter:title") == Some(p.title)
  {
    MetaAt(Head(p), 3, "og:title");
    MetaAt(Head(p), 10, "twitter:title");
  }

  /** The description appears as the open-graph and the twitter description. */
  lemma HeadRepeatsDescription(p: Props)
    ensures MetaContent(Head(p), "og:description") == Some(p.description)
    ensures MetaContent(Head(p), "twitter:description") == Some(p.description)
  {
    MetaAt(Head(p), 4, "og:description");
    MetaAt(Head(p), 11, "twitter:description");
  }

  /** The open-graph URL is the canonical URL. */
  lemma HeadOpenGraphUrl(p: Props)
    ensures MetaContent(Head(p), "og:url") == Some(FullUrl(p.canonicalUrl))
  {
    MetaAt(Head(p), 6, "og:url");
  }

  /** The open-graph image takes its default only when the caller leaves it out. */
  lemma HeadOpenGraphImage(p: Props)
    ensures MetaContent(Head(p), "og:image") == Some(if p.imageUrl.Some? then p.imageUrl.value else DefaultImage)
  {
    MetaAt(Head(p), 7, "og:image");
  }

  /** So does the open-graph type. */
  lemma HeadOpenGraphType(p: Props)
    ensures MetaContent(Head(p), "og:type") == Some(if p.pageType.Some? then p.pageType.value else DefaultType)
  {
    MetaAt(Head(p), 5, "og:type");
  }
}
