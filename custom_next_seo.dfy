/**
 * The SEO metadata resolution of the `CustomNextSeo` component: a loosely
 * typed SEO record from the content store becomes the props handed to the
 * `NextSeo` head component. Every field the content store may omit is an
 * `Option`; `None` stands for `undefined`/`null`.
 */
module CustomNextSeo {
  import opened Wrappers
  import opened Text

  // ---------------------------------------------------------------------------
  // Data model
  // ---------------------------------------------------------------------------

  /** A dereferenced image asset; only its URL is used. */
  datatype Asset = Asset(url: Option<string>)

  /** An image reference (crop and hotspot are not used by the pipeline). */
  datatype Image = Image(asset: Option<Asset>)

  /** One typed key/value attribute of an additional meta tag. */
  datatype MetaAttribute = MetaAttribute(
    attributeKey: string,
    attributeType: Option<string>,
    attributeValueString: Option<string>,
    attributeValueImage: Option<Image>)

  /** One additional meta tag group: an optional list of attributes. */
  datatype MetaTag = MetaTag(metaAttributes: Option<seq<MetaAttribute>>)

  /**
   * A flattened meta tag as handed to `NextSeo`. A string-typed attribute
   * without a string value still sets its key, to `undefined`.
   */
  type MetaTagProps = map<string, Option<string>>

  /** The Open Graph descriptor of the content store (`docType` is `_type`). */
  datatype OpenGraph = OpenGraph(
    docType: Option<string>,
    siteName: Option<string>,
    url: Option<string>,
    description: Option<string>,
    title: Option<string>,
    image: Option<Image>)

  datatype OpenGraphImage = OpenGraphImage(url: string)

  /** The Open Graph props handed to `NextSeo`. */
  datatype OpenGraphProps = OpenGraphProps(
    docType: Option<string>,
    description: Option<string>,
    siteName: Option<string>,
    url: Option<string>,
    title: Option<string>,
    images: seq<OpenGraphImage>)

  /** The Twitter descriptor of the content store. */
  datatype Twitter = Twitter(
    site: Option<string>,
    creator: Option<string>,
    cardType: Option<string>,
    handle: Option<string>)

  /** The Twitter props handed to `NextSeo`. */
  datatype TwitterProps = TwitterProps(
    handle: Option<string>,
    site: Option<string>,
    cardType: Option<string>)

  /** The SEO record of one page. */
  datatype SeoRecord = SeoRecord(
    metaTitle: Option<string>,
    metaDescription: Option<string>,
    seoKeywords: Option<seq<string>>,
    nofollowAttributes: Option<bool>,
    openGraph: Option<OpenGraph>,
    twitter: Option<Twitter>,
    additionalMetaTags: Option<seq<MetaTag>>)

  /** Everything `CustomNextSeo` passes to `NextSeo`. */
  datatype SeoProps = SeoProps(
    themeColor: string,
    twitter: TwitterProps,
    nofollow: Option<bool>,
    noindex: Option<bool>,
    openGraph: Option<OpenGraphProps>,
    canonical: string,
    additionalMetaTags: seq<MetaTagProps>,
    title: string,
    description: string)

  // ---------------------------------------------------------------------------
  // Image resolution
  // ---------------------------------------------------------------------------

  /** The image, its asset and the asset's URL are all present. */
  predicate HasAssetUrl(image: Option<Image>)
  {
    image.Some? && image.value.asset.Some? && image.value.asset.value.url.Some?
  }

  /** `image?.asset?.url ?? ""`. */
  function ResolveImage(image: Option<Image>): (r: string)
    ensures HasAssetUrl(image) ==> r == image.value.asset.value.url.value
    ensures !HasAssetUrl(image) ==> r == ""
  {
    match image
    case Some(Image(Some(Asset(Some(u))))) => u
    case _ => ""
  }

  // ---------------------------------------------------------------------------
  // Attribute flattening
  // ---------------------------------------------------------------------------

  /** The value one attribute contributes to its key. */
  function AttributeValue(a: MetaAttribute): Option<string>
  {
    if a.attributeType == Some("image") then Some(ResolveImage(a.attributeValueImage))
    else a.attributeValueString
  }

  /**
   * The key that `Object.assign` does not create as an own property for a
   * string or `undefined` value: assigning to it calls the inherited
   * prototype setter, which ignores such a value.
   */
  const ProtoKey: string := "__proto__"

  /** One `Object.assign(obj, {[key]: value})` step on the flattened object. */
  function Assign(obj: MetaTagProps, a: MetaAttribute): MetaTagProps
  {
    if a.attributeKey == ProtoKey then obj else obj[a.attributeKey := AttributeValue(a)]
  }

  /** The object that successive `Object.assign` calls build from `attrs`, in order. */
  function AttributeMap(attrs: seq<MetaAttribute>): MetaTagProps
  {
    if attrs == [] then map[]
    else
      var n := |attrs| - 1;
      Assign(AttributeMap(attrs[..n]), attrs[n])
  }

  /**
   * The keys of the flattened map are exactly the attribute keys of the
   * list, none skipped, except the prototype key, which a string or
   * `undefined` value does not create.
   */
  lemma {:induction false} AttributeMapKeys(attrs: seq<MetaAttribute>)
    ensures AttributeMap(attrs).Keys == (set a | a in attrs :: a.attributeKey) - {ProtoKey}
  {
    if attrs != [] {
      var n := |attrs| - 1;
      AttributeMapKeys(attrs[..n]);
      assert attrs == attrs[..n] + [attrs[n]];
      assert (set a | a in attrs :: a.attributeKey)
          == (set a | a in attrs[..n] :: a.attributeKey) + {attrs[n].attributeKey};
    }
  }

  /**
   * Last write wins: a key maps to the value of the LAST attribute carrying
   * it; an image-typed attribute gives its resolved image URL, any other
   * gives its string value. (The prototype key has no value: see
   * `AttributeMapKeys`.)
   */
  lemma {:induction false} AttributeMapLastWins(attrs: seq<MetaAttribute>, i: nat)
    requires i < |attrs| && attrs[i].attributeKey != ProtoKey
    requires forall j :: i < j < |attrs| ==> attrs[j].attributeKey != attrs[i].attributeKey
    ensures attrs[i].attributeKey in AttributeMap(attrs)
    ensures AttributeMap(attrs)[attrs[i].attributeKey]
         == if attrs[i].attributeType == Some("image")
            then Some(ResolveImage(attrs[i].attributeValueImage))
            else attrs[i].attributeValueString
  {
    var n := |attrs| - 1;
    if i < n {
      var prefix := attrs[..n];
      assert forall j :: i < j < |prefix| ==> prefix[j] == attrs[j];
      AttributeMapLastWins(prefix, i);
    }
  }

  /** `getMetaAttribute`: null exactly for an absent list, otherwise the flattened map. */
  method GetMetaAttribute(attrs: Option<seq<MetaAttribute>>) returns (r: Option<MetaTagProps>)
    ensures r.None? <==> attrs.None?
    ensures attrs.Some? ==> r.value == AttributeMap(attrs.value)
  {
    if attrs.None? {
      return None;
    }
    var list := attrs.value;
    var obj: MetaTagProps := map[];
    var i := 0;
    while i < |list|
      invariant 0 <= i <= |list|
      invariant obj == AttributeMap(list[..i])
    {
      obj := Assign(obj, list[i]);
      assert list[..i + 1][..i] == list[..i];
      i := i + 1;
    }
    assert list[..i] == list;
    return Some(obj);
  }

  // ---------------------------------------------------------------------------
  // Indexing-policy filter
  // ---------------------------------------------------------------------------

  /** JavaScript truthiness of an optional boolean. */
  predicate Truthy(b: Option<bool>)
  {
    b == Some(true)
  }

  /** The attribute's string value, whatever its type, mentions `noindex` or `nofollow`. */
  predicate SignalsNoIndexing(a: MetaAttribute)
  {
    a.attributeValueString.Some?
    && (Includes(a.attributeValueString.value, "noindex")
        || Includes(a.attributeValueString.value, "nofollow"))
  }

  /** `excludeTag`: indexing is not allowed and some attribute signals no indexing. */
  predicate Excluded(tag: MetaTag, allowIndexing: Option<bool>)
  {
    && !Truthy(allowIndexing)
    && tag.metaAttributes.Some?
    && exists a :: a in tag.metaAttributes.value && SignalsNoIndexing(a)
  }

  /** A group that is pushed onto the output: it has attributes and is not excluded. */
  predicate Survives(tag: MetaTag, allowIndexing: Option<bool>)
  {
    tag.metaAttributes.Some? && !Excluded(tag, allowIndexing)
  }

  /** What one group adds to the output. */
  function Contribution(tag: MetaTag, allowIndexing: Option<bool>): seq<MetaTagProps>
  {
    if Survives(tag, allowIndexing) then [AttributeMap(tag.metaAttributes.value)] else []
  }

  /**
   * The output of `getMetaObjects`: the output for all groups but the last,
   * then the last group's contribution.
   */
  function MetaObjects(tags: seq<MetaTag>, allowIndexing: Option<bool>): (r: seq<MetaTagProps>)
    ensures |r| <= |tags|
  {
    if tags == [] then []
    else
      var n := |tags| - 1;
      MetaObjects(tags[..n], allowIndexing) + Contribution(tags[n], allowIndexing)
  }

  /** `getMetaObjects`: pushes the flattened attributes of each surviving group. */
  method GetMetaObjects(tags: seq<MetaTag>, allowIndexing: Option<bool>) returns (tagArray: seq<MetaTagProps>)
    ensures tagArray == MetaObjects(tags, allowIndexing)
  {
    tagArray := [];
    var i := 0;
    while i < |tags|
      invariant 0 <= i <= |tags|
      invariant tagArray == MetaObjects(tags[..i], allowIndexing)
    {
      var tag := tags[i];
      var excludeTag := Excluded(tag, allowIndexing);
      if !excludeTag {
        var metaTag := GetMetaAttribute(tag.metaAttributes);
        if metaTag.Some? {
          tagArray := tagArray + [metaTag.value];
        }
      }
      assert tags[..i + 1][..i] == tags[..i];
      i := i + 1;
    }
    assert tags[..i] == tags;
  }

  /** The positions of the surviving groups, in increasing order. */
  ghost function SurvivorIndices(tags: seq<MetaTag>, allowIndexing: Option<bool>): seq<nat>
  {
    if tags == [] then []
    else
      var n := |tags| - 1;
      SurvivorIndices(tags[..n], allowIndexing) + (if Survives(tags[n], allowIndexing) then [n] else [])
  }

  /** The surviving positions are positions of `tags`, in strictly increasing order. */
  lemma {:induction false} SurvivorIndicesIncrease(tags: seq<MetaTag>, allowIndexing: Option<bool>)
    ensures forall k :: 0 <= k < |SurvivorIndices(tags, allowIndexing)| ==>
              SurvivorIndices(tags, allowIndexing)[k] < |tags|
    ensures forall k, l :: 0 <= k < l < |SurvivorIndices(tags, allowIndexing)| ==>
              SurvivorIndices(tags, allowIndexing)[k] < SurvivorIndices(tags, allowIndexing)[l]
  {
    if tags != [] {
      var n := |tags| - 1;
      var prefix := tags[..n];
      SurvivorIndicesIncrease(prefix, allowIndexing);
      var idxP := SurvivorIndices(prefix, allowIndexing);
      var idx := SurvivorIndices(tags, allowIndexing);
      assert |prefix| == n;
      assert forall k :: 0 <= k < |idxP| ==> idxP[k] < n;
      assert idx == idxP + (if Survives(tags[n], allowIndexing) then [n] else []);
    }
  }

  /** Every surviving group's position is among the surviving positions. */
  lemma {:induction false} SurvivorIndicesComplete(tags: seq<MetaTag>, allowIndexing: Option<bool>)
    ensures forall i :: 0 <= i < |tags| && Survives(tags[i], allowIndexing) ==>
              i in SurvivorIndices(tags, allowIndexing)
  {
    if tags != [] {
      var n := |tags| - 1;
      var prefix := tags[..n];
      SurvivorIndicesComplete(prefix, allowIndexing);
      forall i | 0 <= i < n && Survives(tags[i], allowIndexing)
        ensures i in SurvivorIndices(tags, allowIndexing)
      {
        assert prefix[i] == tags[i];
      }
    }
  }

  /** Entry k of the output flattens the group at the k-th surviving position. */
  lemma {:induction false} MetaObjectsAtSurvivors(tags: seq<MetaTag>, allowIndexing: Option<bool>)
    ensures var idx := SurvivorIndices(tags, allowIndexing);
            var r := MetaObjects(tags, allowIndexing);
            && |idx| == |r|
            && forall k :: 0 <= k < |idx| ==>
                 && idx[k] < |tags|
                 && Survives(tags[idx[k]], allowIndexing)
                 && r[k] == AttributeMap(tags[idx[k]].metaAttributes.value)
  {
    if tags != [] {
      var n := |tags| - 1;
      var prefix := tags[..n];
      MetaObjectsAtSurvivors(prefix, allowIndexing);
      var idxP := SurvivorIndices(prefix, allowIndexing);
      var rP := MetaObjects(prefix, allowIndexing);
      var idx := SurvivorIndices(tags, allowIndexing);
      var r := MetaObjects(tags, allowIndexing);
      forall k | 0 <= k < |idxP|
        ensures idx[k] < |tags| && Survives(tags[idx[k]], allowIndexing)
        ensures r[k] == AttributeMap(tags[idx[k]].metaAttributes.value)
      {
        assert idx[k] == idxP[k] && r[k] == rP[k];
        assert prefix[idxP[k]] == tags[idxP[k]];
      }
    }
  }

  /**
   * The output is the order-preserving subsequence of surviving groups: its
   * k-th entry is the flattening of the group at the k-th surviving
   * position, those positions increase, and every surviving group appears.
   * Groups without an attribute list never survive, so never contribute.
   */
  lemma {:induction false} MetaObjectsAreSurvivors(tags: seq<MetaTag>, allowIndexing: Option<bool>)
    ensures var idx := SurvivorIndices(tags, allowIndexing);
            var r := MetaObjects(tags, allowIndexing);
            && |idx| == |r|
            && (forall k :: 0 <= k < |idx| ==>
                  && idx[k] < |tags|
                  && Survives(tags[idx[k]], allowIndexing)
                  && r[k] == AttributeMap(tags[idx[k]].metaAttributes.value))
            && (forall k, l :: 0 <= k < l < |idx| ==> idx[k] < idx[l])
            && (forall i :: 0 <= i < |tags| && Survives(tags[i], allowIndexing) ==> i in idx)
  {
    MetaObjectsAtSurvivors(tags, allowIndexing);
    SurvivorIndicesIncrease(tags, allowIndexing);
    SurvivorIndicesComplete(tags, allowIndexing);
  }

  /** With indexing allowed and every attribute list present, every group is flattened, in order. */
  lemma {:induction false} MetaObjectsAllowIndexing(tags: seq<MetaTag>, allowIndexing: Option<bool>)
    requires Truthy(allowIndexing)
    ensures forall i :: 0 <= i < |tags| ==>
              (Survives(tags[i], allowIndexing) <==> tags[i].metaAttributes.Some?)
    ensures (forall i :: 0 <= i < |tags| ==> tags[i].metaAttributes.Some?) ==>
              && |MetaObjects(tags, allowIndexing)| == |tags|
              && forall k :: 0 <= k < |tags| ==>
                   MetaObjects(tags, allowIndexing)[k] == AttributeMap(tags[k].metaAttributes.value)
  {
    if tags != [] {
      var n := |tags| - 1;
      MetaObjectsAllowIndexing(tags[..n], allowIndexing);
    }
  }

  // ---------------------------------------------------------------------------
  // Open Graph shaping
  // ---------------------------------------------------------------------------

  /** `getOpenGraph`: the fields copied, the image turned into exactly one `{url}` entry. */
  function GetOpenGraph(og: OpenGraph): (r: OpenGraphProps)
    ensures r.docType == og.docType && r.description == og.description
    ensures r.siteName == og.siteName && r.url == og.url && r.title == og.title
    ensures |r.images| == 1
    ensures r.images[0].url == ResolveImage(og.image)
    ensures og.image.None? ==> r.images[0].url == ""
  {
    var getImage := if og.image.Some? then Some(ResolveImage(og.image)) else None;
    OpenGraphProps(og.docType, og.description, og.siteName, og.url, og.title,
                   [OpenGraphImage(getImage.GetOr(""))])
  }

  // ---------------------------------------------------------------------------
  // Assembly
  // ---------------------------------------------------------------------------

  /** The canonical URL: the base URL, one `/`, then the slug without its leading `/`. */
  function CanonicalUrl(baseUrl: string, slug: string): (r: string)
    ensures r == baseUrl + "/" + (if StartsWith(slug, "/") then slug[1..] else slug)
    ensures |r| > |baseUrl| && r[..|baseUrl|] == baseUrl && r[|baseUrl|] == '/'
  {
    var path := if StartsWith(slug, "/") then slug else "/" + slug;
    assert StartsWith(slug, "/") ==> path == "/" + slug[1..];
    baseUrl + path
  }

  /** A slug with and without its leading `/` give the same canonical URL. */
  lemma CanonicalUrlSlashInsensitive(baseUrl: string, slug: string)
    requires !StartsWith(slug, "/")
    ensures CanonicalUrl(baseUrl, slug) == CanonicalUrl(baseUrl, "/" + slug)
  {
  }

  /** The `{name: "keywords", content}` tag, or nothing when there are no keywords. */
  function KeywordsTag(seoKeywords: Option<seq<string>>): (r: seq<MetaTagProps>)
  {
    if seoKeywords.Some? && |seoKeywords.value| > 0
    then [map["name" := Some("keywords"), "content" := Some(Join(seoKeywords.value, ", "))]]
    else []
  }

  /** The body of `CustomNextSeo`: the props it passes to `NextSeo`. */
  function Assemble(seo: Option<SeoRecord>, slug: string, baseUrl: string): (r: SeoProps)
    ensures r.themeColor == ""
    ensures r.noindex == r.nofollow
    ensures r.nofollow == (if seo.Some? then seo.value.nofollowAttributes else None)
    ensures r.canonical == CanonicalUrl(baseUrl, slug)
    ensures r.openGraph.Some? <==> seo.Some? && seo.value.openGraph.Some?
    ensures r.openGraph.Some? ==> r.openGraph.value == GetOpenGraph(seo.value.openGraph.value)
    ensures r.title == (if seo.Some? && seo.value.metaTitle.Some? then seo.value.metaTitle.value else "")
    ensures r.description
         == (if seo.Some? && seo.value.metaDescription.Some? then seo.value.metaDescription.value else "")
    ensures seo.Some? && seo.value.twitter.Some? ==>
              var t := seo.value.twitter.value;
              r.twitter == TwitterProps(t.creator, t.site, t.cardType)
    ensures seo.None? || seo.value.twitter.None? ==> r.twitter == TwitterProps(None, None, None)
    ensures seo.None? ==> r.additionalMetaTags == [] && r.nofollow.None?
  {
    var fields := seo.GetOr(SeoRecord(None, None, None, None, None, None, None));
    var tags := if fields.additionalMetaTags.Some?
                then MetaObjects(fields.additionalMetaTags.value, None) else [];
    var openGraph := if fields.openGraph.Some? then Some(GetOpenGraph(fields.openGraph.value)) else None;
    var url := CanonicalUrl(baseUrl, slug);
    var twitter := fields.twitter;
    SeoProps(
      themeColor := "",
      twitter := TwitterProps(
        if twitter.Some? then twitter.value.creator else None,
        if twitter.Some? then twitter.value.site else None,
        if twitter.Some? then twitter.value.cardType else None),
      nofollow := fields.nofollowAttributes,
      noindex := fields.nofollowAttributes,
      openGraph := openGraph,
      canonical := if url == "" then "" else url,
      additionalMetaTags := KeywordsTag(fields.seoKeywords) + tags,
      title := fields.metaTitle.GetOr(""),
      description := fields.metaDescription.GetOr(""))
  }

  /**
   * The keywords tag comes first when there are keywords, joined by `", "`;
   * the filtered additional tags follow, in order.
   */
  lemma AssembleMetaTags(seo: Option<SeoRecord>, slug: string, baseUrl: string)
    requires seo.Some?
    ensures var r := Assemble(seo, slug, baseUrl);
            var kw := seo.value.seoKeywords;
            var tags := seo.value.additionalMetaTags.GetOr([]);
            && (kw.Some? && |kw.value| > 0 ==>
                  && |r.additionalMetaTags| == 1 + |MetaObjects(tags, None)|
                  && r.additionalMetaTags[0] == map["name" := Some("keywords"), "content" := Some(Join(kw.value, ", "))]
                  && r.additionalMetaTags[1..] == MetaObjects(tags, None))
            && (kw.None? || kw.value == [] ==> r.additionalMetaTags == MetaObjects(tags, None))
  {
  }

  /**
   * The additional tags are filtered with indexing not allowed: every entry
   * after the keywords tag is the flattening of a group that has attributes
   * and none of whose string values mentions `noindex` or `nofollow`, and
   * there are no more of them than groups.
   */
  lemma {:induction false} AssembleFiltersAdditionalTags(seo: Option<SeoRecord>, slug: string, baseUrl: string)
    requires seo.Some? && seo.value.additionalMetaTags.Some?
    ensures var r := Assemble(seo, slug, baseUrl);
            var tags := seo.value.additionalMetaTags.value;
            var start := |KeywordsTag(seo.value.seoKeywords)|;
            && start <= |r.additionalMetaTags| <= start + |tags|
            && forall k :: start <= k < |r.additionalMetaTags| ==>
                 exists i :: 0 <= i < |tags|
                   && tags[i].metaAttributes.Some?
                   && (forall a :: a in tags[i].metaAttributes.value ==> !SignalsNoIndexing(a))
                   && r.additionalMetaTags[k] == AttributeMap(tags[i].metaAttributes.value)
  {
    var r := Assemble(seo, slug, baseUrl);
    var tags := seo.value.additionalMetaTags.value;
    var start := |KeywordsTag(seo.value.seoKeywords)|;
    var out := MetaObjects(tags, None);
    assert r.additionalMetaTags == KeywordsTag(seo.value.seoKeywords) + out;
    MetaObjectsAreSurvivors(tags, None);
    var idx := SurvivorIndices(tags, None);
    forall k | start <= k < |r.additionalMetaTags|
      ensures exists i :: 0 <= i < |tags|
                && tags[i].metaAttributes.Some?
                && (forall a :: a in tags[i].metaAttributes.value ==> !SignalsNoIndexing(a))
                && r.additionalMetaTags[k] == AttributeMap(tags[i].metaAttributes.value)
    {
      var i := idx[k - start];
      assert 0 <= i < |tags| && Survives(tags[i], None);
      assert forall a :: a in tags[i].metaAttributes.value ==> !SignalsNoIndexing(a);
      assert r.additionalMetaTags[k] == out[k - start] == AttributeMap(tags[i].metaAttributes.value);
    }
  }
}
