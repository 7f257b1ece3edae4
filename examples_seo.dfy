/** Concrete instances of the properties proved in `CustomNextSeo`. */
module SeoExamples {
  import opened Wrappers
  import opened Text
  import opened CustomNextSeo

  function StringAttribute(key: string, value: string): MetaAttribute
  {
    MetaAttribute(key, Some("string"), Some(value), None)
  }

  /** An absent image and an image without an asset both resolve to `""`. */
  lemma ResolveImageDefaults()
    ensures ResolveImage(None) == ""
    ensures ResolveImage(Some(Image(None))) == ""
    ensures ResolveImage(Some(Image(Some(Asset(Some("https://cdn/x.png")))))) == "https://cdn/x.png"
  {
  }

  /** Two attributes with key `a`: the second value wins. */
  lemma LastWriteWinsExample()
    ensures AttributeMap([StringAttribute("a", "1"), StringAttribute("a", "2")]) == map["a" := Some("2")]
  {
  }

  /** An attribute keyed `__proto__` adds no key to the flattened object. */
  lemma ProtoKeyExample()
    ensures AttributeMap([StringAttribute("__proto__", "x"), StringAttribute("b", "y")]) == map["b" := Some("y")]
  {
  }

  /** An image-typed attribute takes its asset's URL, not its (absent) string value. */
  lemma ImageAttributeExample()
    ensures AttributeMap([MetaAttribute("og:image", Some("image"), None,
                                        Some(Image(Some(Asset(Some("u"))))))])
         == map["og:image" := Some("u")]
  {
  }

  /** A group whose value mentions `noindex` is dropped unless indexing is allowed. */
  lemma NoIndexFilterExample()
    ensures MetaObjects([MetaTag(Some([StringAttribute("robots", "noindex, nofollow")]))], Some(false)) == []
    ensures MetaObjects([MetaTag(Some([StringAttribute("robots", "noindex, nofollow")]))], Some(true))
         == [map["robots" := Some("noindex, nofollow")]]
  {
    var a := StringAttribute("robots", "noindex, nofollow");
    var tags := [MetaTag(Some([a]))];
    assert StartsWith("noindex, nofollow", "noindex");
    assert SignalsNoIndexing(a);
    assert tags[..0] == [] && [a][..0] == [];
    assert "robots" != ProtoKey;
    assert AttributeMap([a]) == map["robots" := Some("noindex, nofollow")];
  }

  /** The string value of an image-typed attribute drops its group too. */
  lemma ImageTypedNoIndexExample()
    ensures MetaObjects([MetaTag(Some([MetaAttribute("robots", Some("image"), Some("nofollow"), None)]))], None) == []
  {
    var b := MetaAttribute("robots", Some("image"), Some("nofollow"), None);
    assert StartsWith("nofollow", "nofollow");
    assert SignalsNoIndexing(b);
    assert Excluded(MetaTag(Some([b])), None);
    assert [MetaTag(Some([b]))][..0] == [];
  }

  /** A group without an attribute list contributes nothing. */
  lemma AbsentAttributesExample()
    ensures MetaObjects([MetaTag(None)], None) == []
  {
  }

  /** `about` and `/about` give the same canonical URL. */
  lemma CanonicalUrlExample()
    ensures CanonicalUrl("https://example.com", "about") == "https://example.com/about"
    ensures CanonicalUrl("https://example.com", "/about") == "https://example.com/about"
  {
  }

  /** The keywords `a` and `b` become the first tag, with content `a, b`. */
  lemma KeywordsExample()
    ensures KeywordsTag(Some(["a", "b"])) == [map["name" := Some("keywords"), "content" := Some("a, b")]]
  {
    assert ["a", "b"][1..] == ["b"];
    assert Join(["a", "b"], ", ") == "a" + ", " + "b";
    assert "a" + ", " + "b" == "a, b";
  }

  /** Without an SEO record the props are all defaults. */
  lemma NullRecordExample()
    ensures var r := Assemble(None, "x", "https://e.com");
            r.title == "" && r.description == "" && r.additionalMetaTags == []
            && r.openGraph == None && r.canonical == "https://e.com/x"
  {
  }

  /** One flag drives both `noindex` and `nofollow`. */
  lemma NofollowExample()
    ensures var seo := SeoRecord(None, None, None, Some(true), None, None, None);
            var r := Assemble(Some(seo), "/", "");
            r.noindex == Some(true) && r.nofollow == Some(true)
  {
  }
}
