# SEO metadata resolution of `CustomNextSeo`, in Dafny

This project models the metadata pipeline of the `CustomNextSeo` React component of a Sanity +
Next.js boilerplate. The component takes the loosely typed SEO record that the content store holds
for a page. It computes the props it hands to the `NextSeo` head component:

- title and description, defaulting to `""`;
- a canonical URL built from a base URL and the page slug;
- `noindex`/`nofollow` flags, both driven by the single `nofollowAttributes` field;
- Open Graph and Twitter props;
- the additional meta tags: a keywords tag, then the flattened additional tag groups. A group is
  dropped when one of its string values mentions `noindex` or `nofollow`.

Files:

- `wrappers.dfy` (module `Wrappers`): `Option`, which stands for `undefined`/`null`; `GetOr` is `??`.
- `text.dfy` (module `Text`): the JavaScript string operations the component uses.
  These are `startsWith`, `includes` (a scan, proved equal to "occurs at some position") and
  `join` (proved to accumulate left to right).
- `custom_next_seo.dfy` (module `CustomNextSeo`): the data model and the five parts of the pipeline.
  - `resolveImage` is the function `ResolveImage`.
  - `getMetaAttribute` and `getMetaObjects` build a local object or array in a loop. They are the
    methods `GetMetaAttribute` and `GetMetaObjects`, with `while` loops proved equal to the
    specification functions `AttributeMap` and `MetaObjects`.
  - `getOpenGraph` is the function `GetOpenGraph`.
  - The component body is the function `Assemble(seo, slug, baseUrl)`. It is written over the
    specification functions, since a function cannot call a method.
- `examples_seo.dfy` (module `SeoExamples`): concrete instances of the properties proved in `CustomNextSeo`.

The environment value `process.env.NEXT_PUBLIC_APP_URL ?? ""` is the `baseUrl` parameter.

The model follows the code on these points:

- The `noindex` and `nofollow` props are `nofollowAttributes` itself. When the field is absent,
  both are `undefined` (`None`).
- Every attribute is assigned to the flattened object, whatever its key.
- An attribute keyed `__proto__` goes through the inherited prototype setter, which ignores a
  string or `undefined` value. So with such a value, that key does not become an own key of the
  flattened object.
- The component calls `getMetaObjects` without `allowIndexing`, so the filter always applies.
  `Assemble` therefore takes no indexing-policy argument.
- A group whose attribute list is present but empty yields the empty object `{}`. That object is
  truthy, so it is pushed to the output.

## Model

| member | source | states |
|---|---|---|
| `Text.StartsWith` | src/components/CustomNextSeo/index.tsx:84 | `slug.startsWith("/")`: the string begins with the prefix |
| `Text.Includes` | src/components/CustomNextSeo/index.tsx:29-30 | `value.includes(word)`, as a scan over start positions (characterised by `Text.IncludesIff`) |
| `Text.Join` | src/components/CustomNextSeo/index.tsx:100 | `parts.join(sep)`: the parts with the separator between neighbours (characterised by `Text.JoinSnoc`) |
| `Text.IncludesIff` | src/components/CustomNextSeo/index.tsx:29-30 | the `includes` scan used by the filter holds exactly when the substring occurs at some position of the string |
| `Wrappers.Option.GetOr` | src/components/CustomNextSeo/index.tsx:102-103 | `x ?? d` is the carried value when present and `d` when absent |
| `Text.JoinSnoc` | src/components/CustomNextSeo/index.tsx:100 | `join(", ")` accumulates left to right: one more part appends the separator and that part |
| `CustomNextSeo.ResolveImage` | src/components/CustomNextSeo/index.tsx:42-44 | the asset's URL when the image, its asset and the URL are all present; otherwise `""`, never an absent value |
| `CustomNextSeo.AttributeValue` | src/components/CustomNextSeo/index.tsx:54-56 | the value one attribute contributes: the resolved image for type `"image"`, otherwise its optional string value |
| `CustomNextSeo.Assign` | src/components/CustomNextSeo/index.tsx:52-57 | one `Object.assign` step: sets the attribute's key to its value, except the prototype key `__proto__`, whose setter ignores a string or `undefined` value |
| `CustomNextSeo.AttributeMap` | src/components/CustomNextSeo/index.tsx:50-58 | the object built by the `Object.assign` steps over the list, in order (characterised by `AttributeMapKeys` and `AttributeMapLastWins`) |
| `CustomNextSeo.AttributeMapKeys` | src/components/CustomNextSeo/index.tsx:50-58 | the keys of the flattened map are exactly the set of `attributeKey`s in the list, none skipped, minus `__proto__`, which a string or `undefined` value does not create as an own key |
| `CustomNextSeo.AttributeMapLastWins` | src/components/CustomNextSeo/index.tsx:51-57 | a key other than `__proto__` maps to the value of the last attribute carrying it: an `"image"`-typed one gives its resolved image URL, any other gives its `attributeValueString` (possibly absent) |
| `CustomNextSeo.GetMetaAttribute` | src/components/CustomNextSeo/index.tsx:46-60 | null exactly when the attribute list is absent; otherwise the map built by successive assignment, so an empty list gives an empty, non-null map |
| `CustomNextSeo.SignalsNoIndexing` | src/components/CustomNextSeo/index.tsx:28-30 | an attribute signals no indexing when its `attributeValueString`, whatever its `attributeType`, contains `noindex` or `nofollow` |
| `CustomNextSeo.Excluded` | src/components/CustomNextSeo/index.tsx:25-31 | the exclusion rule: `allowIndexing` is not truthy, the group has attributes, and some attribute signals no indexing |
| `CustomNextSeo.Survives` | src/components/CustomNextSeo/index.tsx:32-36 | a group is pushed when it is not excluded and its attribute list is present |
| `CustomNextSeo.MetaObjects` | src/components/CustomNextSeo/index.tsx:22-40 | the filter's output is never longer than its input |
| `CustomNextSeo.GetMetaObjects` | src/components/CustomNextSeo/index.tsx:22-40 | the loop pushes, in order, the flattened attributes of every group that has attributes and is not excluded |
| `CustomNextSeo.SurvivorIndicesIncrease` | src/components/CustomNextSeo/index.tsx:24-38 | the positions of the groups the loop keeps are positions of the input, in strictly increasing order |
| `CustomNextSeo.SurvivorIndicesComplete` | src/components/CustomNextSeo/index.tsx:32-36 | every group that has attributes and is not excluded is among the kept positions |
| `CustomNextSeo.MetaObjectsAtSurvivors` | src/components/CustomNextSeo/index.tsx:32-36 | there are as many output entries as kept positions, and entry k is the flattening of the group at the k-th kept position |
| `CustomNextSeo.MetaObjectsAreSurvivors` | src/components/CustomNextSeo/index.tsx:24-38 | the output is the order-preserving subsequence of surviving groups: entry k flattens the k-th surviving group, positions increase, every survivor appears, and groups without an attribute list never contribute |
| `CustomNextSeo.MetaObjectsAllowIndexing` | src/components/CustomNextSeo/index.tsx:25-31 | with `allowIndexing` true, no group is excluded: a group survives exactly when it has an attribute list; when every group has one, every group is flattened, in order |
| `CustomNextSeo.GetOpenGraph` | src/components/CustomNextSeo/index.tsx:8-20 | `_type`, `description`, `siteName`, `url`, `title` copied unchanged; `images` has exactly one entry, whose `url` is the resolved image or `""` when no image is present |
| `CustomNextSeo.CanonicalUrl` | src/components/CustomNextSeo/index.tsx:84 | the base URL, then `/`, then the slug with one leading `/` removed (further slashes are kept); the character right after the base URL is always `/` |
| `CustomNextSeo.CanonicalUrlSlashInsensitive` | src/components/CustomNextSeo/index.tsx:84 | a slug and the same slug with a leading `/` give the same canonical URL |
| `CustomNextSeo.KeywordsTag` | src/components/CustomNextSeo/index.tsx:99-100 | the single `{name: "keywords", content: join(keywords, ", ")}` tag when the keywords are present and non-empty, otherwise no tag |
| `CustomNextSeo.Assemble` | src/components/CustomNextSeo/index.tsx:74-103 | `noindex` and `nofollow` both equal `nofollowAttributes`; title and description default to `""`; Twitter `handle`/`site`/`cardType` come from `creator`/`site`/`cardType`; Open Graph is present exactly when the record has one; with no record every tag list is empty and every field a default |
| `CustomNextSeo.AssembleMetaTags` | src/components/CustomNextSeo/index.tsx:99-101 | with non-empty keywords, the first tag is `{name: "keywords", content: join(keywords, ", ")}` followed by the filtered additional tags; otherwise only the filtered tags |
| `CustomNextSeo.AssembleFiltersAdditionalTags` | src/components/CustomNextSeo/index.tsx:76-79 | the additional tags are filtered with indexing never allowed: each entry after the keywords tag flattens a group with attributes, none of whose string values mentions `noindex` or `nofollow` |
| `SeoExamples.ResolveImageDefaults` | src/components/CustomNextSeo/index.tsx:42-44 | an absent image and an image without an asset resolve to `""` |
| `SeoExamples.LastWriteWinsExample` | src/components/CustomNextSeo/index.tsx:50-58 | `a: "1"` then `a: "2"` gives `{a: "2"}` |
| `SeoExamples.ProtoKeyExample` | src/components/CustomNextSeo/index.tsx:52-57 | an attribute keyed `__proto__` adds no key; the next attribute's key is still set |
| `SeoExamples.ImageAttributeExample` | src/components/CustomNextSeo/index.tsx:53-56 | an image-typed attribute takes its asset's URL |
| `SeoExamples.NoIndexFilterExample` | src/components/CustomNextSeo/index.tsx:25-37 | a group with value `"noindex, nofollow"` is dropped when indexing is not allowed and kept when it is |
| `SeoExamples.ImageTypedNoIndexExample` | src/components/CustomNextSeo/index.tsx:27-31 | an image-typed attribute whose string value says `nofollow` also drops its group |
| `SeoExamples.AbsentAttributesExample` | src/components/CustomNextSeo/index.tsx:33-36 | a group without an attribute list contributes nothing |
| `SeoExamples.CanonicalUrlExample` | src/components/CustomNextSeo/index.tsx:84 | `about` and `/about` both give `https://example.com/about` |
| `SeoExamples.KeywordsExample` | src/components/CustomNextSeo/index.tsx:99-100 | keywords `a`, `b` give the tag `{name: "keywords", content: "a, b"}` |
| `SeoExamples.NullRecordExample` | src/components/CustomNextSeo/index.tsx:74-103 | with no record: empty title, description and tag list, no Open Graph |
| `SeoExamples.NofollowExample` | src/components/CustomNextSeo/index.tsx:95-96 | `nofollowAttributes` true gives both `noindex` and `nofollow` true |

## Left out

- React rendering, the `NextSeo` component, `children` and the `useMemo` memoisation: these are UI
  plumbing, and memoisation does not change the values computed.
- The `as` casts to the `next-seo` types: they only change static types.
- Reading `process.env.NEXT_PUBLIC_APP_URL`: this is an environment read. The value is the
  `baseUrl` parameter.
- JavaScript coercions outside the declared types: an undefined `attributeKey` becoming the key
  `"undefined"`, an undefined `slug`, and non-string keywords in `join`. Keys, slugs and keywords
  are plain strings.
- `null` elements of the lists, which the declared types exclude. A `null` group throws a
  `TypeError` at `tag.metaAttributes` (index.tsx:27) unless `allowIndexing` is truthy. In that case
  the exclusion test stops early and the null-safe `tag?.metaAttributes` (index.tsx:33) skips the
  group. A `null` attribute is passed over by the null-safe test (index.tsx:29-30). It throws a
  `TypeError` at `i.attributeType` (index.tsx:54) only when its group is not excluded. The model's
  lists hold no null elements.
- `CustomNextSeo.Assign`: `null` and `undefined` are both `None`. So it does not model a `null`
  value keyed `__proto__`, which resets the object's prototype to `null`. After such a reset, a
  later `__proto__` attribute in the same group becomes an ordinary own key. The model's object
  never gets that key.
- `CustomNextSeo.AttributeMapKeys`: for the same reason, it states that `__proto__` is never a
  key. In the source, that key appears after an earlier `__proto__` attribute with a `null`
  string value.
- The insertion order of the keys of the flattened JavaScript object: a Dafny `map` is unordered.
- The fields of the image reference other than the asset URL (`_type`, crop, hotspot): the
  pipeline never reads them. The `_type` and `handle` of the Twitter record are dropped by the
  component. `_type` of the Open Graph record is called `docType`, since Dafny names cannot start
  with `_`.
- The content schema (`sanity/schemaTypes/post.ts`) and the GROQ field-selection strings
  (`lib/seoQuery/index.ts`): declarative configuration and query text. They only fix the shape of
  the record, which the datatypes follow.
