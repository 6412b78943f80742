/** Page metadata and schema.org structured data built from site-wide defaults
    (src/lib/seo.ts). */
module Seo {
  import opened Options
  import opened Strings
  import opened Json

  // The site-wide defaults (`defaultSEO`).
  const SiteName: string := "IOTech - Smart IoT Solutions"
  const SiteUrl: string := "https://iotech.com"
  const DefaultImage: string := "/images/og-default.jpg"
  const TwitterHandle: string := "@iotech"
  const DefaultAuthor: string := "IOTech Team"
  const DefaultKeywords: seq<string> := [
    "IoT", "Internet of Things", "Smart Devices", "IoT Solutions", "Smart Hub",
    "Connected Devices", "IoT Technology", "Smart Home", "Industrial IoT", "IoT Platform"
  ]

  /** The Open Graph page types a caller may choose. */
  datatype PageType = Website | Article | ProductPage

  /** `SEOConfig`: None stands for an omitted optional property. */
  datatype SeoConfig = SeoConfig(
    title: string,
    description: string,
    keywords: Option<seq<string>>,
    image: Option<string>,
    url: Option<string>,
    pageType: Option<PageType>,
    publishedTime: Option<string>,
    modifiedTime: Option<string>,
    author: Option<string>,
    section: Option<string>)

  datatype OgImage = OgImage(url: string, width: int, height: int, alt: string)

  datatype OpenGraph = OpenGraph(
    title: string,
    description: string,
    url: string,
    siteName: string,
    images: seq<OgImage>,
    locale: string,
    pageType: PageType,
    publishedTime: Option<string>,
    modifiedTime: Option<string>,
    section: Option<string>)

  datatype TwitterCard = TwitterCard(
    card: string, title: string, description: string, creator: string, images: seq<string>)

  datatype GoogleBot = GoogleBot(
    index: bool, follow: bool, maxVideoPreview: int, maxImagePreview: string, maxSnippet: int)

  datatype RobotsDirectives = RobotsDirectives(index: bool, follow: bool, googleBot: GoogleBot)

  /** The `Metadata` object handed to the framework. */
  datatype Metadata = Metadata(
    title: string,
    description: string,
    keywords: string,
    authors: seq<string>,
    creator: string,
    publisher: string,
    openGraph: OpenGraph,
    twitter: TwitterCard,
    robots: RobotsDirectives,
    googleVerification: string,
    canonical: string)

  /** A string that JavaScript treats as true: present and non-empty. */
  predicate Truthy(o: Option<string>) {
    o.Some? && o.value != ""
  }

  /** `o || fallback` on an optional string. */
  function OrElse(o: Option<string>, fallback: string): string {
    if Truthy(o) then o.value else fallback
  }

  /** `o && { k: o }` spread into an object: the value only when it is truthy. */
  function WhenTruthy(o: Option<string>): Option<string> {
    if Truthy(o) then o else None
  }

  /** The page title with the site name appended unless it already mentions it. */
  function FullTitle(title: string): (r: string)
    ensures Contains(title, SiteName) ==> r == title
    ensures !Contains(title, SiteName) ==> r == title + " | " + SiteName
    ensures Contains(r, SiteName)
  {
    if Contains(title, SiteName) then title
    else
      ContainsSuffix(title + " | ", SiteName);
      title + " | " + SiteName
  }

  /** A title lacking some character of the site name cannot contain it, so
      the site name is appended. */
  lemma FullTitleAppends(title: string, c: char)
    requires c in SiteName && c !in title
    ensures FullTitle(title) == title + " | " + SiteName
  {
    if Contains(title, SiteName) {
      ContainsChars(title, SiteName, c);
    }
  }

  /** Applying the title rule twice gives the same title as applying it once. */
  lemma FullTitleIdempotent(title: string)
    ensures FullTitle(FullTitle(title)) == FullTitle(title)
  {
  }

  /** The absolute page URL: the site URL followed by a non-empty `url`. */
  function PageUrl(url: Option<string>): (r: string)
    ensures IsPrefix(SiteUrl, r)
    ensures Truthy(url) ==> r[|SiteUrl|..] == url.value
    ensures !Truthy(url) ==> r == SiteUrl
  {
    if Truthy(url) then SiteUrl + url.value else SiteUrl
  }

  /** `generateMetadata`. */
  function GenerateMetadata(config: SeoConfig): (r: Metadata)
    // One title everywhere, always naming the site; the image alt keeps the raw title.
    ensures r.title == FullTitle(config.title)
    ensures Contains(r.title, SiteName)
    ensures r.openGraph.title == r.title && r.twitter.title == r.title
    ensures r.openGraph.description == r.twitter.description == r.description == config.description
    ensures |r.openGraph.images| == 1 && r.openGraph.images[0].alt == config.title
    // Keywords: the defaults, then the caller's, in order.
    ensures r.keywords == Join(DefaultKeywords + config.keywords.GetOr([]), ", ")
    // One URL for the canonical link and Open Graph, rooted at the site URL.
    ensures r.canonical == r.openGraph.url == PageUrl(config.url)
    ensures IsPrefix(SiteUrl, r.canonical)
    ensures Truthy(config.url) <==> r.canonical != SiteUrl
    // The preview image, shared by Open Graph and Twitter.
    ensures r.openGraph.images[0].url == (if Truthy(config.image) then config.image.value else DefaultImage)
    ensures r.twitter.images == [r.openGraph.images[0].url]
    // Page type and the optional article fields.
    ensures r.openGraph.pageType == config.pageType.GetOr(Website)
    ensures r.openGraph.publishedTime.Some? <==> Truthy(config.publishedTime)
    ensures r.openGraph.modifiedTime.Some? <==> Truthy(config.modifiedTime)
    ensures r.openGraph.section.Some? <==> Truthy(config.section)
    ensures r.openGraph.publishedTime.Some? ==> r.openGraph.publishedTime == config.publishedTime
    ensures r.openGraph.modifiedTime.Some? ==> r.openGraph.modifiedTime == config.modifiedTime
    ensures r.openGraph.section.Some? ==> r.openGraph.section == config.section
    ensures r.authors == [if Truthy(config.author) then config.author.value else DefaultAuthor]
  {
    var fullTitle := FullTitle(config.title);
    var ogImage := OrElse(config.image, DefaultImage);
    var fullUrl := PageUrl(config.url);
    Metadata(
      title := fullTitle,
      description := config.description,
      keywords := Join(DefaultKeywords + config.keywords.GetOr([]), ", "),
      authors := [OrElse(config.author, DefaultAuthor)],
      creator := DefaultAuthor,
      publisher := SiteName,
      openGraph := OpenGraph(
        title := fullTitle,
        description := config.description,
        url := fullUrl,
        siteName := SiteName,
        images := [OgImage(ogImage, 1200, 630, config.title)],
        locale := "en_US",
        pageType := config.pageType.GetOr(Website),
        publishedTime := WhenTruthy(config.publishedTime),
        modifiedTime := WhenTruthy(config.modifiedTime),
        section := WhenTruthy(config.section)),
      twitter := TwitterCard("summary_large_image", fullTitle, config.description, TwitterHandle, [ogImage]),
      robots := RobotsDirectives(true, true, GoogleBot(true, true, -1, "large", -1)),
      googleVerification := "your-google-verification-code",
      canonical := fullUrl)
  }

  /** The keyword string starts with the ten default keywords and continues with
      the caller's, separated by one ", "; without caller keywords it is the
      defaults alone. */
  lemma KeywordsExtendDefaults(config: SeoConfig)
    ensures var extra := config.keywords.GetOr([]);
      GenerateMetadata(config).keywords ==
        Join(DefaultKeywords, ", ") + (if extra == [] then "" else ", " + Join(extra, ", "))
  {
    var extra := config.keywords.GetOr([]);
    if extra == [] {
      assert DefaultKeywords + extra == DefaultKeywords;
    } else {
      JoinAppend(DefaultKeywords, extra, ", ");
    }
  }

  // ---------------------------------------------------------------------------
  // Structured data (`generateStructuredData`)

  /** The schema.org type requested. The source switches on the type's name,
      so `Other("Product")` behaves as `Product` (see `SchemaTypeOf`). */
  datatype SchemaType = Organization | Product | WebSite | BreadcrumbList | Other(name: string)

  /** The type names with a case of their own in the `switch`. */
  const CaseNames: set<string> := {"Organization", "Product", "WebSite", "BreadcrumbList"}

  function TypeName(t: SchemaType): string {
    match t
    case Organization => "Organization"
    case Product => "Product"
    case WebSite => "WebSite"
    case BreadcrumbList => "BreadcrumbList"
    case Other(name) => name
  }

  /** The case of the `switch` that the type name `name` reaches. */
  function SchemaTypeOf(name: string): (t: SchemaType)
    ensures TypeName(t) == name
    ensures t.Other? <==> name !in CaseNames
    ensures name == "Product" ==> t == Product
    ensures name == "BreadcrumbList" ==> t == BreadcrumbList
  {
    if name == "Organization" then Organization
    else if name == "Product" then Product
    else if name == "WebSite" then WebSite
    else if name == "BreadcrumbList" then BreadcrumbList
    else Other(name)
  }

  /** Every named case is reached by its own name. */
  lemma SchemaTypeOfName(t: SchemaType)
    ensures !t.Other? ==> SchemaTypeOf(TypeName(t)) == t
    ensures SchemaTypeOf(TypeName(t)).Other? <==> t.Other? && t.name !in CaseNames
  {
  }

  /** `commonData`: the JSON-LD context and the type. */
  function CommonData(t: SchemaType): (r: Object)
    ensures r.Keys == {"@context", "@type"} && r["@type"] == JStr(TypeName(t))
  {
    map["@context" := JStr("https://schema.org"), "@type" := JStr(TypeName(t))]
  }

  function Named(typeName: string, name: string): Json {
    JObj(map["@type" := JStr(typeName), "name" := JStr(name)])
  }

  const OrganizationDescription: string :=
    "Leading provider of innovative IoT solutions and smart device technologies."

  const WebSiteDescription: string :=
    "Innovative IoT solutions for smart homes, industries, and connected devices."

  /** The properties an Organization object has before the caller's data is spread. */
  function OrganizationDefaults(): Object {
    map[
      "name" := JStr(SiteName),
      "url" := JStr(SiteUrl),
      "logo" := JStr(SiteUrl + "/images/logo.png"),
      "description" := JStr(OrganizationDescription),
      "contactPoint" := JObj(map[
        "@type" := JStr("ContactPoint"),
        "telephone" := JStr("+1-555-0123"),
        "contactType" := JStr("customer service"),
        "availableLanguage" := JStr("English")]),
      "sameAs" := JArr([
        JStr("https://twitter.com/iotech"),
        JStr("https://linkedin.com/company/iotech"),
        JStr("https://facebook.com/iotech")])]
  }

  /** The properties a WebSite object has before the caller's data is spread. */
  function WebSiteDefaults(): Object {
    map[
      "name" := JStr(SiteName),
      "url" := JStr(SiteUrl),
      "description" := JStr(WebSiteDescription),
      "potentialAction" := JObj(map[
        "@type" := JStr("SearchAction"),
        "target" := JStr(SiteUrl + "/search?q={search_term_string}"),
        "query-input" := JStr("required name=search_term_string")])]
  }

  /** The properties a Product object has before the caller's data is spread,
      as the source writes them: `url` is the site URL followed by `data.url`.
      An object is a map, so the order of the properties is not modelled. */
  function ProductDefaults(data: Object): (r: Object)
    ensures r.Keys <= {"name", "description", "brand", "manufacturer", "image", "url"}
  {
    Copy(data, "name") + Copy(data, "description") + Copy(data, "image")
    + map[
      "url" := JStr(SiteUrl + TemplateString(Get(data, "url"))),
      "brand" := Named("Brand", SiteName),
      "manufacturer" := Named("Organization", SiteName)]
  }

  /** The Product case exactly as written: defaults, then the caller's data
      spread over them. */
  function ProductDataAsWritten(data: Object): (r: Object)
    ensures forall k :: k in data ==> k in r && r[k] == data[k]
  {
    Spread(CommonData(Product) + ProductDefaults(data), data)
  }

  /** A Product keeps each default the caller does not supply: the context,
      the type, the brand and the manufacturer. */
  lemma ProductDefaultsKept(data: Object)
    ensures var r := ProductDataAsWritten(data);
      && ("@context" !in data ==> "@context" in r && r["@context"] == JStr("https://schema.org"))
      && ("@type" !in data ==> "@type" in r && r["@type"] == JStr("Product"))
      && ("brand" !in data ==> "brand" in r && r["brand"] == Named("Brand", SiteName))
      && ("manufacturer" !in data ==> "manufacturer" in r && r["manufacturer"] == Named("Organization", SiteName))
  {
    ProductBase(data);
  }

  /** What the Product object holds before the caller's data is spread. */
  lemma ProductBase(data: Object)
    ensures var base := CommonData(Product) + ProductDefaults(data);
      && "@context" in base && "@type" in base && "brand" in base && "manufacturer" in base
      && base["@context"] == JStr("https://schema.org") && base["@type"] == JStr("Product")
      && base["brand"] == Named("Brand", SiteName) && base["manufacturer"] == Named("Organization", SiteName)
  {
    var defaults := ProductDefaults(data);
    assert "brand" in defaults && defaults["brand"] == Named("Brand", SiteName);
    assert "manufacturer" in defaults && defaults["manufacturer"] == Named("Organization", SiteName);
  }

  /** As written, the Product `url` is never the absolute URL built from
      `data.url`: a caller URL replaces it verbatim, and a missing one leaves
      the site URL glued to the text "undefined". */
  lemma ProductUrlNeverAbsolute(data: Object)
    ensures "url" in data ==> ProductDataAsWritten(data)["url"] == data["url"]
    ensures "url" in data && data["url"].JStr? ==>
      ProductDataAsWritten(data)["url"] != JStr(SiteUrl + data["url"].s)
    ensures "url" !in data ==> ProductDataAsWritten(data)["url"] == JStr(SiteUrl + "undefined")
  {
    if "url" in data && data["url"].JStr? {
      var s := data["url"].s;
      assert |SiteUrl + s| != |s|;
    }
  }

  /** The Product case as evidently intended: the caller's data spread first,
      then `url` made absolute from `data.url` (and left out when there is none). */
  function ProductData(data: Object): (r: Object)
    ensures "url" in r <==> "url" in data
    ensures "url" in data ==> r["url"] == JStr(SiteUrl + TemplateString(Some(data["url"])))
    ensures forall k :: k in data && k != "url" ==> k in r && r[k] == data[k]
    ensures "@type" in r
    ensures r["@type"] == (if "@type" in data then data["@type"] else JStr("Product"))
  {
    var base := CommonData(Product) + ProductDefaults(data) - {"url"};
    assert "@type" !in ProductDefaults(data);
    assert "@type" in base && base["@type"] == CommonData(Product)["@type"];
    var merged := Spread(base, data);
    if "url" in data then merged["url" := JStr(SiteUrl + TemplateString(Some(data["url"])))]
    else merged - {"url"}
  }

  /** One breadcrumb `ListItem` for `item` at 0-based `index`; reading a
      property of `null` throws. */
  function Crumb(item: Json, index: nat): (r: Object)
    requires !item.JNull?
    ensures var props := if item.JObj? then item.fields else map[];
      && r.Keys == {"@type", "position", "item"} + (if "name" in props then {"name"} else {})
      && r["@type"] == JStr("ListItem")
      && r["position"] == JNum(index + 1)
      && r["item"] == JStr(SiteUrl + TemplateString(Get(props, "url")))
      && ("name" in props ==> r["name"] == props["name"])
  {
    var props := if item.JObj? then item.fields else map[];
    map[
      "@type" := JStr("ListItem"),
      "position" := JNum(index + 1),
      "item" := JStr(SiteUrl + TemplateString(Get(props, "url")))]
    + Copy(props, "name")
  }

  /** `data.items.map(...)` for the BreadcrumbList case: a TypeError when
      `items` is not an array or holds a `null`. */
  function Breadcrumbs(data: Object): (r: Result<Object>)
    ensures r.Ok? <==> ("items" in data && data["items"].JArr?
      && forall i :: 0 <= i < |data["items"].elems| ==> !data["items"].elems[i].JNull?)
    ensures r.Ok? ==>
      var items := data["items"].elems;
      && r.value.Keys == {"@context", "@type", "itemListElement"}
      && r.value["@type"] == JStr("BreadcrumbList")
      && r.value["itemListElement"].JArr?
      && |r.value["itemListElement"].elems| == |items|
      && forall i :: 0 <= i < |items| ==> r.value["itemListElement"].elems[i] == JObj(Crumb(items[i], i))
  {
    if "items" !in data || !data["items"].JArr? then Thrown("TypeError")
    else
      var items := data["items"].elems;
      if exists i | 0 <= i < |items| :: items[i].JNull? then Thrown("TypeError")
      else
        var list := seq(|items|, i requires 0 <= i < |items| => JObj(Crumb(items[i], i)));
        var obj := CommonData(BreadcrumbList) + map["itemListElement" := JArr(list)];
        assert obj["@type"] == JStr("BreadcrumbList");
        Ok(obj)
  }

  /** An object of type `t`: `commonData`, then `defaults`, then the caller's
      data spread last, so that every property it supplies wins and every
      default it does not supply stays. */
  function Layered(t: SchemaType, defaults: Object, data: Object): (r: Object)
    ensures r.Keys == {"@context", "@type"} + defaults.Keys + data.Keys
    ensures forall k :: k in data ==> r[k] == data[k]
    ensures forall k :: k in defaults && k !in data ==> r[k] == defaults[k]
    ensures "@type" !in data && "@type" !in defaults ==> r["@type"] == JStr(TypeName(t))
    ensures "@context" !in data && "@context" !in defaults ==> r["@context"] == JStr("https://schema.org")
  {
    var base := CommonData(t) + defaults;
    assert forall k :: k in defaults ==> k in base && base[k] == defaults[k];
    Spread(base, data)
  }

  /** `generateStructuredData`, as written: the case is chosen by the type's name. */
  function GenerateStructuredData(t: SchemaType, data: Object): (r: Result<Object>)
    ensures TypeName(t) != "BreadcrumbList" ==> r.Ok?
    ensures TypeName(t) == "BreadcrumbList" ==> r == Breadcrumbs(data)
    ensures TypeName(t) == "Product" ==> r == Ok(ProductDataAsWritten(data))
  {
    var c := SchemaTypeOf(TypeName(t));
    if c == BreadcrumbList then Breadcrumbs(data)
    else if c == Product then Ok(ProductDataAsWritten(data))
    else Ok(Layered(c, Defaults(c), data))
  }

  /** The defaults of the cases that spread the caller's data over fixed
      properties; the `default` case has none. */
  function Defaults(c: SchemaType): Object {
    match c
    case Organization => OrganizationDefaults()
    case WebSite => WebSiteDefaults()
    case _ => map[]
  }

  /** Every object that does not throw starts from `commonData`: the JSON-LD
      context and the requested type's name, unless the caller overrides them. */
  lemma HeaderKept(t: SchemaType, data: Object)
    ensures var r := GenerateStructuredData(t, data);
      r.Ok? ==>
        && ("@context" !in data ==> "@context" in r.value && r.value["@context"] == JStr("https://schema.org"))
        && ("@type" !in data ==> "@type" in r.value && r.value["@type"] == JStr(TypeName(t)))
  {
    var c := SchemaTypeOf(TypeName(t));
    if c == Product {
      ProductDefaultsKept(data);
    } else if c != BreadcrumbList {
      assert "@context" !in Defaults(c) && "@type" !in Defaults(c);
      assert GenerateStructuredData(t, data) == Ok(Layered(c, Defaults(c), data));
    }
  }

  /** Two requests with the same type name get the same object. */
  lemma SameNameSameData(t: SchemaType, u: SchemaType, data: Object)
    requires TypeName(t) == TypeName(u)
    ensures GenerateStructuredData(t, data) == GenerateStructuredData(u, data)
  {
  }

  /** `generateStructuredData` as evidently intended: the Product case builds
      its absolute `url` from `data.url` (`ProductData`); every other case is
      the same as written. */
  function GenerateStructuredDataCorrected(t: SchemaType, data: Object): (r: Result<Object>)
    ensures TypeName(t) != "Product" ==> r == GenerateStructuredData(t, data)
    ensures TypeName(t) == "Product" ==> r.Ok? && ("url" in r.value <==> "url" in data)
    ensures TypeName(t) == "Product" && "url" in data ==>
      r.value["url"] == JStr(SiteUrl + TemplateString(Some(data["url"])))
  {
    if TypeName(t) == "Product" then Ok(ProductData(data)) else GenerateStructuredData(t, data)
  }

  /** For every type except BreadcrumbList the caller's data is spread last:
      every property it supplies overrides the default. */
  lemma CallerDataOverrides(t: SchemaType, data: Object)
    requires TypeName(t) != "BreadcrumbList"
    ensures GenerateStructuredData(t, data).Ok?
    ensures forall k :: k in data ==>
      k in GenerateStructuredData(t, data).value && GenerateStructuredData(t, data).value[k] == data[k]
  {
  }

  /** An Organization keeps every default property the caller does not supply. */
  lemma OrganizationDefaultsKept(data: Object)
    ensures forall k :: k in OrganizationDefaults() && k !in data ==>
      k in GenerateStructuredData(Organization, data).value
      && GenerateStructuredData(Organization, data).value[k] == OrganizationDefaults()[k]
  {
    assert SchemaTypeOf("Organization") == Organization;
  }

  /** A WebSite keeps every default property the caller does not supply. */
  lemma WebSiteDefaultsKept(data: Object)
    ensures forall k :: k in WebSiteDefaults() && k !in data ==>
      k in GenerateStructuredData(WebSite, data).value
      && GenerateStructuredData(WebSite, data).value[k] == WebSiteDefaults()[k]
  {
    assert SchemaTypeOf("WebSite") == WebSite;
  }

  /** `{ items }`: the data a page passes for a breadcrumb list. */
  function ItemsData(items: seq<Object>): (data: Object)
    ensures "items" in data && data["items"].JArr?
    ensures |data["items"].elems| == |items|
    ensures forall i :: 0 <= i < |items| ==> data["items"].elems[i] == JObj(items[i])
  {
    map["items" := JArr(seq(|items|, i requires 0 <= i < |items| => JObj(items[i])))]
  }

  /** The `ListItem` built for the breadcrumb at 0-based `i`: numbered `i + 1`,
      its `item` the absolute URL of the input's `url`, its `name` copied. */
  predicate IsCrumbFor(e: Json, item: Object, i: nat) {
    && e.JObj?
    && e.fields.Keys == {"@type", "position", "item"} + (if "name" in item then {"name"} else {})
    && e.fields["@type"] == JStr("ListItem")
    && e.fields["position"] == JNum(i + 1)
    && e.fields["item"] == JStr(SiteUrl + TemplateString(Get(item, "url")))
    && ("name" in item ==> e.fields["name"] == item["name"])
  }

  /** A breadcrumb list whose items are all objects gives one `ListItem` per
      input item, in input order. */
  lemma BreadcrumbItems(items: seq<Object>)
    ensures var r := GenerateStructuredData(BreadcrumbList, ItemsData(items));
      && r.Ok?
      && r.value["@type"] == JStr("BreadcrumbList")
      && r.value["itemListElement"].JArr?
      && |r.value["itemListElement"].elems| == |items|
      && forall i :: 0 <= i < |items| ==> IsCrumbFor(r.value["itemListElement"].elems[i], items[i], i)
  {
    var data := ItemsData(items);
    var r := Breadcrumbs(data);
    assert GenerateStructuredData(BreadcrumbList, data) == r;
    assert r.Ok?;
    var list := r.value["itemListElement"].elems;
    forall i | 0 <= i < |items|
      ensures IsCrumbFor(list[i], items[i], i)
    {
      assert list[i] == JObj(Crumb(JObj(items[i]), i));
    }
  }

  /** The items of a breadcrumb trail given as (name, url) pairs. */
  function Trail(pairs: seq<(string, string)>): (items: seq<Object>)
    ensures |items| == |pairs|
    ensures forall i :: 0 <= i < |pairs| ==>
      items[i] == map["name" := JStr(pairs[i].0), "url" := JStr(pairs[i].1)]
  {
    seq(|pairs|, i requires 0 <= i < |pairs| => map["name" := JStr(pairs[i].0), "url" := JStr(pairs[i].1)])
  }

  /** A trail of named pages: the i-th entry is numbered i + 1, keeps its name
      and points at the site URL followed by the page's path. */
  lemma TrailItems(pairs: seq<(string, string)>)
    ensures var r := GenerateStructuredData(BreadcrumbList, ItemsData(Trail(pairs)));
      && r.Ok?
      && r.value["itemListElement"].JArr?
      && |r.value["itemListElement"].elems| == |pairs|
      && forall i :: 0 <= i < |pairs| ==>
        var e := r.value["itemListElement"].elems[i];
        && e.JObj? && e.fields.Keys == {"@type", "position", "item", "name"}
        && e.fields["position"] == JNum(i + 1)
        && e.fields["name"] == JStr(pairs[i].0)
        && e.fields["item"] == JStr(SiteUrl + pairs[i].1)
  {
    var items := Trail(pairs);
    BreadcrumbItems(items);
    forall i | 0 <= i < |pairs|
      ensures Get(items[i], "url") == Some(JStr(pairs[i].1)) && "name" in items[i]
    {
    }
  }

  /** A breadcrumb list with no `items` array throws a TypeError. */
  lemma BreadcrumbNeedsItems(data: Object)
    ensures ("items" !in data || !data["items"].JArr?) ==>
      GenerateStructuredData(BreadcrumbList, data).Thrown?
  {
  }
}
