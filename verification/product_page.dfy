/** The product page (src/app/product/page.tsx): the schema.org ItemList built
    from the static product list, the alternating section layout and the
    breadcrumb trail, together with the page's metadata
    (src/app/product/metadata.ts). */
module ProductPage {
  import opened Options
  import opened Json
  import Seo
  import opened Sequences

  /** The part of a product the ItemList and the section keys read. */
  datatype Product = Product(id: string, name: string, description: string)

  const HubDescription: string :=
    "The IOTech Smart Hub provides robust connectivity, powerful local processing, and seamless cloud integration for all your devices. It's the reliable backbone for any smart project."

  const SensorDescription: string :=
    "Optimize your crop management with real-time data on soil health, environmental conditions, and plant vitality. Our durable sensors are built to withstand harsh agricultural environments."

  const GatewayDescription: string :=
    "Bridge the gap between your operational technology (OT) and IT infrastructure. Our Industrial Gateway securely collects data from legacy and modern machinery, enabling predictive maintenance and process optimization."

  /** The static product list, in page order. */
  function Catalog(): seq<Product> {
    [ Product("iot-hub-001", "IOTech Smart Hub", HubDescription),
      Product("agri-sensor-002", "Smart Agriculture Sensor", SensorDescription),
      Product("industrial-gateway-003", "Industrial IoT Gateway", GatewayDescription) ]
  }

  /** No two products share an id. */
  predicate DistinctIds(products: seq<Product>) {
    DistinctBy(products, (p: Product) => p.id)
  }

  /** The static ids differ, as their use as React keys requires. */
  lemma CatalogIdsDistinct()
    ensures |Catalog()| == 3 && DistinctIds(Catalog())
  {
    var c := Catalog();
    assert |c[0].id| == 11 && |c[1].id| == 15 && |c[2].id| == 22;
  }

  // ---------------------------------------------------------------------------
  // The ItemList (`productListData`)

  const ListName: string := "IOTech IoT Products"
  const ListDescription: string := "Complete range of IoT products and solutions"
  const AnchorPrefix: string := "/product#"

  /** The link an ItemList entry gives for a product: "/product#" and its id. */
  function Anchor(id: string): (url: string)
    ensures |url| == |AnchorPrefix| + |id|
    ensures url[..|AnchorPrefix|] == AnchorPrefix && url[|AnchorPrefix|..] == id
  {
    AnchorPrefix + id
  }

  /** The product id an in-page link points at: the text after "/product#". */
  function AnchorTarget(url: string): (r: Option<string>)
    ensures r.Some? <==> |url| >= |AnchorPrefix| && url[..|AnchorPrefix|] == AnchorPrefix
  {
    if |url| >= |AnchorPrefix| && url[..|AnchorPrefix|] == AnchorPrefix then Some(url[|AnchorPrefix|..])
    else None
  }

  /** A link names exactly the product it was built for. */
  lemma AnchorRoundTrip(id: string)
    ensures AnchorTarget(Anchor(id)) == Some(id)
  {
  }

  /** Different ids give different links. */
  lemma AnchorInjective(a: string, b: string)
    ensures Anchor(a) == Anchor(b) <==> a == b
  {
    if Anchor(a) == Anchor(b) {
      assert a == Anchor(a)[|AnchorPrefix|..];
    }
  }

  /** The `Product` entry at 0-based `index`. */
  function ListEntry(p: Product, index: nat): (r: Object)
    ensures r.Keys == {"@type", "position", "name", "description", "brand", "category", "url"}
  {
    map[
      "@type" := JStr("Product"),
      "position" := JNum(index + 1),
      "name" := JStr(p.name),
      "description" := JStr(p.description),
      "brand" := Seo.Named("Brand", "IOTech"),
      "category" := JStr("IoT Devices"),
      "url" := JStr(Anchor(p.id))]
  }

  /** `productListData` for a product list. */
  function ProductListData(products: seq<Product>): (r: Object)
    ensures r.Keys == {"@context", "@type", "name", "description", "numberOfItems", "itemListElement"}
    ensures r["@type"] == JStr("ItemList") && r["numberOfItems"] == JNum(|products|)
    ensures r["itemListElement"].JArr? && |r["itemListElement"].elems| == |products|
    ensures forall i :: 0 <= i < |products| ==> r["itemListElement"].elems[i] == JObj(ListEntry(products[i], i))
  {
    map[
      "@context" := JStr("https://schema.org"),
      "@type" := JStr("ItemList"),
      "name" := JStr(ListName),
      "description" := JStr(ListDescription),
      "numberOfItems" := JNum(|products|),
      "itemListElement" := JArr(seq(|products|, i requires 0 <= i < |products| => JObj(ListEntry(products[i], i))))]
  }

  /** What the ItemList promises about each entry: numbered from 1 in list
      order, the product's name and description copied, the IOTech brand, the
      "IoT Devices" category, and a link whose text after "/product#" is that
      product's id. */
  predicate DescribesProduct(e: Json, p: Product, i: nat) {
    && e.JObj?
    && "position" in e.fields && e.fields["position"] == JNum(i + 1)
    && "name" in e.fields && e.fields["name"] == JStr(p.name)
    && "description" in e.fields && e.fields["description"] == JStr(p.description)
    && "brand" in e.fields && e.fields["brand"] == JObj(map["@type" := JStr("Brand"), "name" := JStr("IOTech")])
    && "category" in e.fields && e.fields["category"] == JStr("IoT Devices")
    && "url" in e.fields && e.fields["url"].JStr? && AnchorTarget(e.fields["url"].s) == Some(p.id)
  }

  /** Every entry describes the product at its index. */
  lemma EntriesDescribeProducts(products: seq<Product>)
    ensures var elems := ProductListData(products)["itemListElement"].elems;
      forall i :: 0 <= i < |products| ==> DescribesProduct(elems[i], products[i], i)
  {
    var elems := ProductListData(products)["itemListElement"].elems;
    forall i | 0 <= i < |products|
      ensures DescribesProduct(elems[i], products[i], i)
    {
      AnchorRoundTrip(products[i].id);
    }
  }

  /** With distinct ids, no two entries share a link. */
  lemma EntryUrlsDistinct(products: seq<Product>)
    requires DistinctIds(products)
    ensures var elems := ProductListData(products)["itemListElement"].elems;
      forall i, j :: 0 <= i < j < |products| ==>
        elems[i].fields["url"] != elems[j].fields["url"]
  {
    forall i, j | 0 <= i < j < |products|
      ensures Anchor(products[i].id) != Anchor(products[j].id)
    {
      AnchorInjective(products[i].id, products[j].id);
    }
  }

  // ---------------------------------------------------------------------------
  // Where the ItemList's links land

  /** A rendered product section, with the element `id` it carries if any. */
  datatype Section = Section(product: Product, elementId: Option<string>)

  /** The sections as written (page.tsx:182): `<section ref={ref} className=…>`
      carries no `id`. The product id is only the React key and a span's text. */
  function SectionsAsWritten(products: seq<Product>): (r: seq<Section>)
    ensures |r| == |products|
    ensures forall i :: 0 <= i < |r| ==> r[i].product == products[i]
  {
    seq(|products|, i requires 0 <= i < |products| => Section(products[i], None))
  }

  /** The sections as evidently intended: each carries its product's id. */
  function SectionsCorrected(products: seq<Product>): (r: seq<Section>)
    ensures |r| == |products|
    ensures forall i :: 0 <= i < |r| ==> r[i].product == products[i]
  {
    seq(|products|, i requires 0 <= i < |products| => Section(products[i], Some(products[i].id)))
  }

  /** Following `url` scrolls to `section`: the text after "/product#" is the
      section's element id. */
  predicate LandsOn(url: string, section: Section) {
    AnchorTarget(url).Some? && section.elementId == AnchorTarget(url)
  }

  /** As written, no entry's link lands on any section of the page. */
  lemma DeadAnchors(products: seq<Product>)
    ensures var elems := ProductListData(products)["itemListElement"].elems;
      var sections := SectionsAsWritten(products);
      forall i, j :: 0 <= i < |products| && 0 <= j < |sections| ==>
        elems[i].fields["url"].JStr? && !LandsOn(elems[i].fields["url"].s, sections[j])
  {
  }

  /** With the sections carrying ids, and distinct ids, entry i's link lands
      on section j exactly when j is i. */
  lemma AnchorsLandOnTheirSections(products: seq<Product>)
    requires DistinctIds(products)
    ensures var elems := ProductListData(products)["itemListElement"].elems;
      var sections := SectionsCorrected(products);
      forall i, j :: 0 <= i < |products| && 0 <= j < |sections| ==>
        elems[i].fields["url"].JStr? && (LandsOn(elems[i].fields["url"].s, sections[j]) <==> j == i)
  {
    var elems := ProductListData(products)["itemListElement"].elems;
    forall i | 0 <= i < |products|
      ensures elems[i].fields["url"] == JStr(Anchor(products[i].id))
    {
      AnchorRoundTrip(products[i].id);
    }
  }

  // ---------------------------------------------------------------------------
  // Layout and breadcrumbs

  /** `reverse={index % 2 !== 0}`: whether section `index` puts its image on the right. */
  function IsReversed(index: nat): bool {
    index % 2 != 0
  }

  /** Sections alternate, starting unreversed: section `i` is reversed exactly
      when `i` is odd, and neighbours always differ. */
  lemma LayoutAlternates(index: nat)
    ensures !IsReversed(0)
    ensures IsReversed(index + 1) <==> !IsReversed(index)
    ensures IsReversed(index) <==> exists k: nat :: k <= index && index == 2 * k + 1
  {
    if index % 2 != 0 {
      assert index == 2 * (index / 2) + 1;
    }
  }

  /** The page's breadcrumbs: Home at position 1, Products at position 2. */
  lemma ProductBreadcrumbs()
    ensures var r := Seo.GenerateStructuredData(Seo.BreadcrumbList,
        Seo.ItemsData(Seo.Trail([("Home", "/"), ("Products", "/product")])));
      && r.Ok? && "itemListElement" in r.value && r.value["itemListElement"].JArr?
      && var es := r.value["itemListElement"].elems;
      && |es| == 2 && es[0].JObj? && es[1].JObj?
      && "position" in es[0].fields && es[0].fields["position"] == JNum(1)
      && "item" in es[0].fields && es[0].fields["item"] == JStr(Seo.SiteUrl + "/")
      && "position" in es[1].fields && es[1].fields["position"] == JNum(2)
      && "item" in es[1].fields && es[1].fields["item"] == JStr(Seo.SiteUrl + "/product")
  {
    Seo.TrailItems([("Home", "/"), ("Products", "/product")]);
  }

  // ---------------------------------------------------------------------------
  // Metadata (src/app/product/metadata.ts)

  // Written in pieces so that `ProductTitleLacksL` stays within the verifier's resource limit.
  const ProductTitle: string := "IoT Products - " + "Smart Hubs & " + "Connected " + "Devices | IOTech"

  const ProductDescription: string :=
    "Discover IOTech's comprehensive range of IoT products including smart hubs, sensors, and connected devices. Advanced IoT solutions for agriculture, industry, and smart homes with cutting-edge technology."

  /** The metadata the product page declares. */
  function ProductMetadataConfig(): Seo.SeoConfig {
    Seo.SeoConfig(
      ProductTitle,
      ProductDescription,
      Some(["IoT products", "smart hub", "IoT sensors", "connected devices", "IoT solutions",
            "smart agriculture", "industrial IoT", "IoT technology"]),
      None, Some("/product"), Some(Seo.Website), None, None, None, None)
  }

  /** The title ends in "| IOTech", which is not the full site name, so the
      site name is appended after it: the brand appears twice. */
  lemma ProductMetadataTitle()
    ensures Seo.GenerateMetadata(ProductMetadataConfig()).title == ProductTitle + " | " + Seo.SiteName
  {
    ProductTitleLacksL();
    Seo.FullTitleAppends(ProductTitle, 'l');
  }

  /** The product title has no 'l', a character of the site name. */
  lemma ProductTitleLacksL()
    ensures 'l' !in ProductTitle && 'l' in Seo.SiteName
  {
    assert Seo.SiteName[21] == 'l';
  }

  /** The product page's canonical URL is the site URL followed by "/product". */
  lemma ProductMetadataUrl()
    ensures Seo.GenerateMetadata(ProductMetadataConfig()).canonical == Seo.SiteUrl + "/product"
  {
    assert Seo.Truthy(ProductMetadataConfig().url);
  }
}
