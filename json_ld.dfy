/**
  The structured-data (JSON-LD) builder for the five schema.org types the site describes.
  The caller's `data` may be any value or undefined (`None`); it is spread over the defaults
  for the organisation, web-site and product types.
 */
module JsonLd {
  import opened Wrappers
  import opened Strings
  import opened Js
  import M = Metadata

  /** What `createJsonLd` does: returns an object, or throws an `Error`. */
  datatype Outcome = Built(obj: map<string, Json>) | Threw(error: Thrown)

  const BreadcrumbError: string := "Breadcrumb list requires itemListElement array"
  const FaqError: string := "FAQ page requires mainEntity array"
  const ProductError: string := "Product requires name and description"

  /** An array's elements, or a string's characters, as an object keyed by decimal index. */
  function Indexed(items: seq<Json>): (r: map<string, Json>)
    ensures |r| <= |items|
  {
    if items == [] then map[]
    else Indexed(items[..|items| - 1])[DecimalString(|items| - 1) := items[|items| - 1]]
  }

  /** The own enumerable properties `{...data}` copies: an object's fields, an array's or a
      string's elements under their decimal indices, and nothing for `undefined`, `null`,
      booleans and numbers. */
  function Spread(data: Option<Json>): (r: map<string, Json>)
    ensures data.Some? && data.value.JObj? ==> r == data.value.fields
    ensures data.None? || !(data.value.JObj? || data.value.JArr? || data.value.JStr?) ==> r == map[]
  {
    match data
    case None => map[]
    case Some(JObj(fields)) => fields
    case Some(JArr(items)) => Indexed(items)
    case Some(JStr(s)) => Indexed(seq(|s|, i requires 0 <= i < |s| => JStr([s[i]])))
    case Some(_) => map[]
  }

  /** Spreading an array copies each element under its decimal index. */
  lemma {:induction false} IndexedAt(items: seq<Json>, i: nat)
    requires i < |items|
    ensures DecimalString(i) in Indexed(items)
    ensures Indexed(items)[DecimalString(i)] == items[i]
    decreases |items|
  {
    var n := |items| - 1;
    if i < n {
      IndexedAt(items[..n], i);
      DecimalStringValue(i);
      DecimalStringValue(n);
      assert items[..n][i] == items[i];
    }
  }

  /** `a || b`, where `a` may be `undefined`. */
  function Or(a: Option<Json>, b: Json): (r: Json)
    ensures TruthyOpt(a) ==> r == a.value
    ensures !TruthyOpt(a) ==> r == b
  {
    if TruthyOpt(a) then a.value else b
  }

  function DefaultLogo(siteUrl: string): string
  {
    siteUrl + "/logo.png"
  }

  /** The fields written before `...data` for the three types that spread it. */
  function Defaults(kind: string, data: Option<Json>, siteUrl: string): map<string, Json>
    requires kind == "Product" ==> ProductComplete(data)
  {
    if kind == "Organization" then
      map[
        "@context" := JStr("https://schema.org"),
        "@type" := JStr("Organization"),
        "name" := JStr(M.SiteName),
        "url" := JStr(siteUrl),
        "logo" := Or(GetOpt(data, "logo"), JStr(DefaultLogo(siteUrl))),
        "sameAs" := JArr(if M.TwitterLink != "" then [JStr(M.TwitterLink)] else []),
        "contactPoint" := JObj(map[
          "@type" := JStr("ContactPoint"),
          "email" := Or(GetOpt(data, "email"), JStr("")),
          "contactType" := JStr("customer service")])]
    else if kind == "WebSite" then
      map[
        "@context" := JStr("https://schema.org"),
        "@type" := JStr("WebSite"),
        "name" := JStr(M.SiteName),
        "url" := JStr(siteUrl),
        "description" := JStr(M.SiteDescription),
        "potentialAction" := JObj(map[
          "@type" := JStr("SearchAction"),
          "target" := JObj(map[
            "@type" := JStr("EntryPoint"),
            "urlTemplate" := JStr(siteUrl + "/search?q={search_term_string}")]),
          "query-input" := JStr("required name=search_term_string")])]
    else if kind == "Product" then
      map[
        "@context" := JStr("https://schema.org"),
        "@type" := JStr("Product"),
        "name" := GetOpt(data, "name").value,
        "description" := GetOpt(data, "description").value,
        "image" := Or(GetOpt(data, "image"), JStr(DefaultLogo(siteUrl))),
        "brand" := JObj(map["@type" := JStr("Brand"), "name" := JStr(M.SiteName)]),
        "offers" := Or(GetOpt(data, "offers"), JObj(map[
          "@type" := JStr("Offer"),
          "availability" := JStr("https://schema.org/InStock"),
          "price" := Or(GetOpt(data, "price"), JStr("0")),
          "priceCurrency" := Or(GetOpt(data, "currency"), JStr("USD"))]))]
    else map[]
  }

  /** The Product guard: both `name` and `description` present and truthy. */
  predicate ProductComplete(data: Option<Json>)
  {
    TruthyOpt(GetOpt(data, "name")) && TruthyOpt(GetOpt(data, "description"))
  }

  /** `createJsonLd(type, data)` */
  function CreateJsonLd(kind: string, data: Option<Json>, siteUrl: string): (r: Outcome)
    ensures r.Threw? ==> r.error.ErrorValue? && r.error.name == "Error"
  {
    if kind == "Organization" || kind == "WebSite" then
      Built(Defaults(kind, data, siteUrl) + Spread(data))
    else if kind == "BreadcrumbList" then
      if !TruthyOpt(GetOpt(data, "itemListElement")) then Threw(NewError(BreadcrumbError))
      else Built(map[
        "@context" := JStr("https://schema.org"),
        "@type" := JStr("BreadcrumbList"),
        "itemListElement" := GetOpt(data, "itemListElement").value])
    else if kind == "FAQPage" then
      if !TruthyOpt(GetOpt(data, "mainEntity")) then Threw(NewError(FaqError))
      else Built(map[
        "@context" := JStr("https://schema.org"),
        "@type" := JStr("FAQPage"),
        "mainEntity" := GetOpt(data, "mainEntity").value])
    else if kind == "Product" then
      if !ProductComplete(data) then Threw(NewError(ProductError))
      else Built(Defaults(kind, data, siteUrl) + Spread(data))
    else Built(map[])
  }

  /** Any other type name gives the empty object. */
  lemma UnknownKindEmpty(kind: string, data: Option<Json>, siteUrl: string)
    requires kind !in {"Organization", "WebSite", "BreadcrumbList", "FAQPage", "Product"}
    ensures CreateJsonLd(kind, data, siteUrl) == Built(map[])
  {
  }

  /** A breadcrumb list is built exactly when `itemListElement` is truthy; it then holds three
      keys only, so nothing else the caller passes reaches the output. */
  lemma BreadcrumbShape(data: Option<Json>, siteUrl: string)
    ensures var r := CreateJsonLd("BreadcrumbList", data, siteUrl);
      && (r.Threw? <==> !TruthyOpt(GetOpt(data, "itemListElement")))
      && (r.Threw? ==> r.error == NewError(BreadcrumbError))
      && (r.Built? ==> r.obj.Keys == {"@context", "@type", "itemListElement"}
                       && r.obj["itemListElement"] == GetOpt(data, "itemListElement").value)
  {
  }

  /** An FAQ page is built exactly when `mainEntity` is truthy, with three keys only. */
  lemma FaqShape(data: Option<Json>, siteUrl: string)
    ensures var r := CreateJsonLd("FAQPage", data, siteUrl);
      && (r.Threw? <==> !TruthyOpt(GetOpt(data, "mainEntity")))
      && (r.Threw? ==> r.error == NewError(FaqError))
      && (r.Built? ==> r.obj.Keys == {"@context", "@type", "mainEntity"}
                       && r.obj["mainEntity"] == GetOpt(data, "mainEntity").value)
  {
  }

  /** A product is built exactly when it has a truthy name and description, and then carries
      the caller's own name and description. */
  lemma ProductShape(data: Option<Json>, siteUrl: string)
    ensures var r := CreateJsonLd("Product", data, siteUrl);
      && (r.Threw? <==> !ProductComplete(data))
      && (r.Threw? ==> r.error == NewError(ProductError))
      && (r.Built? ==> r.obj["name"] == GetOpt(data, "name").value
                       && r.obj["description"] == GetOpt(data, "description").value)
  {
    if ProductComplete(data) {
      assert data.value.JObj?;
    }
  }

  /** The spreading types: every key the caller's data carries wins over the default, and
      every other key keeps its default. */
  lemma DataOverridesDefaults(kind: string, data: Option<Json>, siteUrl: string, key: string)
    requires kind in {"Organization", "WebSite", "Product"}
    requires kind == "Product" ==> ProductComplete(data)
    ensures var obj := CreateJsonLd(kind, data, siteUrl).obj;
      && (key in Spread(data) ==> key in obj && obj[key] == Spread(data)[key])
      && (key !in Spread(data) && key in Defaults(kind, data, siteUrl) ==>
            key in obj && obj[key] == Defaults(kind, data, siteUrl)[key])
      && (key in obj <==> key in Spread(data) || key in Defaults(kind, data, siteUrl))
  {
  }

  /** Without data the organisation is described by the site alone: the default logo, no
      social links and an empty contact e-mail. */
  lemma OrganizationDefaults(siteUrl: string)
    ensures var obj := CreateJsonLd("Organization", None, siteUrl).obj;
      && obj["logo"] == JStr(siteUrl + "/logo.png")
      && obj["sameAs"] == JArr([])
      && obj["contactPoint"].fields["email"] == JStr("")
      && obj["url"] == JStr(siteUrl)
  {
  }

  /** The `||` fallback is undone by the spread: a logo given as the empty string replaces the
      default logo with the empty string. */
  lemma EmptyLogoSurvives(siteUrl: string, fields: map<string, Json>)
    requires "logo" in fields && fields["logo"] == JStr("")
    ensures CreateJsonLd("Organization", Some(JObj(fields)), siteUrl).obj["logo"] == JStr("")
  {
  }

  /** A product's offers: the caller's `offers` when given; otherwise an in-stock offer whose
      price is the caller's truthy `price` (else "0") and whose currency is the caller's truthy
      `currency` (else "USD"). */
  lemma ProductDefaultOffer(siteUrl: string, fields: map<string, Json>)
    requires ProductComplete(Some(JObj(fields)))
    ensures var obj := CreateJsonLd("Product", Some(JObj(fields)), siteUrl).obj;
      && "offers" in obj
      && ("offers" in fields ==> obj["offers"] == fields["offers"])
      && ("offers" !in fields ==>
            && obj["offers"].JObj?
            && obj["offers"].fields.Keys == {"@type", "availability", "price", "priceCurrency"}
            && obj["offers"].fields["@type"] == JStr("Offer")
            && obj["offers"].fields["availability"] == JStr("https://schema.org/InStock")
            && ("price" in fields && Truthy(fields["price"]) ==>
                  obj["offers"].fields["price"] == fields["price"])
            && (("price" !in fields || !Truthy(fields["price"])) ==>
                  obj["offers"].fields["price"] == JStr("0"))
            && ("currency" in fields && Truthy(fields["currency"]) ==>
                  obj["offers"].fields["priceCurrency"] == fields["currency"])
            && (("currency" !in fields || !Truthy(fields["currency"])) ==>
                  obj["offers"].fields["priceCurrency"] == JStr("USD")))
  {
  }

  /** A product's image: the caller's `image` when the data carries one (even a falsy one,
      which the spread puts back), otherwise the site's logo. */
  lemma ProductImageDefault(siteUrl: string, fields: map<string, Json>)
    requires ProductComplete(Some(JObj(fields)))
    ensures var obj := CreateJsonLd("Product", Some(JObj(fields)), siteUrl).obj;
      && "image" in obj
      && ("image" in fields ==> obj["image"] == fields["image"])
      && ("image" !in fields ==> obj["image"] == JStr(siteUrl + "/logo.png"))
  {
  }

  /** An organisation's contact point, unless the caller gives one: a customer-service entry
      whose e-mail is the caller's truthy `email`, else the empty string. */
  lemma OrganizationContactEmail(siteUrl: string, fields: map<string, Json>)
    requires "contactPoint" !in fields
    ensures var obj := CreateJsonLd("Organization", Some(JObj(fields)), siteUrl).obj;
      && "contactPoint" in obj && obj["contactPoint"].JObj?
      && obj["contactPoint"].fields["contactType"] == JStr("customer service")
      && ("email" in fields && Truthy(fields["email"]) ==>
            obj["contactPoint"].fields["email"] == fields["email"])
      && (("email" !in fields || !Truthy(fields["email"])) ==>
            obj["contactPoint"].fields["email"] == JStr(""))
  {
  }
}
