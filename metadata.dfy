/**
  The site configuration and the page-metadata builder. The site URL comes from the
  environment (`NEXT_PUBLIC_APP_URL`) and is a parameter here.
 */
module Metadata {
  import opened Wrappers
  import opened Strings

  const SiteName: string := "saas-starter-template"
  const SiteDescription: string := ""
  const TwitterLink: string := ""
  const DefaultTitle: string := ""
  const DefaultDescription: string := ""
  const DefaultKeywords: string := ""
  const DefaultImage: string := ""

  /** `process.env.NEXT_PUBLIC_APP_URL ?? ''` */
  function SiteUrl(appUrl: Option<string>): (url: string)
    ensures appUrl.Some? ==> url == appUrl.value
    ensures appUrl.None? ==> url == ""
  {
    if appUrl.Some? then appUrl.value else ""
  }

  /** `absoluteUrl(path)`: the site URL and the path side by side, with no slash handling. */
  function AbsoluteUrl(siteUrl: string, path: string): (r: string)
    ensures |r| == |siteUrl| + |path|
    ensures StartsWith(r, siteUrl) && r[|siteUrl|..] == path
  {
    siteUrl + path
  }

  /** The optional arguments of `generateMetadata`; `None` is an argument left undefined,
      which takes the default. */
  datatype MetadataArgs = MetadataArgs(
    title: Option<string>,
    description: Option<string>,
    image: Option<string>,
    noIndex: Option<bool>,
    path: Option<string>)

  datatype Image = Image(url: string, width: nat, height: nat, alt: string)

  datatype OpenGraph = OpenGraph(kind: string, locale: string, url: string, title: string,
                                 description: string, siteName: string, images: seq<Image>)

  datatype Twitter = Twitter(card: string, title: string, description: string, images: seq<string>, creator: string)

  datatype Author = Author(name: string, url: string)

  /** The metadata record; `metadataBase` is kept as the text `new URL` is given. */
  datatype PageMetadata = PageMetadata(
    metadataBase: string,
    titleDefault: string,
    titleTemplate: string,
    description: string,
    keywords: string,
    authors: seq<Author>,
    creator: string,
    publisher: string,
    robots: string,
    canonical: string,
    openGraph: OpenGraph,
    twitter: Twitter,
    icon: string,
    shortcutIcon: string,
    appleIcon: string,
    manifest: string)

  function Default<T>(v: Option<T>, d: T): T
  {
    if v.Some? then v.value else d
  }

  /** The image URL: kept when it starts with "https", otherwise made absolute. */
  function ImageUrl(siteUrl: string, image: string): (url: string)
    ensures StartsWith(image, "https") ==> url == image
    ensures !StartsWith(image, "https") ==> url == AbsoluteUrl(siteUrl, image)
  {
    if StartsWith(image, "https") then image else AbsoluteUrl(siteUrl, image)
  }

  /** A URL scheme at the start of `s`: an ASCII letter, then letters, digits, "+", "-" or
      ".", then ":". `new URL(s)` without a base fails when the text left after `UrlInput`
      does not start so. */
  predicate HasScheme(s: string)
  {
    exists i :: 1 <= i < |s| && s[i] == ':' && IsAsciiLetter(s[0]) && forall j :: 1 <= j < i ==> IsSchemeChar(s[j])
  }

  /** The text the URL parser reads its scheme from: leading and trailing C0 controls and
      spaces (every character up to U+0020) are stripped, then every tab, line feed and
      carriage return is removed. */
  function UrlInput(s: string): string
  {
    DropTabsAndNewlines(TrimEnd(TrimStart(s)))
  }

  /** The parser's input keeps only characters of the site URL, and no tab or line break. */
  lemma UrlInputChars(s: string)
    ensures forall c :: c in UrlInput(s) ==> c in s
    ensures var r := UrlInput(s); '\t' !in r && '\n' !in r && '\r' !in r
  {
    var t := TrimStart(s);
    var u := TrimEnd(t);
    TrimStartShape(s);
    TrimEndShape(t);
    DropChars(u);
    forall c | c in u
      ensures c in s
    {
      var k :| 0 <= k < |u| && u[k] == c;
      assert t[k] == c;
      assert s[|s| - |t| + k] == c;
    }
  }

  /** The parser's input starts and ends above U+0020. */
  lemma UrlInputEnds(s: string)
    ensures var r := UrlInput(s); r == "" || (r[0] > ' ' && r[|r| - 1] > ' ')
  {
    var t := TrimStart(s);
    var u := TrimEnd(t);
    TrimStartShape(s);
    TrimEndShape(t);
    if u != "" {
      assert u[0] == t[0];
      DropEnds(u);
    }
  }

  /** A site URL with no character at or below U+0020 is read by the parser as it is. */
  lemma UrlInputClean(s: string)
    requires forall i :: 0 <= i < |s| ==> s[i] > ' '
    ensures UrlInput(s) == s
  {
    assert TrimStart(s) == s;
    assert TrimEnd(s) == s;
    DropClean(s);
  }

  /** Stripping C0 controls and spaces from the front leaves a suffix that is empty or starts
      above U+0020. */
  function TrimStart(s: string): string
    decreases |s|
  {
    if s != "" && s[0] <= ' ' then TrimStart(s[1..]) else s
  }

  /** Stripping C0 controls and spaces from the back leaves a prefix that is empty or ends
      above U+0020. */
  function TrimEnd(s: string): string
    decreases |s|
  {
    if s != "" && s[|s| - 1] <= ' ' then TrimEnd(s[..|s| - 1]) else s
  }

  predicate IsTabOrNewline(c: char)
  {
    c == '\t' || c == '\n' || c == '\r'
  }

  function DropTabsAndNewlines(s: string): string
  {
    if s == "" then ""
    else (if IsTabOrNewline(s[0]) then "" else [s[0]]) + DropTabsAndNewlines(s[1..])
  }

  lemma {:induction false} TrimStartShape(s: string)
    ensures var r := TrimStart(s); |r| <= |s| && r == s[|s| - |r|..] && (r == "" || r[0] > ' ')
    decreases |s|
  {
    if s != "" && s[0] <= ' ' {
      TrimStartShape(s[1..]);
      var r := TrimStart(s[1..]);
      assert s[1..][|s| - 1 - |r|..] == s[|s| - |r|..];
    }
  }

  lemma {:induction false} TrimEndShape(s: string)
    ensures var r := TrimEnd(s); |r| <= |s| && r == s[..|r|] && (r == "" || r[|r| - 1] > ' ')
    decreases |s|
  {
    if s != "" && s[|s| - 1] <= ' ' {
      TrimEndShape(s[..|s| - 1]);
      var r := TrimEnd(s[..|s| - 1]);
      assert s[..|s| - 1][..|r|] == s[..|r|];
    }
  }

  lemma {:induction false} DropChars(s: string)
    ensures forall c :: c in DropTabsAndNewlines(s) ==> c in s && !IsTabOrNewline(c)
  {
    if s != "" {
      DropChars(s[1..]);
    }
  }

  lemma DropEnds(s: string)
    requires s != "" && !IsTabOrNewline(s[0]) && !IsTabOrNewline(s[|s| - 1])
    ensures var r := DropTabsAndNewlines(s); r != "" && r[0] == s[0] && r[|r| - 1] == s[|s| - 1]
  {
    DropLast(s);
  }

  lemma {:induction false} DropLast(s: string)
    requires s != "" && !IsTabOrNewline(s[|s| - 1])
    ensures var r := DropTabsAndNewlines(s); r != "" && r[|r| - 1] == s[|s| - 1]
  {
    if |s| > 1 {
      DropLast(s[1..]);
    }
  }

  lemma {:induction false} DropClean(s: string)
    requires forall i :: 0 <= i < |s| ==> !IsTabOrNewline(s[i])
    ensures DropTabsAndNewlines(s) == s
  {
    if s != "" {
      DropClean(s[1..]);
      assert s == [s[0]] + s[1..];
    }
  }

  predicate IsAsciiLetter(c: char)
  {
    'a' <= c <= 'z' || 'A' <= c <= 'Z'
  }

  predicate IsSchemeChar(c: char)
  {
    IsAsciiLetter(c) || '0' <= c <= '9' || c == '+' || c == '-' || c == '.'
  }

  /** `generateMetadata(args)`: `None` when `new URL(siteConfig.url)` throws for want of a
      scheme once the parser has trimmed the text (the empty string included). */
  function GenerateMetadata(siteUrl: string, args: MetadataArgs): (r: Option<PageMetadata>)
    ensures r.None? <==> !HasScheme(UrlInput(siteUrl))
    ensures r.Some? ==> var m := r.value;
      && m.metadataBase == siteUrl
      && m.canonical == m.openGraph.url == AbsoluteUrl(siteUrl, Default(args.path, "/"))
      && |m.twitter.images| == 1 && m.twitter.images[0] == ImageUrl(siteUrl, Default(args.image, DefaultImage))
      && m.openGraph.images == [Image(m.twitter.images[0], 1200, 630, m.titleDefault)]
      && m.titleDefault == m.openGraph.title == m.twitter.title == Default(args.title, DefaultTitle)
      && m.titleTemplate == "%s | " + SiteName
      && m.description == m.openGraph.description == m.twitter.description
         == Default(args.description, DefaultDescription)
  {
    if !HasScheme(UrlInput(siteUrl)) then None
    else Some(BuildMetadata(siteUrl, args))
  }

  /** The record `generateMetadata` returns once `new URL` has succeeded. */
  function BuildMetadata(siteUrl: string, args: MetadataArgs): PageMetadata
  {
    var title := Default(args.title, DefaultTitle);
    var description := Default(args.description, DefaultDescription);
    var imageUrl := ImageUrl(siteUrl, Default(args.image, DefaultImage));
    var path := Default(args.path, "/");
    PageMetadata(
      siteUrl,
      title,
      "%s | " + SiteName,
      description,
      DefaultKeywords,
      [Author(SiteName, siteUrl)],
      SiteName,
      SiteName,
      if Default(args.noIndex, false) then "noindex, nofollow" else "index, follow",
      AbsoluteUrl(siteUrl, path),
      OpenGraph("website", "en_US", AbsoluteUrl(siteUrl, path), title, description, SiteName,
        [Image(imageUrl, 1200, 630, title)]),
      Twitter("summary_large_image", title, description, [imageUrl], ""),
      "/favicon.ico",
      "/favicon-16x16.png",
      "/apple-touch-icon.png",
      "/site.webmanifest")
  }

  /** With `NEXT_PUBLIC_APP_URL` unset the site URL is empty, and `new URL('')` throws, so
      no metadata is produced; the same holds for any site URL without a colon, such as a bare
      host name. */
  lemma UnsetSiteThrows(siteUrl: string, args: MetadataArgs)
    requires ':' !in siteUrl
    ensures GenerateMetadata(SiteUrl(None), args).None?
    ensures GenerateMetadata(siteUrl, args).None?
  {
    UrlInputChars(siteUrl);
  }

  /** The parser ignores a space before the site URL and a line break after it: such a URL
      yields metadata exactly when the bare one does. */
  lemma SurroundingWhitespaceIgnored(siteUrl: string, args: MetadataArgs)
    requires forall i :: 0 <= i < |siteUrl| ==> siteUrl[i] > ' '
    ensures GenerateMetadata(" " + siteUrl + "\n", args).Some? <==> GenerateMetadata(siteUrl, args).Some?
  {
    var padded := " " + siteUrl + "\n";
    assert padded[1..] == siteUrl + "\n";
    assert TrimStart(padded) == TrimStart(siteUrl + "\n");
    if siteUrl == "" {
      assert TrimStart("\n") == TrimStart("");
      assert UrlInput(padded) == "" == siteUrl;
    } else {
      assert TrimStart(siteUrl + "\n") == siteUrl + "\n";
      assert (siteUrl + "\n")[..|siteUrl|] == siteUrl;
      assert TrimEnd(siteUrl + "\n") == TrimEnd(siteUrl) == siteUrl;
      assert TrimStart(siteUrl) == siteUrl;
      UrlInputClean(siteUrl);
      assert UrlInput(padded) == UrlInput(siteUrl);
    }
  }

  /** The site URL only prefixes the URLs: titles, descriptions, robots and the title
      template are the same for every site URL, and the canonical URL keeps the same path. */
  lemma SiteUrlOnlyPrefixesUrls(site1: string, site2: string, args: MetadataArgs)
    requires HasScheme(UrlInput(site1)) && HasScheme(UrlInput(site2))
    ensures GenerateMetadata(site1, args).Some? && GenerateMetadata(site2, args).Some?
    ensures var m1 := GenerateMetadata(site1, args).value; var m2 := GenerateMetadata(site2, args).value;
      && m1.titleDefault == m2.titleDefault && m1.titleTemplate == m2.titleTemplate
      && m1.description == m2.description && m1.robots == m2.robots
      && m1.canonical[|site1|..] == m2.canonical[|site2|..] == Default(args.path, "/")
  {
  }

  /** A page is hidden from search engines exactly when `noIndex` is passed as true;
      leaving it out keeps the page indexable. */
  lemma RobotsFollowNoIndex(siteUrl: string, args: MetadataArgs)
    requires HasScheme(UrlInput(siteUrl))
    ensures GenerateMetadata(siteUrl, args).Some?
    ensures GenerateMetadata(siteUrl, args).value.robots == "noindex, nofollow" <==> args.noIndex == Some(true)
    ensures GenerateMetadata(siteUrl, args).value.robots != "noindex, nofollow" ==>
              GenerateMetadata(siteUrl, args).value.robots == "index, follow"
  {
    assert "index, follow" != "noindex, nofollow" by {
      assert "index, follow"[0] != "noindex, nofollow"[0];
    }
  }

  /** The social image is always absolute: it is either an https URL given by the caller or
      the site URL followed by the image path. */
  lemma ImageIsAbsolute(siteUrl: string, args: MetadataArgs)
    requires HasScheme(UrlInput(siteUrl))
    ensures GenerateMetadata(siteUrl, args).Some?
    ensures var url := GenerateMetadata(siteUrl, args).value.openGraph.images[0].url;
      StartsWith(url, "https") || StartsWith(url, siteUrl)
  {
  }

  /** With no arguments at all: the site root is canonical, the page is indexable, and the
      image is the site URL itself (the default image path is empty). */
  lemma AllDefaults(siteUrl: string)
    requires HasScheme(UrlInput(siteUrl))
    ensures GenerateMetadata(siteUrl, MetadataArgs(None, None, None, None, None)).Some?
    ensures var m := GenerateMetadata(siteUrl, MetadataArgs(None, None, None, None, None)).value;
      && m.canonical == siteUrl + "/"
      && m.robots == "index, follow"
      && m.twitter.images == [siteUrl]
      && m.titleDefault == ""
  {
    assert siteUrl + "" == siteUrl;
  }
}
