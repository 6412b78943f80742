/** The robots.txt rules of the site (src/app/robots.ts). */
module Robots {
  import opened Strings
  import Seo

  /** One group of crawl rules for a user agent. */
  datatype Rule = Rule(userAgent: string, allow: string, disallow: seq<string>)

  datatype RobotsFile = RobotsFile(rules: seq<Rule>, sitemap: string)

  /** The private areas no crawler is asked to visit. */
  const PrivatePrefixes: seq<string> := ["/api/", "/admin/", "/_next/", "/private/"]

  /** `robots()`: the same allow/disallow group for every crawler and
      Googlebot, and the sitemap under the site URL. */
  function RobotsConfig(): (r: RobotsFile)
    ensures r.sitemap == Seo.SiteUrl + "/sitemap.xml"
    ensures |r.rules| == 2
    ensures r.rules[0].userAgent == "*" && r.rules[1].userAgent == "Googlebot"
    ensures forall i :: 0 <= i < |r.rules| ==> r.rules[i].allow == "/"
    ensures forall i :: 0 <= i < |r.rules| ==> r.rules[i].disallow == PrivatePrefixes
    ensures forall i, k :: 0 <= i < |r.rules| && 0 <= k < |r.rules[i].disallow| ==>
      r.rules[i].disallow[k] != r.rules[i].allow
  {
    var baseUrl := Seo.SiteUrl;
    RobotsFile(
      [Rule("*", "/", PrivatePrefixes), Rule("Googlebot", "/", PrivatePrefixes)],
      baseUrl + "/sitemap.xml")
  }

  /** Whether a rule group lets a crawler fetch `path`, by the longest-match
      rule of section 2.2.2 of RFC 9309: the matching rule with the longest
      path wins, and an allow wins a tie; no match means allowed. */
  predicate Crawlable(r: Rule, path: string) {
    !exists k | 0 <= k < |r.disallow| ::
      IsPrefix(r.disallow[k], path) && (!IsPrefix(r.allow, path) || |r.disallow[k]| > |r.allow|)
  }

  /** Under the site's rules a path is crawlable, for every crawler, exactly
      when it does not start with one of the private prefixes. */
  lemma CrawlableIffNotPrivate(path: string)
    ensures forall i :: 0 <= i < |RobotsConfig().rules| ==>
      (Crawlable(RobotsConfig().rules[i], path) <==>
        forall k :: 0 <= k < |PrivatePrefixes| ==> !IsPrefix(PrivatePrefixes[k], path))
  {
    forall k | 0 <= k < |PrivatePrefixes|
      ensures |PrivatePrefixes[k]| > |"/"|
      ensures IsPrefix(PrivatePrefixes[k], path) ==> IsPrefix("/", path)
    {
      assert PrivatePrefixes[k][0] == '/';
    }
  }
}
