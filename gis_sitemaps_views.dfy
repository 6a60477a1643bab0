/**
 * The geographic sitemap views: the same index and section selection as
 * the plain sitemap views, reversed against the geographic sitemap view and
 * rendered with the geographic template, and `kmz` as `kml` with
 * compression on.
 */
module GisSitemapViews {
  import opened Wrappers
  import opened SitemapViews

  const GeoSitemapView := "django.contrib.gis.sitemaps.views.sitemap"
  const GeoSitemapTemplate := "gis/sitemaps/geo_sitemap.xml"

  /** The index view; unlike the plain one it leaves the sitemaps untouched. */
  method GeoIndex(request: Request, sitemaps: Sitemaps, domain: string, reverse: (string, string) -> string)
    returns (r: Response)
    requires Valid(sitemaps)
    ensures r == IndexPage(IndexTemplate, IndexUrls(Protocol(request.isSecure), domain, GeoSitemapView, reverse,
                                                    sitemaps.sections, PageCounts(sitemaps.maps)))
  {
    var sites: seq<string> := [];
    var protocol := Protocol(request.isSecure);
    var pageCounts := PageCounts(sitemaps.maps);
    for i := 0 to |sitemaps.sections|
      invariant sites == IndexUrls(protocol, domain, GeoSitemapView, reverse, sitemaps.sections[..i], pageCounts[..i])
    {
      var pages := sitemaps.maps[i].numPages;
      var sitemapUrl := reverse(GeoSitemapView, sitemaps.sections[i]);
      var base := protocol + "://" + domain + sitemapUrl;
      IndexUrlsSnoc(protocol, domain, GeoSitemapView, reverse, sitemaps.sections[..i], pageCounts[..i],
                    sitemaps.sections[i], pages);
      assert sitemaps.sections[..i + 1] == sitemaps.sections[..i] + [sitemaps.sections[i]];
      assert pageCounts[..i + 1] == pageCounts[..i] + [pages];
      sites := AppendSectionUrls(sites, base, pages);
    }
    assert sitemaps.sections[..|sitemaps.sections|] == sitemaps.sections;
    assert pageCounts[..|sitemaps.sections|] == pageCounts;
    r := IndexPage(IndexTemplate, sites);
  }

  /** The sitemap view: the plain view's selection and error mapping, with the geographic template. */
  method GeoSitemap(request: Request, sitemaps: Sitemaps, section: Option<string>, domain: string)
    returns (r: Response)
    requires Valid(sitemaps)
    ensures r == SitemapResponse(request, sitemaps, section, domain, GeoSitemapTemplate)
    ensures r.UrlSet? ==> r.template == GeoSitemapTemplate
  {
    r := SitemapPage(request, sitemaps, section, domain, GeoSitemapTemplate);
  }

  /** The arguments of the `kml` view. */
  datatype KmlArgs = KmlArgs(appLabel: string, modelName: string, fieldName: Option<string>, compress: bool, databaseAlias: string)

  /** The `kmz` view: `kml` with the same arguments and compression on. */
  function Kmz<R>(appLabel: string, modelName: string, fieldName: Option<string>, databaseAlias: string, kml: KmlArgs -> R): (r: R)
    ensures r == kml(KmlArgs(appLabel, modelName, fieldName, true, databaseAlias))
  {
    kml(KmlArgs(appLabel, modelName, fieldName, true, databaseAlias))
  }
}
