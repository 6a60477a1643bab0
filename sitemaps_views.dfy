/**
 * The sitemap views: `index` lists, for every section of a sitemap
 * dictionary, the URL of the section's sitemap and of its further pages;
 * `sitemap` selects one section (or all) and gathers the URL entries of the
 * requested page, turning pagination errors into 404s. URL reversing, the
 * current site and each sitemap's `get_urls` are inputs; template rendering
 * is reduced to the template name and the context list it is given.
 */
module SitemapViews {
  import opened Wrappers
  import opened Text

  /** The request as the views read it: `is_secure()` and the `p` query parameter. */
  datatype Request = Request(isSecure: bool, pageParam: Option<string>)

  /** The page argument handed to `get_urls`: the `p` parameter, or the integer 1 when it is absent. */
  datatype Page = PageParam(text: string) | DefaultPage

  /** How the page is spelled inside a message (`f"{page}"`). */
  function PageText(page: Page): string {
    match page
    case PageParam(t) => t
    case DefaultPage => "1"
  }

  /** One entry of a sitemap's `get_urls` result. */
  datatype UrlEntry = UrlEntry(location: string, lastmod: Option<string>, changefreq: Option<string>, priority: Option<string>)

  /** The outcome of `get_urls(page=…, site=…)`: the entries, or one of the paginator's two errors. */
  datatype UrlsResult = Urls(entries: seq<UrlEntry>) | EmptyPage | PageNotAnInteger

  /** A sitemap object: the request the index view attaches, its paginator's page count and its `get_urls`. */
  class Sitemap {
    var request: Option<Request>
    const numPages: nat
    const urlsFor: (Page, string) -> UrlsResult

    constructor(numPages: nat, urlsFor: (Page, string) -> UrlsResult)
      ensures this.numPages == numPages && this.urlsFor == urlsFor && request == None
    {
      this.numPages := numPages;
      this.urlsFor := urlsFor;
      request := None;
    }
  }

  /** The `sitemaps` dictionary: section names in iteration order, with their sitemaps. */
  datatype Sitemaps = Sitemaps(sections: seq<string>, maps: seq<Sitemap>)

  /** A dictionary: one sitemap per section, and no section twice. */
  predicate Valid(d: Sitemaps) {
    |d.sections| == |d.maps| &&
    forall i, j :: 0 <= i < j < |d.sections| ==> d.sections[i] != d.sections[j]
  }

  /** What the views produce: a rendered template with its list, or an `Http404` with its message. */
  datatype Response =
    | IndexPage(template: string, sitemaps: seq<string>)
    | UrlSet(template: string, urls: seq<UrlEntry>)
    | NotFound(message: string)

  const SitemapView := "django.contrib.sitemaps.views.sitemap"
  const IndexTemplate := "sitemap_index.xml"

  function Protocol(isSecure: bool): string {
    if isSecure then "https" else "http"
  }

  /** The index URL of page `page` of a section whose first page is at `base`. */
  function PageUrl(base: string, page: nat): string {
    base + "?p=" + NatToString(page)
  }

  /** The URLs one section contributes: its base URL, then `?p=2` up to `?p=pages`. */
  function SectionUrls(base: string, pages: nat): (r: seq<string>)
    ensures |r| == if pages > 1 then pages else 1
    ensures r[0] == base
    ensures forall k :: 1 <= k < |r| ==> r[k] == PageUrl(base, k + 1)
  {
    [base] + seq(if pages > 1 then pages - 1 else 0, k requires k >= 0 => PageUrl(base, k + 2))
  }

  /** No URL of a section appears twice in it. */
  lemma SectionUrlsDistinct(base: string, pages: nat)
    ensures forall i, j :: 0 <= i < j < |SectionUrls(base, pages)| ==> SectionUrls(base, pages)[i] != SectionUrls(base, pages)[j]
  {
    var r := SectionUrls(base, pages);
    forall i, j | 0 <= i < j < |r|
      ensures r[i] != r[j]
    {
      if i == 0 {
        assert |r[j]| > |base|;
      } else if r[i] == r[j] {
        var n := |base + "?p="|;
        assert r[i][n..] == NatToString(i + 1);
        assert r[j][n..] == NatToString(j + 1);
        NatToStringInjective(i + 1, j + 1);
      }
    }
  }

  /** The absolute URL of a section's sitemap. */
  function SectionBase(protocol: string, domain: string, viewName: string,
                       reverse: (string, string) -> string, section: string): string {
    protocol + "://" + domain + reverse(viewName, section)
  }

  /** The index list: each section's URLs, in the dictionary's order. */
  function IndexUrls(protocol: string, domain: string, viewName: string, reverse: (string, string) -> string,
                     sections: seq<string>, pages: seq<nat>): (r: seq<string>)
    requires |sections| == |pages|
    ensures sections == [] ==> r == []
    ensures |sections| > 0 ==> |r| > 0 && r[0] == SectionBase(protocol, domain, viewName, reverse, sections[0])
  {
    if sections == [] then []
    else SectionUrls(SectionBase(protocol, domain, viewName, reverse, sections[0]), pages[0])
         + IndexUrls(protocol, domain, viewName, reverse, sections[1..], pages[1..])
  }

  /** Adding a section at the end adds its URLs at the end. */
  lemma {:induction false} IndexUrlsSnoc(protocol: string, domain: string, viewName: string,
                                         reverse: (string, string) -> string,
                                         sections: seq<string>, pages: seq<nat>, s: string, p: nat)
    requires |sections| == |pages|
    ensures IndexUrls(protocol, domain, viewName, reverse, sections + [s], pages + [p])
         == IndexUrls(protocol, domain, viewName, reverse, sections, pages)
            + SectionUrls(SectionBase(protocol, domain, viewName, reverse, s), p)
    decreases |sections|
  {
    if sections != [] {
      assert (sections + [s])[1..] == sections[1..] + [s];
      assert (pages + [p])[1..] == pages[1..] + [p];
      IndexUrlsSnoc(protocol, domain, viewName, reverse, sections[1..], pages[1..], s, p);
    }
  }

  function Total(pages: seq<nat>): nat {
    if pages == [] then 0 else (if pages[0] > 1 then pages[0] else 1) + Total(pages[1..])
  }

  /** The index has max(1, pages) URLs per section. */
  lemma {:induction false} IndexUrlsLength(protocol: string, domain: string, viewName: string,
                                           reverse: (string, string) -> string,
                                           sections: seq<string>, pages: seq<nat>)
    requires |sections| == |pages|
    ensures |IndexUrls(protocol, domain, viewName, reverse, sections, pages)| == Total(pages)
    decreases |sections|
  {
    if sections != [] {
      IndexUrlsLength(protocol, domain, viewName, reverse, sections[1..], pages[1..]);
    }
  }

  function PageCounts(maps: seq<Sitemap>): (r: seq<nat>)
    ensures |r| == |maps| && forall i :: 0 <= i < |maps| ==> r[i] == maps[i].numPages
  {
    seq(|maps|, i requires 0 <= i < |maps| => maps[i].numPages)
  }

  /**
   * The index view: attaches the request to every sitemap and lists the
   * section URLs with the request's protocol and the current site's domain.
   */
  method Index(request: Request, sitemaps: Sitemaps, domain: string, reverse: (string, string) -> string,
               templateName: string) returns (r: Response)
    requires Valid(sitemaps)
    modifies set i | 0 <= i < |sitemaps.maps| :: sitemaps.maps[i]
    ensures r == IndexPage(templateName, IndexUrls(Protocol(request.isSecure), domain, SitemapView, reverse,
                                                   sitemaps.sections, PageCounts(sitemaps.maps)))
    ensures forall i :: 0 <= i < |sitemaps.maps| ==> sitemaps.maps[i].request == Some(request)
  {
    var sites: seq<string> := [];
    var protocol := Protocol(request.isSecure);
    var pageCounts := PageCounts(sitemaps.maps);
    for i := 0 to |sitemaps.sections|
      invariant sites == IndexUrls(protocol, domain, SitemapView, reverse, sitemaps.sections[..i], pageCounts[..i])
      invariant forall j :: 0 <= j < i ==> sitemaps.maps[j].request == Some(request)
    {
      var site := sitemaps.maps[i];
      site.request := Some(request);
      var pages := site.numPages;
      var sitemapUrl := reverse(SitemapView, sitemaps.sections[i]);
      var base := protocol + "://" + domain + sitemapUrl;
      IndexUrlsSnoc(protocol, domain, SitemapView, reverse, sitemaps.sections[..i], pageCounts[..i],
                    sitemaps.sections[i], pages);
      assert sitemaps.sections[..i + 1] == sitemaps.sections[..i] + [sitemaps.sections[i]];
      assert pageCounts[..i + 1] == pageCounts[..i] + [pages];
      sites := AppendSectionUrls(sites, base, pages);
    }
    assert sitemaps.sections[..|sitemaps.sections|] == sitemaps.sections;
    assert pageCounts[..|sitemaps.sections|] == pageCounts;
    r := IndexPage(templateName, sites);
  }

  /** Appends a section's URLs: the base URL, then one URL per further page. */
  method AppendSectionUrls(sites: seq<string>, base: string, pages: nat) returns (r: seq<string>)
    ensures r == sites + SectionUrls(base, pages)
  {
    r := sites + [base];
    if pages > 1 {
      for page := 2 to pages + 1
        invariant r == sites + SectionUrls(base, pages)[..page - 1]
      {
        assert SectionUrls(base, pages)[..page] == SectionUrls(base, pages)[..page - 1] + [PageUrl(base, page)];
        r := r + [PageUrl(base, page)];
      }
    }
    assert SectionUrls(base, pages)[..|SectionUrls(base, pages)|] == SectionUrls(base, pages);
  }

  /** Python's `repr` of a section name (plain quoting). */
  function Repr(s: string): string {
    "'" + s + "'"
  }

  function NoSectionMessage(section: string): string {
    "No sitemap available for section: " + Repr(section)
  }

  function EmptyPageMessage(page: Page): string {
    "Page " + PageText(page) + " empty"
  }

  function NoPageMessage(page: Page): string {
    "No page '" + PageText(page) + "'"
  }

  /** The sitemaps a request selects: all of them, or the named section's; `None` for an unknown section. */
  function Selected(sitemaps: Sitemaps, section: Option<string>): (r: Option<seq<Sitemap>>)
    requires Valid(sitemaps)
    ensures section.None? ==> r == Some(sitemaps.maps)
    ensures section.Some? ==> (r.None? <==> section.value !in sitemaps.sections)
    ensures section.Some? && r.Some? ==>
              exists i :: 0 <= i < |sitemaps.sections| && sitemaps.sections[i] == section.value && r.value == [sitemaps.maps[i]]
  {
    match section
    case None => Some(sitemaps.maps)
    case Some(s) =>
      if s in sitemaps.sections then Some([sitemaps.maps[IndexOf(sitemaps.sections, s)]]) else None
  }

  function IndexOf(keys: seq<string>, k: string): (i: nat)
    requires k in keys
    ensures i < |keys| && keys[i] == k
  {
    if keys[0] == k then 0 else 1 + IndexOf(keys[1..], k)
  }

  /** A known section selects exactly its own sitemap, because the dictionary's keys are distinct. */
  lemma SelectedSection(sitemaps: Sitemaps, i: nat)
    requires Valid(sitemaps) && i < |sitemaps.sections|
    ensures Selected(sitemaps, Some(sitemaps.sections[i])) == Some([sitemaps.maps[i]])
  {
    var j := IndexOf(sitemaps.sections, sitemaps.sections[i]);
  }

  /** Requesting a known section answers with that section's sitemap alone. */
  lemma SitemapOfSection(request: Request, sitemaps: Sitemaps, i: nat, domain: string, templateName: string)
    requires Valid(sitemaps) && i < |sitemaps.sections|
    ensures SitemapResponse(request, sitemaps, Some(sitemaps.sections[i]), domain, templateName)
         == SitemapResponse(request, Sitemaps([sitemaps.sections[i]], [sitemaps.maps[i]]), None, domain, templateName)
  {
    SelectedSection(sitemaps, i);
  }

  /** The entries of the selected sitemaps, in order, or the 404 of the first one that fails. */
  function Gather(maps: seq<Sitemap>, page: Page, domain: string): Result<seq<UrlEntry>, string> {
    if maps == [] then Ok([])
    else match maps[0].urlsFor(page, domain)
      case EmptyPage => Err(EmptyPageMessage(page))
      case PageNotAnInteger => Err(NoPageMessage(page))
      case Urls(entries) =>
        match Gather(maps[1..], page, domain)
        case Ok(rest) => Ok(entries + rest)
        case Err(m) => Err(m)
  }

  /** Gathering fails exactly when some selected sitemap fails, and then with the message of the first one. */
  lemma {:induction false} GatherFailsAtFirst(maps: seq<Sitemap>, page: Page, domain: string)
    ensures Gather(maps, page, domain).Err? <==> exists i :: 0 <= i < |maps| && !maps[i].urlsFor(page, domain).Urls?
    ensures forall i :: 0 <= i < |maps| && !maps[i].urlsFor(page, domain).Urls? &&
                        (forall j :: 0 <= j < i ==> maps[j].urlsFor(page, domain).Urls?) ==>
              Gather(maps, page, domain) ==
                Err(if maps[i].urlsFor(page, domain).EmptyPage? then EmptyPageMessage(page) else NoPageMessage(page))
    decreases |maps|
  {
    if maps != [] {
      var rest := maps[1..];
      GatherFailsAtFirst(rest, page, domain);
      assert forall i :: 1 <= i < |maps| ==> maps[i] == rest[i - 1];
      if maps[0].urlsFor(page, domain).Urls? {
        forall i | 0 <= i < |maps| && !maps[i].urlsFor(page, domain).Urls? &&
                   (forall j :: 0 <= j < i ==> maps[j].urlsFor(page, domain).Urls?)
          ensures Gather(maps, page, domain) ==
                    Err(if maps[i].urlsFor(page, domain).EmptyPage? then EmptyPageMessage(page) else NoPageMessage(page))
        {
          assert i > 0 && rest[i - 1] == maps[i];
          assert forall j :: 0 <= j < i - 1 ==> rest[j] == maps[j + 1];
        }
        if Gather(maps, page, domain).Err? {
          var i :| 0 <= i < |rest| && !rest[i].urlsFor(page, domain).Urls?;
          assert maps[i + 1] == rest[i];
        }
      }
    }
  }

  /** The page the request asks for. */
  function RequestedPage(request: Request): Page {
    match request.pageParam
    case Some(p) => PageParam(p)
    case None => DefaultPage
  }

  /** The sitemap view's response. */
  function SitemapResponse(request: Request, sitemaps: Sitemaps, section: Option<string>, domain: string,
                           templateName: string): (r: Response)
    requires Valid(sitemaps)
    ensures section.Some? && section.value !in sitemaps.sections ==> r == NotFound(NoSectionMessage(section.value))
    ensures r.UrlSet? ==> r.template == templateName
  {
    match Selected(sitemaps, section)
    case None => NotFound(NoSectionMessage(section.value))
    case Some(maps) =>
      match Gather(maps, RequestedPage(request), domain)
      case Ok(urls) => UrlSet(templateName, urls)
      case Err(m) => NotFound(m)
  }

  function Prepend(urls: seq<UrlEntry>, r: Result<seq<UrlEntry>, string>): Result<seq<UrlEntry>, string> {
    match r
    case Ok(rest) => Ok(urls + rest)
    case Err(m) => Err(m)
  }

  /** The sitemap view, extending the URL list sitemap by sitemap. */
  method SitemapPage(request: Request, sitemaps: Sitemaps, section: Option<string>, domain: string,
                     templateName: string) returns (r: Response)
    requires Valid(sitemaps)
    ensures r == SitemapResponse(request, sitemaps, section, domain, templateName)
  {
    var maps: seq<Sitemap> := [];
    if section.None? {
      maps := sitemaps.maps;
    } else if section.value !in sitemaps.sections {
      return NotFound(NoSectionMessage(section.value));
    } else {
      maps := maps + [sitemaps.maps[IndexOf(sitemaps.sections, section.value)]];
    }
    var page := RequestedPage(request);
    var urls: seq<UrlEntry> := [];
    assert maps[0..] == maps;
    match Gather(maps, page, domain) {
      case Ok(all) => assert [] + all == all;
      case Err(_) =>
    }
    for i := 0 to |maps|
      invariant Gather(maps, page, domain) == Prepend(urls, Gather(maps[i..], page, domain))
    {
      assert maps[i..][1..] == maps[i + 1..];
      match maps[i].urlsFor(page, domain)
      case EmptyPage =>
        return NotFound(EmptyPageMessage(page));
      case PageNotAnInteger =>
        return NotFound(NoPageMessage(page));
      case Urls(entries) =>
        match Gather(maps[i + 1..], page, domain) {
          case Ok(rest) =>
            assert urls + (entries + rest) == (urls + entries) + rest;
          case Err(_) =>
        }
        urls := urls + entries;
    }
    assert maps[|maps|..] == [];
    r := UrlSet(templateName, urls);
  }
}
