/**
 * The serverless handler of `api/sitemap.js`: a fixed list of public URLs
 * with their priorities, rendered as a sitemap XML document (sitemaps.org
 * protocol 0.9), one `<url>` element per entry joined by line breaks.
 * A reader for the same layout is given as the document's inverse.
 */
module Sitemap {
  import opened Js

  const BaseUrl := "https://zetech-feedback-portal.vercel.app"

  /** One `{loc, priority}` entry. */
  datatype UrlEntry = UrlEntry(loc: string, priority: string)

  /** The seven pages the sitemap lists, in order. */
  const Routes: seq<UrlEntry> := [
    UrlEntry(BaseUrl + "/", "1.0"),
    UrlEntry(BaseUrl + "/admin/login", "0.8"),
    UrlEntry(BaseUrl + "/admin/dashboard", "0.9"),
    UrlEntry(BaseUrl + "/student/dashboard", "0.9"),
    UrlEntry(BaseUrl + "/student/submit-issue", "0.8"),
    UrlEntry(BaseUrl + "/student/track-issue", "0.8"),
    UrlEntry(BaseUrl + "/student/issue-details", "0.8")
  ]

  /** The text before the entries; note the space after the XML declaration. */
  const Header := "<?xml version=\"1.0\" encoding=\"UTF-8\"?> \n  <urlset xmlns=\"http://www.sitemaps.org/schemas/sitemap/0.9\">\n"
  const Footer := "\n</urlset>"
  const OpenLoc := "  <url>\n    <loc>"
  const AfterLoc := "</loc>" + "\n    <changefreq>weekly</changefreq>\n    <priority>"
  const AfterPriority := "</priority>" + "\n  </url>"

  /** The `<url>` element of one entry. */
  function UrlBlock(e: UrlEntry): string {
    OpenLoc + (e.loc + (AfterLoc + (e.priority + AfterPriority)))
  }

  /** `urls.map(...).join("\n")`. */
  function Body(es: seq<UrlEntry>): string {
    if es == [] then ""
    else if |es| == 1 then UrlBlock(es[0])
    else UrlBlock(es[0]) + ("\n" + Body(es[1..]))
  }

  /** The document the handler sends. */
  function SitemapXml(es: seq<UrlEntry>): string {
    Header + Body(es) + Footer
  }

  /** What the handler answers: status, `Content-Type` and body. */
  datatype Reply = Reply(status: int, contentType: string, body: string)

  /** `handler(req, res)`: the request is not looked at. */
  function Handler(): (r: Reply)
    ensures r.status == 200 && r.contentType == "application/xml; charset=utf-8"
    ensures StartsWith(r.body, Header)
    ensures ParseSitemap(r.body) == Some(Routes)
  {
    RoutesAreTextOnly();
    RoundTrip(Routes);
    Reply(200, "application/xml; charset=utf-8", SitemapXml(Routes))
  }

  /** No `<` inside a value, so a value cannot be mistaken for markup. */
  predicate TextOnly(s: string) {
    forall i | 0 <= i < |s| :: s[i] != '<'
  }

  predicate EntriesTextOnly(es: seq<UrlEntry>) {
    forall i | 0 <= i < |es| :: TextOnly(es[i].loc) && TextOnly(es[i].priority)
  }

  /** Length of the longest prefix of `s` without a `<`. */
  function TextLength(s: string): (n: nat)
    ensures n <= |s| && TextOnly(s[..n])
    ensures n < |s| ==> s[n] == '<'
  {
    if s == [] || s[0] == '<' then 0
    else
      var n := 1 + TextLength(s[1..]);
      assert s[..n] == [s[0]] + s[1..][..n - 1];
      n
  }

  /** Reads one `<url>` element from the front of `s`: its entry and the text after it. */
  function ParseBlock(s: string): (r: Option<(UrlEntry, string)>)
    ensures r.Some? ==> |r.value.1| < |s|
  {
    if !StartsWith(s, OpenLoc) then None
    else
      var r1 := s[|OpenLoc|..];
      var i := TextLength(r1);
      var r2 := r1[i..];
      if !StartsWith(r2, AfterLoc) then None
      else
        var r3 := r2[|AfterLoc|..];
        var j := TextLength(r3);
        var r4 := r3[j..];
        if !StartsWith(r4, AfterPriority) then None
        else Some((UrlEntry(r1[..i], r3[..j]), r4[|AfterPriority|..]))
  }

  /** Reads the `<url>` elements of a body, one after another, separated by line breaks. */
  function ParseBlocks(s: string): Option<seq<UrlEntry>>
    decreases |s|
  {
    match ParseBlock(s)
    case None => None
    case Some((e, rest)) =>
      if rest == "" then Some([e])
      else if rest[0] != '\n' then None
      else match ParseBlocks(rest[1..])
        case None => None
        case Some(es) => Some([e] + es)
  }

  /** Reads a sitemap document back into its entries. */
  function ParseSitemap(doc: string): Option<seq<UrlEntry>> {
    if |doc| < |Header| + |Footer| || doc[..|Header|] != Header || doc[|doc| - |Footer|..] != Footer then None
    else
      var body := doc[|Header|..|doc| - |Footer|];
      if body == "" then Some([]) else ParseBlocks(body)
  }

  /** The length of a text-only value followed by markup is the value's length. */
  lemma {:induction false} TextLengthOf(v: string, rest: string)
    requires TextOnly(v) && rest != [] && rest[0] == '<'
    ensures TextLength(v + rest) == |v|
  {
    if v != [] {
      assert (v + rest)[1..] == v[1..] + rest;
      TextLengthOf(v[1..], rest);
    }
  }

  /** One element is read back from the front of any text that starts with it. */
  lemma ParseBlockStep(e: UrlEntry, tail: string)
    requires TextOnly(e.loc) && TextOnly(e.priority)
    ensures ParseBlock(UrlBlock(e) + tail) == Some((e, tail))
  {
    var s := UrlBlock(e) + tail;
    var r1 := s[|OpenLoc|..];
    assert s[..|OpenLoc|] == OpenLoc;
    assert r1 == e.loc + (AfterLoc + e.priority + AfterPriority + tail);
    assert AfterLoc[0] == '<';
    assert AfterPriority[0] == '<';
    TextLengthOf(e.loc, AfterLoc + e.priority + AfterPriority + tail);
    var r2 := r1[|e.loc|..];
    assert r2 == AfterLoc + e.priority + AfterPriority + tail;
    assert r2[..|AfterLoc|] == AfterLoc;
    var r3 := r2[|AfterLoc|..];
    assert r3 == e.priority + (AfterPriority + tail);
    TextLengthOf(e.priority, AfterPriority + tail);
    var r4 := r3[|e.priority|..];
    assert r4 == AfterPriority + tail;
    assert r4[..|AfterPriority|] == AfterPriority;
    assert r4[|AfterPriority|..] == tail;
    assert r1[..|e.loc|] == e.loc;
    assert r3[..|e.priority|] == e.priority;
  }

  /** How `ParseBlocks` continues after the first element. */
  lemma ParseBlocksStep(s: string, e: UrlEntry, rest: string)
    requires ParseBlock(s) == Some((e, rest))
    ensures rest == "" ==> ParseBlocks(s) == Some([e])
    ensures rest != "" && rest[0] == '\n' && ParseBlocks(rest[1..]).Some? ==>
      ParseBlocks(s) == Some([e] + ParseBlocks(rest[1..]).value)
  {
  }

  /** A one-element body reads back as that element. */
  lemma ParseSingleBody(e: UrlEntry)
    requires TextOnly(e.loc) && TextOnly(e.priority)
    ensures ParseBlocks(Body([e])) == Some([e])
  {
    ParseBlockStep(e, "");
    assert UrlBlock(e) + "" == Body([e]);
    ParseBlocksStep(Body([e]), e, "");
  }

  /** An element, a line break and a body that reads back as `rest` read back as the element followed by `rest`. */
  lemma ParseCons(e: UrlEntry, body: string, rest: seq<UrlEntry>)
    requires TextOnly(e.loc) && TextOnly(e.priority)
    requires ParseBlocks(body) == Some(rest)
    ensures ParseBlocks(UrlBlock(e) + ("\n" + body)) == Some([e] + rest)
  {
    var tail := "\n" + body;
    assert tail[1..] == body;
    ParseBlockStep(e, tail);
    ParseBlocksStep(UrlBlock(e) + tail, e, tail);
  }

  /** A longer body reads back as its first element followed by whatever the rest reads back as. */
  lemma ParseLongerBody(es: seq<UrlEntry>)
    requires |es| >= 2 && TextOnly(es[0].loc) && TextOnly(es[0].priority)
    requires ParseBlocks(Body(es[1..])) == Some(es[1..])
    ensures ParseBlocks(Body(es)) == Some(es)
  {
    ParseCons(es[0], Body(es[1..]), es[1..]);
    assert [es[0]] + es[1..] == es;
  }

  /** The body of a non-empty list reads back as that list. */
  lemma {:induction false} ParseBody(es: seq<UrlEntry>)
    requires es != [] && EntriesTextOnly(es)
    ensures ParseBlocks(Body(es)) == Some(es)
  {
    if |es| == 1 {
      assert es == [es[0]];
      ParseSingleBody(es[0]);
    } else {
      ParseBody(es[1..]);
      ParseLongerBody(es);
    }
  }

  /** The `<url>` element holds the entry's location and priority verbatim, each inside its own tag. */
  lemma UrlBlockHoldsValues(e: UrlEntry)
    ensures var b := UrlBlock(e);
      var p := |OpenLoc| + |e.loc| + |AfterLoc|;
      && |b| == p + |e.priority| + |AfterPriority|
      && b[..|OpenLoc|] == OpenLoc && b[|OpenLoc|..|OpenLoc| + |e.loc|] == e.loc
      && b[|OpenLoc| + |e.loc|..p] == AfterLoc
      && b[p..p + |e.priority|] == e.priority && b[p + |e.priority|..] == AfterPriority
  {
  }

  /** The body is the entries' elements joined by line breaks: appending an entry appends its element. */
  lemma {:induction false} BodyAppend(es: seq<UrlEntry>, e: UrlEntry)
    ensures Body(es + [e]) == if es == [] then UrlBlock(e) else Body(es) + "\n" + UrlBlock(e)
  {
    if es == [] {
      assert es + [e] == [e];
    } else if |es| == 1 {
      assert es + [e] == [es[0], e];
      assert [es[0], e][1..] == [e];
    } else {
      var rest := es[1..];
      assert (es + [e])[1..] == rest + [e];
      BodyAppend(rest, e);
      var head, last, mid := UrlBlock(es[0]), UrlBlock(e), Body(rest);
      assert Body(es + [e]) == head + ("\n" + (mid + "\n" + last));
      assert Body(es) == head + ("\n" + mid);
    }
  }

  /** The document is the XML declaration and `<urlset>` opening, the body, then the closing tag. */
  lemma SitemapFraming(es: seq<UrlEntry>)
    ensures var doc := SitemapXml(es);
      && |doc| == |Header| + |Body(es)| + |Footer|
      && doc[..|Header|] == Header
      && doc[|Header|..|doc| - |Footer|] == Body(es)
      && doc[|doc| - |Footer|..] == Footer
  {
    var doc := SitemapXml(es);
    assert doc[..|Header|] == Header;
    assert doc[|doc| - |Footer|..] == Footer;
    assert doc[|Header|..|doc| - |Footer|] == Body(es);
  }

  /** Every list of text-only entries survives rendering and reading back. */
  lemma RoundTrip(es: seq<UrlEntry>)
    requires EntriesTextOnly(es)
    ensures ParseSitemap(SitemapXml(es)) == Some(es)
  {
    SitemapFraming(es);
    if es != [] {
      ParseBody(es);
    }
  }

  lemma TextOnlyAppend(a: string, b: string)
    requires TextOnly(a) && TextOnly(b)
    ensures TextOnly(a + b)
  {
    forall i | 0 <= i < |a + b| ensures (a + b)[i] != '<' {
      if i < |a| { assert (a + b)[i] == a[i]; } else { assert (a + b)[i] == b[i - |a|]; }
    }
  }

  /** The listed locations and priorities contain no markup. */
  lemma RoutesAreTextOnly()
    ensures EntriesTextOnly(Routes)
  {
    assert TextOnly(BaseUrl);
    assert TextOnly("/") && TextOnly("/admin/login") && TextOnly("/admin/dashboard");
    assert TextOnly("/student/dashboard") && TextOnly("/student/submit-issue");
    assert TextOnly("/student/track-issue") && TextOnly("/student/issue-details");
    assert TextOnly("1.0") && TextOnly("0.8") && TextOnly("0.9");
    TextOnlyAppend(BaseUrl, "/");
    TextOnlyAppend(BaseUrl, "/admin/login");
    TextOnlyAppend(BaseUrl, "/admin/dashboard");
    TextOnlyAppend(BaseUrl, "/student/dashboard");
    TextOnlyAppend(BaseUrl, "/student/submit-issue");
    TextOnlyAppend(BaseUrl, "/student/track-issue");
    TextOnlyAppend(BaseUrl, "/student/issue-details");
  }

  /** Every listed location is a page of the deployed site, and each has its own URL. */
  lemma RoutesAreOnTheSite()
    ensures |Routes| == 7
    ensures forall i | 0 <= i < |Routes| :: StartsWith(Routes[i].loc, BaseUrl + "/")
    ensures forall i, j | 0 <= i < j < |Routes| :: Routes[i].loc != Routes[j].loc
  {
    forall i | 0 <= i < |Routes| ensures StartsWith(Routes[i].loc, BaseUrl + "/") {
      assert Routes[i].loc[..|BaseUrl| + 1] == BaseUrl + "/";
    }
    forall i, j | 0 <= i < j < |Routes| ensures Routes[i].loc != Routes[j].loc {
      var a := Routes[i].loc[|BaseUrl|..];
      var b := Routes[j].loc[|BaseUrl|..];
      assert Routes[i].loc == BaseUrl + a && Routes[j].loc == BaseUrl + b;
      assert a != b;
    }
  }
}
