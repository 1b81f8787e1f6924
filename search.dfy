/**
 * The site search of `search.js`: URL resolution against the page location,
 * the index entry computed from a fetched page, the query filter, and the
 * results panel with its keyboard selection. The browser's location is a
 * pair of parameters (origin and pathname), a parsed page is the text of the
 * elements the script reads, and the results panel is a value.
 */
module Search {
  import opened Wrappers
  import opened Strings

  /** The preview keeps at most this many characters of its source. */
  const PreviewLimit := 150
  /** A paragraph longer than this can serve as the preview. */
  const LongParagraph := 50
  const Ellipsis := "..."

  // ----- URLs -----

  /** `getRepoPath`: "/" and the second "/"-separated piece of the pathname, when that piece exists and is not empty. */
  function RepoPath(pathname: string): (r: string)
    ensures r == [] || (|r| >= 2 && r[0] == '/' && '/' !in r[1..])
  {
    var parts := Split(pathname, '/');
    if |parts| > 1 && parts[1] != "" then
      assert ("/" + parts[1])[1..] == parts[1];
      "/" + parts[1]
    else ""
  }

  /** On GitHub Pages the pathname is `/<repository>/...`: the repository segment is the repository path. */
  lemma RepoPathOfSegment(first: string, segment: string, rest: string)
    requires '/' !in first && '/' !in segment && segment != ""
    requires rest == [] || rest[0] == '/'
    ensures RepoPath(first + "/" + segment + rest) == "/" + segment
  {
    assert first + "/" + segment + rest == first + ['/'] + (segment + rest);
    SplitAfterFirst(first, '/', segment + rest);
    SplitFirstPiece(segment, '/', rest);
  }

  /** An empty second segment (as in `//x` or a bare `/`) gives no repository path. */
  lemma RepoPathOfEmptySegment(first: string, rest: string)
    requires '/' !in first
    requires rest == [] || rest[0] == '/'
    ensures RepoPath(first + "/" + rest) == ""
  {
    assert first + "/" + rest == first + ['/'] + rest;
    SplitAfterFirst(first, '/', rest);
    assert [] + rest == rest;
    SplitFirstPiece([], '/', rest);
  }

  /** A pathname without any "/" has a single segment and so no repository path. */
  lemma RepoPathWithoutSlash(pathname: string)
    requires '/' !in pathname
    ensures RepoPath(pathname) == ""
  {
    SplitWithoutSeparator(pathname, '/');
  }

  /** The pattern `^(https?:)?\/\/`: protocol-relative or with an explicit `http:`/`https:` scheme. */
  predicate IsAbsolute(path: string) {
    StartsWith(path, "//") || StartsWith(path, "http://") || StartsWith(path, "https://")
  }

  /** `pathname.substring(0, pathname.lastIndexOf('/') + 1)`: the pathname up to and including its last "/". */
  function CurrentDir(pathname: string): (r: string)
    ensures StartsWith(pathname, r)
    ensures r == [] || r[|r| - 1] == '/'
    ensures '/' !in pathname[|r|..]
  {
    var n := AfterLast(pathname, '/');
    assert forall k :: 0 <= k < |pathname[n..]| ==> pathname[n..][k] == pathname[n + k];
    pathname[..n]
  }

  /**
   * `resolve_url`: the resolved URL and the base URL afterwards. An absolute
   * path is returned untouched, before the base is looked at. Otherwise an
   * empty base is first replaced by origin + repository path; a path starting
   * with "/" is appended to the base, and any other path to the directory of
   * the current page. The resolved URL always ends with the path, and a base
   * once set is never replaced.
   */
  function Resolve(path: string, base: string, origin: string, pathname: string): (r: (string, string))
    ensures IsAbsolute(path) ==> r == (path, base)
    ensures !IsAbsolute(path) ==> r.1 == (if base == "" then origin + RepoPath(pathname) else base)
    ensures !IsAbsolute(path) && StartsWith(path, "/") ==> r.0 == r.1 + path
    ensures !IsAbsolute(path) && !StartsWith(path, "/") ==> r.0 == origin + CurrentDir(pathname) + path
    ensures |path| <= |r.0| && r.0[|r.0| - |path|..] == path
    ensures base != "" ==> r.1 == base
  {
    if IsAbsolute(path) then (path, base)
    else
      var b := if base == "" then origin + RepoPath(pathname) else base;
      if StartsWith(path, "/") then (b + path, b)
      else (origin + CurrentDir(pathname) + path, b)
  }

  predicate HasWebScheme(url: string) {
    StartsWith(url, "http://") || StartsWith(url, "https://")
  }

  lemma {:induction false} WebSchemeConcat(a: string, b: string)
    requires HasWebScheme(a)
    ensures HasWebScheme(a + b)
  {
    if StartsWith(a, "http://") {
      StartsWithConcat(a, b, "http://");
    } else {
      StartsWithConcat(a, b, "https://");
    }
  }

  /** With a web origin and a base that is unset or a web URL, resolution yields web URLs only. */
  lemma ResolveYieldsWebUrl(path: string, base: string, origin: string, pathname: string)
    requires HasWebScheme(origin)
    requires base == "" || HasWebScheme(base)
    requires !IsAbsolute(path)
    ensures HasWebScheme(Resolve(path, base, origin, pathname).0)
    ensures HasWebScheme(Resolve(path, base, origin, pathname).1)
  {
    var r := Resolve(path, base, origin, pathname);
    if base == "" {
      WebSchemeConcat(origin, RepoPath(pathname));
    }
    if StartsWith(path, "/") {
      WebSchemeConcat(r.1, path);
    } else {
      WebSchemeConcat(origin, CurrentDir(pathname) + path);
      assert r.0 == origin + (CurrentDir(pathname) + path);
    }
  }

  /**
   * Under the same conditions every resolved URL is absolute, so resolving it
   * again changes neither the URL nor the base: the `absolute_url` stored in
   * an entry is final.
   */
  lemma ResolveIdempotent(path: string, base: string, origin: string, pathname: string)
    requires HasWebScheme(origin)
    requires base == "" || HasWebScheme(base)
    ensures IsAbsolute(Resolve(path, base, origin, pathname).0)
    ensures Resolve(Resolve(path, base, origin, pathname).0, Resolve(path, base, origin, pathname).1, origin, pathname)
            == Resolve(path, base, origin, pathname)
  {
    if !IsAbsolute(path) {
      ResolveYieldsWebUrl(path, base, origin, pathname);
    }
  }

  /** The base URL `build_search_index` configures: the sitemap's `baseUrl` unless it is missing or empty, else origin + repository path. */
  function ConfiguredBase(configured: Option<string>, origin: string, pathname: string): (r: string)
    ensures configured.Some? && configured.value != "" ==> r == configured.value
    ensures configured.None? || configured.value == "" ==> r == origin + RepoPath(pathname)
  {
    if configured.Some? && configured.value != "" then configured.value else origin + RepoPath(pathname)
  }

  // ----- index entries -----

  /** One `search_data` entry. */
  datatype Entry = Entry(url: string, absoluteUrl: string, title: string, content: string, preview: string, badge: string)

  /** An entry of `search.json`'s sitemap. */
  datatype SitemapPage = SitemapPage(url: string, title: string, badge: string)

  /** The text `extract_content` reads from a parsed page: the `<title>` text and `<main>` text when present, and the text of every heading and paragraph, in document order. */
  datatype ParsedPage = ParsedPage(docTitle: Option<string>, main: Option<string>, headings: seq<string>, paragraphs: seq<string>)

  /** `title || doc.querySelector('title')?.textContent || 'Untitled'`: never empty, and the sitemap's title wins when it is given. */
  function PageTitle(title: string, docTitle: Option<string>): (r: string)
    ensures r != ""
    ensures title != "" ==> r == title
    ensures title == "" && docTitle.Some? && docTitle.value != "" ==> r == docTitle.value
    ensures r != title && (docTitle.None? || r != docTitle.value) ==> r == "Untitled"
  {
    if title != "" then title
    else if docTitle.Some? && docTitle.value != "" then docTitle.value
    else "Untitled"
  }

  /** The trimmed texts, in order. */
  function TrimAll(texts: seq<string>): (r: seq<string>)
    ensures |r| == |texts|
    ensures forall i :: 0 <= i < |texts| ==> r[i] == Trim(texts[i])
  {
    seq(|texts|, i requires 0 <= i < |texts| => Trim(texts[i]))
  }

  /** The trimmed `<main>` text, or "" when the page has none. */
  function MainText(page: ParsedPage): string {
    if page.main.Some? then Trim(page.main.value) else ""
  }

  /** `s.substring(0, 150)`, followed by "..." exactly when that cut something off. */
  function Truncate(s: string): (r: string)
    ensures |r| <= PreviewLimit + |Ellipsis|
    ensures |s| <= PreviewLimit ==> r == s
    ensures |s| > PreviewLimit ==> |r| == PreviewLimit + |Ellipsis| && r[..PreviewLimit] == s[..PreviewLimit] && r[PreviewLimit..] == Ellipsis
  {
    if |s| > PreviewLimit then s[..PreviewLimit] + Ellipsis else s
  }

  /** A preview is already short enough: truncating it again changes nothing. */
  lemma TruncateIdempotent(s: string)
    ensures Truncate(Truncate(s)) == Truncate(s)
  {
    if |s| > PreviewLimit {
      var r := Truncate(s);
      assert r[..PreviewLimit] + r[PreviewLimit..] == r;
    }
  }

  /** The index of the first paragraph longer than 50 characters. */
  function FirstLong(paragraphs: seq<string>): (r: Option<nat>)
    ensures r.Some? ==> r.value < |paragraphs| && |paragraphs[r.value]| > LongParagraph
    ensures r.Some? ==> forall j :: 0 <= j < r.value ==> |paragraphs[j]| <= LongParagraph
    ensures r.None? ==> forall j :: 0 <= j < |paragraphs| ==> |paragraphs[j]| <= LongParagraph
  {
    if paragraphs == [] then None
    else if |paragraphs[0]| > LongParagraph then Some(0)
    else
      match FirstLong(paragraphs[1..])
      case None => None
      case Some(i) => Some(i + 1)
  }

  /**
   * The preview rule of `extract_content`: the first paragraph longer than 50
   * characters, or the main text when there is none, truncated.
   */
  function PreviewOf(paragraphs: seq<string>, main: string): (r: string)
    ensures |r| <= PreviewLimit + |Ellipsis|
    ensures forall i :: (0 <= i < |paragraphs| && |paragraphs[i]| > LongParagraph
                         && forall j :: 0 <= j < i ==> |paragraphs[j]| <= LongParagraph) ==> r == Truncate(paragraphs[i])
    ensures (forall j :: 0 <= j < |paragraphs| ==> |paragraphs[j]| <= LongParagraph) ==> r == Truncate(main)
  {
    match FirstLong(paragraphs)
    case Some(i) => Truncate(paragraphs[i])
    case None => Truncate(main)
  }

  /** The preview loop of `extract_content`, which stops at the first long paragraph. */
  method ChoosePreview(paragraphs: seq<string>, main: string) returns (preview: string)
    ensures preview == PreviewOf(paragraphs, main)
  {
    preview := "";
    if |paragraphs| > 0 {
      var i := 0;
      while i < |paragraphs|
        invariant 0 <= i <= |paragraphs|
        invariant forall j :: 0 <= j < i ==> |paragraphs[j]| <= LongParagraph
        invariant preview == ""
      {
        var paragraph := paragraphs[i];
        if |paragraph| > LongParagraph {
          preview := paragraph[..if |paragraph| < PreviewLimit then |paragraph| else PreviewLimit];
          if |paragraph| > PreviewLimit {
            preview := preview + Ellipsis;
          }
          break;
        }
        i := i + 1;
      }
    }
    if preview == "" {
      preview := main[..if |main| < PreviewLimit then |main| else PreviewLimit];
      if |main| > PreviewLimit {
        preview := preview + Ellipsis;
      }
    }
  }

  /** The searchable text: title, headings, paragraphs and main text joined by spaces, in lower case. */
  function SearchContent(title: string, headings: seq<string>, paragraphs: seq<string>, main: string): (r: string)
    ensures StartsWith(r, Lower(title))
  {
    var parts := [title] + headings + paragraphs + [main];
    var joined := Join(parts, " ");
    JoinStartsWithFirst(parts, " ");
    assert joined == title + joined[|title|..];
    LowerConcat(title, joined[|title|..]);
    Lower(joined)
  }

  /** Every entry's content begins with its lower-cased title. */
  predicate TitleInContent(e: Entry) {
    StartsWith(e.content, Lower(e.title))
  }

  /** The entry `extract_content` returns for a fetched page. */
  function Extracted(page: ParsedPage, url: string, badge: string, title: string, absoluteUrl: string): (e: Entry)
    ensures e.url == url && e.absoluteUrl == absoluteUrl && e.badge == badge
    ensures e.title == PageTitle(title, page.docTitle)
    ensures e.preview == PreviewOf(TrimAll(page.paragraphs), MainText(page))
    ensures TitleInContent(e)
  {
    var pageTitle := PageTitle(title, page.docTitle);
    var paragraphs := TrimAll(page.paragraphs);
    var main := MainText(page);
    Entry(url, absoluteUrl, pageTitle, SearchContent(pageTitle, TrimAll(page.headings), paragraphs, main),
          PreviewOf(paragraphs, main), badge)
  }

  /** The entry pushed for a sitemap page whose content could not be fetched: its content is the lower-cased title alone. */
  function FallbackEntry(page: SitemapPage, absoluteUrl: string): (e: Entry)
    ensures e.url == page.url && e.absoluteUrl == absoluteUrl && e.title == page.title && e.badge == page.badge
    ensures e.content == Lower(e.title)
    ensures TitleInContent(e)
  {
    Entry(page.url, absoluteUrl, page.title, Lower(page.title), "Visit " + page.title, page.badge)
  }

  // ----- the filter -----

  /** The condition of `perform_search`'s filter. */
  predicate Matches(e: Entry, query: string) {
    Contains(e.content, query) || Contains(Lower(e.title), query)
  }

  /** For every entry the index builds, the title condition adds nothing: matching is matching the content. */
  lemma MatchesContent(e: Entry, query: string)
    requires TitleInContent(e)
    ensures Matches(e, query) <==> Contains(e.content, query)
  {
    if Contains(Lower(e.title), query) {
      var t := Lower(e.title);
      assert e.content == t + e.content[|t|..];
      ContainsInPrefix(t, e.content[|t|..], query);
    }
  }

  /** `search_data.filter(...)`: the matching entries, in index order. */
  function Filter(data: seq<Entry>, query: string): (r: seq<Entry>)
    ensures |r| <= |data|
    decreases |data|
  {
    if data == [] then []
    else
      var last := data[|data| - 1];
      Filter(data[..|data| - 1], query) + (if Matches(last, query) then [last] else [])
  }

  lemma {:induction false} FilterMembers(data: seq<Entry>, query: string, e: Entry)
    ensures e in Filter(data, query) <==> e in data && Matches(e, query)
    decreases |data|
  {
    if data != [] {
      var front := data[..|data| - 1];
      FilterMembers(front, query, e);
      assert data == front + [data[|data| - 1]];
    }
  }

  /** The filter keeps index order: filtering a concatenation filters each part. */
  lemma {:induction false} FilterConcat(a: seq<Entry>, b: seq<Entry>, query: string)
    ensures Filter(a + b, query) == Filter(a, query) + Filter(b, query)
    decreases |b|
  {
    if b == [] {
      assert a + b == a;
    } else {
      var b' := b[..|b| - 1];
      assert (a + b)[..|a + b| - 1] == a + b';
      FilterConcat(a, b', query);
    }
  }

  /** Entries are dropped only when they do not match. */
  lemma {:induction false} FilterKeepsAllMatching(data: seq<Entry>, query: string)
    requires forall i :: 0 <= i < |data| ==> Matches(data[i], query)
    ensures Filter(data, query) == data
    decreases |data|
  {
    if data != [] {
      var front := data[..|data| - 1];
      FilterKeepsAllMatching(front, query);
      assert front + [data[|data| - 1]] == data;
    }
  }

  /** The query `perform_search` filters by. */
  function Query(input: string): string {
    Lower(Trim(input))
  }

  // ----- the results panel -----

  /** `Found N result` with an "s" unless N is 1. */
  function HeaderText(n: nat): string {
    "Found " + NatText(n) + " result" + (if n != 1 then "s" else "")
  }

  lemma HeaderTextPlural(n: nat)
    ensures var h := HeaderText(n); h[|h| - 1] == 's' <==> n != 1
  {
  }

  /** Different counts give different headers. */
  lemma HeaderTextInjective(n: nat, m: nat)
    requires HeaderText(n) == HeaderText(m)
    ensures n == m
  {
    var x := " result" + (if n != 1 then "s" else "");
    var x' := " result" + (if m != 1 then "s" else "");
    assert HeaderText(n) == "Found " + (NatText(n) + x);
    assert HeaderText(m) == "Found " + (NatText(m) + x');
    assert HeaderText(n)[6..] == NatText(n) + x;
    assert HeaderText(m)[6..] == NatText(m) + x';
    DigitRunSplit(NatText(n), x, NatText(m), x');
    NatTextInjective(n, m);
  }

  function NoResultsText(query: string): string {
    "No results found for \"" + query + "\""
  }

  /** The contents of `#searchResults`. */
  datatype Panel = Blank | Listing(header: string, items: seq<Entry>) | NoResults(message: string)

  /** How many `.search-result-item` elements the panel holds. */
  function ItemCount(p: Panel): nat {
    if p.Listing? then |p.items| else 0
  }

  datatype Key = ArrowDown | ArrowUp | Enter | Escape | OtherKey

  /** The variables of the search script and what the page shows. */
  datatype Widget = Widget(
    searchData: seq<Entry>,
    currentResults: seq<Entry>,
    selectedIndex: int,
    baseUrl: string,
    inputValue: string,
    resultsActive: bool,
    panel: Panel)

  const InitialWidget := Widget([], [], -1, "", "", false, Blank)

  /**
   * What holds between events: the selection is -1 or a result index, and
   * whenever there are results the panel lists exactly them under the
   * matching header.
   */
  predicate Consistent(w: Widget) {
    && -1 <= w.selectedIndex < |w.currentResults|
    && (|w.currentResults| > 0 ==> w.panel == Listing(HeaderText(|w.currentResults|), w.currentResults))
  }

  lemma InitialConsistent()
    ensures Consistent(InitialWidget)
  {
  }

  function Min(a: int, b: int): int { if a < b then a else b }
  function Max(a: int, b: int): int { if a < b then b else a }

  /** `display_results`: the selection is reset and the panel shows the results or the no-results message. */
  function DisplayStep(w: Widget, results: seq<Entry>, query: string): (r: Widget)
    ensures r.selectedIndex == -1 && r.resultsActive
    ensures ItemCount(r.panel) == |results|
    ensures r.(selectedIndex := w.selectedIndex, resultsActive := w.resultsActive, panel := w.panel) == w
  {
    w.(selectedIndex := -1, resultsActive := true,
       panel := if |results| > 0 then Listing(HeaderText(|results|), results) else NoResults(NoResultsText(query)))
  }

  /**
   * `perform_search`: an empty query hides and clears the results;
   * otherwise the results are the matching entries and are displayed. In
   * either case the selection is reset and the state is consistent
   * afterwards, whatever it was before.
   */
  function SearchStep(w: Widget): (r: Widget)
    ensures Query(w.inputValue) == "" ==> r == w.(resultsActive := false, panel := Blank, currentResults := [], selectedIndex := -1)
    ensures Query(w.inputValue) != "" ==> r.currentResults == Filter(w.searchData, Query(w.inputValue)) && r.resultsActive
    ensures r.selectedIndex == -1
    ensures r.searchData == w.searchData && r.inputValue == w.inputValue && r.baseUrl == w.baseUrl
    ensures Consistent(r)
  {
    var query := Query(w.inputValue);
    if query == "" then w.(resultsActive := false, panel := Blank, currentResults := [], selectedIndex := -1)
    else
      var results := Filter(w.searchData, query);
      DisplayStep(w.(currentResults := results), results, query)
  }

  /**
   * `handle_keyboard_navigation`: the new state and the entry navigated to.
   * Nothing happens while the results are hidden or empty; the arrows move
   * the selection within the listed items; Enter navigates to the selected
   * result only; Escape clears the input and the results.
   */
  function KeyStep(w: Widget, key: Key): (r: (Widget, Option<Entry>))
    ensures !w.resultsActive || w.currentResults == [] ==> r == (w, None)
    ensures r.1.Some? <==> w.resultsActive && key == Enter && 0 <= w.selectedIndex < |w.currentResults|
    ensures r.1.Some? ==> r.1.value == w.currentResults[w.selectedIndex]
    ensures w.resultsActive && w.currentResults != [] && key == Escape ==>
              r.0 == w.(inputValue := "", resultsActive := false, panel := Blank, currentResults := [], selectedIndex := -1)
    ensures key !in {ArrowDown, ArrowUp, Escape} ==> r.0 == w
    ensures r.0.(selectedIndex := w.selectedIndex) == w || key == Escape
  {
    if !w.resultsActive || |w.currentResults| == 0 then (w, None)
    else
      match key
      case ArrowDown => (w.(selectedIndex := Min(w.selectedIndex + 1, ItemCount(w.panel) - 1)), None)
      case ArrowUp => (w.(selectedIndex := Max(w.selectedIndex - 1, 0)), None)
      case Enter =>
        (w, if 0 <= w.selectedIndex < |w.currentResults| then Some(w.currentResults[w.selectedIndex]) else None)
      case Escape => (w.(inputValue := "", resultsActive := false, panel := Blank, currentResults := [], selectedIndex := -1), None)
      case OtherKey => (w, None)
  }

  /** In a consistent state an arrow key always lands on a result: down stops at the last, up at the first. */
  lemma ArrowKeysStayInRange(w: Widget, key: Key)
    requires Consistent(w) && w.resultsActive && w.currentResults != []
    requires key == ArrowDown || key == ArrowUp
    ensures 0 <= KeyStep(w, key).0.selectedIndex < |w.currentResults|
    ensures key == ArrowDown ==> KeyStep(w, key).0.selectedIndex == Min(w.selectedIndex + 1, |w.currentResults| - 1)
    ensures key == ArrowUp ==> KeyStep(w, key).0.selectedIndex == Max(w.selectedIndex - 1, 0)
  {
  }

  lemma KeyStepConsistent(w: Widget, key: Key)
    requires Consistent(w)
    ensures Consistent(KeyStep(w, key).0)
  {
  }

  /** A click outside the search container hides the results. */
  function OutsideClickStep(w: Widget): (r: Widget)
    ensures !r.resultsActive && r.(resultsActive := w.resultsActive) == w
  {
    w.(resultsActive := false)
  }

  /** Hidden results ignore every key until the next search. */
  lemma OutsideClickSilencesKeys(w: Widget, key: Key)
    ensures KeyStep(OutsideClickStep(w), key) == (OutsideClickStep(w), None)
  {
  }

  /**
   * One iteration of `build_search_index`'s loop over the sitemap: the page
   * URL is resolved; a fetched page yields the extracted entry (which
   * resolves the URL once more), an unfetched one the fallback entry; the
   * entry is appended.
   */
  function IndexStep(w: Widget, page: SitemapPage, fetched: Option<ParsedPage>, origin: string, pathname: string): (r: Widget)
    ensures |r.searchData| == |w.searchData| + 1 && r.searchData[..|w.searchData|] == w.searchData
    ensures var e := r.searchData[|w.searchData|];
            e.url == page.url && e.badge == page.badge && TitleInContent(e)
            && (fetched.None? ==> e == FallbackEntry(page, Resolve(page.url, w.baseUrl, origin, pathname).0))
    ensures r.(searchData := w.searchData, baseUrl := w.baseUrl) == w
  {
    var (absolute, base) := Resolve(page.url, w.baseUrl, origin, pathname);
    var entry :=
      if fetched.Some? then
        Extracted(fetched.value, page.url, page.badge, page.title, Resolve(page.url, base, origin, pathname).0)
      else FallbackEntry(page, absolute);
    var base' := if fetched.Some? then Resolve(page.url, base, origin, pathname).1 else base;
    assert (w.searchData + [entry])[..|w.searchData|] == w.searchData;
    w.(searchData := w.searchData + [entry], baseUrl := base')
  }

  lemma IndexStepConsistent(w: Widget, page: SitemapPage, fetched: Option<ParsedPage>, origin: string, pathname: string)
    requires Consistent(w)
    ensures Consistent(IndexStep(w, page, fetched, origin, pathname))
  {
  }

  // ----- the script's state, updated in place -----

  class SearchWidget {
    /** `window.location.origin` and `window.location.pathname`. */
    const origin: string
    const pathname: string

    var searchData: seq<Entry>
    var currentResults: seq<Entry>
    var selectedIndex: int
    var baseUrl: string
    /** `search_input.value` */
    var inputValue: string
    /** Whether `#searchResults` has the `active` class. */
    var resultsActive: bool
    var panel: Panel

    ghost function Snapshot(): Widget
      reads this
    {
      Widget(searchData, currentResults, selectedIndex, baseUrl, inputValue, resultsActive, panel)
    }

    constructor (origin: string, pathname: string)
      ensures this.origin == origin && this.pathname == pathname
      ensures Snapshot() == InitialWidget
    {
      this.origin := origin;
      this.pathname := pathname;
      searchData := [];
      currentResults := [];
      selectedIndex := -1;
      baseUrl := "";
      inputValue := "";
      resultsActive := false;
      panel := Blank;
    }

    method ResolveUrl(path: string) returns (url: string)
      modifies this
      ensures (url, baseUrl) == Resolve(path, old(baseUrl), origin, pathname)
      ensures Snapshot() == old(Snapshot()).(baseUrl := baseUrl)
    {
      if StartsWith(path, "//") || StartsWith(path, "http://") || StartsWith(path, "https://") {
        return path;
      }
      if baseUrl == "" {
        baseUrl := origin + RepoPath(pathname);
      }
      if StartsWith(path, "/") {
        return baseUrl + path;
      }
      var currentDir := pathname[..AfterLast(pathname, '/')];
      url := origin + currentDir + path;
    }

    /** The base URL set up by `build_search_index` from `search.json`'s `baseUrl`. */
    method ConfigureBase(configured: Option<string>)
      modifies this
      ensures Snapshot() == old(Snapshot()).(baseUrl := ConfiguredBase(configured, origin, pathname))
    {
      var repoPath := RepoPath(pathname);
      baseUrl := if configured.Some? && configured.value != "" then configured.value else origin + repoPath;
    }

    /** `extract_content` on the text of a parsed page. */
    method ExtractContent(page: ParsedPage, url: string, badge: string, title: string) returns (entry: Entry)
      modifies this
      ensures entry == Extracted(page, url, badge, title, Resolve(url, old(baseUrl), origin, pathname).0)
      ensures Snapshot() == old(Snapshot()).(baseUrl := Resolve(url, old(baseUrl), origin, pathname).1)
    {
      var pageTitle := PageTitle(title, page.docTitle);
      var mainContent := if page.main.Some? then Trim(page.main.value) else "";
      var headings := TrimAll(page.headings);
      var paragraphs := TrimAll(page.paragraphs);
      var preview := ChoosePreview(paragraphs, mainContent);
      var content := SearchContent(pageTitle, headings, paragraphs, mainContent);
      var absolute := ResolveUrl(url);
      entry := Entry(url, absolute, pageTitle, content, preview, badge);
    }

    /** One page of `build_search_index`; `fetched` is the parsed page, or `None` when it could not be fetched. */
    method IndexPage(page: SitemapPage, fetched: Option<ParsedPage>)
      modifies this
      ensures Snapshot() == IndexStep(old(Snapshot()), page, fetched, origin, pathname)
    {
      var absolute := ResolveUrl(page.url);
      var entry;
      if fetched.Some? {
        entry := ExtractContent(fetched.value, page.url, page.badge, page.title);
      } else {
        entry := FallbackEntry(page, absolute);
      }
      searchData := searchData + [entry];
    }

    method DisplayResults(results: seq<Entry>, query: string)
      modifies this
      ensures Snapshot() == DisplayStep(old(Snapshot()), results, query)
    {
      panel := Blank;
      selectedIndex := -1;
      resultsActive := true;
      if |results| > 0 {
        panel := Listing(HeaderText(|results|), results);
      } else {
        panel := NoResults(NoResultsText(query));
      }
    }

    method PerformSearch()
      modifies this
      ensures Snapshot() == SearchStep(old(Snapshot()))
    {
      var query := Lower(Trim(inputValue));
      if query == "" {
        resultsActive := false;
        panel := Blank;
        currentResults := [];
        selectedIndex := -1;
        return;
      }
      currentResults := Filter(searchData, query);
      DisplayResults(currentResults, query);
    }

    /** The `input` event: the field now holds `value`. */
    method OnInput(value: string)
      modifies this
      ensures Snapshot() == SearchStep(old(Snapshot()).(inputValue := value))
    {
      inputValue := value;
      PerformSearch();
    }

    /** The `keydown` handler; `target` is the entry navigated to, if any. */
    method HandleKey(key: Key) returns (target: Option<Entry>)
      modifies this
      ensures (Snapshot(), target) == KeyStep(old(Snapshot()), key)
    {
      target := None;
      if !resultsActive || |currentResults| == 0 {
        return;
      }
      var itemCount := if panel.Listing? then |panel.items| else 0;
      match key {
        case ArrowDown =>
          selectedIndex := Min(selectedIndex + 1, itemCount - 1);
        case ArrowUp =>
          selectedIndex := Max(selectedIndex - 1, 0);
        case Enter =>
          if selectedIndex >= 0 && selectedIndex < |currentResults| {
            target := Some(currentResults[selectedIndex]);
          }
        case Escape =>
          inputValue := "";
          resultsActive := false;
          panel := Blank;
          currentResults := [];
          selectedIndex := -1;
        case OtherKey =>
      }
    }

    method OutsideClick()
      modifies this
      ensures Snapshot() == OutsideClickStep(old(Snapshot()))
    {
      resultsActive := false;
    }
  }
}
