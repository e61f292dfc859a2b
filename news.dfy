/**
 * The news page: the chain of filters over the article list (category,
 * country, type, age and a case-insensitive search), the split of the
 * filtered list into pages of five, the bookmark toggle, the page reset on
 * every filter or search change, and the relative "time since" label.
 *
 * The clock (`new Date().getTime()`) is the parameter `now`, in
 * milliseconds; `publishedAt` is an article's timestamp in milliseconds.
 */
module News {
  import opened Js

  const ArticlesPerPage := 5

  /** The sentinel value of a filter that lets every article through. */
  const All := "all"

  const SecondsPerYear := 31536000
  const SecondsPerMonth := 2592000
  const SecondsPerDay := 86400
  const SecondsPerHour := 3600
  const SecondsPerMinute := 60

  /** The fields of an article the page filters on; `kind` is the article's `type`. */
  datatype Article = Article(
    id: int, title: string, summary: string,
    category: string, country: string, kind: string, publishedAt: int)

  datatype Filters = Filters(category: string, country: string, kind: string, time: string)

  /** One `filter` step of the chain. */
  datatype Criterion =
    | InCategory(category: string)
    | InCountry(country: string)
    | OfKind(kind: string)
    | YoungerThan(now: int, limit: Option<int>)
    | Mentions(term: string)

  // ---------------------------------------------------------------------
  // Case folding and substring search
  // ---------------------------------------------------------------------

  function LowerChar(c: char): char
  {
    if 'A' <= c <= 'Z' then (c as int + 32) as char else c
  }

  /** `toLowerCase`, on the ASCII letters. */
  function Lower(s: string): (r: string)
    ensures |r| == |s|
    ensures forall i :: 0 <= i < |s| ==> r[i] == LowerChar(s[i])
  {
    seq(|s|, i requires 0 <= i < |s| => LowerChar(s[i]))
  }

  /** Lowering twice is lowering once. */
  lemma LowerIdempotent(s: string)
    ensures Lower(Lower(s)) == Lower(s)
  {
  }

  predicate OccursAt(hay: string, needle: string, i: int)
  {
    0 <= i && i + |needle| <= |hay| && hay[i..i + |needle|] == needle
  }

  /** `hay.includes(needle)`: the needle occurs somewhere in the hay (the empty needle everywhere). */
  function Includes(hay: string, needle: string): (r: bool)
    ensures r <==> exists i :: OccursAt(hay, needle, i)
    decreases |hay|
  {
    if needle <= hay then
      assert OccursAt(hay, needle, 0);
      true
    else if hay == [] then
      false
    else
      OccursShifted(hay, needle);
      Includes(hay[1..], needle)
  }

  /** Past position 0, the occurrences in `hay` are those in `hay[1..]`, one place on. */
  lemma OccursShifted(hay: string, needle: string)
    requires hay != [] && !(needle <= hay)
    ensures (exists i :: OccursAt(hay, needle, i)) <==> (exists j :: OccursAt(hay[1..], needle, j))
  {
    if i :| OccursAt(hay, needle, i) {
      assert i != 0;
      assert hay[1..][i - 1..i - 1 + |needle|] == hay[i..i + |needle|];
      assert OccursAt(hay[1..], needle, i - 1);
    }
    if j :| OccursAt(hay[1..], needle, j) {
      assert hay[j + 1..j + 1 + |needle|] == hay[1..][j..j + |needle|];
      assert OccursAt(hay, needle, j + 1);
    }
  }

  // ---------------------------------------------------------------------
  // The filter chain
  // ---------------------------------------------------------------------

  /**
   * `timeLimits[filters.time]` in milliseconds; `None` is the `undefined` of
   * an unknown key. The known windows are whole days, at most thirty.
   */
  function TimeLimit(time: string): (r: Option<int>)
    ensures r.Some? <==> time == "24h" || time == "7d" || time == "30d"
    ensures r.Some? ==> r.value > 0 && r.value % (SecondsPerDay * 1000) == 0
    ensures r.Some? ==> r.value <= 30 * SecondsPerDay * 1000
  {
    if time == "24h" then Some(24 * 60 * 60 * 1000)
    else if time == "7d" then Some(7 * 24 * 60 * 60 * 1000)
    else if time == "30d" then Some(30 * 24 * 60 * 60 * 1000)
    else None
  }

  /**
   * The test one `filter` applies. A comparison with `undefined` is false, so
   * an unknown time window passes nothing; the empty search term passes all.
   */
  predicate Satisfies(a: Article, c: Criterion)
    ensures c.YoungerThan? && c.limit.None? ==> !Satisfies(a, c)
    ensures c.YoungerThan? && c.limit.Some? ==> (Satisfies(a, c) <==> a.publishedAt > c.now - c.limit.value)
    ensures c == Mentions("") ==> Satisfies(a, c)
  {
    assert OccursAt(Lower(a.title), Lower(""), 0);

    match c
    case InCategory(x) => a.category == x
    case InCountry(x) => a.country == x
    case OfKind(x) => a.kind == x
    case YoungerThan(now, limit) => limit.Some? && now - a.publishedAt < limit.value
    case Mentions(term) => Includes(Lower(a.title), Lower(term)) || Includes(Lower(a.summary), Lower(term))
  }

  /** `r` is `s` with some elements deleted and the rest kept in order. */
  predicate IsSubsequence<T(==)>(r: seq<T>, s: seq<T>)
    decreases |s|
  {
    r == [] || (s != [] && ((r[0] == s[0] && IsSubsequence(r[1..], s[1..])) || IsSubsequence(r, s[1..])))
  }

  lemma {:induction false} SubsequenceReflexive<T>(s: seq<T>)
    ensures IsSubsequence(s, s)
    decreases |s|
  {
    if s != [] {
      SubsequenceReflexive(s[1..]);
    }
  }

  lemma {:induction false} SubsequenceTransitive<T>(a: seq<T>, b: seq<T>, c: seq<T>)
    requires IsSubsequence(a, b) && IsSubsequence(b, c)
    ensures IsSubsequence(a, c)
    decreases |c|
  {
    if a != [] {
      if b[0] == c[0] && IsSubsequence(b[1..], c[1..]) {
        if a[0] == b[0] && IsSubsequence(a[1..], b[1..]) {
          SubsequenceTransitive(a[1..], b[1..], c[1..]);
        } else {
          SubsequenceTransitive(a, b[1..], c[1..]);
        }
      } else {
        SubsequenceTransitive(a, b, c[1..]);
      }
    }
  }

  /** `articles.filter(...)` for one criterion. */
  function Keep(articles: seq<Article>, c: Criterion): (r: seq<Article>)
    ensures forall a :: a in r <==> a in articles && Satisfies(a, c)
    ensures IsSubsequence(r, articles)
  {
    if articles == [] then []
    else if Satisfies(articles[0], c) then
      assert ([articles[0]] + Keep(articles[1..], c))[1..] == Keep(articles[1..], c);
      [articles[0]] + Keep(articles[1..], c)
    else
      var r := Keep(articles[1..], c);
      assert r == [] || IsSubsequence(r, articles[1..]);
      r
  }

  /** The filters that are switched on, in the order the chain applies them. */
  function ActiveCriteria(f: Filters, searchTerm: string, now: int): seq<Criterion>
  {
    (if f.category != All then [InCategory(f.category)] else [])
    + (if f.country != All then [InCountry(f.country)] else [])
    + (if f.kind != All then [OfKind(f.kind)] else [])
    + (if f.time != All then [YoungerThan(now, TimeLimit(f.time))] else [])
    + (if searchTerm != "" then [Mentions(searchTerm)] else [])
  }

  /**
   * `filteredArticles`: each switched-on filter narrows the previous result.
   * The listed articles are articles of the feed, in the feed's order, and an
   * article is listed exactly when it passes every switched-on filter.
   */
  function FilteredArticles(newsData: seq<Article>, f: Filters, searchTerm: string, now: int): (r: seq<Article>)
    ensures IsSubsequence(r, newsData)
    ensures forall a :: a in r <==> a in newsData && Matches(a, f, searchTerm, now)
  {
    var byCategory := if f.category != All then Keep(newsData, InCategory(f.category)) else newsData;
    assert IsSubsequence(byCategory, newsData) by {
      if f.category == All { SubsequenceReflexive(newsData); }
    }
    var byCountry := if f.country != All then Keep(byCategory, InCountry(f.country)) else byCategory;
    assert IsSubsequence(byCountry, newsData) by {
      if f.country != All { SubsequenceTransitive(byCountry, byCategory, newsData); }
    }
    var byKind := if f.kind != All then Keep(byCountry, OfKind(f.kind)) else byCountry;
    assert IsSubsequence(byKind, newsData) by {
      if f.kind != All { SubsequenceTransitive(byKind, byCountry, newsData); }
    }
    var byTime := if f.time != All then Keep(byKind, YoungerThan(now, TimeLimit(f.time))) else byKind;
    assert IsSubsequence(byTime, newsData) by {
      if f.time != All { SubsequenceTransitive(byTime, byKind, newsData); }
    }
    var r := if searchTerm != "" then Keep(byTime, Mentions(searchTerm)) else byTime;
    assert IsSubsequence(r, newsData) by {
      if searchTerm != "" { SubsequenceTransitive(r, byTime, newsData); }
    }
    r
  }

  /** What an article must satisfy to be listed, stated filter by filter. */
  predicate Matches(a: Article, f: Filters, searchTerm: string, now: int)
  {
    && (f.category == All || a.category == f.category)
    && (f.country == All || a.country == f.country)
    && (f.kind == All || a.kind == f.kind)
    && (f.time == All || (TimeLimit(f.time).Some? && now - a.publishedAt < TimeLimit(f.time).value))
    && (searchTerm == ""
        || Includes(Lower(a.title), Lower(searchTerm))
        || Includes(Lower(a.summary), Lower(searchTerm)))
  }

  predicate SatisfiesAll(a: Article, cs: seq<Criterion>)
  {
    forall k :: 0 <= k < |cs| ==> Satisfies(a, cs[k])
  }

  /** A single pass that keeps the articles satisfying every criterion. */
  function KeepAll(articles: seq<Article>, cs: seq<Criterion>): seq<Article>
  {
    if articles == [] then []
    else if SatisfiesAll(articles[0], cs) then [articles[0]] + KeepAll(articles[1..], cs)
    else KeepAll(articles[1..], cs)
  }

  lemma {:induction false} KeepAllNothing(articles: seq<Article>)
    ensures KeepAll(articles, []) == articles
    decreases |articles|
  {
    if articles != [] {
      KeepAllNothing(articles[1..]);
      assert [articles[0]] + articles[1..] == articles;
    }
  }

  /** Filtering twice is filtering once by both tests. */
  lemma {:induction false} KeepAfterKeepAll(articles: seq<Article>, cs: seq<Criterion>, c: Criterion)
    ensures Keep(KeepAll(articles, cs), c) == KeepAll(articles, cs + [c])
    decreases |articles|
  {
    if articles != [] {
      KeepAfterKeepAll(articles[1..], cs, c);
      var a := articles[0];
      assert SatisfiesAll(a, cs + [c]) <==> SatisfiesAll(a, cs) && Satisfies(a, c) by {
        if SatisfiesAll(a, cs) && Satisfies(a, c) {
          forall k | 0 <= k < |cs + [c]|
            ensures Satisfies(a, (cs + [c])[k])
          {
            if k < |cs| {
              assert (cs + [c])[k] == cs[k];
            }
          }
        }
        if SatisfiesAll(a, cs + [c]) {
          assert (cs + [c])[|cs|] == c;
          forall k | 0 <= k < |cs|
            ensures Satisfies(a, cs[k])
          {
            assert (cs + [c])[k] == cs[k];
          }
        }
      }
      if SatisfiesAll(a, cs) {
        assert ([a] + KeepAll(articles[1..], cs))[1..] == KeepAll(articles[1..], cs);
      }
    }
  }

  /** One step of the chain: a switched-off filter keeps the list, a switched-on one adds its test. */
  lemma ChainStep(articles: seq<Article>, cs: seq<Criterion>, on: bool, c: Criterion)
    ensures (if on then Keep(KeepAll(articles, cs), c) else KeepAll(articles, cs))
            == KeepAll(articles, cs + (if on then [c] else []))
  {
    if on {
      KeepAfterKeepAll(articles, cs, c);
    } else {
      assert cs + [] == cs;
    }
  }

  /** The chain is one pass that keeps the articles satisfying every switched-on filter. */
  lemma FilteredIsOnePass(newsData: seq<Article>, f: Filters, searchTerm: string, now: int)
    ensures FilteredArticles(newsData, f, searchTerm, now)
            == KeepAll(newsData, ActiveCriteria(f, searchTerm, now))
  {
    var c1 := if f.category != All then [InCategory(f.category)] else [];
    var c2 := if f.country != All then [InCountry(f.country)] else [];
    var c3 := if f.kind != All then [OfKind(f.kind)] else [];
    var c4 := if f.time != All then [YoungerThan(now, TimeLimit(f.time))] else [];
    var c5 := if searchTerm != "" then [Mentions(searchTerm)] else [];
    KeepAllNothing(newsData);
    ChainStep(newsData, [], f.category != All, InCategory(f.category));
    assert [] + c1 == c1;
    ChainStep(newsData, c1, f.country != All, InCountry(f.country));
    ChainStep(newsData, c1 + c2, f.kind != All, OfKind(f.kind));
    ChainStep(newsData, c1 + c2 + c3, f.time != All, YoungerThan(now, TimeLimit(f.time)));
    ChainStep(newsData, c1 + c2 + c3 + c4, searchTerm != "", Mentions(searchTerm));
  }

  /** Satisfying every switched-on filter is `Matches`. */
  lemma ActiveCriteriaMeanMatches(a: Article, f: Filters, searchTerm: string, now: int)
    ensures SatisfiesAll(a, ActiveCriteria(f, searchTerm, now)) <==> Matches(a, f, searchTerm, now)
  {
    var cs := ActiveCriteria(f, searchTerm, now);
    if SatisfiesAll(a, cs) {
      if f.category != All { assert InCategory(f.category) == cs[0]; }
      var c1 := if f.category != All then 1 else 0;
      if f.country != All { assert InCountry(f.country) == cs[c1]; }
      var c2 := c1 + if f.country != All then 1 else 0;
      if f.kind != All { assert OfKind(f.kind) == cs[c2]; }
      var c3 := c2 + if f.kind != All then 1 else 0;
      if f.time != All { assert YoungerThan(now, TimeLimit(f.time)) == cs[c3]; }
      var c4 := c3 + if f.time != All then 1 else 0;
      if searchTerm != "" { assert Mentions(searchTerm) == cs[c4]; }
    }
  }

  /** A single pass keeps exactly the articles that satisfy every test, in order. */
  lemma {:induction false} KeepAllMembers(articles: seq<Article>, cs: seq<Criterion>)
    ensures forall a :: a in KeepAll(articles, cs) <==> a in articles && SatisfiesAll(a, cs)
    ensures IsSubsequence(KeepAll(articles, cs), articles)
    decreases |articles|
  {
    if articles != [] {
      KeepAllMembers(articles[1..], cs);
      var rest := KeepAll(articles[1..], cs);
      if SatisfiesAll(articles[0], cs) {
        assert ([articles[0]] + rest)[1..] == rest;
      } else {
        assert rest == [] || IsSubsequence(rest, articles[1..]);
      }
      assert articles == [articles[0]] + articles[1..];
    }
  }

  /** The one-pass reference keeps exactly the matching articles of the feed, in order. */
  lemma OnePassMatches(newsData: seq<Article>, f: Filters, searchTerm: string, now: int)
    ensures IsSubsequence(KeepAll(newsData, ActiveCriteria(f, searchTerm, now)), newsData)
    ensures forall a :: a in KeepAll(newsData, ActiveCriteria(f, searchTerm, now))
                        <==> a in newsData && Matches(a, f, searchTerm, now)
  {
    KeepAllMembers(newsData, ActiveCriteria(f, searchTerm, now));
    forall a
      ensures SatisfiesAll(a, ActiveCriteria(f, searchTerm, now)) <==> Matches(a, f, searchTerm, now)
    {
      ActiveCriteriaMeanMatches(a, f, searchTerm, now);
    }
  }

  /** With every filter on "all" and no search term, the list is the feed itself. */
  lemma NoFilterKeepsEverything(newsData: seq<Article>, now: int)
    ensures FilteredArticles(newsData, Filters(All, All, All, All), "", now) == newsData
  {
    FilteredIsOnePass(newsData, Filters(All, All, All, All), "", now);
    KeepAllNothing(newsData);
  }

  /** An unknown time window lets nothing through. */
  lemma UnknownTimeWindowKeepsNothing(newsData: seq<Article>, f: Filters, searchTerm: string, now: int)
    requires f.time != All && TimeLimit(f.time).None?
    ensures FilteredArticles(newsData, f, searchTerm, now) == []
  {
    forall s: seq<Article>
      ensures Keep(s, YoungerThan(now, None)) == []
    {
      KeepRejectingAll(s, YoungerThan(now, None));
    }
  }

  lemma {:induction false} KeepRejectingAll(articles: seq<Article>, c: Criterion)
    requires forall a :: !Satisfies(a, c)
    ensures Keep(articles, c) == []
    decreases |articles|
  {
    if articles != [] {
      KeepRejectingAll(articles[1..], c);
    }
  }

  /** The search does not depend on the case of the term. */
  lemma SearchIgnoresCase(a: Article, term: string)
    ensures Satisfies(a, Mentions(term)) <==> Satisfies(a, Mentions(Lower(term)))
  {
    LowerIdempotent(term);
  }

  // ---------------------------------------------------------------------
  // Paging
  // ---------------------------------------------------------------------

  /** `Math.ceil(n / 5)`: the fewest pages of five that hold `n` articles. */
  function TotalPages(n: nat): (r: nat)
    ensures r * ArticlesPerPage >= n
    ensures r > 0 ==> (r - 1) * ArticlesPerPage < n
  {
    (n + ArticlesPerPage - 1) / ArticlesPerPage
  }

  /** `filteredArticles.slice((currentPage - 1) * 5, currentPage * 5)`. */
  function PageOf<T>(list: seq<T>, page: int): (r: seq<T>)
    ensures |r| <= ArticlesPerPage
  {
    Slice(list, (page - 1) * ArticlesPerPage, page * ArticlesPerPage)
  }

  /** Page `p` of `1..totalPages` is the `p`-th run of five, and is not empty. */
  lemma PageContents<T>(list: seq<T>, page: int)
    requires 1 <= page <= TotalPages(|list|)
    ensures PageOf(list, page) == list[(page - 1) * ArticlesPerPage .. Min(page * ArticlesPerPage, |list|)]
    ensures 1 <= |PageOf(list, page)| <= ArticlesPerPage
  {
  }

  /** Pages after the last are empty. */
  lemma PagesBeyondAreEmpty<T>(list: seq<T>, page: int)
    requires page > TotalPages(|list|)
    ensures PageOf(list, page) == []
  {
  }

  /** Pages `1..k`, one after the other. */
  function Pages<T>(list: seq<T>, k: nat): seq<T>
  {
    if k == 0 then [] else Pages(list, k - 1) + PageOf(list, k)
  }

  /** The first `k` pages hold the first `5k` articles, each once and in order. */
  lemma {:induction false} PagesPrefix<T>(list: seq<T>, k: nat)
    requires k <= TotalPages(|list|)
    ensures Pages(list, k) == list[..Min(k * ArticlesPerPage, |list|)]
  {
    if k > 0 {
      PagesPrefix(list, k - 1);
      PageContents(list, k);
      assert list[..(k - 1) * ArticlesPerPage] + list[(k - 1) * ArticlesPerPage .. Min(k * ArticlesPerPage, |list|)]
             == list[..Min(k * ArticlesPerPage, |list|)];
    }
  }

  /** The pages partition the list: together they are the list. */
  lemma PagesCoverList<T>(list: seq<T>)
    ensures Pages(list, TotalPages(|list|)) == list
  {
    PagesPrefix(list, TotalPages(|list|));
  }

  // ---------------------------------------------------------------------
  // Bookmarks and view state
  // ---------------------------------------------------------------------

  /** `toggleBookmark(id)`: a copy of the set with the membership of `id` flipped. */
  function ToggleBookmark(bookmarked: set<int>, id: int): (r: set<int>)
    ensures id in r <==> id !in bookmarked
    ensures forall x :: x != id ==> (x in r <==> x in bookmarked)
  {
    if id in bookmarked then bookmarked - {id} else bookmarked + {id}
  }

  /** Toggling twice restores the set. */
  lemma ToggleTwice(bookmarked: set<int>, id: int)
    ensures ToggleBookmark(ToggleBookmark(bookmarked, id), id) == bookmarked
  {
  }

  datatype FilterField = CategoryField | CountryField | KindField | TimeField

  /** The state the page keeps for the list. */
  datatype NewsView = NewsView(searchTerm: string, currentPage: int, filters: Filters)

  function FilterValue(f: Filters, field: FilterField): string
  {
    match field
    case CategoryField => f.category
    case CountryField => f.country
    case KindField => f.kind
    case TimeField => f.time
  }

  /** `handleFilterChange(field, value)`: sets one filter and goes back to page 1. */
  function HandleFilterChange(v: NewsView, field: FilterField, value: string): (r: NewsView)
    ensures r.currentPage == 1 && r.searchTerm == v.searchTerm
    ensures FilterValue(r.filters, field) == value
    ensures forall other :: other != field ==> FilterValue(r.filters, other) == FilterValue(v.filters, other)
  {
    var f := v.filters;
    var filters := match field
      case CategoryField => f.(category := value)
      case CountryField => f.(country := value)
      case KindField => f.(kind := value)
      case TimeField => f.(time := value);
    v.(filters := filters, currentPage := 1)
  }

  /** The search box's `onChange`: sets the term and goes back to page 1. */
  function HandleSearchChange(v: NewsView, term: string): (r: NewsView)
    ensures r == NewsView(term, 1, v.filters)
  {
    v.(searchTerm := term, currentPage := 1)
  }

  /** After any filter or search change the page shown is the first run of at most five matches. */
  lemma ChangeShowsFirstPage(newsData: seq<Article>, v: NewsView, field: FilterField, value: string, term: string, now: int)
    ensures var r := HandleFilterChange(v, field, value);
            var list := FilteredArticles(newsData, r.filters, r.searchTerm, now);
            PageOf(list, r.currentPage) == list[..Min(ArticlesPerPage, |list|)]
    ensures var r := HandleSearchChange(v, term);
            var list := FilteredArticles(newsData, r.filters, r.searchTerm, now);
            PageOf(list, r.currentPage) == list[..Min(ArticlesPerPage, |list|)]
  {
  }

  // ---------------------------------------------------------------------
  // timeSince
  // ---------------------------------------------------------------------

  /** The label `timeSince` renders: a count of the largest unit exceeded, or "just now". */
  datatype Ago =
    | YearsAgo(years: int)
    | MonthsAgo(months: int)
    | DaysAgo(days: int)
    | HoursAgo(hours: int)
    | MinutesAgo(minutes: int)
    | JustNow

  /**
   * Whole seconds elapsed, then the quotient by each unit from years down,
   * taking the first that is above one.
   */
  method TimeSince(now: int, publishedAt: int) returns (r: Ago)
    ensures var s := (now - publishedAt) / 1000;
            && (s > SecondsPerYear ==> r == YearsAgo(s / SecondsPerYear))
            && (SecondsPerMonth < s <= SecondsPerYear ==> r == MonthsAgo(s / SecondsPerMonth))
            && (SecondsPerDay < s <= SecondsPerMonth ==> r == DaysAgo(s / SecondsPerDay))
            && (SecondsPerHour < s <= SecondsPerDay ==> r == HoursAgo(s / SecondsPerHour))
            && (SecondsPerMinute < s <= SecondsPerHour ==> r == MinutesAgo(s / SecondsPerMinute))
            && (s <= SecondsPerMinute ==> r == JustNow)
    ensures r.YearsAgo? ==> r.years >= 1
    ensures r.MonthsAgo? ==> 1 <= r.months <= 12
    ensures r.DaysAgo? ==> 1 <= r.days <= 30
    ensures r.HoursAgo? ==> 1 <= r.hours <= 24
    ensures r.MinutesAgo? ==> 1 <= r.minutes <= 60
  {
    var seconds := ((now - publishedAt) as real / 1000.0).Floor;
    FloorOfQuotient(now - publishedAt, 1000);
    var interval := seconds as real / SecondsPerYear as real;
    Exceeds(seconds, SecondsPerYear);
    if interval > 1.0 {
      return YearsAgo(interval.Floor);
    }
    interval := seconds as real / SecondsPerMonth as real;
    Exceeds(seconds, SecondsPerMonth);
    if interval > 1.0 {
      return MonthsAgo(interval.Floor);
    }
    interval := seconds as real / SecondsPerDay as real;
    Exceeds(seconds, SecondsPerDay);
    if interval > 1.0 {
      return DaysAgo(interval.Floor);
    }
    interval := seconds as real / SecondsPerHour as real;
    Exceeds(seconds, SecondsPerHour);
    if interval > 1.0 {
      return HoursAgo(interval.Floor);
    }
    interval := seconds as real / SecondsPerMinute as real;
    Exceeds(seconds, SecondsPerMinute);
    if interval > 1.0 {
      return MinutesAgo(interval.Floor);
    }
    return JustNow;
  }

  /** More than one unit has passed exactly when the seconds exceed the unit; its floor is the integer quotient. */
  lemma Exceeds(seconds: int, unit: int)
    requires unit > 0
    ensures seconds as real / unit as real > 1.0 <==> seconds > unit
    ensures (seconds as real / unit as real).Floor == seconds / unit
  {
    FloorOfQuotient(seconds, unit);
    QuotientAboveOne(seconds, unit, seconds as real / unit as real);
  }

  lemma QuotientAboveOne(seconds: int, unit: int, x: real)
    requires unit > 0 && x == seconds as real / unit as real
    ensures x > 1.0 <==> seconds > unit
  {
    var u := unit as real;
    assert x * u == seconds as real;
    if x > 1.0 {
      assert x * u > u;
    } else {
      assert x * u <= u;
    }
  }
}
