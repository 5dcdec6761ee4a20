/** Competition-scoped discovery: selection from one list, and the page loop that must agree with it. */
module PagedDiscovery {
  import opened Wrappers

  const DEFAULT_LIMIT: nat := 100
  const MAX_LIMIT: nat := 500
  const MAX_PAGES_SCANNED: nat := 50

  /** No number, not a number or an infinity is None. */
  function ClampLimit(raw: Option<real>): (limit: int)
    ensures 0 <= limit <= 500 && (raw.None? || raw.value <= 0.0 ==> limit == 100)
    ensures raw.Some? && raw.value >= 500.0 ==> limit == 500
    ensures limit == 0 <==> raw.Some? && 0.0 < raw.value < 1.0
    ensures raw.Some? && 1.0 <= raw.value <= 500.0 ==> limit as real <= raw.value < (limit + 1) as real
  {
    if raw.None? || raw.value <= 0.0 then DEFAULT_LIMIT else Min(raw.value.Floor, MAX_LIMIT)
  }

  // ---------------------------------------------------------------------------------
  // Selection.

  datatype Entry = Entry(gameId: string, providerFixtureId: string, competitionId: string)

  predicate Wanted(e: Entry, ids: set<string>) { e.providerFixtureId != "" && e.competitionId in ids }

  /** Every wanted entry, in order: what selection would give without a limit. */
  function AllWanted(entries: seq<Entry>, ids: set<string>): seq<Entry> {
    if entries == [] then []
    else (if Wanted(entries[0], ids) then [entries[0]] else []) + AllWanted(entries[1..], ids)
  }

  function Take<A>(xs: seq<A>, n: nat): seq<A> { if n < |xs| then xs[..n] else xs }

  lemma {:induction false} AllWantedSplits(a: seq<Entry>, b: seq<Entry>, ids: set<string>)
    ensures AllWanted(a + b, ids) == AllWanted(a, ids) + AllWanted(b, ids)
  {
    if a == [] {
      assert a + b == b;
    } else {
      AllWantedSplits(a[1..], b, ids);
      assert (a + b)[0] == a[0] && (a + b)[1..] == a[1..] + b;
      var head := if Wanted(a[0], ids) then [a[0]] else [];
      assert head + (AllWanted(a[1..], ids) + AllWanted(b, ids)) == (head + AllWanted(a[1..], ids)) + AllWanted(b, ids);
    }
  }

  lemma {:induction false} AllWantedAreWanted(entries: seq<Entry>, ids: set<string>)
    ensures forall e ::
              e in AllWanted(entries, ids) <==> e in entries && e.providerFixtureId != "" && e.competitionId in ids
  {
    if entries != [] {
      AllWantedAreWanted(entries[1..], ids);
      assert entries == [entries[0]] + entries[1..];
    }
  }

  method SelectCompetitionFixtures(entries: seq<Entry>, ids: set<string>, limit: nat) returns (matched: seq<Entry>)
    ensures matched == Take(AllWanted(entries, ids), limit)
  {
    matched := [];
    for i := 0 to |entries|
      invariant matched == AllWanted(entries[..i], ids) && |matched| <= limit
    {
      AllWantedSplits(entries[..i], entries[i..], ids);
      assert entries[..i] + entries[i..] == entries;
      if |matched| >= limit {
        return;
      }
      AllWantedSplits(entries[..i], [entries[i]], ids);
      assert entries[..i + 1] == entries[..i] + [entries[i]];
      assert AllWanted([entries[i]], ids) == if Wanted(entries[i], ids) then [entries[i]] else [];
      if entries[i].providerFixtureId == "" {
        continue;
      }
      if entries[i].competitionId in ids {
        matched := matched + [entries[i]];
      }
    }
    assert entries[..|entries|] == entries;
  }

  // ---------------------------------------------------------------------------------
  // The pages a server gives.

  datatype Page = Page(entries: seq<Entry>, nextPageToken: string, totalCount: int)

  datatype Reply = Threw(message: string) | Gave(page: Page)

  /** The answer to the nth request, which carries the given page token. */
  type Server = (nat, string) -> Reply

  predicate Last(p: Page) { p.nextPageToken == "" || p.entries == [] }

  /** How a list of at most `fuel` pages ends: at a last page, at a failed request, or cut short. */
  datatype Ending = Complete | Failed(message: string) | Cut

  datatype Book = Book(entries: seq<Entry>, ending: Ending)

  /** The whole list as pages: every entry up to the first last page, of at most `fuel` pages. */
  function WholeList(server: Server, n: nat, token: string, fuel: nat): Book
    decreases fuel
  {
    if fuel == 0 then Book([], Cut)
    else
      match server(n, token)
      case Threw(message) => Book([], Failed(message))
      case Gave(page) =>
        if page.nextPageToken == "" || |page.entries| == 0 then Book(page.entries, Complete)
        else
          var rest := WholeList(server, n + 1, page.nextPageToken, fuel - 1);
          Book(page.entries + rest.entries, rest.ending)
  }

  datatype Discovery = Discovery(matched: seq<Entry>, entriesScanned: nat, pagesScanned: nat, serverTotalCount: int,
                                 truncated: bool)

  lemma TakeSplits<A>(a: seq<A>, b: seq<A>, n: nat)
    ensures Take(a + b, n) == Take(a, n) + Take(b, n - |Take(a, n)|)
  {
  }

  /** What selection with this limit finds in the list from the nth request on. */
  function Found(server: Server, ids: set<string>, n: nat, token: string, fuel: nat, limit: nat): seq<Entry> {
    Take(AllWanted(WholeList(server, n, token, fuel).entries, ids), limit)
  }

  /** Selection from two lists, one after the other. */
  lemma SelectionSplits(page: seq<Entry>, rest: seq<Entry>, ids: set<string>, limit: nat)
    ensures var here := Take(AllWanted(page, ids), limit);
            && |here| <= limit
            && Take(AllWanted(page + rest, ids), limit) == here + Take(AllWanted(rest, ids), limit - |here|)
  {
    AllWantedSplits(page, rest, ids);
    TakeSplits(AllWanted(page, ids), AllWanted(rest, ids), limit);
  }

  lemma WholeListPage(server: Server, n: nat, token: string, fuel: nat)
    requires fuel > 0 && server(n, token).Gave?
    ensures var page := server(n, token).page;
            WholeList(server, n, token, fuel)
            == if Last(page) then Book(page.entries, Complete)
               else
                 var rest := WholeList(server, n + 1, page.nextPageToken, fuel - 1);
                 Book(page.entries + rest.entries, rest.ending)
  {
  }

  /** One more page of a selection in progress. */
  lemma PageSplits(server: Server, ids: set<string>, n: nat, token: string, fuel: nat, limit: nat)
    requires fuel > 0 && server(n, token).Gave?
    ensures var page := server(n, token).page;
            var here := Take(AllWanted(page.entries, ids), limit);
            Found(server, ids, n, token, fuel, limit)
            == if Last(page) then here
               else here + Found(server, ids, n + 1, page.nextPageToken, fuel - 1, limit - |here|)
  {
    var page := server(n, token).page;
    WholeListPage(server, n, token, fuel);
    if !Last(page) {
      SelectionSplits(page.entries, WholeList(server, n + 1, page.nextPageToken, fuel - 1).entries, ids, limit);
    }
  }

  /** The largest total the first `fuel` pages report, but no less than zero. */
  function Highest(server: Server, n: nat, token: string, fuel: nat): int
    decreases fuel
  {
    if fuel == 0 || server(n, token).Threw? then 0
    else
      var page := server(n, token).page;
      if Last(page) then Max(0, page.totalCount)
      else Max(Max(0, page.totalCount), Highest(server, n + 1, page.nextPageToken, fuel - 1))
  }

  /** Where the page loop stands. */
  datatype Search = Search(matched: seq<Entry>, entriesScanned: nat, pagesScanned: nat, highest: int)

  const NOTHING_YET: Search := Search([], 0, 0, 0)

  function AfterPage(s: Search, page: Page, ids: set<string>, limit: nat): Search
    requires |s.matched| <= limit
  {
    Search(s.matched + Take(AllWanted(page.entries, ids), limit - |s.matched|),
           s.entriesScanned + |page.entries|, s.pagesScanned + 1, Max(s.highest, page.totalCount))
  }

  /** The page loop with `fuel` pages left; no ending means that the limit is met. */
  function SearchFrom(server: Server, ids: set<string>, limit: nat, token: string, fuel: nat, s: Search)
    : (Search, Option<Ending>)
    requires |s.matched| <= limit
    decreases fuel
  {
    if |s.matched| == limit then (s, None)
    else if fuel == 0 then (s, Some(Cut))
    else
      match server(s.pagesScanned, token)
      case Threw(message) => (s, Some(Failed(message)))
      case Gave(page) =>
        var next := AfterPage(s, page, ids, limit);
        if Last(page) then (next, Some(Complete))
        else SearchFrom(server, ids, limit, page.nextPageToken, fuel - 1, next)
  }

  /** From `s`, the loop stops at `t` with all that selection finds in what is left of the whole list. */
  ghost predicate Finds(s: Search, found: seq<Entry>, whole: Ending, limit: nat, t: Search, ending: Option<Ending>) {
    && t.matched == s.matched + found && |t.matched| <= limit
    && (|t.matched| < limit ==> ending == Some(whole))
    && (ending.Some? && ending != Some(Complete) ==> |t.matched| < limit)
  }

  lemma PageFinds(s: Search, here: seq<Entry>, next: Search, later: seq<Entry>, whole: Ending, limit: nat,
                  t: Search, ending: Option<Ending>)
    requires next.matched == s.matched + here && Finds(next, later, whole, limit, t, ending)
    ensures Finds(s, here + later, whole, limit, t, ending)
  {
    assert (s.matched + here) + later == s.matched + (here + later);
  }

  lemma {:induction false} SearchFinds(server: Server, ids: set<string>, limit: nat, token: string, fuel: nat,
                                       s: Search)
    requires |s.matched| <= limit
    ensures var (t, ending) := SearchFrom(server, ids, limit, token, fuel, s);
            Finds(s, Found(server, ids, s.pagesScanned, token, fuel, limit - |s.matched|),
                  WholeList(server, s.pagesScanned, token, fuel).ending, limit, t, ending)
    decreases fuel
  {
    var n, want := s.pagesScanned, limit - |s.matched|;
    if want == 0 || fuel == 0 || server(n, token).Threw? {
      assert Found(server, ids, n, token, fuel, want) == [] && s.matched + [] == s.matched;
    } else {
      var page := server(n, token).page;
      var here, next := Take(AllWanted(page.entries, ids), want), AfterPage(s, page, ids, limit);
      PageSplits(server, ids, n, token, fuel, want);
      WholeListPage(server, n, token, fuel);
      if !Last(page) {
        SearchFinds(server, ids, limit, page.nextPageToken, fuel - 1, next);
        var (t, ending) := SearchFrom(server, ids, limit, page.nextPageToken, fuel - 1, next);
        PageFinds(s, here, next, Found(server, ids, n + 1, page.nextPageToken, fuel - 1, want - |here|),
                  WholeList(server, n + 1, page.nextPageToken, fuel - 1).ending, limit, t, ending);
      }
    }
  }

  /** The counts are those of the pages read, and no page is read once the limit is met. */
  ghost predicate Counts(server: Server, ids: set<string>, want: nat, token: string, s: Search, t: Search) {
    && s.pagesScanned <= t.pagesScanned
    && var (n, k) := (s.pagesScanned, t.pagesScanned - s.pagesScanned);
       && t.entriesScanned == s.entriesScanned + |WholeList(server, n, token, k).entries|
       && t.highest == Max(s.highest, Highest(server, n, token, k))
       && forall j: nat :: j < k ==> |Found(server, ids, n, token, j, want)| < want
  }

  lemma StopCounts(server: Server, ids: set<string>, want: nat, token: string, s: Search)
    requires s.highest >= 0
    ensures Counts(server, ids, want, token, s, s)
  {
  }

  /** One page in front of the pages read. */
  lemma PageCounts(server: Server, ids: set<string>, limit: nat, token: string, s: Search, t: Search)
    requires |s.matched| < limit && server(s.pagesScanned, token).Gave? && !Last(server(s.pagesScanned, token).page)
    requires var page := server(s.pagesScanned, token).page;
             var next := AfterPage(s, page, ids, limit);
             Counts(server, ids, limit - |next.matched|, page.nextPageToken, next, t)
    ensures Counts(server, ids, limit - |s.matched|, token, s, t)
  {
    var page, n, k := server(s.pagesScanned, token).page, s.pagesScanned, t.pagesScanned - s.pagesScanned;
    var next, want := AfterPage(s, page, ids, limit), limit - |s.matched|;
    assert WholeList(server, n, token, k).entries
        == page.entries + WholeList(server, n + 1, page.nextPageToken, k - 1).entries;
    assert t.highest == Max(next.highest, Highest(server, n + 1, page.nextPageToken, k - 1));
    forall j: nat | j < k ensures |Found(server, ids, n, token, j, want)| < want {
      if j > 0 {
        PageSplits(server, ids, n, token, j, want);
        assert |Found(server, ids, n + 1, page.nextPageToken, j - 1, limit - |next.matched|)| < limit - |next.matched|;
      }
    }
  }

  lemma {:induction false} SearchCounts(server: Server, ids: set<string>, limit: nat, token: string, fuel: nat,
                                        s: Search)
    requires |s.matched| <= limit && s.highest >= 0
    ensures var t := SearchFrom(server, ids, limit, token, fuel, s).0;
            Counts(server, ids, limit - |s.matched|, token, s, t) && t.pagesScanned <= s.pagesScanned + fuel
    decreases fuel
  {
    StopCounts(server, ids, limit - |s.matched|, token, s);
    if |s.matched| < limit && fuel > 0 && server(s.pagesScanned, token).Gave? {
      var page := server(s.pagesScanned, token).page;
      var next := AfterPage(s, page, ids, limit);
      if Last(page) {
        LastPageCounts(server, ids, limit, token, s);
      } else {
        SearchCounts(server, ids, limit, page.nextPageToken, fuel - 1, next);
        PageCounts(server, ids, limit, token, s, SearchFrom(server, ids, limit, page.nextPageToken, fuel - 1, next).0);
      }
    }
  }

  lemma LastPageCounts(server: Server, ids: set<string>, limit: nat, token: string, s: Search)
    requires |s.matched| < limit && s.highest >= 0
    requires server(s.pagesScanned, token).Gave? && Last(server(s.pagesScanned, token).page)
    ensures Counts(server, ids, limit - |s.matched|, token, s,
                   AfterPage(s, server(s.pagesScanned, token).page, ids, limit))
  {
    assert Found(server, ids, s.pagesScanned, token, 0, limit - |s.matched|) == [];
  }

  /** What the page loop returns. */
  function ResultOf(s: Search, ending: Option<Ending>): Result<Discovery> {
    if ending.Some? && ending.value.Failed? then Err(ending.value.message)
    else Ok(Discovery(s.matched, s.entriesScanned, s.pagesScanned,
                      if s.highest == 0 then s.entriesScanned else s.highest, ending == Some(Cut)))
  }

  method DiscoverPages(server: Server, ids: set<string>, limit: nat, maxPages: nat) returns (r: Result<Discovery>)
    ensures var (s, ending) := SearchFrom(server, ids, limit, "", maxPages, NOTHING_YET); r == ResultOf(s, ending)
  {
    var matched: seq<Entry> := [];
    var entriesScanned: nat, pagesScanned: nat, serverTotalCount: int := 0, 0, 0;
    var token, truncated := "", false;
    ghost var ending: Option<Ending> := None;
    ghost var whole := SearchFrom(server, ids, limit, "", maxPages, NOTHING_YET);
    while |matched| < limit
      invariant |matched| <= limit && pagesScanned <= maxPages && !truncated && ending == None
      invariant whole == SearchFrom(server, ids, limit, token, maxPages - pagesScanned,
                                    Search(matched, entriesScanned, pagesScanned, serverTotalCount))
      decreases maxPages - pagesScanned
    {
      if pagesScanned >= maxPages {
        truncated, ending := true, Some(Cut);
        break;
      }
      var reply := server(pagesScanned, token);
      if reply.Threw? {
        return Err(reply.message);
      }
      var page := reply.page;
      pagesScanned := pagesScanned + 1;
      serverTotalCount := Max(serverTotalCount, page.totalCount);
      entriesScanned := entriesScanned + |page.entries|;
      var more := SelectCompetitionFixtures(page.entries, ids, limit - |matched|);
      matched := matched + more;
      if Last(page) {
        ending := Some(Complete);
        break;
      }
      token := page.nextPageToken;
    }
    assert whole == (Search(matched, entriesScanned, pagesScanned, serverTotalCount), ending);
    r := Ok(Discovery(matched, entriesScanned, pagesScanned,
                      if serverTotalCount == 0 then entriesScanned else serverTotalCount, truncated));
  }

  /** The result of a search of at most `maxPages` pages, against the whole list those pages hold. */
  ghost predicate Answers(server: Server, ids: set<string>, limit: nat, maxPages: nat, r: Result<Discovery>) {
    var ending := WholeList(server, 0, "", maxPages).ending;
    var found := Found(server, ids, 0, "", maxPages, limit);
    && |found| <= limit
    && (r.Err? <==> ending.Failed? && |found| < limit)
    && (r.Err? ==> r.message == ending.message)
    && (r.Ok? ==>
          && r.value.matched == found
          && (r.value.truncated <==> ending == Cut && |found| < limit)
          && r.value.pagesScanned <= maxPages
          && var (read, top) := (WholeList(server, 0, "", r.value.pagesScanned).entries,
                                 Highest(server, 0, "", r.value.pagesScanned));
             && r.value.entriesScanned == |read|
             && r.value.serverTotalCount == (if top == 0 then |read| else top)
             && forall k: nat :: k < r.value.pagesScanned ==> |Found(server, ids, 0, "", k, limit)| < limit)
  }

  /**
   * Page by page, the loop finds what selection finds in the whole list with the same limit. It
   * fails exactly when a request failed before the limit was met, and reports truncation exactly
   * when `maxPages` pages ended neither the list nor the search. Its counts are those of the
   * pages it read, and it reads no page once the limit is met.
   */
  lemma PagesAnswer(server: Server, ids: set<string>, limit: nat, maxPages: nat)
    ensures var (s, ending) := SearchFrom(server, ids, limit, "", maxPages, NOTHING_YET);
            Answers(server, ids, limit, maxPages, ResultOf(s, ending))
  {
    SearchFinds(server, ids, limit, "", maxPages, NOTHING_YET);
    SearchCounts(server, ids, limit, "", maxPages, NOTHING_YET);
    var found := Found(server, ids, 0, "", maxPages, limit);
    assert NOTHING_YET.matched + found == found;
  }

  /** With the source's ceiling of fifty pages. */
  method DiscoverCompetitionFixtures(server: Server, ids: set<string>, limit: nat) returns (r: Result<Discovery>)
    ensures Answers(server, ids, limit, MAX_PAGES_SCANNED, r)
  {
    var maxPages := MAX_PAGES_SCANNED;
    r := DiscoverPages(server, ids, limit, maxPages);
    PagesAnswer(server, ids, limit, maxPages);
  }

  // ---------------------------------------------------------------------------------
  // The target, and what is handed on.

  datatype Competition = Competition(key: string, leagueId: int)

  datatype ResolvedTarget = ResolvedTarget(leagueId: int, key: Option<string>)

  function FindKey(competitions: seq<Competition>, key: string): Option<Competition> {
    if competitions == [] then None
    else if competitions[0].key == key then Some(competitions[0])
    else FindKey(competitions[1..], key)
  }

  function ResolveBackfillTarget(key: Option<string>, leagueId: Option<int>, competitions: seq<Competition>)
    : Result<ResolvedTarget>
  {
    if leagueId.Some? then Ok(ResolvedTarget(leagueId.value, key))
    else if key.None? || key.value == "" then Err("competitionKey or apiFootballLeagueId is required")
    else
      match FindKey(competitions, key.value)
      case None => Err("unknown competition key: " + key.value)
      case Some(c) => Ok(ResolvedTarget(c.leagueId, Some(c.key)))
  }

  lemma {:induction false} FindKeyFindsTheFirst(competitions: seq<Competition>, key: string)
    ensures FindKey(competitions, key).None? <==> forall c <- competitions :: c.key != key
    ensures FindKey(competitions, key).Some? ==>
              exists i :: 0 <= i < |competitions| && competitions[i] == FindKey(competitions, key).value
                          && competitions[i].key == key && forall j :: 0 <= j < i ==> competitions[j].key != key
  {
    if competitions != [] && competitions[0].key != key {
      FindKeyFindsTheFirst(competitions[1..], key);
      if FindKey(competitions, key).Some? {
        var i :| 0 <= i < |competitions[1..]| && competitions[1..][i] == FindKey(competitions[1..], key).value
                 && forall j :: 0 <= j < i ==> competitions[1..][j].key != key;
        assert competitions[i + 1] == FindKey(competitions, key).value;
        assert forall j :: 0 < j < i + 1 ==> competitions[j] == competitions[1..][j - 1];
      }
    }
  }

  /** An explicit league id always wins; without one, a run starts exactly for a key the catalogue lists. */
  lemma TargetResolvesIff(key: Option<string>, leagueId: Option<int>, competitions: seq<Competition>)
    ensures var r := ResolveBackfillTarget(key, leagueId, competitions);
            && (r.Ok? <==>
                  || leagueId.Some?
                  || (key.Some? && key.value != "" && exists c <- competitions :: c.key == key.value))
            && (r.Ok? ==> r.value.key == key)
            && (leagueId.Some? ==> r.value.leagueId == leagueId.value)
            && (r.Err? ==> r.message == if key.Some? && key.value != "" then "unknown competition key: " + key.value
                                        else "competitionKey or apiFootballLeagueId is required")
            && (leagueId.None? && r.Ok? ==>
                  exists c <- competitions :: c.key == key.value && c.leagueId == r.value.leagueId)
  {
    if leagueId.None? && key.Some? {
      FindKeyFindsTheFirst(competitions, key.value);
    }
  }
}
