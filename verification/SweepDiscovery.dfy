/**
 * Discovery of the unscoped sweep: pages are asked for until the limit is met or the list ends,
 * with no ceiling on their number.
 */
module SweepDiscovery {
  import opened Wrappers
  import PagedDiscovery

  const DEFAULT_PAGE_SIZE: nat := 100

  /** A page as the loop sees it: the provider fixture ids of its entries, some of them empty. */
  datatype Page = Page(ids: seq<string>, nextPageToken: string, totalCount: int)

  datatype Reply = Threw(message: string) | Gave(page: Page)

  /** The answer to the nth request, which carries a page token and a page size. */
  type Server = (nat, string, nat) -> Reply

  predicate Last(p: Page) { p.nextPageToken == "" || p.ids == [] }

  datatype Ending = Running | Finished | Failed(message: string)

  /** Where the loop stands. `listed` is history: every id of every page read. */
  datatype Listing = Listing(ids: seq<string>, requests: nat, token: string, totalCount: int, ending: Ending,
                             listed: seq<string>)

  const START: Listing := Listing([], 0, "", 0, Running, [])

  function Usable(ids: seq<string>): seq<string> {
    if ids == [] then [] else (if ids[0] != "" then [ids[0]] else []) + Usable(ids[1..])
  }

  /** One turn of the loop: its condition, one request, its entries, its exit. */
  function Turn(server: Server, limit: nat, l: Listing): Listing
    requires |l.ids| <= limit
  {
    if l.ending != Running then l
    else if |l.ids| == limit then l.(ending := Finished)
    else
      match server(l.requests, l.token, Min(DEFAULT_PAGE_SIZE, limit - |l.ids|))
      case Threw(message) => l.(ending := Failed(message))
      case Gave(page) =>
        Listing(l.ids + PagedDiscovery.Take(Usable(page.ids), limit - |l.ids|), l.requests + 1, page.nextPageToken,
                Max(l.totalCount, page.totalCount), if Last(page) then Finished else Running, l.listed + page.ids)
  }

  /** The loop after `k` turns. */
  function Turns(server: Server, limit: nat, k: nat): (l: Listing)
    ensures |l.ids| <= limit
  {
    if k == 0 then START else Turn(server, limit, Turns(server, limit, k - 1))
  }

  predicate Ends(server: Server, limit: nat, k: nat) { Turns(server, limit, k).ending != Running }

  // ---------------------------------------------------------------------------------
  // The loop itself, driven for a number of turns.

  lemma {:induction false} UsableAt(ids: seq<string>, i: nat)
    requires i < |ids|
    ensures Usable(ids[i..]) == if ids[i] != "" then [ids[i]] + Usable(ids[i + 1..]) else Usable(ids[i + 1..])
  {
    assert ids[i..][0] == ids[i] && ids[i..][1..] == ids[i + 1..];
  }

  lemma {:induction false} OneMore(out: seq<string>, id: string, rest: seq<string>)
    ensures out + ([id] + rest) == (out + [id]) + rest
    ensures PagedDiscovery.Take((out + [id]) + rest, |out| + 1) == out + [id]
  {
  }

  /** The entries of one page, until the limit is met. */
  method TakeIds(ids: seq<string>, room: nat) returns (out: seq<string>)
    requires room > 0
    ensures out == PagedDiscovery.Take(Usable(ids), room)
  {
    out := [];
    assert ids[0..] == ids;
    for i := 0 to |ids|
      invariant |out| < room && Usable(ids) == out + Usable(ids[i..])
    {
      UsableAt(ids, i);
      if ids[i] != "" {
        OneMore(out, ids[i], Usable(ids[i + 1..]));
        out := out + [ids[i]];
        if |out| >= room {
          return;
        }
      }
    }
    assert Usable(ids[|ids|..]) == [] && out + [] == out;
  }

  method Discover(server: Server, limit: nat, turns: nat) returns (l: Listing)
    ensures l == Turns(server, limit, turns)
  {
    l := START;
    for k := 0 to turns
      invariant l == Turns(server, limit, k)
    {
      if l.ending != Running {
        continue;
      }
      if |l.ids| >= limit {
        l := l.(ending := Finished);
        continue;
      }
      var reply := server(l.requests, l.token, Min(DEFAULT_PAGE_SIZE, limit - |l.ids|));
      match reply {
        case Threw(message) =>
          l := l.(ending := Failed(message));
        case Gave(page) =>
          var more := TakeIds(page.ids, limit - |l.ids|);
          l := Listing(l.ids + more, l.requests + 1, page.nextPageToken, Max(l.totalCount, page.totalCount),
                       if Last(page) then Finished else Running, l.listed + page.ids);
      }
    }
  }

  // ---------------------------------------------------------------------------------
  // What it finds, and whether it ends.

  lemma {:induction false} UsableSplits(a: seq<string>, b: seq<string>)
    ensures Usable(a + b) == Usable(a) + Usable(b)
  {
    if a == [] {
      assert a + b == b;
    } else {
      assert (a + b)[0] == a[0] && (a + b)[1..] == a[1..] + b;
      UsableSplits(a[1..], b);
      var head := if a[0] != "" then [a[0]] else [];
      assert head + (Usable(a[1..]) + Usable(b)) == (head + Usable(a[1..])) + Usable(b);
    }
  }

  lemma TurnFinds(server: Server, limit: nat, l: Listing)
    requires |l.ids| <= limit && l.ids == PagedDiscovery.Take(Usable(l.listed), limit)
    ensures var to := Turn(server, limit, l); to.ids == PagedDiscovery.Take(Usable(to.listed), limit)
  {
    var to := Turn(server, limit, l);
    if to.listed != l.listed {
      var page := server(l.requests, l.token, Min(DEFAULT_PAGE_SIZE, limit - |l.ids|)).page;
      UsableSplits(l.listed, page.ids);
      PagedDiscovery.TakeSplits(Usable(l.listed), Usable(page.ids), limit);
    }
  }

  /**
   * Whatever the server answers, the ids found are the first usable ones of the pages read, and
   * never more than the limit.
   */
  lemma {:induction false} FindsTheFirstUsableIds(server: Server, limit: nat, k: nat)
    ensures var l := Turns(server, limit, k);
            l.ids == PagedDiscovery.Take(Usable(l.listed), limit) && |l.ids| <= limit && l.requests <= k
  {
    if k > 0 {
      FindsTheFirstUsableIds(server, limit, k - 1);
      TurnFinds(server, limit, Turns(server, limit, k - 1));
    }
  }

  lemma {:induction false} EndingStays(server: Server, limit: nat, k: nat, m: nat)
    requires k <= m && Ends(server, limit, k)
    ensures Turns(server, limit, m) == Turns(server, limit, k)
  {
    if k < m { EndingStays(server, limit, k, m - 1); }
  }

  /** The next request, while the loop runs and is short of the limit. */
  function Answer(server: Server, limit: nat, k: nat): Reply
    requires !Ends(server, limit, k) && |Turns(server, limit, k).ids| < limit
  {
    var l := Turns(server, limit, k);
    server(l.requests, l.token, Min(DEFAULT_PAGE_SIZE, limit - |l.ids|))
  }

  /** A turn ends the loop exactly when the limit is met, the request fails, or the page is the last. */
  lemma TurnEndsIff(server: Server, limit: nat, k: nat)
    requires !Ends(server, limit, k)
    ensures Ends(server, limit, k + 1)
            <==> || |Turns(server, limit, k).ids| == limit
                 || Answer(server, limit, k).Threw?
                 || Answer(server, limit, k).page.nextPageToken == ""
                 || |Answer(server, limit, k).page.ids| == 0
  {
  }

  /** Each page that is not the last one holds a usable id. */
  ghost predicate PagesAreUseful(server: Server) {
    forall n: nat, token, size: nat ::
      server(n, token, size).Gave? && !Last(server(n, token, size).page) ==>
          Usable(server(n, token, size).page.ids) != []
  }

  /** If no page but the last is without a usable id, the loop ends within one turn more than its limit. */
  lemma {:induction false} UsefulPagesEnd(server: Server, limit: nat, k: nat)
    requires PagesAreUseful(server)
    ensures Ends(server, limit, k) || |Turns(server, limit, k).ids| >= k
    ensures k > limit ==> Ends(server, limit, k)
  {
    if k > 0 {
      UsefulPagesEnd(server, limit, k - 1);
      if !Ends(server, limit, k) {
        TurnEndsIff(server, limit, k - 1);
        var answer := Answer(server, limit, k - 1);
        assert Usable(answer.page.ids) != [];
      }
    }
  }

  /** A server whose pages hold entries without a fixture id and always name a next page. */
  const BARREN: Server := (n: nat, token: string, size: nat) => Gave(Page([""], "more", 0))

  /** Against it the loop never ends, whatever the limit but zero. */
  lemma {:induction false} BarrenPagesNeverEnd(limit: nat, k: nat)
    requires limit > 0
    ensures Turns(BARREN, limit, k).ending == Running && Turns(BARREN, limit, k).ids == []
  {
    if k > 0 {
      BarrenPagesNeverEnd(limit, k - 1);
      assert Usable([""]) == Usable([]) == [];
    }
  }
}
