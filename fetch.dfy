/**
 * The request side of the scraper: the warm-up visit to the homepage (`_warm_up`) and
 * the bounded attempt loop of `fetch_page`, as functions on the connection state.
 *
 * The outside world is an `Env`: the reply to every GET and the random draws made for
 * it, both indexed by the number of GETs sent before it. A session is a generation
 * counter; recreating it increments the counter.
 */
module Fetch {
  import opened Wrappers
  import opened Headers
  import Urls

  /** `MAX_RETRIES`: the attempt loop runs attempts 1 to 4. */
  const MaxRetries: nat := 4
  const Homepage: string := Urls.SiteRoot + "/"
  /** The referer the warm-up headers are built with, and the one that then replaces it. */
  const GoogleReferer: string := "https://www.google.com/"
  const SearchReferer: string := "https://www.google.com/search?q=magicbricks+property+sale+india"
  /** The city a detail-page referer names when no city has been set. */
  const DefaultCity: string := "Mumbai"

  /** What one `session.get` produces: a response, or one of the exceptions the loop tells apart. */
  datatype Reply = Status(code: int, body: string) | Timeout | ConnError | OtherError

  /** The sizes of the User-Agent, Accept-Language and platform pools (`PoolSizes` checks them). */
  const AgentCount: nat := 10
  const LanguageCount: nat := 3
  const PlatformCount: nat := 3

  lemma PoolSizes()
    ensures |UserAgents| == AgentCount && |AcceptLanguages| == LanguageCount && |DesktopPlatforms| == PlatformCount
  {
  }

  /**
   * The `random.choice` draws made for one request: a draw from a pool of size `k` picks the
   * element at the draw modulo `k`.
   */
  datatype Pick = Pick(agent: nat, language: nat, platform: nat)

  /**
   * The outside world: the replies to, and the draws made for, the GETs in the order they are
   * sent. A GET beyond the replies listed meets an unclassified exception, and one beyond the
   * draws listed uses the first of each pool.
   */
  datatype Env = Env(net: seq<Reply>, picks: seq<Pick>)

  /** The reply to the GET sent after `n` earlier ones. */
  function Net(env: Env, n: nat): Reply {
    if n < |env.net| then env.net[n] else OtherError
  }

  /** The draws for the GET sent after `n` earlier ones. */
  function Picks(env: Env, n: nat): Pick {
    if n < |env.picks| then env.picks[n] else Pick(0, 0, 0)
  }

  /**
   * One GET the scraper sent: the draws its headers were built from, the session it went out
   * on and, for a page, the URL, the referer and the attempt number. `SentHeaders` gives the
   * header map it carried.
   */
  datatype Get =
    | WarmUpGet(pick: Pick, session: nat)
    | PageGet(url: string, referer: string, pick: Pick, session: nat, attempt: nat)

  /** The scraper's connection state: `self.session`, `self._warmed_up`, and every GET sent so far. */
  datatype Conn = Conn(session: nat, warmedUp: bool, sent: seq<Get>)

  /** What `fetch_page` returns, and the connection state it leaves. */
  datatype Fetched = Fetched(html: Option<string>, conn: Conn)

  /** The headers of a page request: a User-Agent drawn from the pool, then `_get_headers_for_ua`. */
  function RequestHeaders(p: Pick, referer: string): HeaderMap {
    PoolSizes();
    Headers.Headers(UserAgents[p.agent % AgentCount], referer, p.language % LanguageCount, p.platform % PlatformCount)
  }

  /** The warm-up headers: built for the Google referer, then given the search-page referer. */
  function WarmUpHeaders(p: Pick): HeaderMap {
    RequestHeaders(p, GoogleReferer)[Referer := SearchReferer]
  }

  /** The header map a GET carried. */
  function SentHeaders(g: Get): HeaderMap {
    match g
    case WarmUpGet(pick, _) => WarmUpHeaders(pick)
    case PageGet(_, referer, pick, _, _) => RequestHeaders(pick, referer)
  }

  /**
   * What a GET carried: the User-Agent and Accept-Language its draws pick from the pools, and
   * as Referer the search page for a warm-up visit and its own referer for a page request.
   */
  lemma SentHeadersSpec(g: Get)
    ensures var h := SentHeaders(g);
      && UserAgent in h && h[UserAgent] == UserAgents[g.pick.agent % AgentCount]
      && AcceptLanguage in h && h[AcceptLanguage] == AcceptLanguages[g.pick.language % LanguageCount]
      && Referer in h && h[Referer] == (if g.WarmUpGet? then SearchReferer else g.referer)
  {
    PoolSizes();
    var p := g.pick;
    var r := if g.WarmUpGet? then GoogleReferer else g.referer;
    HeadersCommon(UserAgents[p.agent % AgentCount], r, p.language % LanguageCount, p.platform % PlatformCount);
  }

  /**
   * `_warm_up()`: nothing when already warmed up; otherwise one homepage GET, and the flag
   * is set whatever the reply (a 200, another status, or an exception).
   */
  function WarmUp(c: Conn, env: Env): Conn {
    if c.warmedUp then c
    else Conn(c.session, true, c.sent + [WarmUpGet(Picks(env, |c.sent|), c.session)])
  }

  /** `self.session = self._make_session(); self._warmed_up = False`. */
  function NewSession(c: Conn): Conn {
    c.(session := c.session + 1, warmedUp := false)
  }

  /** Sending attempt `attempt` for `url` on the current session. */
  function SendPage(c: Conn, url: string, referer: string, attempt: nat, env: Env): Conn {
    c.(sent := c.sent + [PageGet(url, referer, Picks(env, |c.sent|), c.session, attempt)])
  }

  /** The referer `fetch_page` sends: the city search page for a detail page, else the homepage. */
  function RefererFor(isDetail: bool, city: Option<string>): string {
    if isDetail then Urls.BaseUrl + "?cityName=" + city.GetOr(DefaultCity) else Homepage
  }

  /** What the attempt loop returns, the GETs it sends, the session it ends on, and its last attempt. */
  datatype Run = Run(html: Option<string>, gets: seq<Get>, session: nat, last: nat)

  /**
   * Attempt `a` of the loop and, while the reply is a retryable one and attempts remain, the
   * attempts after it, when `n` GETs went out before it and the session is `s`
   * (`AttemptBranches` spells out the source's branches).
   */
  function Attempts(n: nat, s: nat, url: string, referer: string, a: nat, env: Env): Run
    requires 1 <= a <= MaxRetries
    decreases MaxRetries - a
  {
    var page := PageGet(url, referer, Picks(env, n), s, a);
    var reply := Net(env, n);
    if !(Retryable(reply) && a < MaxRetries) then Run(Outcome(reply), [page], s, a)
    else if Renews(reply, a) then
      var rest := Attempts(n + 2, s + 1, url, referer, a + 1, env);
      rest.(gets := [page, WarmUpGet(Picks(env, n + 1), s + 1)] + rest.gets)
    else
      var rest := Attempts(n + 1, s, url, referer, a + 1, env);
      rest.(gets := [page] + rest.gets)
  }

  /** The attempt loop from attempt `a` on a warmed-up connection. */
  function Attempt(c: Conn, url: string, referer: string, a: nat, env: Env): Fetched
    requires 1 <= a <= MaxRetries && c.warmedUp
  {
    var r := Attempts(|c.sent|, c.session, url, referer, a, env);
    Fetched(r.html, Conn(r.session, true, c.sent + r.gets))
  }

  /** `fetch_page(url)` with the given referer: warm up, then attempts 1 to 4. */
  function FetchPage(c: Conn, url: string, referer: string, env: Env): Fetched {
    Attempt(WarmUp(c, env), url, referer, 1, env)
  }

  // ----- Reading the log of GETs -----

  /** A reply after which the loop tries again, as long as attempts remain. */
  predicate Retryable(reply: Reply) {
    reply == Timeout || reply == ConnError || (reply.Status? && (reply.code == 403 || reply.code == 429))
  }

  /** A reply after which the session is recreated and warmed up before the next attempt. */
  predicate Renews(reply: Reply, attempt: nat) {
    reply.Status? && reply.code == 403 && 2 <= attempt < MaxRetries
  }

  /** The number of page GETs in a log. */
  function PageCount(log: seq<Get>): (n: nat)
    ensures n <= |log|
    decreases |log|
  {
    if |log| == 0 then 0 else (if log[0].PageGet? then 1 else 0) + PageCount(log[1..])
  }

  /** The number of warm-up GETs in a log. */
  function WarmUpCount(log: seq<Get>): (n: nat)
    ensures n + PageCount(log) == |log|
    decreases |log|
  {
    if |log| == 0 then 0 else (if log[0].WarmUpGet? then 1 else 0) + WarmUpCount(log[1..])
  }

  /**
   * What follows page GET `i` of `gets`, sent after `n + i` earlier GETs, when the loop goes
   * on: its reply was a retryable one on an attempt before the last, and the next attempt
   * went out on the same session, or, after a 403 on attempt 2 or 3, on a new session right
   * after a warm-up visit on that session.
   */
  predicate Continues(gets: seq<Get>, n: nat, i: nat, url: string, referer: string, env: Env)
    requires i < |gets| && gets[i].PageGet?
  {
    var g := gets[i];
    var reply := Net(env, n + i);
    Retryable(reply) && g.attempt < MaxRetries &&
    if Renews(reply, g.attempt) then
      i + 2 < |gets|
      && gets[i + 1] == WarmUpGet(Picks(env, n + i + 1), g.session + 1)
      && gets[i + 2] == PageGet(url, referer, Picks(env, n + i + 2), g.session + 1, g.attempt + 1)
    else
      i + 1 < |gets|
      && gets[i + 1] == PageGet(url, referer, Picks(env, n + i + 1), g.session, g.attempt + 1)
  }

  /** Every page GET of `gets` but the last, the first of them sent after `n` earlier GETs, is followed as `Continues` says. */
  predicate ContinuesAll(gets: seq<Get>, n: nat, url: string, referer: string, env: Env) {
    forall i :: 0 <= i < |gets| - 1 && gets[i].PageGet? ==> Continues(gets, n, i, url, referer, env)
  }

  /** Every warm-up GET of `gets` comes right after a page GET whose reply renewed the session. */
  predicate WarmUpsRenew(gets: seq<Get>, n: nat, env: Env) {
    forall i :: 0 <= i < |gets| && gets[i].WarmUpGet? ==>
      0 < i && gets[i - 1].PageGet? && Renews(Net(env, n + i - 1), gets[i - 1].attempt)
  }

  /**
   * How the loop ends at its last GET `g`: the body of a 200 and None otherwise, and it ends
   * only on a reply that is not retryable or on the last attempt.
   */
  predicate Ends(g: Get, reply: Reply, html: Option<string>) {
    g.PageGet?
    && html == (if reply.Status? && reply.code == 200 then Some(reply.body) else None)
    && (g.attempt == MaxRetries || !Retryable(reply))
  }

  /** The warm-ups a run starting at attempt `a` can still make: one for each of attempts 2 and 3 ahead. */
  function RenewalsLeft(a: nat): nat {
    if a <= 2 then 2 else if a == 3 then 1 else 0
  }

  // ----- Properties -----

  /** `_warm_up` twice is `_warm_up` once, and the flag is set afterwards. */
  lemma WarmUpIdempotent(c: Conn, env: Env)
    ensures WarmUp(c, env).warmedUp
    ensures WarmUp(WarmUp(c, env), env) == WarmUp(c, env)
    ensures c.warmedUp ==> WarmUp(c, env) == c
    ensures !c.warmedUp ==> WarmUp(c, env).sent == c.sent + [WarmUpGet(Picks(env, |c.sent|), c.session)]
    ensures WarmUp(c, env).session == c.session
  {
  }

  /** The outcome of the last attempt: the body of a 200, None for anything else. */
  function Outcome(reply: Reply): Option<string> {
    if reply.Status? && reply.code == 200 then Some(reply.body) else None
  }

  /** The state the next attempt starts from, after attempt `a` got a retryable reply. */
  function Next(c1: Conn, reply: Reply, a: nat, env: Env): Conn {
    if Renews(reply, a) then WarmUp(NewSession(c1), env) else c1
  }

  /** After a retryable reply before the last attempt, the loop goes on from the state `Next` gives. */
  lemma AttemptRetry(c: Conn, url: string, referer: string, a: nat, env: Env)
    requires 1 <= a < MaxRetries && c.warmedUp && Retryable(Net(env, |c.sent|))
    ensures var c2 := Next(SendPage(c, url, referer, a, env), Net(env, |c.sent|), a, env);
      c2.warmedUp && Attempt(c, url, referer, a, env) == Attempt(c2, url, referer, a + 1, env)
  {
    var n := |c.sent|;
    var c1 := SendPage(c, url, referer, a, env);
    var reply := Net(env, n);
    var c2 := Next(c1, reply, a, env);
    NextSpec(c1, reply, a, env);
    var page := c1.sent[n];
    var rest := Attempts(|c2.sent|, c2.session, url, referer, a + 1, env);
    if Renews(reply, a) {
      assert c.sent + ([page, c2.sent[n + 1]] + rest.gets) == c2.sent + rest.gets;
    } else {
      assert c.sent + ([page] + rest.gets) == c2.sent + rest.gets;
    }
  }

  /** Otherwise the loop ends with this attempt's GET and outcome. */
  lemma AttemptStop(c: Conn, url: string, referer: string, a: nat, env: Env)
    requires 1 <= a <= MaxRetries && c.warmedUp && !(Retryable(Net(env, |c.sent|)) && a < MaxRetries)
    ensures Attempt(c, url, referer, a, env) == Fetched(Outcome(Net(env, |c.sent|)), SendPage(c, url, referer, a, env))
  {
  }

  /** The state after a retry: the warm-up GET of a renewed session, or the same state. */
  lemma NextSpec(c1: Conn, reply: Reply, a: nat, env: Env)
    ensures var c2 := Next(c1, reply, a, env);
      (Renews(reply, a) ==>
        c2 == Conn(c1.session + 1, true, c1.sent + [WarmUpGet(Picks(env, |c1.sent|), c1.session + 1)]))
      && (!Renews(reply, a) ==> c2 == c1)
  {
  }

  /**
   * The branches of the attempt loop: a 200 returns its body; a 403 before the last attempt
   * tries again, on a fresh warmed-up session when it came on attempt 2 or 3; a 429, a
   * timeout or a connection error tries again on the same session; on the last attempt all
   * of these give None, as do any other status and any other exception, at once.
   */
  lemma AttemptBranches(c: Conn, url: string, referer: string, a: nat, env: Env)
    requires 1 <= a <= MaxRetries && c.warmedUp
    ensures var c1 := SendPage(c, url, referer, a, env); var r := Attempt(c, url, referer, a, env);
      match Net(env, |c.sent|)
      case Status(code, body) =>
        (code == 200 ==> r == Fetched(Some(body), c1))
        && (code == 403 && a < MaxRetries ==>
              r == Attempt(if a >= 2 then WarmUp(NewSession(c1), env) else c1, url, referer, a + 1, env))
        && (code == 429 && a < MaxRetries ==> r == Attempt(c1, url, referer, a + 1, env))
        && ((code == 403 || code == 429) && a == MaxRetries ==> r == Fetched(None, c1))
        && (code != 200 && code != 403 && code != 429 ==> r == Fetched(None, c1))
      case Timeout => r == if a < MaxRetries then Attempt(c1, url, referer, a + 1, env) else Fetched(None, c1)
      case ConnError => r == if a < MaxRetries then Attempt(c1, url, referer, a + 1, env) else Fetched(None, c1)
      case OtherError => r == Fetched(None, c1)
  {
    if Retryable(Net(env, |c.sent|)) && a < MaxRetries {
      AttemptRetry(c, url, referer, a, env);
    } else {
      AttemptStop(c, url, referer, a, env);
    }
  }

  /** Counting the GETs of two logs put together. */
  lemma {:induction false} CountsAppend(x: seq<Get>, y: seq<Get>)
    ensures PageCount(x + y) == PageCount(x) + PageCount(y)
    ensures WarmUpCount(x + y) == WarmUpCount(x) + WarmUpCount(y)
    decreases |x|
  {
    if |x| == 0 {
      assert x + y == y;
    } else {
      assert (x + y)[1..] == x[1..] + y;
      CountsAppend(x[1..], y);
    }
  }

  /** Counting a log of one GET. */
  lemma CountsOne(g: Get)
    ensures PageCount([g]) == (if g.PageGet? then 1 else 0)
    ensures WarmUpCount([g]) == (if g.WarmUpGet? then 1 else 0)
  {
    assert [g][1..] == [];
  }

  /**
   * The GETs attempt `a` sends before the next attempt, when `n` went out before it on
   * session `s`: its page GET, then the warm-up visit of a new session after a 403 on
   * attempt 2 or 3.
   */
  function Sends(n: nat, s: nat, url: string, referer: string, a: nat, env: Env): (gets: seq<Get>)
    ensures |gets| == (if Renews(Net(env, n), a) then 2 else 1)
    ensures gets[0] == PageGet(url, referer, Picks(env, n), s, a)
  {
    var page := PageGet(url, referer, Picks(env, n), s, a);
    if Renews(Net(env, n), a) then [page, WarmUpGet(Picks(env, n + 1), s + 1)] else [page]
  }

  /** The GETs of one attempt hold one page GET, and a warm-up exactly when the session is renewed. */
  lemma SendsCounts(n: nat, s: nat, url: string, referer: string, a: nat, env: Env)
    ensures var gets := Sends(n, s, url, referer, a, env);
      PageCount(gets) == 1 && WarmUpCount(gets) == (if Renews(Net(env, n), a) then 1 else 0)
  {
    var gets := Sends(n, s, url, referer, a, env);
    if Renews(Net(env, n), a) {
      assert gets[1..][1..] == [];
    } else {
      assert gets[1..] == [];
    }
  }

  /**
   * The last GET of run `r`, which started after `n` earlier GETs: the page GET of its last
   * attempt, on the session it ends on, and it ends the loop as `Ends` says.
   */
  predicate EndsRun(r: Run, n: nat, url: string, referer: string, env: Env) {
    var k := |r.gets|;
    k > 0 && r.gets[k - 1] == PageGet(url, referer, Picks(env, n + k - 1), r.session, r.last)
    && Ends(r.gets[k - 1], Net(env, n + k - 1), r.html)
  }

  /**
   * The run from attempt `a` starts with that attempt's GET on session `s`, and ends as
   * `EndsRun` says.
   */
  lemma {:induction false} AttemptsEnds(n: nat, s: nat, url: string, referer: string, a: nat, env: Env)
    requires 1 <= a <= MaxRetries
    ensures var r := Attempts(n, s, url, referer, a, env);
      |r.gets| > 0 && r.gets[0] == PageGet(url, referer, Picks(env, n), s, a) && EndsRun(r, n, url, referer, env)
    decreases MaxRetries - a
  {
    var reply := Net(env, n);
    var sends := Sends(n, s, url, referer, a, env);
    if !(Retryable(reply) && a < MaxRetries) {
      assert Attempts(n, s, url, referer, a, env) == Run(Outcome(reply), sends, s, a);
      assert n + |sends| - 1 == n;
    } else if Renews(reply, a) {
      AttemptsEnds(n + 2, s + 1, url, referer, a + 1, env);
      EndsCons(Attempts(n, s, url, referer, a, env), Attempts(n + 2, s + 1, url, referer, a + 1, env), sends, n, n + 2, url, referer, env);
    } else {
      AttemptsEnds(n + 1, s, url, referer, a + 1, env);
      EndsCons(Attempts(n, s, url, referer, a, env), Attempts(n + 1, s, url, referer, a + 1, env), sends, n, n + 1, url, referer, env);
    }
  }

  /** `EndsRun` across one attempt that goes on. */
  lemma EndsCons(r: Run, rest: Run, sends: seq<Get>, n: nat, m: nat, url: string, referer: string, env: Env)
    requires r == rest.(gets := sends + rest.gets) && |sends| > 0 && m == n + |sends|
    requires EndsRun(rest, m, url, referer, env)
    ensures |r.gets| > 0 && r.gets[0] == sends[0] && EndsRun(r, n, url, referer, env)
  {
    var k := |r.gets|;
    assert r.gets[k - 1] == rest.gets[|rest.gets| - 1];
    assert n + k - 1 == m + |rest.gets| - 1;
  }

  /** The run from attempt `a` sends one page GET for each attempt up to its last. */
  lemma {:induction false} AttemptsPages(n: nat, s: nat, url: string, referer: string, a: nat, env: Env)
    requires 1 <= a <= MaxRetries
    ensures var r := Attempts(n, s, url, referer, a, env);
      a <= r.last <= MaxRetries && PageCount(r.gets) == r.last - a + 1
    decreases MaxRetries - a
  {
    var reply := Net(env, n);
    var sends := Sends(n, s, url, referer, a, env);
    SendsCounts(n, s, url, referer, a, env);
    if !(Retryable(reply) && a < MaxRetries) {
      assert Attempts(n, s, url, referer, a, env).gets == sends;
    } else if Renews(reply, a) {
      AttemptsPages(n + 2, s + 1, url, referer, a + 1, env);
      PagesCons(Attempts(n, s, url, referer, a, env), Attempts(n + 2, s + 1, url, referer, a + 1, env), sends, a);
    } else {
      AttemptsPages(n + 1, s, url, referer, a + 1, env);
      PagesCons(Attempts(n, s, url, referer, a, env), Attempts(n + 1, s, url, referer, a + 1, env), sends, a);
    }
  }

  /** `AttemptsPages` across one attempt that goes on. */
  lemma PagesCons(r: Run, rest: Run, sends: seq<Get>, a: nat)
    requires r == rest.(gets := sends + rest.gets) && PageCount(sends) == 1
    requires a + 1 <= rest.last <= MaxRetries && PageCount(rest.gets) == rest.last - (a + 1) + 1
    ensures a <= r.last <= MaxRetries && PageCount(r.gets) == r.last - a + 1
  {
    CountsAppend(sends, rest.gets);
  }

  /** The run from attempt `a` makes one warm-up per new session, at most one for each of attempts 2 and 3 ahead. */
  lemma {:induction false} AttemptsSessions(n: nat, s: nat, url: string, referer: string, a: nat, env: Env)
    requires 1 <= a <= MaxRetries
    ensures var r := Attempts(n, s, url, referer, a, env);
      r.session == s + WarmUpCount(r.gets) && WarmUpCount(r.gets) <= RenewalsLeft(a)
    decreases MaxRetries - a
  {
    var reply := Net(env, n);
    var sends := Sends(n, s, url, referer, a, env);
    SendsCounts(n, s, url, referer, a, env);
    if !(Retryable(reply) && a < MaxRetries) {
      assert Attempts(n, s, url, referer, a, env).gets == sends;
    } else if Renews(reply, a) {
      AttemptsSessions(n + 2, s + 1, url, referer, a + 1, env);
      SessionsCons(Attempts(n, s, url, referer, a, env), Attempts(n + 2, s + 1, url, referer, a + 1, env), sends, s, a);
    } else {
      AttemptsSessions(n + 1, s, url, referer, a + 1, env);
      SessionsCons(Attempts(n, s, url, referer, a, env), Attempts(n + 1, s, url, referer, a + 1, env), sends, s, a);
    }
  }

  /** `AttemptsSessions` across one attempt that goes on. */
  lemma SessionsCons(r: Run, rest: Run, sends: seq<Get>, s: nat, a: nat)
    requires r == rest.(gets := sends + rest.gets) && WarmUpCount(sends) + RenewalsLeft(a + 1) <= RenewalsLeft(a)
    requires rest.session == s + WarmUpCount(sends) + WarmUpCount(rest.gets)
    requires WarmUpCount(rest.gets) <= RenewalsLeft(a + 1)
    ensures r.session == s + WarmUpCount(r.gets) && WarmUpCount(r.gets) <= RenewalsLeft(a)
  {
    CountsAppend(sends, rest.gets);
  }

  /** Every page GET of the run that is not its last is followed as `Continues` says. */
  lemma {:induction false} AttemptsContinue(n: nat, s: nat, url: string, referer: string, a: nat, env: Env)
    requires 1 <= a <= MaxRetries
    ensures ContinuesAll(Attempts(n, s, url, referer, a, env).gets, n, url, referer, env)
    decreases MaxRetries - a
  {
    var reply := Net(env, n);
    var sends := Sends(n, s, url, referer, a, env);
    if !(Retryable(reply) && a < MaxRetries) {
      assert |Attempts(n, s, url, referer, a, env).gets| == 1;
    } else if Renews(reply, a) {
      AttemptsContinue(n + 2, s + 1, url, referer, a + 1, env);
      AttemptsEnds(n + 2, s + 1, url, referer, a + 1, env);
      ContinuesCons(Attempts(n, s, url, referer, a, env).gets, Attempts(n + 2, s + 1, url, referer, a + 1, env).gets,
        n, s, url, referer, a, env);
    } else {
      AttemptsContinue(n + 1, s, url, referer, a + 1, env);
      AttemptsEnds(n + 1, s, url, referer, a + 1, env);
      ContinuesCons(Attempts(n, s, url, referer, a, env).gets, Attempts(n + 1, s, url, referer, a + 1, env).gets,
        n, s, url, referer, a, env);
    }
  }

  /** `AttemptsContinue` across one attempt that goes on. */
  lemma ContinuesCons(gets: seq<Get>, rest: seq<Get>, n: nat, s: nat, url: string, referer: string, a: nat, env: Env)
    requires 1 <= a < MaxRetries && Retryable(Net(env, n))
    requires gets == Sends(n, s, url, referer, a, env) + rest
    requires var d := |Sends(n, s, url, referer, a, env)|;
      |rest| > 0 && rest[0] == PageGet(url, referer, Picks(env, n + d), if d == 2 then s + 1 else s, a + 1)
    requires ContinuesAll(rest, n + |Sends(n, s, url, referer, a, env)|, url, referer, env)
    ensures ContinuesAll(gets, n, url, referer, env)
  {
    var d := |Sends(n, s, url, referer, a, env)|;
    ContinuesHead(gets, rest, n, s, url, referer, a, env);
    ContinuesShift(gets, rest, n, d, url, referer, env);
    assert d == 2 ==> gets[1].WarmUpGet?;
  }

  /** The first page GET of a run that goes on is followed as `Continues` says. */
  lemma ContinuesHead(gets: seq<Get>, rest: seq<Get>, n: nat, s: nat, url: string, referer: string, a: nat, env: Env)
    requires 1 <= a < MaxRetries && Retryable(Net(env, n))
    requires gets == Sends(n, s, url, referer, a, env) + rest
    requires var d := |Sends(n, s, url, referer, a, env)|;
      |rest| > 0 && rest[0] == PageGet(url, referer, Picks(env, n + d), if d == 2 then s + 1 else s, a + 1)
    ensures |gets| > 1 && gets[0].PageGet? && Continues(gets, n, 0, url, referer, env)
  {
    var d := |Sends(n, s, url, referer, a, env)|;
    assert gets[d] == rest[0];
  }

  /** `Continues` for the GETs after the first `d` carries over from the run they form. */
  lemma ContinuesShift(gets: seq<Get>, rest: seq<Get>, n: nat, d: nat, url: string, referer: string, env: Env)
    requires d <= |gets| && gets[d..] == rest && ContinuesAll(rest, n + d, url, referer, env)
    ensures forall i :: d <= i < |gets| - 1 && gets[i].PageGet? ==> Continues(gets, n, i, url, referer, env)
  {
    forall i | d <= i < |gets| - 1 && gets[i].PageGet?
      ensures Continues(gets, n, i, url, referer, env)
    {
      var j := i - d;
      assert gets[i] == rest[j] && gets[i + 1] == rest[j + 1];
      if i + 2 < |gets| {
        assert gets[i + 2] == rest[j + 2];
      }
      assert Continues(rest, n + d, j, url, referer, env);
      assert (n + d) + j == n + i;
    }
  }

  /** Every warm-up GET of the run comes right after a 403 on attempt 2 or 3. */
  lemma {:induction false} AttemptsWarmUps(n: nat, s: nat, url: string, referer: string, a: nat, env: Env)
    requires 1 <= a <= MaxRetries
    ensures WarmUpsRenew(Attempts(n, s, url, referer, a, env).gets, n, env)
    decreases MaxRetries - a
  {
    var reply := Net(env, n);
    var sends := Sends(n, s, url, referer, a, env);
    if !(Retryable(reply) && a < MaxRetries) {
      assert Attempts(n, s, url, referer, a, env).gets == sends;
    } else if Renews(reply, a) {
      AttemptsWarmUps(n + 2, s + 1, url, referer, a + 1, env);
      AttemptsEnds(n + 2, s + 1, url, referer, a + 1, env);
      WarmUpsCons(Attempts(n, s, url, referer, a, env).gets, Attempts(n + 2, s + 1, url, referer, a + 1, env).gets,
        n, s, url, referer, a, env);
    } else {
      AttemptsWarmUps(n + 1, s, url, referer, a + 1, env);
      AttemptsEnds(n + 1, s, url, referer, a + 1, env);
      WarmUpsCons(Attempts(n, s, url, referer, a, env).gets, Attempts(n + 1, s, url, referer, a + 1, env).gets,
        n, s, url, referer, a, env);
    }
  }

  /** `AttemptsWarmUps` across one attempt that goes on. */
  lemma WarmUpsCons(gets: seq<Get>, rest: seq<Get>, n: nat, s: nat, url: string, referer: string, a: nat, env: Env)
    requires gets == Sends(n, s, url, referer, a, env) + rest
    requires |rest| > 0 && rest[0].PageGet?
    requires WarmUpsRenew(rest, n + |Sends(n, s, url, referer, a, env)|, env)
    ensures WarmUpsRenew(gets, n, env)
  {
    var d := |Sends(n, s, url, referer, a, env)|;
    assert gets[d..] == rest;
    assert gets[d] == rest[0];
    forall i | d < i < |gets| && gets[i].WarmUpGet?
      ensures 0 < i && gets[i - 1].PageGet? && Renews(Net(env, n + i - 1), gets[i - 1].attempt)
    {
      var j := i - d;
      assert gets[i] == rest[j];
      assert gets[i - 1] == rest[j - 1];
      assert (n + d) + j - 1 == n + i - 1;
    }
  }

  /** `fetch_page(url)`: the GETs before it, the warm-up visit when not yet warmed up, then the run from attempt 1. */
  lemma FetchPageRun(c: Conn, url: string, referer: string, env: Env)
    ensures var n := |c.sent|; var first := if c.warmedUp then n else n + 1;
      var r := Attempts(first, c.session, url, referer, 1, env); var f := FetchPage(c, url, referer, env);
      |WarmUp(c, env).sent| == first
      && f.html == r.html && f.conn.session == r.session && f.conn.warmedUp
      && first < |f.conn.sent| && f.conn.sent[..n] == c.sent && f.conn.sent[first..] == r.gets
      && (!c.warmedUp ==> f.conn.sent[n] == WarmUpGet(Picks(env, n), c.session))
  {
    var w := WarmUp(c, env);
    var r := Attempts(|w.sent|, c.session, url, referer, 1, env);
    AttemptsEnds(|w.sent|, c.session, url, referer, 1, env);
    var log := w.sent + r.gets;
    assert log[|w.sent|..] == r.gets;
    assert log[..|c.sent|] == c.sent;
  }

  /** `fetch_page(url)` begins with the warm-up visit when not yet warmed up, then attempt 1 on the current session. */
  lemma FetchPageStart(c: Conn, url: string, referer: string, env: Env)
    ensures var log := FetchPage(c, url, referer, env).conn.sent; var n := |c.sent|;
      var first := if c.warmedUp then n else n + 1;
      first < |log| && log[..n] == c.sent
      && (!c.warmedUp ==> log[n] == WarmUpGet(Picks(env, n), c.session))
      && log[first] == PageGet(url, referer, Picks(env, first), c.session, 1)
  {
    var first := if c.warmedUp then |c.sent| else |c.sent| + 1;
    FetchPageRun(c, url, referer, env);
    AttemptsEnds(first, c.session, url, referer, 1, env);
    var log := FetchPage(c, url, referer, env).conn.sent;
    assert log[first] == log[first..][0];
  }

  /** `fetch_page(url)` leaves the scraper warmed up and returns the body of a final 200 or None. */
  lemma FetchPageEnds(c: Conn, url: string, referer: string, env: Env)
    ensures var r := FetchPage(c, url, referer, env); var log := r.conn.sent;
      |log| > 0 && Ends(log[|log| - 1], Net(env, |log| - 1), r.html)
      && r.conn.warmedUp && r.conn.session == log[|log| - 1].session
  {
    var first := if c.warmedUp then |c.sent| else |c.sent| + 1;
    FetchPageRun(c, url, referer, env);
    var run := Attempts(first, c.session, url, referer, 1, env);
    AttemptsEnds(first, c.session, url, referer, 1, env);
    EndsInLog(FetchPage(c, url, referer, env).conn.sent, first, run, url, referer, env);
  }

  /** Every page GET of the attempt loop asks for `url` with `referer`. */
  lemma {:induction false} AttemptsTargets(n: nat, s: nat, url: string, referer: string, a: nat, env: Env)
    requires 1 <= a <= MaxRetries
    ensures var gets := Attempts(n, s, url, referer, a, env).gets;
      forall i :: 0 <= i < |gets| && gets[i].PageGet? ==> gets[i].url == url && gets[i].referer == referer
    decreases MaxRetries - a
  {
    var reply := Net(env, n);
    var gets := Attempts(n, s, url, referer, a, env).gets;
    if !(Retryable(reply) && a < MaxRetries) {
    } else {
      var d := if Renews(reply, a) then 2 else 1;
      var s' := if Renews(reply, a) then s + 1 else s;
      AttemptsTargets(n + d, s', url, referer, a + 1, env);
      var rest := Attempts(n + d, s', url, referer, a + 1, env).gets;
      assert gets == Sends(n, s, url, referer, a, env) + rest;
      forall i | d <= i < |gets| && gets[i].PageGet?
        ensures gets[i].url == url && gets[i].referer == referer
      {
        assert gets[i] == rest[i - d];
      }
    }
  }

  /**
   * The GETs `fetch_page(url)` adds are the warm-up visit, when one is due, and page GETs that
   * all ask for `url` and carry `referer` as their Referer header.
   */
  lemma FetchPageTargets(c: Conn, url: string, referer: string, env: Env)
    ensures var log := FetchPage(c, url, referer, env).conn.sent;
      forall i :: |c.sent| <= i < |log| && log[i].PageGet? ==>
        log[i].url == url && log[i].referer == referer
        && Referer in SentHeaders(log[i]) && SentHeaders(log[i])[Referer] == referer
  {
    var n := |c.sent|;
    var first := if c.warmedUp then n else n + 1;
    FetchPageRun(c, url, referer, env);
    AttemptsTargets(first, c.session, url, referer, 1, env);
    LogTargets(FetchPage(c, url, referer, env).conn.sent, n, first, Attempts(first, c.session, url, referer, 1, env).gets,
      url, referer);
  }

  /** `FetchPageTargets` on a log whose GETs from `first` on are `gets` and whose GETs between `n` and `first` are warm-ups. */
  lemma LogTargets(log: seq<Get>, n: nat, first: nat, gets: seq<Get>, url: string, referer: string)
    requires n <= first < |log| && log[first..] == gets
    requires forall i :: n <= i < first ==> log[i].WarmUpGet?
    requires forall i :: 0 <= i < |gets| && gets[i].PageGet? ==> gets[i].url == url && gets[i].referer == referer
    ensures forall i :: n <= i < |log| && log[i].PageGet? ==>
      log[i].url == url && log[i].referer == referer
      && Referer in SentHeaders(log[i]) && SentHeaders(log[i])[Referer] == referer
  {
    forall i | n <= i < |log| && log[i].PageGet?
      ensures log[i].url == url && log[i].referer == referer
        && Referer in SentHeaders(log[i]) && SentHeaders(log[i])[Referer] == referer
    {
      assert log[i] == gets[i - first];
      SentHeadersSpec(log[i]);
    }
  }

  /** A log whose GETs from index `first` on are run `r` ends as `r` does. */
  lemma EndsInLog(log: seq<Get>, first: nat, r: Run, url: string, referer: string, env: Env)
    requires first <= |log| && log[first..] == r.gets && EndsRun(r, first, url, referer, env)
    ensures |log| > 0 && Ends(log[|log| - 1], Net(env, |log| - 1), r.html) && log[|log| - 1].session == r.session
  {
    var k := |r.gets|;
    assert log[|log| - 1] == r.gets[k - 1];
    assert |log| - 1 == first + k - 1;
  }

  /** `fetch_page(url)` sends between one and four page GETs and makes at most two new sessions. */
  lemma FetchPageBounds(c: Conn, url: string, referer: string, env: Env)
    ensures var r := FetchPage(c, url, referer, env); var log := r.conn.sent;
      |c.sent| <= |log| && 1 <= PageCount(log[|c.sent|..]) <= MaxRetries
      && c.session <= r.conn.session <= c.session + 2
  {
    var n := |c.sent|;
    var first := if c.warmedUp then n else n + 1;
    FetchPageRun(c, url, referer, env);
    AttemptsPages(first, c.session, url, referer, 1, env);
    AttemptsSessions(first, c.session, url, referer, 1, env);
    var log := FetchPage(c, url, referer, env).conn.sent;
    if !c.warmedUp {
      assert log[n..] == [log[n]] + log[first..];
      CountsAppend([log[n]], log[first..]);
      CountsOne(log[n]);
    }
  }

  /**
   * Inside `fetch_page(url)`, every page GET but the last is followed as `Continues` says, and
   * a warm-up comes only right after a 403 on attempt 2 or 3.
   */
  lemma FetchPageSteps(c: Conn, url: string, referer: string, env: Env)
    ensures var log := FetchPage(c, url, referer, env).conn.sent;
      var first := if c.warmedUp then |c.sent| else |c.sent| + 1;
      first < |log| && ContinuesAll(log[first..], first, url, referer, env) && WarmUpsRenew(log[first..], first, env)
  {
    var first := if c.warmedUp then |c.sent| else |c.sent| + 1;
    FetchPageRun(c, url, referer, env);
    AttemptsContinue(first, c.session, url, referer, 1, env);
    AttemptsWarmUps(first, c.session, url, referer, 1, env);
  }

  /** Every page GET before the last of a run that goes on as `Continues` says had a retryable reply. */
  lemma RetryableBeforeLast(gets: seq<Get>, n: nat, url: string, referer: string, env: Env)
    requires ContinuesAll(gets, n, url, referer, env)
    ensures forall i :: 0 <= i < |gets| - 1 && gets[i].PageGet? ==> Retryable(Net(env, n + i))
  {
  }

  /**
   * A reply that is neither a 200 nor retryable (another status, or an unclassified
   * exception) ends `fetch_page` at once with None.
   */
  lemma StopsAtOnce(c: Conn, url: string, referer: string, env: Env, i: nat)
    requires var log := FetchPage(c, url, referer, env).conn.sent;
      |c.sent| <= i < |log| && log[i].PageGet?
    requires var reply := Net(env, i); !Retryable(reply) && !(reply.Status? && reply.code == 200)
    ensures var r := FetchPage(c, url, referer, env); i == |r.conn.sent| - 1 && r.html == None
  {
    var first := if c.warmedUp then |c.sent| else |c.sent| + 1;
    FetchPageRun(c, url, referer, env);
    var run := Attempts(first, c.session, url, referer, 1, env);
    AttemptsEnds(first, c.session, url, referer, 1, env);
    AttemptsContinue(first, c.session, url, referer, 1, env);
    StopsInLog(FetchPage(c, url, referer, env).conn.sent, |c.sent|, first, run, i, url, referer, env);
  }

  /** `StopsInRun` for a log whose GETs from index `first` on are the run, after at most one warm-up from index `n`. */
  lemma StopsInLog(log: seq<Get>, n: nat, first: nat, r: Run, i: nat, url: string, referer: string, env: Env)
    requires n <= first <= n + 1 && first <= |log| && log[first..] == r.gets
    requires first == n + 1 ==> log[n].WarmUpGet?
    requires n <= i < |log| && log[i].PageGet?
    requires ContinuesAll(r.gets, first, url, referer, env) && EndsRun(r, first, url, referer, env)
    requires var reply := Net(env, i); !Retryable(reply) && !(reply.Status? && reply.code == 200)
    ensures i == |log| - 1 && r.html == None
  {
    assert first <= i;
    assert log[i] == r.gets[i - first];
    assert Net(env, first + (i - first)) == Net(env, i);
    StopsInRun(r, first, i - first, url, referer, env);
  }

  /** In a run, a page GET whose reply is neither a 200 nor retryable is the last one, and the run returns None. */
  lemma StopsInRun(r: Run, n: nat, j: nat, url: string, referer: string, env: Env)
    requires ContinuesAll(r.gets, n, url, referer, env) && EndsRun(r, n, url, referer, env)
    requires j < |r.gets| && r.gets[j].PageGet?
    requires var reply := Net(env, n + j); !Retryable(reply) && !(reply.Status? && reply.code == 200)
    ensures j == |r.gets| - 1 && r.html == None
  {
    RetryableBeforeLast(r.gets, n, url, referer, env);
    assert j == |r.gets| - 1;
    assert n + |r.gets| - 1 == n + j;
  }
}
