/**
  The fixed-window request limiter of services/api/src/middleware/mod.rs: a locked map of
  per-peer windows that is swept lazily, has a hard capacity, and restarts a window in place.

  `RequestRateLimiter.AllowRequest` is the imperative form.  `Allow` is its specification on values, and
  everything below it is about arbitrary runs of `Allow` under a clock that does not go backwards.
 */
module RateLimiter {

  // ---------------------------------------------------------------- data model

  /** `Option<IpAddr>`: requests without a socket peer share one entry. */
  datatype Peer = NoPeer | Ip(address: nat)

  datatype RequestWindow = RequestWindow(startedAt: nat, requests: nat)

  datatype Config = Config(limit: nat, window: nat)

  /** The source answers `bool`; a refusal is split here by the branch that produced it. */
  datatype Outcome = Admitted | OverLimit | TableFull

  type Table = map<Peer, RequestWindow>

  const MAX_TRACKED_PEERS: nat := 10_000

  // ---------------------------------------------------------------- the limiter

  /** `Instant::duration_since` saturates at zero. */
  function DurationSince(now: nat, earlier: nat): nat {
    if now < earlier then 0 else now - earlier
  }

  predicate Live(cfg: Config, w: RequestWindow, now: nat) {
    DurationSince(now, w.startedAt) < cfg.window
  }

  function Sweep(cfg: Config, peers: Table, now: nat): Table {
    map p | p in peers && Live(cfg, peers[p], now) :: peers[p]
  }

  function Allow(cfg: Config, peers: Table, peer: Peer, now: nat): (Table, Outcome) {
    var swept := if peer in peers then peers else Sweep(cfg, peers, now);
    if peer !in peers && |swept| >= MAX_TRACKED_PEERS then
      (swept, TableFull)
    else
      var entered := if peer in swept then swept[peer] else RequestWindow(now, 0);
      var current := if Live(cfg, entered, now) then entered else RequestWindow(now, 0);
      if current.requests >= cfg.limit then
        (swept[peer := current], OverLimit)
      else
        (swept[peer := current.(requests := current.requests + 1)], Admitted)
  }

  class RequestRateLimiter {
    var peers: Table
    const cfg: Config

    constructor (limit: nat, window: nat)
      ensures peers == map[] && cfg == Config(limit, window)
    {
      peers := map[];
      cfg := Config(limit, window);
    }

    method AllowRequest(peer: Peer, now: nat) returns (allowed: bool)
      modifies this
      ensures peers == Allow(cfg, old(peers), peer, now).0
      ensures allowed == Allow(cfg, old(peers), peer, now).1.Admitted?
    {
      if peer !in peers {
        peers := Sweep(cfg, peers, now);
        if |peers| >= MAX_TRACKED_PEERS {
          return false;
        }
        peers := peers[peer := RequestWindow(now, 0)];
      }
      if DurationSince(now, peers[peer].startedAt) >= cfg.window {
        peers := peers[peer := RequestWindow(now, 0)];
      }
      if peers[peer].requests >= cfg.limit {
        return false;
      }
      peers := peers[peer := peers[peer].(requests := peers[peer].requests + 1)];
      return true;
    }
  }

  // ---------------------------------------------------------------- runs

  datatype Request = Request(peer: Peer, at: nat)

  ghost predicate Clocked(run: seq<Request>) {
    forall i, j | 0 <= i <= j < |run| :: run[i].at <= run[j].at
  }

  function Init(run: seq<Request>): seq<Request>
    requires run != []
  {
    run[..|run| - 1]
  }

  function Last(run: seq<Request>): Request
    requires run != []
  {
    run[|run| - 1]
  }

  /** The table after a run that starts from an empty limiter. */
  function TableAfter(cfg: Config, run: seq<Request>): Table {
    if run == [] then map[] else Allow(cfg, TableAfter(cfg, Init(run)), Last(run).peer, Last(run).at).0
  }

  /** The answer to the last request of a run. */
  function Answer(cfg: Config, run: seq<Request>): Outcome
    requires run != []
  {
    Allow(cfg, TableAfter(cfg, Init(run)), Last(run).peer, Last(run).at).1
  }

  /** When `peer` asked, leaving out the requests refused for capacity. */
  function TimesOf(cfg: Config, run: seq<Request>, peer: Peer): seq<nat> {
    if run == [] then []
    else
      var before := TimesOf(cfg, Init(run), peer);
      if Last(run).peer == peer && !Answer(cfg, run).TableFull? then before + [Last(run).at] else before
  }

  /** How many requests of `peer` were admitted at an instant in `lo <= at < hi`. */
  function AdmittedBetween(cfg: Config, run: seq<Request>, peer: Peer, lo: int, hi: int): nat {
    if run == [] then 0
    else
      AdmittedBetween(cfg, Init(run), peer, lo, hi) +
      if Last(run).peer == peer && Answer(cfg, run).Admitted? && lo <= Last(run).at < hi then 1 else 0
  }

  // ---------------------------------------------------------------- reference: one counter that never forgets

  /** The index of the request that opened the window holding the last of `times`. */
  function Opener(window: nat, times: seq<nat>): (k: nat)
    requires times != []
    ensures k < |times|
  {
    var n := |times| - 1;
    if n == 0 then 0
    else
      var k := Opener(window, times[..n]);
      if times[n] >= times[k] + window then n else k
  }

  /** The last request is admitted when fewer than `limit` requests precede it in its window. */
  predicate CounterAdmits(cfg: Config, times: seq<nat>)
    requires times != []
  {
    |times| - 1 - Opener(cfg.window, times) < cfg.limit
  }

  ghost predicate Ascending(times: seq<nat>) {
    forall i, j | 0 <= i <= j < |times| :: times[i] <= times[j]
  }

  function Min(a: nat, b: nat): nat {
    if a < b then a else b
  }

  /** The window the lone counter would hold after `times`. */
  function CounterWindow(cfg: Config, times: seq<nat>): RequestWindow
    requires times != []
  {
    var k := Opener(cfg.window, times);
    RequestWindow(times[k], Min(cfg.limit, |times| - k))
  }

  /**
    At time `now`, the table holds for a tracked `peer` what its own counter holds; the counter of an untracked peer
    has nothing to remember, or only a window that is over.
   */
  ghost predicate Matches(cfg: Config, peers: Table, times: seq<nat>, peer: Peer, now: nat) {
    && Ascending(times)
    && (times != [] ==> times[|times| - 1] <= now)
    && (peer in peers ==> times != [] && peers[peer] == CounterWindow(cfg, times))
    && (peer !in peers && times != [] ==> !Live(cfg, CounterWindow(cfg, times), now))
  }

  lemma CounterStep(cfg: Config, times: seq<nat>, now: nat)
    requires times != []
    ensures var more := times + [now];
            && more[..|times|] == times
            && Opener(cfg.window, more) ==
               (if now >= times[Opener(cfg.window, times)] + cfg.window then |times| else Opener(cfg.window, times))
  {
    assert (times + [now])[..|times|] == times;
  }

  lemma OwnRequestMatches(cfg: Config, peers: Table, times: seq<nat>, peer: Peer, now: nat)
    requires Matches(cfg, peers, times, peer, now)
    ensures Allow(cfg, peers, peer, now).1.TableFull? ==> Matches(cfg, Allow(cfg, peers, peer, now).0, times, peer, now)
    ensures !Allow(cfg, peers, peer, now).1.TableFull? ==>
              && Matches(cfg, Allow(cfg, peers, peer, now).0, times + [now], peer, now)
              && (Allow(cfg, peers, peer, now).1.Admitted? <==> CounterAdmits(cfg, times + [now]))
  {
    if times != [] {
      CounterStep(cfg, times, now);
    }
  }

  lemma OtherRequestMatches(cfg: Config, peers: Table, times: seq<nat>, peer: Peer, other: Peer, now: nat)
    requires Matches(cfg, peers, times, peer, now) && other != peer
    ensures Matches(cfg, Allow(cfg, peers, other, now).0, times, peer, now)
  {
    var swept := Sweep(cfg, peers, now);
    assert peer in peers && peer !in swept ==> !Live(cfg, peers[peer], now);
  }

  lemma {:induction false} TableMatchesCounters(cfg: Config, run: seq<Request>, peer: Peer, now: nat)
    requires Clocked(run) && (run != [] ==> Last(run).at <= now)
    ensures Matches(cfg, TableAfter(cfg, run), TimesOf(cfg, run, peer), peer, now)
  {
    if run != [] {
      var init, last := Init(run), Last(run);
      assert init != [] ==> Last(init).at == run[|run| - 2].at <= last.at;
      TableMatchesCounters(cfg, init, peer, last.at);
      var peers, times := TableAfter(cfg, init), TimesOf(cfg, init, peer);
      RunStep(cfg, run, peer);
      if last.peer == peer {
        OwnRequestMatches(cfg, peers, times, peer, last.at);
      } else {
        OtherRequestMatches(cfg, peers, times, peer, last.peer, last.at);
      }
      MatchesStays(cfg, TableAfter(cfg, run), TimesOf(cfg, run, peer), peer, last.at, now);
    }
  }

  lemma {:induction false} RunStep(cfg: Config, run: seq<Request>, peer: Peer)
    requires run != []
    ensures var (peers, answer) := Allow(cfg, TableAfter(cfg, Init(run)), Last(run).peer, Last(run).at);
            && TableAfter(cfg, run) == peers
            && TimesOf(cfg, run, peer) ==
               if Last(run).peer == peer && !answer.TableFull? then TimesOf(cfg, Init(run), peer) + [Last(run).at]
               else TimesOf(cfg, Init(run), peer)
  {
  }

  lemma MatchesStays(cfg: Config, peers: Table, times: seq<nat>, peer: Peer, now: nat, later: nat)
    requires Matches(cfg, peers, times, peer, now) && now <= later
    ensures Matches(cfg, peers, times, peer, later)
  {
  }

  lemma {:induction false} TimesAscend(cfg: Config, run: seq<Request>, peer: Peer)
    requires Clocked(run)
    ensures Ascending(TimesOf(cfg, run, peer))
  {
    TableMatchesCounters(cfg, run, peer, if run == [] then 0 else Last(run).at);
  }

  /**
    Eviction is invisible.  Every answer that is not a capacity refusal is the answer of the peer's own counter, which
    sees only that peer's requests, never evicts and knows no capacity.
   */
  lemma {:induction false} AnswersAreThoseOfLoneCounters(cfg: Config, run: seq<Request>)
    requires Clocked(run) && run != []
    requires !Answer(cfg, run).TableFull?
    ensures TimesOf(cfg, run, Last(run).peer) != []
    ensures Answer(cfg, run).Admitted? <==> CounterAdmits(cfg, TimesOf(cfg, run, Last(run).peer))
  {
    var init, last := Init(run), Last(run);
    assert init != [] ==> Last(init).at == run[|run| - 2].at <= last.at;
    TableMatchesCounters(cfg, init, last.peer, last.at);
    OwnRequestMatches(cfg, TableAfter(cfg, init), TimesOf(cfg, init, last.peer), last.peer, last.at);
  }

  // ---------------------------------------------------------------- capacity

  /** A window is open for less than the configured duration from its start, and no longer. */
  lemma LiveExactly(cfg: Config, w: RequestWindow, now: nat)
    requires w.startedAt <= now
    ensures Live(cfg, w, now) <==> now < w.startedAt + cfg.window
  {
  }

  /** The peers whose own counter still holds a window that is open at `now`. */
  function ActivePeers(cfg: Config, run: seq<Request>, now: nat): set<Peer> {
    set r | r in run && TimesOf(cfg, run, r.peer) != []
      && Live(cfg, CounterWindow(cfg, TimesOf(cfg, run, r.peer)), now) :: r.peer
  }

  lemma {:induction false} TimesComeFromTheRun(cfg: Config, run: seq<Request>, peer: Peer)
    requires TimesOf(cfg, run, peer) != []
    ensures exists r | r in run :: r.peer == peer
  {
    var last := Last(run);
    if last.peer == peer {
      assert last in run;
    } else {
      TimesComeFromTheRun(cfg, Init(run), peer);
      var r :| r in Init(run) && r.peer == peer;
      assert r in run;
    }
  }

  lemma {:induction false} TableIsBounded(cfg: Config, run: seq<Request>)
    ensures |TableAfter(cfg, run)| <= 10_000
  {
    if run != [] {
      var init, last := Init(run), Last(run);
      TableIsBounded(cfg, init);
      var peers := TableAfter(cfg, init);
      var swept := if last.peer in peers then peers else Sweep(cfg, peers, last.at);
      var w := if last.peer in TableAfter(cfg, run) then TableAfter(cfg, run)[last.peer] else RequestWindow(0, 0);
      assert TableAfter(cfg, run) == swept || TableAfter(cfg, run) == swept[last.peer := w];
      KeysShrink(cfg, peers, last.at);
      if last.peer in swept {
        assert swept[last.peer := w].Keys == swept.Keys;
      } else {
        assert swept[last.peer := w].Keys == swept.Keys + {last.peer};
      }
    }
  }

  lemma KeysShrink(cfg: Config, peers: Table, now: nat)
    ensures |Sweep(cfg, peers, now)| <= |peers|
  {
    SubsetSize(Sweep(cfg, peers, now).Keys, peers.Keys);
  }

  lemma {:induction false} SubsetSize<T>(a: set<T>, b: set<T>)
    requires a <= b
    ensures |a| <= |b|
    decreases b
  {
    if b != {} {
      var x :| x in b;
      SubsetSize(a - {x}, b - {x});
    }
  }

  /**
    A request is refused for capacity exactly when its peer holds no entry and the table is full of peers whose
    windows opened within the last `window`; those are all the active peers there are, and the refused peer is not one
    of them.
   */
  lemma {:induction false} CapacityRefusals(cfg: Config, run: seq<Request>)
    requires Clocked(run) && run != []
    ensures var init, last := Init(run), Last(run);
            && |ActivePeers(cfg, init, last.at)| <= 10_000
            && (Answer(cfg, run).TableFull? <==>
                && last.peer !in TableAfter(cfg, init)
                && |ActivePeers(cfg, init, last.at)| == 10_000)
            && (last.peer !in TableAfter(cfg, init) ==> last.peer !in ActivePeers(cfg, init, last.at))
  {
    var init, last := Init(run), Last(run);
    var peers := TableAfter(cfg, init);
    assert init != [] ==> Last(init).at == run[|run| - 2].at <= last.at;
    forall p: Peer
      ensures p in ActivePeers(cfg, init, last.at) <==> p in Sweep(cfg, peers, last.at)
    {
      TableMatchesCounters(cfg, init, p, last.at);
      if TimesOf(cfg, init, p) != [] {
        TimesComeFromTheRun(cfg, init, p);
      }
    }
    assert ActivePeers(cfg, init, last.at) == Sweep(cfg, peers, last.at).Keys;
    TableIsBounded(cfg, init);
    KeysShrink(cfg, peers, last.at);
  }

  // ---------------------------------------------------------------- windows of one peer are disjoint

  lemma {:induction false} OpenersAreSpaced(window: nat, times: seq<nat>, m: nat)
    requires Ascending(times) && 0 < m <= |times|
    ensures var early, late := Opener(window, times[..m]), Opener(window, times);
            early == late || times[late] >= times[early] + window
  {
    if m < |times| {
      var n := |times| - 1;
      assert times[..n][..m] == times[..m];
      OpenersAreSpaced(window, times[..n], m);
    } else {
      assert times[..m] == times;
    }
  }

  lemma {:induction false} TimesOfAreAppended(cfg: Config, run: seq<Request>, i: nat, peer: Peer)
    requires i <= |run|
    ensures TimesOf(cfg, run[..i], peer) <= TimesOf(cfg, run, peer)
  {
    if i < |run| {
      assert Init(run)[..i] == run[..i];
      TimesOfAreAppended(cfg, Init(run), i, peer);
    } else {
      assert run[..i] == run;
    }
  }

  /**
    Two windows the table ever holds for one peer are the same window or open at least `window` apart, even when the
    entry was evicted and created again in between.
   */
  lemma {:induction false} WindowStartsAreSpaced(cfg: Config, run: seq<Request>, i: nat, j: nat, peer: Peer)
    requires Clocked(run) && i <= j <= |run|
    requires peer in TableAfter(cfg, run[..i]) && peer in TableAfter(cfg, run[..j])
    ensures var early, late := TableAfter(cfg, run[..i])[peer].startedAt, TableAfter(cfg, run[..j])[peer].startedAt;
            early == late || late >= early + cfg.window
  {
    var horizon := if run == [] then 0 else Last(run).at;
    TableMatchesCounters(cfg, run[..i], peer, horizon);
    TableMatchesCounters(cfg, run[..j], peer, horizon);
    assert run[..j][..i] == run[..i];
    TimesOfAreAppended(cfg, run[..j], i, peer);
    var early, late := TimesOf(cfg, run[..i], peer), TimesOf(cfg, run[..j], peer);
    assert late[..|early|] == early;
    OpenersAreSpaced(cfg.window, late, |early|);
  }

  // ---------------------------------------------------------------- the sliding-window bound

  /** How many requests the lone counter admits at an instant in `lo <= at < hi`. */
  function AdmittedByCounter(cfg: Config, times: seq<nat>, lo: int, hi: int): nat {
    if times == [] then 0
    else
      var n := |times| - 1;
      AdmittedByCounter(cfg, times[..n], lo, hi) + if CounterAdmits(cfg, times) && lo <= times[n] < hi then 1 else 0
  }

  /**
    The bound: a half-open interval no longer than the window sees at most the end of one window and one whole other.
   */
  function Burst(limit: nat): nat {
    if limit == 0 then 0 else 2 * limit - 1
  }

  /**
    Counts by how far `lo` lies from the start of the current window; each clause feeds the next when a window opens.
   */
  lemma {:induction false} CounterBound(cfg: Config, times: seq<nat>, lo: int, hi: int)
    requires Ascending(times)
    ensures times != [] ==>
              var w := CounterWindow(cfg, times);
              && (lo >= w.startedAt + cfg.window > w.startedAt ==> AdmittedByCounter(cfg, times, lo, hi) == 0)
              && (lo > w.startedAt && cfg.limit > 0 ==> AdmittedByCounter(cfg, times, lo, hi) <= w.requests - 1)
              && (lo >= w.startedAt && cfg.window > 0 ==> AdmittedByCounter(cfg, times, lo, hi) <= w.requests)
              && (lo > w.startedAt - cfg.window && cfg.limit > 0 ==>
                    AdmittedByCounter(cfg, times, lo, hi) <= cfg.limit - 1 + w.requests)
    ensures cfg.limit == 0 ==> AdmittedByCounter(cfg, times, lo, hi) == 0
    ensures hi <= lo + cfg.window ==> AdmittedByCounter(cfg, times, lo, hi) <= Burst(cfg.limit)
  {
    if times != [] {
      var n := |times| - 1;
      CounterBound(cfg, times[..n], lo, hi);
    }
  }

  lemma {:induction false} RunCountsAreCounterCounts(cfg: Config, run: seq<Request>, peer: Peer, lo: int, hi: int)
    requires Clocked(run)
    ensures AdmittedBetween(cfg, run, peer, lo, hi) == AdmittedByCounter(cfg, TimesOf(cfg, run, peer), lo, hi)
  {
    if run != [] {
      RunCountsAreCounterCounts(cfg, Init(run), peer, lo, hi);
      var before := TimesOf(cfg, Init(run), peer);
      if Last(run).peer == peer && !Answer(cfg, run).TableFull? {
        assert (before + [Last(run).at])[..|before|] == before;
        AnswersAreThoseOfLoneCounters(cfg, run);
      }
    }
  }

  /**
    The limiter's guarantee over sliding time: in every run and for every peer, fewer than `2 * limit` requests are
    admitted in any half-open interval of length `window`.
   */
  lemma {:induction false} SlidingWindowBound(cfg: Config, run: seq<Request>, peer: Peer, lo: int)
    requires Clocked(run)
    ensures AdmittedBetween(cfg, run, peer, lo, lo + cfg.window) <= Burst(cfg.limit)
  {
    RunCountsAreCounterCounts(cfg, run, peer, lo, lo + cfg.window);
    TimesAscend(cfg, run, peer);
    CounterBound(cfg, TimesOf(cfg, run, peer), lo, lo + cfg.window);
  }

  /** `n` requests of `peer` at one instant. */
  function Volley(peer: Peer, at: nat, n: nat): seq<Request> {
    seq(n, i => Request(peer, at))
  }

  lemma {:induction false} VolleyIsAdmitted(
    cfg: Config, run: seq<Request>, peer: Peer, at: nat, n: nat, lo: int, hi: int)
    requires peer in TableAfter(cfg, run)
    requires Live(cfg, TableAfter(cfg, run)[peer], at) && TableAfter(cfg, run)[peer].startedAt <= at
    requires TableAfter(cfg, run)[peer].requests + n <= cfg.limit
    requires lo <= at < hi
    ensures var after := TableAfter(cfg, run + Volley(peer, at, n));
            && peer in after
            && after[peer] == TableAfter(cfg, run)[peer].(requests := TableAfter(cfg, run)[peer].requests + n)
    ensures AdmittedBetween(cfg, run + Volley(peer, at, n), peer, lo, hi) == AdmittedBetween(cfg, run, peer, lo, hi) + n
  {
    if n == 0 {
      assert run + Volley(peer, at, 0) == run;
    } else {
      VolleyIsAdmitted(cfg, run, peer, at, n - 1, lo, hi);
      assert Init(run + Volley(peer, at, n)) == run + Volley(peer, at, n - 1);
    }
  }

  lemma {:induction false} OpeningRequestIsAdmitted(
    cfg: Config, run: seq<Request>, peer: Peer, at: nat, lo: int, hi: int)
    requires cfg.limit > 0
    requires if peer in TableAfter(cfg, run) then !Live(cfg, TableAfter(cfg, run)[peer], at) else run == []
    ensures peer in TableAfter(cfg, run + [Request(peer, at)])
    ensures TableAfter(cfg, run + [Request(peer, at)])[peer] == RequestWindow(at, 1)
    ensures AdmittedBetween(cfg, run + [Request(peer, at)], peer, lo, hi) ==
            AdmittedBetween(cfg, run, peer, lo, hi) + if lo <= at < hi then 1 else 0
  {
    assert Init(run + [Request(peer, at)]) == run;
    if run == [] {
      assert Sweep(cfg, map[], at) == map[];
    }
  }

  /** A run that reaches the bound: open a window, fill it just before it ends, then fill the next one at once. */
  function WorstRun(cfg: Config, peer: Peer): seq<Request>
    requires cfg.limit > 0 && cfg.window > 1
  {
    FilledAtTheEnd(cfg, peer) + [Request(peer, cfg.window)] + Volley(peer, cfg.window, cfg.limit - 1)
  }

  function FilledAtTheEnd(cfg: Config, peer: Peer): seq<Request>
    requires cfg.limit > 0 && cfg.window > 1
  {
    [Request(peer, 0)] + Volley(peer, cfg.window - 1, cfg.limit - 1)
  }

  lemma FilledWindow(cfg: Config, peer: Peer, hi: int)
    requires cfg.limit > 0 && cfg.window > 1 && hi >= cfg.window
    ensures var run := FilledAtTheEnd(cfg, peer);
            && peer in TableAfter(cfg, run) && TableAfter(cfg, run)[peer] == RequestWindow(0, cfg.limit)
            && AdmittedBetween(cfg, run, peer, cfg.window - 1, hi) == cfg.limit - 1
  {
    assert [] + [Request(peer, 0)] == [Request(peer, 0)];
    OpeningRequestIsAdmitted(cfg, [], peer, 0, cfg.window - 1, hi);
    VolleyIsAdmitted(cfg, [Request(peer, 0)], peer, cfg.window - 1, cfg.limit - 1, cfg.window - 1, hi);
  }

  lemma WorstRunIsClocked(cfg: Config, peer: Peer)
    requires cfg.limit > 0 && cfg.window > 1
    ensures Clocked(WorstRun(cfg, peer))
  {
    var run := WorstRun(cfg, peer);
    forall i | 0 <= i < |run|
      ensures run[i].at == if i == 0 then 0 else if i < cfg.limit then cfg.window - 1 else cfg.window
    {
    }
  }

  lemma {:induction false} NextWindowIsFilled(cfg: Config, run: seq<Request>, peer: Peer, at: nat, lo: int, hi: int)
    requires cfg.limit > 0 && cfg.window > 0 && lo <= at < hi
    requires peer in TableAfter(cfg, run) && !Live(cfg, TableAfter(cfg, run)[peer], at)
    ensures AdmittedBetween(cfg, run + [Request(peer, at)] + Volley(peer, at, cfg.limit - 1), peer, lo, hi) ==
            AdmittedBetween(cfg, run, peer, lo, hi) + cfg.limit
  {
    var reopened := run + [Request(peer, at)];
    OpeningRequestIsAdmitted(cfg, run, peer, at, lo, hi);
    assert Live(cfg, RequestWindow(at, 1), at);
    VolleyIsAdmitted(cfg, reopened, peer, at, cfg.limit - 1, lo, hi);
  }

  /** The bound is sharp for every positive limit and every window of at least two clock ticks. */
  lemma SlidingWindowBoundIsSharp(cfg: Config, peer: Peer)
    requires cfg.limit > 0 && cfg.window > 1
    ensures Clocked(WorstRun(cfg, peer))
    ensures AdmittedBetween(cfg, WorstRun(cfg, peer), peer, cfg.window - 1, 2 * cfg.window - 1) == Burst(cfg.limit)
  {
    WorstRunIsClocked(cfg, peer);
    FilledWindow(cfg, peer, 2 * cfg.window - 1);
    NextWindowIsFilled(cfg, FilledAtTheEnd(cfg, peer), peer, cfg.window, cfg.window - 1, 2 * cfg.window - 1);
  }
}
