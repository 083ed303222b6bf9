/**
  Any number of single and batch rate calls on one cache, interleaved at every await of
  services/api/src/services/rate_service.rs, with the provider answering when and what it likes.

  `provided`, `served` and `replies` are history variables: no step reads them.
 */
module RateCacheRuns {
  import opened Wrappers
  import opened PaymentIntents
  import opened RateCache

  /** Where a call stands; `start` is the instant it read the clock, once, at its beginning. */
  datatype Call =
    | Checking(key: Key, start: Time)
    | Fetching(key: Key, start: Time)
    | Answered(key: Key, start: Time, answer: Answer)
    | Filtering(keys: seq<Key>, start: Time)
    | Collecting(keys: seq<Key>, start: Time, wanted: set<Key>, answers: map<Key, Answer>)
    | Reading(keys: seq<Key>, start: Time)

  /** The provider gave `rate` for `key` at instant `at`. */
  datatype Provided = Provided(key: Key, rate: Rate, at: Time)

  /** A call that started at `start` was given `rate` at instant `at`; the cache dated that rate `cachedAt`. */
  datatype Served = Served(key: Key, rate: Rate, start: Time, cachedAt: Time, at: Time)

  datatype System = System(
    now: Time,
    cache: Cache,
    calls: map<nat, Call>,
    provided: seq<Provided>,
    served: seq<Served>,
    replies: map<nat, seq<Option<Rate>>>)

  datatype Action =
    | Tick(elapsed: nat)
    | StartSingle(call: nat, key: Key)
    | StartBatch(call: nat, keys: seq<Key>)
    | ProviderAnswers(call: nat, key: Key, answer: Answer)
    | Advance(call: nat)

  // ---------------------------------------------------------------- steps

  /** The call ends with a reply, one slot for a single call and one for each market of a batch. */
  function Finish(s: System, c: nat, served: seq<Served>, reply: seq<Option<Rate>>): System {
    s.(calls := s.calls - {c}, served := s.served + served, replies := s.replies[c := reply])
  }

  function FinishWith(s: System, c: nat, v: Served): System {
    Finish(s, c, [v], [Some(v.rate)])
  }

  function WithAnswer(provided: seq<Provided>, key: Key, answer: Answer, at: Time): seq<Provided> {
    match answer case None => provided case Some(rate) => provided + [Provided(key, rate, at)]
  }

  /** The entries a batch writes back: one per successful answer, dated with the start of the call. */
  function Written(answers: map<Key, Answer>, start: Time): Cache {
    map k | k in answers && answers[k].Some? :: Entry(answers[k].value, start)
  }

  function ServedSlots(ttls: Ttls, cache: Cache, keys: seq<Key>, start: Time, at: Time): seq<Served> {
    if keys == [] then []
    else
      var before := ServedSlots(ttls, cache, keys[..|keys| - 1], start, at);
      var k := keys[|keys| - 1];
      match ReadSlot(ttls, cache, k, start)
      case None => before
      case Some(rate) => before + [Served(k, rate, start, cache[k].cachedAt, at)]
  }

  function AdvanceCall(ttls: Ttls, s: System, c: nat): System
    requires c in s.calls
  {
    match s.calls[c]
    case Checking(key, start) =>
      if IsFreshHit(ttls, s.cache, key, start) then
        FinishWith(s, c, Served(key, s.cache[key].rate.(isStale := false), start, s.cache[key].cachedAt, s.now))
      else s.(calls := s.calls[c := Fetching(key, start)])
    case Fetching(_, _) => s
    case Answered(key, start, Some(rate)) =>
      FinishWith(s, c, Served(key, rate, start, start, s.now)).(cache := s.cache[key := Entry(rate, start)])
    case Answered(key, start, None) =>
      if key in s.cache && start - s.cache[key].cachedAt < ttls.Stale() then
        FinishWith(s, c, Served(key, s.cache[key].rate.(isStale := true), start, s.cache[key].cachedAt, s.now))
      else Finish(s, c, [], [None])
    case Filtering(keys, start) =>
      var wanted := set k | k in keys && !IsFreshHit(ttls, s.cache, k, start);
      s.(calls := s.calls[c := Collecting(keys, start, wanted, map[])])
    case Collecting(keys, start, wanted, answers) =>
      if wanted <= answers.Keys then
        s.(cache := s.cache + Written(answers, start), calls := s.calls[c := Reading(keys, start)])
      else s
    case Reading(keys, start) =>
      Finish(s, c, ServedSlots(ttls, s.cache, keys, start, s.now), ReadAll(ttls, s.cache, keys, start))
  }

  function AnswerCall(s: System, c: nat, key: Key, answer: Answer): System
    requires c in s.calls
  {
    match s.calls[c]
    case Fetching(k, start) =>
      if k != key then s
      else s.(calls := s.calls[c := Answered(k, start, answer)], provided := WithAnswer(s.provided, key, answer, s.now))
    case Collecting(keys, start, wanted, answers) =>
      if key !in wanted || key in answers then s
      else
        s.(calls := s.calls[c := Collecting(keys, start, wanted, answers[key := answer])],
           provided := WithAnswer(s.provided, key, answer, s.now))
    case _ => s
  }

  function Step(ttls: Ttls, s: System, a: Action): System {
    match a
    case Tick(elapsed) => s.(now := s.now + elapsed)
    case StartSingle(c, key) => if c in s.calls then s else s.(calls := s.calls[c := Checking(key, s.now)])
    case StartBatch(c, keys) => if c in s.calls then s else s.(calls := s.calls[c := Filtering(keys, s.now)])
    case ProviderAnswers(c, key, answer) => if c in s.calls then AnswerCall(s, c, key, answer) else s
    case Advance(c) => if c in s.calls then AdvanceCall(ttls, s, c) else s
  }

  const Empty: System := System(0, map[], map[], [], [], map[])

  function After(ttls: Ttls, schedule: seq<Action>): System {
    if schedule == [] then Empty
    else Step(ttls, After(ttls, schedule[..|schedule| - 1]), schedule[|schedule| - 1])
  }

  // ---------------------------------------------------------------- calls that nobody interrupts

  /** Left alone, a single call does what `RateFor` says, answer and cache. */
  lemma UninterruptedSingle(ttls: Ttls, s: System, c: nat, key: Key, answer: Answer)
    requires c !in s.calls
    ensures var asked := Step(ttls, Step(ttls, s, StartSingle(c, key)), Advance(c));
            var t := Step(ttls, Step(ttls, asked, ProviderAnswers(c, key, answer)), Advance(c));
            var (cache, r) := RateFor(ttls, s.cache, key, answer, s.now);
            t.cache == cache && c !in t.calls && c in t.replies && t.replies[c] == [r]
  {
    var s1 := Step(ttls, s, StartSingle(c, key));
    var s2 := Step(ttls, s1, Advance(c));
    var s3 := Step(ttls, s2, ProviderAnswers(c, key, answer));
    if IsFreshHit(ttls, s.cache, key, s.now) {
      assert c !in s2.calls && s3 == s2;
    } else {
      assert s2.calls[c] == Fetching(key, s.now) && s3.calls[c] == Answered(key, s.now, answer);
    }
  }

  /** The provider answers for each key in turn, with nothing in between. */
  function AnsweredAll(ttls: Ttls, s: System, c: nat, keys: seq<Key>, answer: Key -> Answer): System {
    if keys == [] then s
    else
      var k := keys[|keys| - 1];
      Step(ttls, AnsweredAll(ttls, s, c, keys[..|keys| - 1], answer), ProviderAnswers(c, k, answer(k)))
  }

  lemma {:induction false} AnswersCollected(
    ttls: Ttls, s: System, c: nat, keys: seq<Key>, answer: Key -> Answer, all: seq<Key>, start: Time, wanted: set<Key>)
    requires c in s.calls && s.calls[c] == Collecting(all, start, wanted, map[])
    ensures var t := AnsweredAll(ttls, s, c, keys, answer);
            && t.cache == s.cache && t.served == s.served && t.now == s.now
            && c in t.calls
            && t.calls[c] == Collecting(all, start, wanted, map k | k in wanted && k in keys :: answer(k))
  {
    if keys == [] {
      assert (map k | k in wanted && k in keys :: answer(k)) == map[];
    } else {
      var n := |keys| - 1;
      AnswersCollected(ttls, s, c, keys[..n], answer, all, start, wanted);
      var before := map k | k in wanted && k in keys[..n] :: answer(k);
      var after := map k | k in wanted && k in keys :: answer(k);
      assert forall k | k in keys :: k == keys[n] || k in keys[..n];
      assert after == if keys[n] in wanted then before[keys[n] := answer(keys[n])] else before;
      assert keys[n] in before ==> before[keys[n] := answer(keys[n])] == before;
    }
  }

  /** Left alone but for the provider, a batch call does what `BatchRates` says, slot by slot, and leaves its cache. */
  lemma UninterruptedBatch(ttls: Ttls, s: System, c: nat, keys: seq<Key>, answer: Key -> Answer)
    requires c !in s.calls
    ensures var asked := Step(ttls, Step(ttls, s, StartBatch(c, keys)), Advance(c));
            var t := Step(ttls, Step(ttls, AnsweredAll(ttls, asked, c, keys, answer), Advance(c)), Advance(c));
            var (cache, rates) := BatchRates(ttls, s.cache, keys, keys, answer, s.now);
            t.cache == cache && c !in t.calls && c in t.replies && t.replies[c] == rates
  {
    var asked := Step(ttls, Step(ttls, s, StartBatch(c, keys)), Advance(c));
    var wanted := set k | k in keys && !IsFreshHit(ttls, s.cache, k, s.now);
    assert asked.calls[c] == Collecting(keys, s.now, wanted, map[]);
    AnswersCollected(ttls, asked, c, keys, answer, keys, s.now, wanted);
    WrittenIsWrittenBack(ttls, s.cache, keys, answer, s.now, wanted);
    WriteAndRead(ttls, AnsweredAll(ttls, asked, c, keys, answer), c);
  }

  /** What the collected answers write back is what the sequential loop writes back. */
  lemma WrittenIsWrittenBack(
    ttls: Ttls, cache: Cache, keys: seq<Key>, answer: Key -> Answer, now: Time, wanted: set<Key>)
    requires wanted == set k | k in keys && !IsFreshHit(ttls, cache, k, now)
    ensures cache + Written(map k | k in wanted && k in keys :: answer(k), now) ==
            BatchRates(ttls, cache, keys, keys, answer, now).0
  {
    var answers := map k | k in wanted && k in keys :: answer(k);
    var a, b := cache + Written(answers, now), BatchRates(ttls, cache, keys, keys, answer, now).0;
    forall k: Key
      ensures Lookup(a, k) == Lookup(b, k)
    {
      BatchCache(ttls, cache, keys, answer, now, k);
    }
    SameLookups(a, b);
  }

  lemma WriteAndRead(ttls: Ttls, s: System, c: nat)
    requires c in s.calls && s.calls[c].Collecting? && s.calls[c].wanted <= s.calls[c].answers.Keys
    ensures var t := Step(ttls, Step(ttls, s, Advance(c)), Advance(c));
            var Collecting(keys, start, _, answers) := s.calls[c];
            && t.cache == s.cache + Written(answers, start)
            && c !in t.calls && c in t.replies && t.replies[c] == ReadAll(ttls, t.cache, keys, start)
  {
    var s1 := Step(ttls, s, Advance(c));
    assert s1.calls[c] == Reading(s.calls[c].keys, s.calls[c].start);
  }

  // ---------------------------------------------------------------- the invariant

  /** The same rate, whatever its flag. */
  predicate SameRate(a: Rate, b: Rate) {
    a.(isStale := false) == b.(isStale := false)
  }

  /** The provider gave this rate for this key between the two instants. */
  ghost predicate WasProvided(provided: seq<Provided>, key: Key, rate: Rate, from: Time, to: Time) {
    exists i | 0 <= i < |provided| ::
      provided[i].key == key && SameRate(provided[i].rate, rate) && from <= provided[i].at <= to
  }

  ghost predicate CacheOk(s: System) {
    forall k | k in s.cache :: WasProvided(s.provided, k, s.cache[k].rate, s.cache[k].cachedAt, s.now)
  }

  ghost predicate CallOk(s: System, call: Call) {
    && call.start <= s.now
    && match call
       case Answered(key, start, Some(rate)) => WasProvided(s.provided, key, rate, start, s.now)
       case Collecting(_, start, _, answers) =>
         forall k | k in answers && answers[k].Some? :: WasProvided(s.provided, k, answers[k].value, start, s.now)
       case _ => true
  }

  /** What every served rate satisfies. */
  ghost predicate ServedOk(ttls: Ttls, provided: seq<Provided>, v: Served) {
    && WasProvided(provided, v.key, v.rate, v.cachedAt, v.at)
    && v.start <= v.at
    && v.start - v.cachedAt < ttls.Stale()
    && (!v.rate.isStale ==> v.start - v.cachedAt < ttls.Fresh())
  }

  ghost predicate Inv(ttls: Ttls, s: System) {
    && CacheOk(s)
    && (forall c | c in s.calls :: CallOk(s, s.calls[c]))
    && (forall i | 0 <= i < |s.served| :: ServedOk(ttls, s.provided, s.served[i]))
  }

  // ---------------------------------------------------------------- what every step keeps

  ghost predicate Grows(s: System, t: System) {
    s.now <= t.now && s.provided <= t.provided
  }

  lemma ProvidedStays(p: seq<Provided>, q: seq<Provided>, key: Key, rate: Rate, from: Time, to: Time, later: Time)
    requires WasProvided(p, key, rate, from, to) && p <= q && to <= later
    ensures WasProvided(q, key, rate, from, later)
  {
    var i :| 0 <= i < |p| && p[i].key == key && SameRate(p[i].rate, rate) && from <= p[i].at <= to;
    assert q[i] == p[i];
  }

  lemma CacheStaysOk(s: System, t: System)
    requires CacheOk(s) && Grows(s, t) && t.cache == s.cache
    ensures CacheOk(t)
  {
    forall k | k in t.cache
      ensures WasProvided(t.provided, k, t.cache[k].rate, t.cache[k].cachedAt, t.now)
    {
      ProvidedStays(s.provided, t.provided, k, t.cache[k].rate, t.cache[k].cachedAt, s.now, t.now);
    }
  }

  lemma CallStaysOk(s: System, t: System, call: Call)
    requires CallOk(s, call) && Grows(s, t)
    ensures CallOk(t, call)
  {
    match call {
      case Answered(key, start, Some(rate)) =>
        ProvidedStays(s.provided, t.provided, key, rate, start, s.now, t.now);
      case Collecting(_, start, _, answers) =>
        forall k | k in answers && answers[k].Some?
          ensures WasProvided(t.provided, k, answers[k].value, start, t.now)
        {
          ProvidedStays(s.provided, t.provided, k, answers[k].value, start, s.now, t.now);
        }
      case _ =>
    }
  }

  lemma ServedStaysOk(ttls: Ttls, p: seq<Provided>, q: seq<Provided>, v: Served)
    requires ServedOk(ttls, p, v) && p <= q
    ensures ServedOk(ttls, q, v)
  {
    ProvidedStays(p, q, v.key, v.rate, v.cachedAt, v.at, v.at);
  }

  /** The shared part of all steps: at most call `c` changed, and what was served on top is as it should be. */
  lemma StepKeeps(ttls: Ttls, s: System, t: System, c: int, served: seq<Served>)
    requires Inv(ttls, s) && Grows(s, t) && CacheOk(t)
    requires forall d | d in t.calls && d != c :: d in s.calls && t.calls[d] == s.calls[d]
    requires c in t.calls ==> CallOk(t, t.calls[c])
    requires t.served == s.served + served
    requires forall i | 0 <= i < |served| :: ServedOk(ttls, t.provided, served[i])
    ensures Inv(ttls, t)
  {
    forall d | d in t.calls
      ensures CallOk(t, t.calls[d])
    {
      if d != c {
        CallStaysOk(s, t, s.calls[d]);
      }
    }
    forall i | 0 <= i < |t.served|
      ensures ServedOk(ttls, t.provided, t.served[i])
    {
      if i < |s.served| {
        ServedStaysOk(ttls, s.provided, t.provided, s.served[i]);
      } else {
        assert t.served[i] == served[i - |s.served|];
      }
    }
  }

  /** A cached entry may be served under either flag while its age fits the flag. */
  lemma CachedIsServedOk(ttls: Ttls, s: System, k: Key, start: Time, stale: bool)
    requires CacheOk(s) && k in s.cache && start <= s.now
    requires start - s.cache[k].cachedAt < ttls.Stale()
    requires !stale ==> start - s.cache[k].cachedAt < ttls.Fresh()
    ensures ServedOk(ttls, s.provided, Served(k, s.cache[k].rate.(isStale := stale), start, s.cache[k].cachedAt, s.now))
  {
    var i :| 0 <= i < |s.provided| && s.provided[i].key == k && SameRate(s.provided[i].rate, s.cache[k].rate) &&
             s.cache[k].cachedAt <= s.provided[i].at <= s.now;
    assert SameRate(s.provided[i].rate, s.cache[k].rate.(isStale := stale));
  }

  lemma {:induction false} SlotsAreServedOk(ttls: Ttls, s: System, keys: seq<Key>, start: Time)
    requires CacheOk(s) && start <= s.now
    ensures forall i | 0 <= i < |ServedSlots(ttls, s.cache, keys, start, s.now)| ::
              ServedOk(ttls, s.provided, ServedSlots(ttls, s.cache, keys, start, s.now)[i])
  {
    if keys != [] {
      SlotsAreServedOk(ttls, s, keys[..|keys| - 1], start);
      var k := keys[|keys| - 1];
      if k in s.cache && start - s.cache[k].cachedAt < ttls.Stale() {
        CachedIsServedOk(ttls, s, k, start, start - s.cache[k].cachedAt >= ttls.Fresh());
      }
    }
  }

  lemma NewAnswer(s: System, key: Key, answer: Answer, start: Time)
    requires start <= s.now
    ensures var provided := WithAnswer(s.provided, key, answer, s.now);
            && s.provided <= provided
            && (answer.Some? ==> WasProvided(provided, key, answer.value, start, s.now))
  {
    if answer.Some? {
      var provided := WithAnswer(s.provided, key, answer, s.now);
      assert provided[|s.provided|] == Provided(key, answer.value, s.now);
    }
  }

  lemma FetchAnswered(ttls: Ttls, s: System, c: nat, key: Key, answer: Answer, start: Time)
    requires Inv(ttls, s) && c in s.calls && s.calls[c] == Fetching(key, start)
    ensures Inv(ttls, AnswerCall(s, c, key, answer))
  {
    var t := AnswerCall(s, c, key, answer);
    assert CallOk(s, s.calls[c]);
    NewAnswer(s, key, answer, start);
    CacheStaysOk(s, t);
    StepKeeps(ttls, s, t, c, []);
  }

  lemma AnswerCollected(ttls: Ttls, s: System, c: nat, key: Key, answer: Answer)
    requires Inv(ttls, s) && c in s.calls && s.calls[c].Collecting?
    requires key in s.calls[c].wanted && key !in s.calls[c].answers
    ensures Inv(ttls, AnswerCall(s, c, key, answer))
  {
    var t := AnswerCall(s, c, key, answer);
    assert CallOk(s, s.calls[c]);
    NewAnswer(s, key, answer, s.calls[c].start);
    CacheStaysOk(s, t);
    CallStaysOk(s, t, s.calls[c]);
    StepKeeps(ttls, s, t, c, []);
  }

  lemma AnswerKeepsInv(ttls: Ttls, s: System, c: nat, key: Key, answer: Answer)
    requires Inv(ttls, s) && c in s.calls
    ensures Inv(ttls, AnswerCall(s, c, key, answer))
  {
    match s.calls[c] {
      case Fetching(k, start) =>
        if k == key {
          FetchAnswered(ttls, s, c, key, answer, start);
        }
      case Collecting(_, _, wanted, answers) =>
        if key in wanted && key !in answers {
          AnswerCollected(ttls, s, c, key, answer);
        }
      case _ =>
    }
  }

  lemma WriteKeepsCache(s: System, t: System, answers: map<Key, Answer>, start: Time)
    requires CacheOk(s) && t.provided == s.provided && t.now == s.now && t.cache == s.cache + Written(answers, start)
    requires forall k | k in answers && answers[k].Some? :: WasProvided(s.provided, k, answers[k].value, start, s.now)
    ensures CacheOk(t)
  {
  }

  lemma FinishKeepsInv(ttls: Ttls, s: System, c: nat, served: seq<Served>, reply: seq<Option<Rate>>)
    requires Inv(ttls, s) && forall i | 0 <= i < |served| :: ServedOk(ttls, s.provided, served[i])
    ensures Inv(ttls, Finish(s, c, served, reply))
  {
    StepKeeps(ttls, s, Finish(s, c, served, reply), c, served);
  }

  lemma CheckKeepsInv(ttls: Ttls, s: System, c: nat, key: Key, start: Time)
    requires Inv(ttls, s) && ttls.Ordered() && c in s.calls && s.calls[c] == Checking(key, start)
    ensures Inv(ttls, AdvanceCall(ttls, s, c))
  {
    assert CallOk(s, s.calls[c]);
    if IsFreshHit(ttls, s.cache, key, start) {
      var v := Served(key, s.cache[key].rate.(isStale := false), start, s.cache[key].cachedAt, s.now);
      CachedIsServedOk(ttls, s, key, start, false);
      FinishKeepsInv(ttls, s, c, [v], [Some(v.rate)]);
    } else {
      StepKeeps(ttls, s, s.(calls := s.calls[c := Fetching(key, start)]), c, []);
    }
  }

  lemma StoreKeepsInv(ttls: Ttls, s: System, c: nat, key: Key, start: Time, rate: Rate)
    requires Inv(ttls, s) && ttls.Ordered() && c in s.calls && s.calls[c] == Answered(key, start, Some(rate))
    ensures Inv(ttls, AdvanceCall(ttls, s, c))
  {
    assert CallOk(s, s.calls[c]);
    StepKeeps(ttls, s, AdvanceCall(ttls, s, c), c, [Served(key, rate, start, start, s.now)]);
  }

  lemma FallbackKeepsInv(ttls: Ttls, s: System, c: nat, key: Key, start: Time)
    requires Inv(ttls, s) && c in s.calls && s.calls[c] == Answered(key, start, None)
    ensures Inv(ttls, AdvanceCall(ttls, s, c))
  {
    assert CallOk(s, s.calls[c]);
    if key in s.cache && start - s.cache[key].cachedAt < ttls.Stale() {
      var v := Served(key, s.cache[key].rate.(isStale := true), start, s.cache[key].cachedAt, s.now);
      CachedIsServedOk(ttls, s, key, start, true);
      FinishKeepsInv(ttls, s, c, [v], [Some(v.rate)]);
    } else {
      FinishKeepsInv(ttls, s, c, [], [None]);
    }
  }

  lemma SingleKeepsInv(ttls: Ttls, s: System, c: nat)
    requires Inv(ttls, s) && ttls.Ordered() && c in s.calls
    requires s.calls[c].Checking? || s.calls[c].Answered?
    ensures Inv(ttls, AdvanceCall(ttls, s, c))
  {
    match s.calls[c] {
      case Checking(key, start) => CheckKeepsInv(ttls, s, c, key, start);
      case Answered(key, start, Some(rate)) => StoreKeepsInv(ttls, s, c, key, start, rate);
      case Answered(key, start, None) => FallbackKeepsInv(ttls, s, c, key, start);
    }
  }

  lemma BatchKeepsInv(ttls: Ttls, s: System, c: nat)
    requires Inv(ttls, s) && c in s.calls && (s.calls[c].Filtering? || s.calls[c].Collecting? || s.calls[c].Reading?)
    ensures Inv(ttls, AdvanceCall(ttls, s, c))
  {
    var t := AdvanceCall(ttls, s, c);
    var call := s.calls[c];
    assert CallOk(s, call);
    match call {
      case Filtering(_, _) =>
        StepKeeps(ttls, s, t, c, []);
      case Collecting(_, start, wanted, answers) =>
        if wanted <= answers.Keys {
          WriteKeepsCache(s, t, answers, start);
          StepKeeps(ttls, s, t, c, []);
        }
      case Reading(keys, start) =>
        SlotsAreServedOk(ttls, s, keys, start);
        StepKeeps(ttls, s, t, c, ServedSlots(ttls, s.cache, keys, start, s.now));
    }
  }

  lemma StepKeepsInv(ttls: Ttls, s: System, a: Action)
    requires Inv(ttls, s) && ttls.Ordered()
    ensures Inv(ttls, Step(ttls, s, a))
  {
    match a {
      case Tick(_) =>
        CacheStaysOk(s, Step(ttls, s, a));
        StepKeeps(ttls, s, Step(ttls, s, a), -1, []);
      case StartSingle(c, _) =>
        if c !in s.calls {
          StepKeeps(ttls, s, Step(ttls, s, a), c, []);
        }
      case StartBatch(c, _) =>
        if c !in s.calls {
          StepKeeps(ttls, s, Step(ttls, s, a), c, []);
        }
      case ProviderAnswers(c, key, answer) =>
        if c in s.calls {
          AnswerKeepsInv(ttls, s, c, key, answer);
        }
      case Advance(c) =>
        if c in s.calls && !s.calls[c].Fetching? {
          if s.calls[c].Checking? || s.calls[c].Answered? {
            SingleKeepsInv(ttls, s, c);
          } else {
            BatchKeepsInv(ttls, s, c);
          }
        }
    }
  }

  lemma {:induction false} EveryScheduleKeepsInv(ttls: Ttls, schedule: seq<Action>)
    requires ttls.Ordered()
    ensures Inv(ttls, After(ttls, schedule))
  {
    if schedule != [] {
      EveryScheduleKeepsInv(ttls, schedule[..|schedule| - 1]);
      StepKeepsInv(ttls, After(ttls, schedule[..|schedule| - 1]), schedule[|schedule| - 1]);
    }
  }

  /**
    Every rate any call was ever given was answered by the provider for that same market, and not earlier than the
    cache says: at the start of the call its true age was at most its recorded age, which is below the stale window,
    and when it was handed out the true age had grown by no more than the call itself took.  An unflagged rate is
    inside the fresh window.
   */
  lemma {:induction false} ServedRatesAreGenuineAndRecent(ttls: Ttls, schedule: seq<Action>, n: nat)
    requires ttls.Ordered() && n < |After(ttls, schedule).served|
    ensures var v := After(ttls, schedule).served[n];
            && (exists i | 0 <= i < |After(ttls, schedule).provided| ::
                  var p := After(ttls, schedule).provided[i];
                  && p.key == v.key && SameRate(p.rate, v.rate) && p.at <= v.at
                  && v.start - p.at <= v.start - v.cachedAt < ttls.Stale()
                  && v.at - p.at <= (v.start - v.cachedAt) + (v.at - v.start))
            && (!v.rate.isStale ==> v.start - v.cachedAt < ttls.Fresh())
  {
    EveryScheduleKeepsInv(ttls, schedule);
    var s := After(ttls, schedule);
    assert ServedOk(ttls, s.provided, s.served[n]);
  }
}
