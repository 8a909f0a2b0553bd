/** Claude's model manifest: newest wins, and how fetches are paced (crates/agent/src/claude_manifest.rs). */
module Manifest {
  import opened Text

  type Body = string

  /** A decoded catalog: its edit date and everything else it holds. */
  datatype Catalog = Catalog(updatedAt: Option<string>, models: string)

  const TTL_MS: nat := 60 * 60 * 1000
  const RETRY_MS: nat := 5 * 60 * 1000

  // ---------------------------------------------------------------- dates

  /** Lexicographic order on strings. */
  predicate StringLeq(a: string, b: string) {
    a == [] || (b != [] && (a[0] < b[0] || (a[0] == b[0] && StringLeq(a[1..], b[1..]))))
  }

  /** An undated manifest is older than any dated one. */
  predicate DateLeq(a: Option<string>, b: Option<string>) {
    a.None? || (b.Some? && StringLeq(a.value, b.value))
  }

  lemma {:induction false} StringOrder(a: string, b: string, c: string)
    ensures StringLeq(a, a)
    ensures StringLeq(a, b) || StringLeq(b, a)
    ensures StringLeq(a, b) && StringLeq(b, a) ==> a == b
    ensures StringLeq(a, b) && StringLeq(b, c) ==> StringLeq(a, c)
  {
    if a != [] {
      StringOrder(a[1..], if b == [] then [] else b[1..], if c == [] then [] else c[1..]);
      assert b != [] && a[0] == b[0] && a[1..] == b[1..] ==> a == b;
    }
  }

  lemma DateOrder(a: Option<string>, b: Option<string>, c: Option<string>)
    ensures DateLeq(a, a)
    ensures DateLeq(a, b) || DateLeq(b, a)
    ensures DateLeq(a, b) && DateLeq(b, a) ==> a == b
    ensures DateLeq(a, b) && DateLeq(b, c) ==> DateLeq(a, c)
  {
    StringOrder(if a.Some? then a.value else [], if b.Some? then b.value else [], if c.Some? then c.value else []);
  }

  // ---------------------------------------------------------------- specification

  datatype Response = Response(etag: string, body: Body)

  datatype State = State(catalog: Catalog, fetchedAt: Option<nat>, lastAttempt: Option<nat>, diskLoaded: bool,
                         responses: map<string, Response>)

  function Initial(bundled: Catalog): State {
    State(bundled, None, None, false, map[])
  }

  datatype CacheFile = CacheFile(fetchedAt: nat, manifest: Body)

  /** What a fetch came to: the manifest adopted, a valid but older one, or an error. */
  datatype Fetched = Adopted(manifest: Body) | Older | Error

  datatype Reply = Failure | NotModified | TooLarge | Full(body: Body, etag: Option<string>)

  type Decoder = Body -> Option<Catalog>

  function CacheLoaded(s: State, cache: Option<CacheFile>, decode: Decoder): State {
    if s.diskLoaded then s
    else
      var marked := s.(diskLoaded := true);
      if cache.None? || decode(cache.value.manifest).None? then marked
      else
        var catalog := decode(cache.value.manifest).value;
        if DateLeq(s.catalog.updatedAt, catalog.updatedAt)
        then marked.(catalog := catalog, fetchedAt := Some(cache.value.fetchedAt)) else marked
  }

  predicate Within(now: nat, since: Option<nat>, window: nat) {
    since.Some? && now >= since.value && now - since.value < window
  }

  predicate Due(s: State, now: nat, network: bool) {
    network && !Within(now, s.fetchedAt, TTL_MS) && !Within(now, s.lastAttempt, RETRY_MS)
  }

  function Begun(s: State, now: nat, network: bool): State {
    if Due(s, now, network) then s.(lastAttempt := Some(now)) else s
  }

  function Installed(s: State, now: nat, body: Body, decode: Decoder): (State, Fetched) {
    var catalog := decode(body);
    if catalog.None? then (s, Error)
    else if DateLeq(s.catalog.updatedAt, catalog.value.updatedAt)
    then (s.(fetchedAt := Some(now), catalog := catalog.value), Adopted(body))
    else (s.(fetchedAt := Some(now)), Older)
  }

  function Answered(s: State, url: string, now: nat, reply: Reply, decode: Decoder): (State, Fetched) {
    match reply
    case Failure => (s, Error)
    case TooLarge => (s, Error)
    case NotModified => if url in s.responses then Installed(s, now, s.responses[url].body, decode) else (s, Error)
    case Full(body, etag) =>
      var (installed, fetched) := Installed(s, now, body, decode);
      if fetched.Error? then (installed, fetched)
      else if etag.Some? then (installed.(responses := installed.responses[url := Response(etag.value, body)]), fetched)
      else (installed.(responses := installed.responses - {url}), fetched)
  }

  // ---------------------------------------------------------------- the state object

  class ManifestState {
    var catalog: Catalog
    var fetchedAt: Option<nat>
    var lastAttempt: Option<nat>
    var diskLoaded: bool
    var responses: map<string, Response>
    const decode: Decoder

    constructor (bundled: Catalog, decode: Decoder)
      ensures View() == Initial(bundled) && this.decode == decode
    {
      catalog, fetchedAt, lastAttempt, diskLoaded, responses := bundled, None, None, false, map[];
      this.decode := decode;
    }

    function View(): State
      reads this
    {
      State(catalog, fetchedAt, lastAttempt, diskLoaded, responses)
    }

    method LoadCache(cache: Option<CacheFile>)
      modifies this
      ensures View() == CacheLoaded(old(View()), cache, decode)
    {
      if diskLoaded {
        return;
      }
      diskLoaded := true;
      if cache.Some? {
        var loaded := decode(cache.value.manifest);
        if loaded.Some? && DateLeq(catalog.updatedAt, loaded.value.updatedAt) {
          catalog := loaded.value;
          fetchedAt := Some(cache.value.fetchedAt);
        }
      }
    }

    method BeginFetch(now: nat, network: bool) returns (due: bool)
      modifies this`lastAttempt
      ensures due == Due(old(View()), now, network)
      ensures View() == Begun(old(View()), now, network)
    {
      due := network && !Within(now, fetchedAt, TTL_MS) && !Within(now, lastAttempt, RETRY_MS);
      if due {
        lastAttempt := Some(now);
      }
    }

    method Install(now: nat, body: Body) returns (fetched: Fetched)
      modifies this`catalog, this`fetchedAt
      ensures (View(), fetched) == Installed(old(View()), now, body, decode)
    {
      var decoded := decode(body);
      if decoded.None? {
        return Error;
      }
      fetchedAt := Some(now);
      if !DateLeq(catalog.updatedAt, decoded.value.updatedAt) {
        return Older;
      }
      catalog := decoded.value;
      return Adopted(body);
    }

    method Fetch(url: string, now: nat, reply: Reply) returns (fetched: Fetched)
      modifies this
      ensures (View(), fetched) == Answered(old(View()), url, now, reply, decode)
    {
      match reply {
        case Failure => fetched := Error;
        case TooLarge => fetched := Error;
        case NotModified =>
          if url in responses {
            fetched := Install(now, responses[url].body);
          } else {
            fetched := Error;
          }
        case Full(body, etag) =>
          fetched := Install(now, body);
          if fetched.Error? {
            return;
          }
          if etag.Some? {
            responses := responses[url := Response(etag.value, body)];
          } else {
            responses := responses - {url};
          }
      }
    }

    /** One refresh: the cache once, then every source in turn; the answer is what is written to the cache. */
    method Refresh(now: nat, hasCacheDir: bool, cache: Option<CacheFile>, network: bool, replies: seq<(string, Reply)>)
      returns (written: Option<CacheFile>)
      modifies this
      ensures (View(), written) == Refreshed(old(View()), Round(now, hasCacheDir, cache, network, replies), decode)
    {
      if hasCacheDir {
        LoadCache(cache);
      }
      var due := BeginFetch(now, network);
      if !due {
        return None;
      }
      var newest: Option<Body> := None;
      ghost var start := View();
      assert replies[..0] == [];
      for i := 0 to |replies|
        invariant (View(), newest) == Sourced(start, now, replies[..i], decode)
      {
        assert replies[..i + 1][..i] == replies[..i];
        var fetched := Fetch(replies[i].0, now, replies[i].1);
        if fetched.Adopted? {
          newest := Some(fetched.manifest);
        }
      }
      assert replies[..|replies|] == replies;
      written := if newest.Some? && hasCacheDir then Some(CacheFile(now, newest.value)) else None;
    }
  }

  /** One refresh: when it ran, the disk cache it could see, and what each source replied. */
  datatype Round = Round(now: nat, hasCacheDir: bool, cache: Option<CacheFile>, network: bool, replies: seq<(string, Reply)>)

  /** All sources of one round, and the last manifest adopted. */
  function Sourced(s: State, now: nat, replies: seq<(string, Reply)>, decode: Decoder): (State, Option<Body>) {
    if replies == [] then (s, None)
    else
      var (before, newest) := Sourced(s, now, replies[..|replies| - 1], decode);
      var (after, fetched) := Answered(before, replies[|replies| - 1].0, now, replies[|replies| - 1].1, decode);
      (after, if fetched.Adopted? then Some(fetched.manifest) else newest)
  }

  function Opened(s: State, r: Round, decode: Decoder): State {
    if r.hasCacheDir then CacheLoaded(s, r.cache, decode) else s
  }

  function Refreshed(s: State, r: Round, decode: Decoder): (State, Option<CacheFile>) {
    var loaded := Opened(s, r, decode);
    if !Due(loaded, r.now, r.network) then (loaded, None)
    else
      var (after, newest) := Sourced(Begun(loaded, r.now, r.network), r.now, r.replies, decode);
      (after, if newest.Some? && r.hasCacheDir then Some(CacheFile(r.now, newest.value)) else None)
  }

  // ---------------------------------------------------------------- newest wins

  /** Bodies installed one after the other, at any times. */
  function InstallAll(s: State, bodies: seq<(nat, Body)>, decode: Decoder): State {
    if bodies == [] then s
    else
      var last := bodies[|bodies| - 1];
      Installed(InstallAll(s, bodies[..|bodies| - 1], decode), last.0, last.1, decode).0
  }

  /** The catalogs that competed: the one in effect first, then every valid body's. */
  function Candidates(start: Catalog, bodies: seq<(nat, Body)>, decode: Decoder): (r: seq<Catalog>)
    ensures r != []
  {
    if bodies == [] then [start]
    else
      var before, catalog := Candidates(start, bodies[..|bodies| - 1], decode), decode(bodies[|bodies| - 1].1);
      if catalog.Some? then before + [catalog.value] else before
  }

  /** The last candidate among those with the newest date. */
  ghost predicate LastNewest(candidates: seq<Catalog>, k: nat) {
    && k < |candidates|
    && (forall i :: 0 <= i < k ==> DateLeq(candidates[i].updatedAt, candidates[k].updatedAt))
    && (forall i :: k < i < |candidates| ==> !DateLeq(candidates[k].updatedAt, candidates[i].updatedAt))
  }

  /**
   * After any installs the catalog in effect is the last candidate with the newest date, so
   * older and invalid bodies never replace anything.
   */
  lemma {:induction false} NewestWins(s: State, bodies: seq<(nat, Body)>, decode: Decoder) returns (k: nat)
    ensures var candidates := Candidates(s.catalog, bodies, decode);
      LastNewest(candidates, k) && InstallAll(s, bodies, decode).catalog == candidates[k]
  {
    if bodies == [] {
      k := 0;
    } else {
      var init, last := bodies[..|bodies| - 1], bodies[|bodies| - 1];
      k := NewestWins(s, init, decode);
      var before := Candidates(s.catalog, init, decode);
      if decode(last.1).Some? {
        var catalog := decode(last.1).value;
        if DateLeq(before[k].updatedAt, catalog.updatedAt) {
          forall i | 0 <= i < |before| ensures DateLeq(before[i].updatedAt, catalog.updatedAt) {
            DateOrder(before[i].updatedAt, before[k].updatedAt, catalog.updatedAt);
          }
          k := |before|;
        }
      }
    }
  }

  /** The date in effect is the greatest of all candidates' dates. */
  lemma DateIsMaximum(s: State, bodies: seq<(nat, Body)>, decode: Decoder)
    ensures var date := InstallAll(s, bodies, decode).catalog.updatedAt;
      var candidates := Candidates(s.catalog, bodies, decode);
      && (exists i :: 0 <= i < |candidates| && candidates[i].updatedAt == date)
      && (forall i :: 0 <= i < |candidates| ==> DateLeq(candidates[i].updatedAt, date))
  {
    var k := NewestWins(s, bodies, decode);
    var candidates := Candidates(s.catalog, bodies, decode);
    forall i | 0 <= i < |candidates| ensures DateLeq(candidates[i].updatedAt, candidates[k].updatedAt) {
      DateOrder(candidates[i].updatedAt, candidates[k].updatedAt, None);
    }
  }

  function Bodies(installs: seq<(nat, Body)>): (r: seq<Body>)
    ensures |r| == |installs|
    ensures forall i :: 0 <= i < |installs| ==> r[i] == installs[i].1
  {
    seq(|installs|, i requires 0 <= i < |installs| => installs[i].1)
  }

  /** A catalog competes exactly if it was in effect at first or a body installed decodes to it. */
  lemma {:induction false} CandidatesAre(start: Catalog, installs: seq<(nat, Body)>, decode: Decoder, catalog: Catalog)
    ensures catalog in Candidates(start, installs, decode)
       <==> catalog == start || exists body :: body in Bodies(installs) && decode(body) == Some(catalog)
  {
    if installs != [] {
      var init, last := installs[..|installs| - 1], installs[|installs| - 1].1;
      CandidatesAre(start, init, decode, catalog);
      assert Bodies(installs) == Bodies(init) + [last];
      assert forall body :: body in Bodies(installs) <==> body in Bodies(init) || body == last;
    }
  }

  /** The same bodies in any other order, at any other times, leave the same date in effect. */
  lemma OrderDoesNotMatter(s: State, a: seq<(nat, Body)>, b: seq<(nat, Body)>, decode: Decoder)
    requires multiset(Bodies(a)) == multiset(Bodies(b))
    ensures InstallAll(s, a, decode).catalog.updatedAt == InstallAll(s, b, decode).catalog.updatedAt
  {
    DateReached(s, a, b, decode);
    DateReached(s, b, a, decode);
    DateOrder(InstallAll(s, a, decode).catalog.updatedAt, InstallAll(s, b, decode).catalog.updatedAt, None);
  }

  /** The date one order leaves in effect competes in the other as well. */
  lemma DateReached(s: State, a: seq<(nat, Body)>, b: seq<(nat, Body)>, decode: Decoder)
    requires multiset(Bodies(a)) == multiset(Bodies(b))
    ensures DateLeq(InstallAll(s, a, decode).catalog.updatedAt, InstallAll(s, b, decode).catalog.updatedAt)
  {
    DateIsMaximum(s, a, decode);
    DateIsMaximum(s, b, decode);
    var x, y := Candidates(s.catalog, a, decode), Candidates(s.catalog, b, decode);
    var i :| 0 <= i < |x| && x[i].updatedAt == InstallAll(s, a, decode).catalog.updatedAt;
    CandidatesAre(s.catalog, a, decode, x[i]);
    CandidatesAre(s.catalog, b, decode, x[i]);
    if x[i] != s.catalog {
      var body :| body in Bodies(a) && decode(body) == Some(x[i]);
      assert body in multiset(Bodies(b));
    }
    var j :| 0 <= j < |y| && y[j] == x[i];
  }

  // ---------------------------------------------------------------- one round

  lemma AnsweredForward(s: State, url: string, now: nat, reply: Reply, decode: Decoder)
    ensures var (after, fetched) := Answered(s, url, now, reply, decode);
      && DateLeq(s.catalog.updatedAt, after.catalog.updatedAt)
      && (fetched.Adopted? ==> decode(fetched.manifest) == Some(after.catalog))
      && (!fetched.Adopted? ==> after.catalog == s.catalog)
      && (fetched.Error? ==> after == s)
      && (!fetched.Error? ==> after.fetchedAt == Some(now))
      && after.lastAttempt == s.lastAttempt && after.diskLoaded == s.diskLoaded
  {
    DateOrder(s.catalog.updatedAt, s.catalog.updatedAt, None);
  }

  /** Some source of the round gave a valid manifest, adopted or not. */
  predicate Good(s: State, now: nat, replies: seq<(string, Reply)>, decode: Decoder) {
    replies != [] &&
    (Good(s, now, replies[..|replies| - 1], decode)
     || !Answered(Sourced(s, now, replies[..|replies| - 1], decode).0, replies[|replies| - 1].0, now,
                  replies[|replies| - 1].1, decode).1.Error?)
  }

  /**
   * A round ends with the catalog it adopted last, which is the one in effect; a round that
   * adopted none leaves the catalog alone, and only a good one moves the fetch time.
   */
  lemma {:induction false} SourcesInTurn(s: State, now: nat, replies: seq<(string, Reply)>, decode: Decoder)
    ensures var (after, newest) := Sourced(s, now, replies, decode);
      && DateLeq(s.catalog.updatedAt, after.catalog.updatedAt)
      && (newest.Some? ==> decode(newest.value) == Some(after.catalog))
      && (newest.None? ==> after.catalog == s.catalog)
      && after.fetchedAt == (if Good(s, now, replies, decode) then Some(now) else s.fetchedAt)
      && after.lastAttempt == s.lastAttempt && after.diskLoaded == s.diskLoaded
  {
    if replies == [] {
      DateOrder(s.catalog.updatedAt, s.catalog.updatedAt, None);
    } else {
      var n := |replies| - 1;
      SourcesInTurn(s, now, replies[..n], decode);
      var before := Sourced(s, now, replies[..n], decode).0;
      AnsweredForward(before, replies[n].0, now, replies[n].1, decode);
      var after := Answered(before, replies[n].0, now, replies[n].1, decode).0;
      DateOrder(s.catalog.updatedAt, before.catalog.updatedAt, after.catalog.updatedAt);
    }
  }

  /**
   * What a round writes to the disk cache is the manifest in effect when it ends, stamped with
   * the round's time; a round with a cache directory that writes none has changed nothing.
   */
  lemma RoundCachesManifestInEffect(s: State, r: Round, decode: Decoder)
    ensures var (after, written) := Refreshed(s, r, decode);
      var loaded := Opened(s, r, decode);
      && (written.Some? ==> decode(written.value.manifest) == Some(after.catalog) && written.value.fetchedAt == r.now)
      && (written.None? && r.hasCacheDir ==> after.catalog == loaded.catalog)
      && DateLeq(loaded.catalog.updatedAt, after.catalog.updatedAt)
  {
    var loaded := Opened(s, r, decode);
    DateOrder(loaded.catalog.updatedAt, loaded.catalog.updatedAt, None);
    SourcesInTurn(Begun(loaded, r.now, r.network), r.now, r.replies, decode);
  }

  // ---------------------------------------------------------------- the cache and unchanged replies

  /** The cache is looked at once, and adopted with its time exactly if it is valid and at least as new. */
  lemma CacheIsAdoptedIfNew(s: State, cache: Option<CacheFile>, decode: Decoder)
    ensures var after := CacheLoaded(s, cache, decode);
      && after.diskLoaded
      && DateLeq(s.catalog.updatedAt, after.catalog.updatedAt)
      && (if !s.diskLoaded && cache.Some? && decode(cache.value.manifest).Some?
             && DateLeq(s.catalog.updatedAt, decode(cache.value.manifest).value.updatedAt)
          then Some(after.catalog) == decode(cache.value.manifest) && after.fetchedAt == Some(cache.value.fetchedAt)
          else after.catalog == s.catalog && after.fetchedAt == s.fetchedAt)
      && after.lastAttempt == s.lastAttempt && after.responses == s.responses
  {
    DateOrder(s.catalog.updatedAt, s.catalog.updatedAt, None);
  }

  /** Over whole runs the manifest in effect never goes back in date. */
  lemma DateNeverGoesBack(bundled: Catalog, rounds: seq<Round>, r: Round, decode: Decoder)
    ensures DateLeq(Rounds(bundled, rounds, decode).state.catalog.updatedAt,
                    Rounds(bundled, rounds + [r], decode).state.catalog.updatedAt)
  {
    assert (rounds + [r])[..|rounds|] == rounds;
    var s := Rounds(bundled, rounds, decode).state;
    var loaded, after := Opened(s, r, decode), Refreshed(s, r, decode).0;
    CacheIsAdoptedIfNew(s, r.cache, decode);
    DateOrder(s.catalog.updatedAt, s.catalog.updatedAt, None);
    RoundCachesManifestInEffect(s, r, decode);
    DateOrder(s.catalog.updatedAt, loaded.catalog.updatedAt, after.catalog.updatedAt);
  }

  /** Replies one after the other, from any sources at any times. */
  datatype Answer = Answer(url: string, now: nat, reply: Reply)

  function AnswerAll(s: State, answers: seq<Answer>, decode: Decoder): State {
    if answers == [] then s
    else
      var last := answers[|answers| - 1];
      Answered(AnswerAll(s, answers[..|answers| - 1], decode), last.url, last.now, last.reply, decode).0
  }

  /** The last valid manifest a source sent in full, if it came with an etag. */
  function LastTagged(answers: seq<Answer>, url: string, decode: Decoder): Option<Response> {
    if answers == [] then None
    else
      var last := answers[|answers| - 1];
      if last.url == url && last.reply.Full? && decode(last.reply.body).Some? then
        if last.reply.etag.Some? then Some(Response(last.reply.etag.value, last.reply.body)) else None
      else LastTagged(answers[..|answers| - 1], url, decode)
  }

  /** What is remembered of a source is the last valid manifest it sent in full, if that had an etag. */
  lemma {:induction false} RememberedIsLastTagged(bundled: Catalog, answers: seq<Answer>, url: string, decode: Decoder)
    ensures var responses := AnswerAll(Initial(bundled), answers, decode).responses;
      (if url in responses then Some(responses[url]) else None) == LastTagged(answers, url, decode)
  {
    if answers != [] {
      RememberedIsLastTagged(bundled, answers[..|answers| - 1], url, decode);
    }
  }

  /** An unchanged reply is as good as that manifest sent again, and an error if there is none. */
  lemma UnchangedIsSentAgain(bundled: Catalog, answers: seq<Answer>, url: string, now: nat, decode: Decoder)
    ensures var s, last := AnswerAll(Initial(bundled), answers, decode), LastTagged(answers, url, decode);
      Answered(s, url, now, NotModified, decode)
      == if last.Some? then Answered(s, url, now, Full(last.value.body, Some(last.value.etag)), decode) else (s, Error)
  {
    RememberedIsLastTagged(bundled, answers, url, decode);
    var s := AnswerAll(Initial(bundled), answers, decode);
    if url in s.responses {
      assert s.responses[url := Response(s.responses[url].etag, s.responses[url].body)] == s.responses;
    }
  }

  // ---------------------------------------------------------------- pacing

  datatype Paced = Paced(state: State, lastGranted: Option<nat>, lastGood: Option<nat>)

  function NextRound(p: Paced, r: Round, decode: Decoder): Paced {
    var loaded := Opened(p.state, r, decode);
    var after := Refreshed(p.state, r, decode).0;
    if !Due(loaded, r.now, r.network) then p.(state := after)
    else Paced(after, Some(r.now),
               if Good(Begun(loaded, r.now, r.network), r.now, r.replies, decode) then Some(r.now) else p.lastGood)
  }

  function Rounds(bundled: Catalog, rounds: seq<Round>, decode: Decoder): Paced {
    if rounds == [] then Paced(Initial(bundled), None, None)
    else NextRound(Rounds(bundled, rounds[..|rounds| - 1], decode), rounds[|rounds| - 1], decode)
  }

  /** The clock never runs backwards from round to round. */
  predicate Monotone(rounds: seq<Round>) {
    forall i, j :: 0 <= i < j < |rounds| ==> rounds[i].now <= rounds[j].now
  }

  /** The round opens the disk cache and adopts what it holds. */
  predicate AdoptsCache(s: State, r: Round, decode: Decoder) {
    && r.hasCacheDir && !s.diskLoaded && r.cache.Some? && decode(r.cache.value.manifest).Some?
    && DateLeq(s.catalog.updatedAt, decode(r.cache.value.manifest).value.updatedAt)
  }

  /**
   * A cache adopted only after a good fetch brings its own time: one that lies between that fetch
   * and the end of the current retry gap, unless the gap already outlasts the fetch's freshness.
   */
  predicate Harmless(p: Paced, r: Round, decode: Decoder) {
    p.lastGood.Some? && p.lastGranted.Some? && AdoptsCache(p.state, r, decode) ==>
      var gap := p.lastGranted.value + RETRY_MS;
      p.lastGood.value <= r.cache.value.fetchedAt <= gap || p.lastGood.value + TTL_MS <= gap
  }

  predicate AllHarmless(bundled: Catalog, rounds: seq<Round>, decode: Decoder) {
    rounds == [] ||
    (AllHarmless(bundled, rounds[..|rounds| - 1], decode)
     && Harmless(Rounds(bundled, rounds[..|rounds| - 1], decode), rounds[|rounds| - 1], decode))
  }

  /** From the last grant on, nothing is due before the last good fetch has gone stale. */
  ghost predicate Fresh(p: Paced, s: State) {
    p.lastGood.Some? && p.lastGranted.Some? ==>
      forall now: nat :: p.lastGranted.value <= now && Due(s, now, true) ==> p.lastGood.value + TTL_MS <= now
  }

  ghost predicate GrantInv(p: Paced, upTo: nat) {
    && p.state.lastAttempt == p.lastGranted
    && (p.lastGranted.Some? ==> p.lastGranted.value <= upTo)
    && (p.lastGood.Some? ==> p.lastGranted.Some? && p.lastGood.value <= p.lastGranted.value)
    && (p.lastGood.Some? && !p.state.diskLoaded ==> p.state.fetchedAt == p.lastGood)
  }

  lemma {:induction false} RoundsKeepGrants(bundled: Catalog, rounds: seq<Round>, decode: Decoder, upTo: nat)
    requires Monotone(rounds)
    requires forall i :: 0 <= i < |rounds| ==> rounds[i].now <= upTo
    ensures GrantInv(Rounds(bundled, rounds, decode), upTo)
  {
    if rounds != [] {
      var init, r := rounds[..|rounds| - 1], rounds[|rounds| - 1];
      RoundsKeepGrants(bundled, init, decode, r.now);
      var p := Rounds(bundled, init, decode);
      var loaded := Opened(p.state, r, decode);
      SourcesInTurn(Begun(loaded, r.now, r.network), r.now, r.replies, decode);
    }
  }

  /** Opening the cache leaves the last good fetch fresh exactly when it is harmless. */
  lemma OpenedIsFresh(p: Paced, r: Round, decode: Decoder, upTo: nat)
    requires GrantInv(p, upTo) && Fresh(p, p.state)
    ensures Fresh(p, Opened(p.state, r, decode)) <==> Harmless(p, r, decode)
  {
    if p.lastGood.Some? && AdoptsCache(p.state, r, decode) {
      var late, t := Opened(p.state, r, decode), r.cache.value.fetchedAt;
      var good, gap := p.lastGood.value, p.lastGranted.value + RETRY_MS;
      if !Harmless(p, r, decode) {
        var now := if t < good && t + TTL_MS >= gap then t + TTL_MS else gap;
        assert Due(late, now, true);
      }
    }
  }

  lemma RoundIsFresh(p: Paced, r: Round, decode: Decoder, upTo: nat)
    requires GrantInv(p, upTo) && Fresh(p, p.state) && Harmless(p, r, decode) && upTo <= r.now
    ensures Fresh(NextRound(p, r, decode), NextRound(p, r, decode).state)
  {
    OpenedIsFresh(p, r, decode, upTo);
    var loaded := Opened(p.state, r, decode);
    SourcesInTurn(Begun(loaded, r.now, r.network), r.now, r.replies, decode);
    if Due(loaded, r.now, r.network) && p.lastGood.Some? {
      assert p.lastGood.value + TTL_MS <= r.now;
    }
  }

  lemma {:induction false} RoundsStayFresh(bundled: Catalog, rounds: seq<Round>, decode: Decoder)
    requires Monotone(rounds) && AllHarmless(bundled, rounds, decode)
    ensures var p := Rounds(bundled, rounds, decode); Fresh(p, p.state)
  {
    if rounds != [] {
      var init, r := rounds[..|rounds| - 1], rounds[|rounds| - 1];
      RoundsStayFresh(bundled, init, decode);
      RoundsKeepGrants(bundled, init, decode, if init == [] then 0 else init[|init| - 1].now);
      RoundIsFresh(Rounds(bundled, init, decode), r, decode, if init == [] then 0 else init[|init| - 1].now);
    }
  }

  lemma MonotonePrefix(rounds: seq<Round>, r: Round)
    requires Monotone(rounds + [r])
    ensures Monotone(rounds) && forall i :: 0 <= i < |rounds| ==> rounds[i].now <= r.now
  {
    var all := rounds + [r];
    assert forall i :: 0 <= i < |rounds| ==> rounds[i] == all[i] && rounds[i].now <= all[|rounds|].now;
    assert forall i, j :: 0 <= i < j < |rounds| ==> all[i].now <= all[j].now;
  }

  /** No time, a time ahead of the clock, or one at least so long ago. */
  predicate Over(since: Option<nat>, now: nat, window: nat) {
    since.None? || now < since.value || since.value + window <= now
  }

  /**
   * And no fetch is put off for longer: with the network on, one is granted once the last grant
   * is RETRY_MS ago and the fetch time in effect TTL_MS ago, or either lies ahead of the clock.
   */
  lemma StaleIsFetched(bundled: Catalog, rounds: seq<Round>, r: Round, decode: Decoder)
    requires Monotone(rounds + [r])
    ensures var p := Rounds(bundled, rounds, decode);
      var loaded := Opened(p.state, r, decode);
      Due(loaded, r.now, r.network) <==> r.network && Over(loaded.fetchedAt, r.now, TTL_MS) && Over(p.lastGranted, r.now, RETRY_MS)
  {
    MonotonePrefix(rounds, r);
    RoundsKeepGrants(bundled, rounds, decode, r.now);
  }

  /** Under a monotone clock any two granted fetches are at least RETRY_MS apart. */
  lemma GrantsAreApart(bundled: Catalog, rounds: seq<Round>, r: Round, decode: Decoder)
    requires Monotone(rounds + [r])
    ensures var p := Rounds(bundled, rounds, decode);
      Due(Opened(p.state, r, decode), r.now, r.network) && p.lastGranted.Some? ==> r.now >= p.lastGranted.value + RETRY_MS
  {
    MonotonePrefix(rounds, r);
    RoundsKeepGrants(bundled, rounds, decode, r.now);
  }

  /**
   * Under a monotone clock, and while no late cache did harm, a fetch is granted only TTL_MS
   * after the last good one.
   */
  lemma GrantsAwaitStaleness(bundled: Catalog, rounds: seq<Round>, r: Round, decode: Decoder)
    requires Monotone(rounds + [r]) && AllHarmless(bundled, rounds + [r], decode)
    ensures var p := Rounds(bundled, rounds, decode);
      Due(Opened(p.state, r, decode), r.now, r.network) && p.lastGood.Some? ==> r.now >= p.lastGood.value + TTL_MS
  {
    assert (rounds + [r])[..|rounds|] == rounds;
    MonotonePrefix(rounds, r);
    RoundsKeepGrants(bundled, rounds, decode, r.now);
    RoundsStayFresh(bundled, rounds, decode);
    OpenedIsFresh(Rounds(bundled, rounds, decode), r, decode, r.now);
  }

  /**
   * The condition is exact: in any state reached so far without harm, opening the cache leaves no
   * fetch due too soon if and only if it is harmless.
   */
  lemma PaceLostIffHarmful(bundled: Catalog, rounds: seq<Round>, r: Round, decode: Decoder)
    requires Monotone(rounds + [r]) && AllHarmless(bundled, rounds, decode)
    ensures var p := Rounds(bundled, rounds, decode);
      Fresh(p, Opened(p.state, r, decode)) <==> Harmless(p, r, decode)
  {
    MonotonePrefix(rounds, r);
    RoundsKeepGrants(bundled, rounds, decode, r.now);
    RoundsStayFresh(bundled, rounds, decode);
    OpenedIsFresh(Rounds(bundled, rounds, decode), r, decode, r.now);
  }

  /** A run that looks at the cache in its first round never adopts one late. */
  lemma {:induction false} CacheFirstIsHarmless(bundled: Catalog, rounds: seq<Round>, decode: Decoder)
    requires rounds != [] ==> rounds[0].hasCacheDir
    ensures AllHarmless(bundled, rounds, decode)
    ensures rounds != [] ==> Rounds(bundled, rounds, decode).state.diskLoaded
  {
    if rounds != [] {
      var init, r := rounds[..|rounds| - 1], rounds[|rounds| - 1];
      assert init != [] ==> init[0] == rounds[0];
      CacheFirstIsHarmless(bundled, init, decode);
      var loaded := Opened(Rounds(bundled, init, decode).state, r, decode);
      SourcesInTurn(Begun(loaded, r.now, r.network), r.now, r.replies, decode);
    }
  }

  /**
   * A cache can do harm: a first round without a cache directory fetches well at ten hours, and
   * one retry gap later another opens a cache stamped five hours and is granted a fetch at once.
   */
  lemma HarmfulCacheArrives(bundled: Catalog, body: Body, url: string, decode: Decoder)
    requires decode(body) == Some(bundled)
    ensures var hour := 60 * 60 * 1000;
      var first := Round(10 * hour, false, None, true, [(url, Full(body, None))]);
      var second := Round(10 * hour + RETRY_MS, true, Some(CacheFile(5 * hour, body)), true, []);
      var p := Rounds(bundled, [first], decode);
      && Monotone([first, second]) && AllHarmless(bundled, [first], decode)
      && !Harmless(p, second, decode)
      && p.lastGood == Some(first.now)
      && Due(Opened(p.state, second, decode), second.now, second.network) && second.now < first.now + TTL_MS
  {
    var hour := 60 * 60 * 1000;
    var replies := [(url, Full(body, None))];
    var first := Round(10 * hour, false, None, true, replies);
    DateOrder(bundled.updatedAt, bundled.updatedAt, None);
    assert [first][..0] == [] && replies[..0] == [];
    var start := Begun(Initial(bundled), first.now, true);
    assert Sourced(start, first.now, [], decode) == (start, None);
    assert !Answered(start, url, first.now, Full(body, None), decode).1.Error?;
    assert Good(start, first.now, replies, decode);
    SourcesInTurn(start, first.now, replies, decode);
    assert Rounds(bundled, [], decode) == Paced(Initial(bundled), None, None);
    var p := NextRound(Rounds(bundled, [], decode), first, decode);
    assert Rounds(bundled, [first], decode) == p;
    assert p.state.catalog == bundled;
  }
}
