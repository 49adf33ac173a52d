/** Session validation against an upstream, with a cache that also serves as a
    fallback while the upstream is down. Calls interleave between looking in the
    cache and hearing from the upstream. */
module SessionCache {
  import opened Prelude
  import opened Cookies

  datatype AuthMethod = CookieAuth | BearerAuth

  datatype Principal = Principal(
    userId: string, email: Option<string>, orgId: Option<string>, roles: seq<string>, sessionId: string, method_: AuthMethod)

  datatype Credential = Cookie(header: string) | Bearer(token: string)

  /** The upstream's description of a live session. */
  datatype SessionData = SessionData(
    sessionId: string, sessionUserId: string, userId: string, email: Option<string>, role: Option<string>, orgId: Option<string>)

  datatype Reply =
    | SendFailed
    | Status(code: nat)          // answered, but not with success
    | Garbled                    // success, but not the expected JSON
    | NoSession                  // success with a null body
    | Session(data: SessionData)

  datatype AuthError = InvalidSession | Upstream

  datatype Result = Ok(principal: Principal) | Err(error: AuthError)

  datatype Entry = Entry(time: real, principal: Principal)

  const FRESH: real := 20.0
  const STALE: real := 600.0
  const MAX_ENTRIES: nat := 10000

  function Age(since: real, now: real): real { if now >= since then now - since else 0.0 }

  function CanonicalUserId(sessionUserId: string, userId: string): string {
    if Trim(sessionUserId) != "" then Trim(sessionUserId) else Trim(userId)
  }

  function PrincipalFrom(data: SessionData, how: AuthMethod): Principal {
    Principal(CanonicalUserId(data.sessionUserId, data.userId), NormalizeEmail(data.email), data.orgId,
              if data.role.Some? then [data.role.value] else [], data.sessionId, how)
  }

  function MethodOf(cred: Credential): AuthMethod { if cred.Cookie? then CookieAuth else BearerAuth }

  /** The cache key of a credential; a cookie header without a session cookie has none. */
  function KeyOf(cred: Credential, cookieName: string): Option<string> {
    match cred
    case Cookie(header) =>
      var token := TokenOf(SessionPieces(Split(header, ';'), cookieName));
      if token.None? then None else Some("cookie:" + token.value)
    case Bearer(token) => Some("bearer:" + token)
  }

  function Insert(cache: map<string, Entry>, key: string, e: Entry): map<string, Entry> {
    (if |cache| > MAX_ENTRIES then map[] else cache)[key := e]
  }

  /** What looking in the cache leads to. */
  datatype Look = Missing | Hit(principal: Principal) | Ask(fallback: Option<Principal>)

  /** The clock is read once for each of the two limits. */
  function LookUp(cache: map<string, Entry>, key: string, now: real, later: real): Look {
    if key !in cache then Ask(None)
    else if Age(cache[key].time, now) < FRESH then Hit(cache[key].principal)
    else if Age(cache[key].time, later) < STALE then Ask(Some(cache[key].principal))
    else Ask(None)
  }

  predicate IsOutage(reply: Reply) { reply.SendFailed? || (reply.Status? && 500 <= reply.code < 600) }

  /** What the caller gets once the upstream has answered. */
  function Decide(fallback: Option<Principal>, reply: Reply, how: AuthMethod): Result {
    match reply
    case SendFailed => if fallback.Some? then Ok(fallback.value) else Err(Upstream)
    case Status(code) =>
      if 500 <= code < 600 then if fallback.Some? then Ok(fallback.value) else Err(Upstream)
      else Err(InvalidSession)
    case Garbled => Err(Upstream)
    case NoSession => Err(InvalidSession)
    case Session(data) => Ok(PrincipalFrom(data, how))
  }

  class BetterAuthClient {
    const cookieName: string
    var cache: map<string, Entry>

    constructor (cookieName: string)
      ensures this.cookieName == cookieName && cache == map[]
    {
      this.cookieName := cookieName;
      cache := map[];
    }

    method CacheGet(key: string) returns (found: Option<Entry>)
      ensures found == if key in cache then Some(cache[key]) else None
    {
      found := if key in cache then Some(cache[key]) else None;
    }

    /** A full cache is emptied before the entry goes in. */
    method CacheInsert(key: string, principal: Principal, now: real)
      modifies this
      ensures cache == Insert(old(cache), key, Entry(now, principal))
      ensures |cache| <= MAX_ENTRIES + 1
    {
      if |cache| > MAX_ENTRIES {
        cache := map[];
      }
      ghost var before := cache;
      cache := cache[key := Entry(now, principal)];
      assert cache.Keys == before.Keys + {key};
    }

    /** Up to the request: the cache may answer, or offer a fallback. */
    method Begin(cred: Credential, now: real, later: real) returns (key: string, look: Look, forwarded: seq<string>)
      ensures look.Missing? <==> KeyOf(cred, cookieName).None?
      ensures !look.Missing? ==> key == KeyOf(cred, cookieName).value && look == LookUp(cache, key, now, later)
      ensures cred.Cookie? && !look.Missing? ==> AreCleaned(forwarded, SessionPieces(Split(cred.header, ';'), cookieName))
    {
      key, forwarded := "", [];
      match cred {
        case Cookie(header) =>
          var token: Option<string>;
          forwarded, token := ForwardedCookies(header, cookieName);
          if token.None? {
            look := Missing;
            return;
          }
          key := "cookie:" + token.value;
        case Bearer(token) =>
          key := "bearer:" + token;
      }
      var found := CacheGet(key);
      look := Ask(None);
      if found.Some? {
        if Age(found.value.time, now) < FRESH {
          look := Hit(found.value.principal);
        } else if Age(found.value.time, later) < STALE {
          look := Ask(Some(found.value.principal));
        }
      }
    }

    /** From the upstream's answer on. */
    method Finish(key: string, fallback: Option<Principal>, reply: Reply, how: AuthMethod, now: real) returns (result: Result)
      modifies this
      ensures result == Decide(fallback, reply, how)
      ensures cache == if reply.Session? then Insert(old(cache), key, Entry(now, PrincipalFrom(reply.data, how))) else old(cache)
    {
      match reply {
        case SendFailed =>
          if fallback.Some? {
            return Ok(fallback.value);
          }
          return Err(Upstream);
        case Status(code) =>
          if 500 <= code < 600 {
            if fallback.Some? {
              return Ok(fallback.value);
            }
            return Err(Upstream);
          }
          return Err(InvalidSession);
        case Garbled =>
          return Err(Upstream);
        case NoSession =>
          return Err(InvalidSession);
        case Session(data) =>
          var principal := PrincipalFrom(data, how);
          CacheInsert(key, principal, now);
          return Ok(principal);
      }
    }
  }

  // ---------------------------------------------------------------------
  // Interleaved calls
  // ---------------------------------------------------------------------

  type CallId = nat

  /** A success the upstream gave and the gateway stored. */
  datatype Stored = Stored(c: CallId, key: string, entry: Entry)

  /** A call that asked the upstream: what it saw, and how much had been stored by then. */
  datatype Pending = Pending(how: AuthMethod, key: string, fallback: Option<Principal>, seen: nat, now: real, later: real)

  /** A principal handed out from the cache at time `at`. */
  datatype Served = Served(
    c: CallId, how: AuthMethod, key: string, principal: Principal,
    seen: nat, now: real, later: real, reply: Option<Reply>, at: real)

  datatype State = State(
    cache: map<string, Entry>, stored: seq<Stored>, pending: map<CallId, Pending>,
    served: seq<Served>, results: map<CallId, Result>)

  datatype Step =
    | Start(c: CallId, cred: Credential, now: real, later: real)
    | Answer(c: CallId, reply: Reply, at: real)

  predicate Enabled(s: State, step: Step) {
    match step
    case Start(c, _, _, _) => c !in s.pending && c !in s.results
    case Answer(c, _, _) => c in s.pending
  }

  function Apply(cookieName: string, s: State, step: Step): State
    requires Enabled(s, step)
  {
    match step
    case Start(c, cred, now, later) =>
      var key := KeyOf(cred, cookieName);
      if key.None? then s.(results := s.results[c := Err(InvalidSession)])
      else (
        match LookUp(s.cache, key.value, now, later)
        case Hit(p) =>
          s.(served := s.served + [Served(c, MethodOf(cred), key.value, p, |s.stored|, now, later, None, now)],
             results := s.results[c := Ok(p)])
        case Ask(fallback) =>
          s.(pending := s.pending[c := Pending(MethodOf(cred), key.value, fallback, |s.stored|, now, later)])
        case Missing => s)
    case Answer(c, reply, at) =>
      var p := s.pending[c];
      var result := Decide(p.fallback, reply, p.how);
      var s1 := s.(pending := s.pending - {c}, results := s.results[c := result]);
      if reply.Session? then
        var e := Entry(at, result.principal);
        s1.(cache := Insert(s.cache, p.key, e), stored := s.stored + [Stored(c, p.key, e)])
      else if result.Ok? then
        s1.(served := s.served + [Served(c, p.how, p.key, result.principal, p.seen, p.now, p.later, Some(reply), at)])
      else s1
  }

  function Final(cookieName: string, run: seq<Step>): State {
    if run == [] then State(map[], [], map[], [], map[])
    else
      var s := Final(cookieName, run[..|run| - 1]);
      if Enabled(s, run[|run| - 1]) then Apply(cookieName, s, run[|run| - 1]) else s
  }

  // ---------------------------------------------------------------------
  // Provenance
  // ---------------------------------------------------------------------

  /** The latest entry stored for a key. */
  function Latest(stored: seq<Stored>, key: string): Option<Entry> {
    if stored == [] then None
    else if stored[|stored| - 1].key == key then Some(stored[|stored| - 1].entry)
    else Latest(stored[..|stored| - 1], key)
  }

  /** Keys show the kind of credential they were made from. */
  predicate KeyFits(key: string, how: AuthMethod) {
    StartsWith(key, if how.CookieAuth? then "cookie:" else "bearer:")
  }

  lemma KeysNeverCoincide(key: string, how: AuthMethod, how': AuthMethod)
    requires KeyFits(key, how) && KeyFits(key, how')
    ensures how == how'
  {
    assert key[0] == if how.CookieAuth? then 'c' else 'b';
    assert key[0] == if how'.CookieAuth? then 'c' else 'b';
  }

  lemma KeyOfFits(cred: Credential, cookieName: string)
    ensures KeyOf(cred, cookieName).Some? ==> KeyFits(KeyOf(cred, cookieName).value, MethodOf(cred))
  {
  }

  /** A principal a call found in the cache when `seen` successes had been stored. */
  ghost predicate Found(stored: seq<Stored>, seen: nat, key: string, principal: Principal, how: AuthMethod) {
    && seen <= |stored|
    && Latest(stored[..seen], key).Some? && Latest(stored[..seen], key).value.principal == principal
    && KeyFits(key, how) && principal.method_ == how
  }

  function TimeOf(stored: seq<Stored>, seen: nat, key: string): real
    requires seen <= |stored| && Latest(stored[..seen], key).Some?
  {
    Latest(stored[..seen], key).value.time
  }

  ghost predicate PendingOk(stored: seq<Stored>, p: Pending) {
    && p.seen <= |stored| && KeyFits(p.key, p.how)
    && (p.fallback.Some? ==>
          && Found(stored, p.seen, p.key, p.fallback.value, p.how)
          && Age(TimeOf(stored, p.seen, p.key), p.now) >= FRESH
          && Age(TimeOf(stored, p.seen, p.key), p.later) < STALE)
  }

  /** What was served is the latest success stored for the key when the cache was looked at, of the right kind,
      and either not 20 seconds old, or not 600 and the upstream was out of order. */
  ghost predicate ServedOk(stored: seq<Stored>, r: Served) {
    && Found(stored, r.seen, r.key, r.principal, r.how)
    && (if r.reply.None? then Age(TimeOf(stored, r.seen, r.key), r.now) < 20.0
        else IsOutage(r.reply.value)
             && Age(TimeOf(stored, r.seen, r.key), r.now) >= 20.0
             && Age(TimeOf(stored, r.seen, r.key), r.later) < 600.0)
  }

  ghost predicate CacheOk(cache: map<string, Entry>, stored: seq<Stored>) {
    && |cache| <= MAX_ENTRIES + 1
    && (forall key :: key in cache ==> Latest(stored, key) == Some(cache[key]))
    && (forall i :: 0 <= i < |stored| ==> KeyFits(stored[i].key, stored[i].entry.principal.method_))
  }

  ghost predicate Inv(s: State) {
    && CacheOk(s.cache, s.stored)
    && (forall c :: c in s.pending ==> PendingOk(s.stored, s.pending[c]))
    && (forall i :: 0 <= i < |s.served| ==> ServedOk(s.stored, s.served[i]))
  }

  lemma {:induction false} LatestFits(stored: seq<Stored>, key: string)
    requires forall i :: 0 <= i < |stored| ==> KeyFits(stored[i].key, stored[i].entry.principal.method_)
    ensures Latest(stored, key).Some? ==> KeyFits(key, Latest(stored, key).value.principal.method_)
  {
    if stored != [] && stored[|stored| - 1].key != key {
      LatestFits(stored[..|stored| - 1], key);
    }
  }

  /** What the cache gives for a key is the latest success stored for it. */
  lemma CacheIsLatest(s: State, key: string, how: AuthMethod)
    requires CacheOk(s.cache, s.stored) && key in s.cache && KeyFits(key, how)
    ensures Found(s.stored, |s.stored|, key, s.cache[key].principal, how)
    ensures TimeOf(s.stored, |s.stored|, key) == s.cache[key].time
  {
    assert s.stored[..|s.stored|] == s.stored;
    LatestFits(s.stored, key);
    KeysNeverCoincide(key, how, s.cache[key].principal.method_);
  }

  /** Later successes do not change what was found before them. */
  lemma MoreStored(stored: seq<Stored>, more: Stored, seen: nat, key: string)
    requires seen <= |stored|
    ensures (stored + [more])[..seen] == stored[..seen]
  {
  }

  lemma StepKeepsPending(stored: seq<Stored>, more: Stored, p: Pending)
    requires PendingOk(stored, p)
    ensures PendingOk(stored + [more], p)
  {
    MoreStored(stored, more, p.seen, p.key);
  }

  lemma StepKeepsServed(stored: seq<Stored>, more: Stored, r: Served)
    requires ServedOk(stored, r)
    ensures ServedOk(stored + [more], r)
  {
    MoreStored(stored, more, r.seen, r.key);
  }

  lemma LatestSnoc(stored: seq<Stored>, more: Stored, key: string)
    ensures Latest(stored + [more], key) == if more.key == key then Some(more.entry) else Latest(stored, key)
  {
    assert (stored + [more])[..|stored|] == stored;
  }

  lemma InsertBounded(cache: map<string, Entry>, key: string, e: Entry)
    requires |cache| <= MAX_ENTRIES + 1
    ensures |Insert(cache, key, e)| <= MAX_ENTRIES + 1
    ensures forall k :: k in Insert(cache, key, e) ==> k == key || (k in cache && Insert(cache, key, e)[k] == cache[k])
  {
    var base: map<string, Entry> := if |cache| > MAX_ENTRIES then map[] else cache;
    assert Insert(cache, key, e).Keys == base.Keys + {key};
  }

  lemma InsertKeepsCache(cache: map<string, Entry>, stored: seq<Stored>, more: Stored)
    requires CacheOk(cache, stored) && KeyFits(more.key, more.entry.principal.method_)
    ensures CacheOk(Insert(cache, more.key, more.entry), stored + [more])
  {
    var cache' := Insert(cache, more.key, more.entry);
    InsertBounded(cache, more.key, more.entry);
    forall k | k in cache' ensures Latest(stored + [more], k) == Some(cache'[k]) {
      LatestSnoc(stored, more, k);
    }
  }

  /** What a look finds, and what it leaves for the upstream to decide, is sound. */
  lemma LookKeeps(s: State, c: CallId, key: string, how: AuthMethod, now: real, later: real)
    requires CacheOk(s.cache, s.stored) && KeyFits(key, how)
    ensures match LookUp(s.cache, key, now, later)
            case Hit(p) => ServedOk(s.stored, Served(c, how, key, p, |s.stored|, now, later, None, now))
            case Ask(fallback) => PendingOk(s.stored, Pending(how, key, fallback, |s.stored|, now, later))
            case Missing => false
  {
    if key in s.cache {
      CacheIsLatest(s, key, how);
    }
  }

  lemma StartKeeps(cookieName: string, s: State, step: Step)
    requires Inv(s) && step.Start? && Enabled(s, step)
    ensures Inv(Apply(cookieName, s, step))
  {
    var key := KeyOf(step.cred, cookieName);
    if key.Some? {
      KeyOfFits(step.cred, cookieName);
      LookKeeps(s, step.c, key.value, MethodOf(step.cred), step.now, step.later);
    }
  }

  /** What a call gets for each kind of answer, said of the answer itself. */
  lemma ResultIs(fallback: Option<Principal>, reply: Reply, how: AuthMethod)
    ensures reply.Session? ==> Decide(fallback, reply, how) == Ok(PrincipalFrom(reply.data, how))
    ensures Decide(fallback, reply, how) == Err(InvalidSession) <==>
            reply.NoSession? || (reply.Status? && !(500 <= reply.code < 600))
    ensures Decide(fallback, reply, how) == Err(Upstream) <==>
            reply.Garbled? || (fallback.None? && (reply.SendFailed? || (reply.Status? && 500 <= reply.code < 600)))
    ensures fallback.Some? && (reply.SendFailed? || (reply.Status? && 500 <= reply.code < 600)) ==>
            Decide(fallback, reply, how) == Ok(fallback.value)
  {
  }

  /** What is returned is the fallback exactly when there is one and the upstream is out of order. */
  lemma FallbackIff(fallback: Option<Principal>, reply: Reply, how: AuthMethod)
    ensures !reply.Session? && Decide(fallback, reply, how).Ok? <==> IsOutage(reply) && fallback.Some?
    ensures IsOutage(reply) && fallback.Some? ==> Decide(fallback, reply, how) == Ok(fallback.value)
  {
  }

  lemma MoreStoredKeeps(s: State, more: Stored)
    requires Inv(s)
    ensures forall c :: c in s.pending ==> PendingOk(s.stored + [more], s.pending[c])
    ensures forall i :: 0 <= i < |s.served| ==> ServedOk(s.stored + [more], s.served[i])
  {
    forall c | c in s.pending ensures PendingOk(s.stored + [more], s.pending[c]) {
      StepKeepsPending(s.stored, more, s.pending[c]);
    }
    forall i | 0 <= i < |s.served| ensures ServedOk(s.stored + [more], s.served[i]) {
      StepKeepsServed(s.stored, more, s.served[i]);
    }
  }

  function StoredBy(p: Pending, step: Step): Stored
    requires step.Answer? && step.reply.Session?
  {
    Stored(step.c, p.key, Entry(step.at, PrincipalFrom(step.reply.data, p.how)))
  }

  lemma SuccessStores(cookieName: string, s: State, step: Step)
    requires step.Answer? && Enabled(s, step) && step.reply.Session?
    ensures var more := StoredBy(s.pending[step.c], step);
            var s' := Apply(cookieName, s, step);
            && s'.cache == Insert(s.cache, more.key, more.entry) && s'.stored == s.stored + [more]
            && s'.pending == s.pending - {step.c} && s'.served == s.served
  {
  }

  lemma StoringKeeps(s: State, s': State, more: Stored, c: CallId)
    requires Inv(s) && KeyFits(more.key, more.entry.principal.method_)
    requires s'.cache == Insert(s.cache, more.key, more.entry) && s'.stored == s.stored + [more]
    requires s'.pending == s.pending - {c} && s'.served == s.served
    ensures Inv(s')
  {
    InsertKeepsCache(s.cache, s.stored, more);
    MoreStoredKeeps(s, more);
  }

  lemma SuccessKeeps(cookieName: string, s: State, step: Step)
    requires Inv(s) && step.Answer? && Enabled(s, step) && step.reply.Session?
    ensures Inv(Apply(cookieName, s, step))
  {
    assert PendingOk(s.stored, s.pending[step.c]);
    SuccessStores(cookieName, s, step);
    StoringKeeps(s, Apply(cookieName, s, step), StoredBy(s.pending[step.c], step), step.c);
  }

  lemma FallbackKeeps(cookieName: string, s: State, step: Step)
    requires Inv(s) && step.Answer? && Enabled(s, step) && !step.reply.Session?
    ensures Inv(Apply(cookieName, s, step))
  {
    var p := s.pending[step.c];
    assert PendingOk(s.stored, p);
    FallbackIff(p.fallback, step.reply, p.how);
    if IsOutage(step.reply) && p.fallback.Some? {
      assert ServedOk(s.stored, Served(step.c, p.how, p.key, p.fallback.value, p.seen, p.now, p.later, Some(step.reply), step.at));
    }
  }

  lemma AnswerKeeps(cookieName: string, s: State, step: Step)
    requires Inv(s) && step.Answer? && Enabled(s, step)
    ensures Inv(Apply(cookieName, s, step))
  {
    if step.reply.Session? {
      SuccessKeeps(cookieName, s, step);
    } else {
      FallbackKeeps(cookieName, s, step);
    }
  }

  /** In every interleaving of validations, whatever the upstream answers. */
  lemma {:induction false} Provenance(cookieName: string, run: seq<Step>)
    ensures Inv(Final(cookieName, run))
    ensures |Final(cookieName, run).cache| <= 10001
    ensures forall i :: 0 <= i < |Final(cookieName, run).served| ==>
              ServedOk(Final(cookieName, run).stored, Final(cookieName, run).served[i])
  {
    if run != [] {
      var front, step := run[..|run| - 1], run[|run| - 1];
      Provenance(cookieName, front);
      var s := Final(cookieName, front);
      if Enabled(s, step) {
        if step.Start? {
          StartKeeps(cookieName, s, step);
        } else {
          AnswerKeeps(cookieName, s, step);
        }
      }
    }
  }

  // ---------------------------------------------------------------------
  // What calls return
  // ---------------------------------------------------------------------

  ghost predicate FromCache(s: State, c: CallId, p: Principal) {
    exists i :: 0 <= i < |s.served| && s.served[i].c == c && s.served[i].principal == p
  }

  ghost predicate FromUpstream(s: State, c: CallId, p: Principal) {
    exists i :: 0 <= i < |s.stored| && s.stored[i].c == c && s.stored[i].entry.principal == p
  }

  ghost predicate ResultOk(s: State, c: CallId) {
    c in s.results && s.results[c].Ok? ==> FromCache(s, c, s.results[c].principal) || FromUpstream(s, c, s.results[c].principal)
  }

  ghost predicate ServedReturned(s: State) {
    && (forall c :: c in s.pending ==> c !in s.results)
    && (forall i :: 0 <= i < |s.served| ==>
          s.served[i].c in s.results && s.results[s.served[i].c] == Ok(s.served[i].principal))
  }

  lemma OwnResult(cookieName: string, s: State, step: Step)
    requires Enabled(s, step)
    ensures ResultOk(Apply(cookieName, s, step), step.c)
  {
    var s' := Apply(cookieName, s, step);
    if |s'.served| > |s.served| {
      assert s'.served[|s.served|].c == step.c;
    } else if |s'.stored| > |s.stored| {
      assert s'.stored[|s.stored|].c == step.c;
    }
  }

  /** A step adds to what is served and stored, and settles no call but its own. */
  lemma StepGrows(cookieName: string, s: State, step: Step)
    requires Enabled(s, step)
    ensures var s' := Apply(cookieName, s, step);
            && s.served <= s'.served && s.stored <= s'.stored
            && forall d :: d != step.c ==> (d in s.results <==> d in s'.results) && (d in s.results ==> s'.results[d] == s.results[d])
  {
  }

  lemma MoreKeepsResult(s: State, s': State, c: CallId)
    requires ResultOk(s, c) && s.served <= s'.served && s.stored <= s'.stored
    requires (c in s.results <==> c in s'.results) && (c in s.results ==> s'.results[c] == s.results[c])
    ensures ResultOk(s', c)
  {
    if c in s.results && s.results[c].Ok? {
      var p := s.results[c].principal;
      if FromCache(s, c, p) {
        var i :| 0 <= i < |s.served| && s.served[i].c == c && s.served[i].principal == p;
        assert s'.served[i] == s.served[i];
      } else {
        var i :| 0 <= i < |s.stored| && s.stored[i].c == c && s.stored[i].entry.principal == p;
        assert s'.stored[i] == s.stored[i];
      }
    }
  }

  lemma StepKeepsResult(cookieName: string, s: State, step: Step, c: CallId)
    requires Enabled(s, step) && ResultOk(s, c)
    ensures ResultOk(Apply(cookieName, s, step), c)
  {
    if c == step.c {
      OwnResult(cookieName, s, step);
    } else {
      StepGrows(cookieName, s, step);
      MoreKeepsResult(s, Apply(cookieName, s, step), c);
    }
  }

  /** A step serves its own call or none, with what it returns. */
  lemma StepReturns(cookieName: string, s: State, step: Step)
    requires Enabled(s, step)
    ensures var s' := Apply(cookieName, s, step);
            && |s.served| <= |s'.served| <= |s.served| + 1
            && (|s'.served| > |s.served| ==>
                  var r := s'.served[|s.served|];
                  r.c == step.c && step.c in s'.results && s'.results[step.c] == Ok(r.principal))
            && (step.c in s'.pending ==> step.c !in s'.results)
            && (forall d :: d in s'.pending && d != step.c ==> d in s.pending)
            && (step.c in s.results ==> step.c in s.pending)
  {
  }

  lemma StepKeepsReturned(cookieName: string, s: State, step: Step)
    requires Enabled(s, step) && ServedReturned(s)
    ensures ServedReturned(Apply(cookieName, s, step))
  {
    var s' := Apply(cookieName, s, step);
    StepGrows(cookieName, s, step);
    StepReturns(cookieName, s, step);
    forall i | 0 <= i < |s'.served| ensures s'.served[i].c in s'.results && s'.results[s'.served[i].c] == Ok(s'.served[i].principal) {
      if i < |s.served| {
        assert s'.served[i] == s.served[i];
      }
    }
  }

  /** Every principal a call returns is one the upstream gave that very call, or one served from the cache, of which
      `Provenance` says where it came from; and whatever is served is what the call returns. */
  lemma {:induction false} ResultsAreAccountedFor(cookieName: string, run: seq<Step>, c: CallId)
    ensures ResultOk(Final(cookieName, run), c)
    ensures ServedReturned(Final(cookieName, run))
  {
    if run != [] {
      var front, step := run[..|run| - 1], run[|run| - 1];
      ResultsAreAccountedFor(cookieName, front, c);
      if Enabled(Final(cookieName, front), step) {
        StepKeepsResult(cookieName, Final(cookieName, front), step, c);
        StepKeepsReturned(cookieName, Final(cookieName, front), step);
      }
    }
  }

  // ---------------------------------------------------------------------
  // How old a principal is when it is handed out
  // ---------------------------------------------------------------------

  /** Requests go out after the look-up and are over within `timeout`, the limit the HTTP client is built with. */
  predicate InTime(s: State, step: Step, timeout: real) {
    step.Answer? && step.c in s.pending ==> s.pending[step.c].later <= step.at <= s.pending[step.c].later + timeout
  }

  predicate Timely(cookieName: string, run: seq<Step>, timeout: real) {
    run == []
    || (Timely(cookieName, run[..|run| - 1], timeout) && InTime(Final(cookieName, run[..|run| - 1]), run[|run| - 1], timeout))
  }

  predicate ServedInTime(r: Served, timeout: real) {
    if r.reply.None? then r.at == r.now else r.later <= r.at <= r.later + timeout
  }

  lemma {:induction false} TimelyServes(cookieName: string, run: seq<Step>, timeout: real)
    requires Timely(cookieName, run, timeout)
    ensures forall i :: 0 <= i < |Final(cookieName, run).served| ==> ServedInTime(Final(cookieName, run).served[i], timeout)
  {
    if run != [] {
      TimelyServes(cookieName, run[..|run| - 1], timeout);
    }
  }

  ghost predicate YoungerThan(stored: seq<Stored>, r: Served, bound: real) {
    Found(stored, r.seen, r.key, r.principal, r.how) && Age(TimeOf(stored, r.seen, r.key), r.at) < bound
  }

  lemma YoungWhenServed(stored: seq<Stored>, r: Served, timeout: real)
    requires timeout >= 0.0 && ServedOk(stored, r) && ServedInTime(r, timeout)
    ensures YoungerThan(stored, r, STALE + timeout)
  {
  }

  /** In every timely run whatever is handed out from the cache is younger than 600 seconds and the time-out. */
  lemma AgeWhenServed(cookieName: string, run: seq<Step>, timeout: real, i: nat)
    requires timeout >= 0.0 && Timely(cookieName, run, timeout) && i < |Final(cookieName, run).served|
    ensures YoungerThan(Final(cookieName, run).stored, Final(cookieName, run).served[i], STALE + timeout)
  {
    Provenance(cookieName, run);
    TimelyServes(cookieName, run, timeout);
    YoungWhenServed(Final(cookieName, run).stored, Final(cookieName, run).served[i], timeout);
  }

  ghost predicate AllYoungerThan(s: State, bound: real) {
    forall i :: 0 <= i < |s.served| ==> YoungerThan(s.stored, s.served[i], bound)
  }

  ghost predicate ServesWithin(cookieName: string, timeout: real, bound: real) {
    forall run :: Timely(cookieName, run, timeout) ==> AllYoungerThan(Final(cookieName, run), bound)
  }

  lemma FinalSnoc(cookieName: string, run: seq<Step>, step: Step, timeout: real)
    requires Enabled(Final(cookieName, run), step)
    ensures Final(cookieName, run + [step]) == Apply(cookieName, Final(cookieName, run), step)
    ensures Timely(cookieName, run, timeout) && InTime(Final(cookieName, run), step, timeout) ==>
              Timely(cookieName, run + [step], timeout)
  {
    assert (run + [step])[..|run|] == run;
  }

  function Kept(data: SessionData): Entry { Entry(0.0, PrincipalFrom(data, BearerAuth)) }

  /** A session stored at time 0. */
  function StoredAtZero(data: SessionData): State {
    State(map["bearer:x" := Kept(data)], [Stored(0, "bearer:x", Kept(data))], map[], [], map[0 := Ok(Kept(data).principal)])
  }

  function AskingAtZero(): State {
    State(map[], [], map[0 := Pending(BearerAuth, "bearer:x", None, 0, 0.0, 0.0)], [], map[])
  }

  lemma AskedAtZero(cookieName: string)
    ensures Apply(cookieName, State(map[], [], map[], [], map[]), Start(0, Bearer("x"), 0.0, 0.0)) == AskingAtZero()
  {
    assert "bearer:" + "x" == "bearer:x";
  }

  lemma AnsweredAtZero(cookieName: string, data: SessionData)
    ensures Apply(cookieName, AskingAtZero(), Answer(0, Session(data), 0.0)) == StoredAtZero(data)
  {
    assert AskingAtZero().pending - {0} == map[];
  }

  lemma StoreAtZero(cookieName: string, data: SessionData, timeout: real) returns (run: seq<Step>)
    requires timeout >= 0.0
    ensures Timely(cookieName, run, timeout) && Final(cookieName, run) == StoredAtZero(data)
  {
    var ask, answer := Start(0, Bearer("x"), 0.0, 0.0), Answer(0, Session(data), 0.0);
    FinalSnoc(cookieName, [], ask, timeout);
    assert [] + [ask] == [ask];
    AskedAtZero(cookieName);
    FinalSnoc(cookieName, [ask], answer, timeout);
    AnsweredAtZero(cookieName, data);
    run := [ask] + [answer];
  }

  /** The upstream times out on a request made just before the stored session turns 600 seconds old. */
  lemma StaleServed(cookieName: string, data: SessionData, timeout: real, before: real) returns (run: seq<Step>)
    requires timeout >= 0.0 && 0.0 < before <= 100.0
    ensures Timely(cookieName, run, timeout)
    ensures var s := Final(cookieName, run);
            && |s.served| == 1 && s.stored == StoredAtZero(data).stored
            && s.served[0].seen == 1 && s.served[0].key == "bearer:x" && s.served[0].at == STALE - before + timeout
  {
    run := StoreAtZero(cookieName, data, timeout);
    var t := STALE - before;
    var ask, answer := Start(1, Bearer("x"), t, t), Answer(1, SendFailed, t + timeout);
    FinalSnoc(cookieName, run, ask, timeout);
    assert "bearer:" + "x" == "bearer:x";
    assert LookUp(StoredAtZero(data).cache, "bearer:x", t, t) == Ask(Some(Kept(data).principal));
    var p := Pending(BearerAuth, "bearer:x", Some(Kept(data).principal), 1, t, t);
    assert Final(cookieName, run + [ask]).pending == map[1 := p];
    FinalSnoc(cookieName, run + [ask], answer, timeout);
    run := run + [ask] + [answer];
  }

  /** 600 seconds and the time-out is exactly how old: no smaller bound holds of all timely runs. */
  lemma AgeBoundIff(cookieName: string, timeout: real, bound: real)
    requires timeout >= 0.0
    ensures ServesWithin(cookieName, timeout, bound) <==> 600.0 + timeout <= bound
  {
    if STALE + timeout <= bound {
      forall run | Timely(cookieName, run, timeout) ensures AllYoungerThan(Final(cookieName, run), bound) {
        forall i | 0 <= i < |Final(cookieName, run).served|
          ensures YoungerThan(Final(cookieName, run).stored, Final(cookieName, run).served[i], bound)
        {
          AgeWhenServed(cookieName, run, timeout, i);
        }
      }
    } else {
      var gap := STALE + timeout - bound;
      var data := SessionData("s", "u", "u", None, None, None);
      var run := StaleServed(cookieName, data, timeout, if gap < 100.0 then gap else 100.0);
      var s := Final(cookieName, run);
      assert s.stored[..1] == s.stored;
      assert !YoungerThan(s.stored, s.served[0], bound);
    }
  }

  /** So what is handed out is always younger than 600 seconds exactly when requests take no time. */
  lemma StaleBoundIff(cookieName: string, timeout: real)
    requires timeout >= 0.0
    ensures ServesWithin(cookieName, timeout, 600.0) <==> timeout == 0.0
  {
    AgeBoundIff(cookieName, timeout, STALE);
  }

  // ---------------------------------------------------------------------
  // What the cache remembers
  // ---------------------------------------------------------------------

  function KeysOf(stored: seq<Stored>): set<string> { set i | 0 <= i < |stored| :: stored[i].key }

  /** How many of the stored successes came before the cache was last emptied: a success empties it when the ones
      since then name more than 10000 keys. */
  function Forgotten(stored: seq<Stored>): (n: nat)
    ensures n <= |stored|
  {
    if stored == [] then 0
    else
      var front := stored[..|stored| - 1];
      if |KeysOf(front[Forgotten(front)..])| > 10000 then |front| else Forgotten(front)
  }

  /** The successes since the cache was last emptied. */
  function Recent(stored: seq<Stored>): seq<Stored> { stored[Forgotten(stored)..] }

  /** The cache holds, for each key of the successes since it was last emptied, the latest of them, and nothing else. */
  ghost predicate Remembers(cache: map<string, Entry>, stored: seq<Stored>) {
    && cache.Keys == KeysOf(Recent(stored))
    && forall key :: key in cache ==> Latest(Recent(stored), key) == Some(cache[key])
  }

  lemma KeysSnoc(stored: seq<Stored>, more: Stored)
    ensures KeysOf(stored + [more]) == KeysOf(stored) + {more.key}
  {
    var all := stored + [more];
    forall key | key in KeysOf(stored) ensures key in KeysOf(all) {
      var i :| 0 <= i < |stored| && stored[i].key == key;
      assert all[i].key == key;
    }
    assert all[|stored|].key == more.key;
  }

  lemma ForgottenSnoc(stored: seq<Stored>, more: Stored)
    ensures Forgotten(stored + [more]) == if |KeysOf(Recent(stored))| > 10000 then |stored| else Forgotten(stored)
  {
    assert (stored + [more])[..|stored|] == stored;
  }

  lemma RecentSnoc(stored: seq<Stored>, more: Stored)
    ensures Recent(stored + [more]) == (if |KeysOf(Recent(stored))| > 10000 then [] else Recent(stored)) + [more]
  {
    ForgottenSnoc(stored, more);
  }

  lemma InsertRemembers(cache: map<string, Entry>, stored: seq<Stored>, more: Stored)
    requires Remembers(cache, stored)
    ensures Remembers(Insert(cache, more.key, more.entry), stored + [more])
  {
    RecentSnoc(stored, more);
    assert |cache| == |cache.Keys|;
    if |cache| > 10000 {
      assert KeysOf([]) == {};
      RemembersOneMore(map[], [], more);
    } else {
      RemembersOneMore(cache, Recent(stored), more);
    }
  }

  lemma RemembersOneMore(cache: map<string, Entry>, kept: seq<Stored>, more: Stored)
    requires cache.Keys == KeysOf(kept) && forall key :: key in cache ==> Latest(kept, key) == Some(cache[key])
    ensures var cache' := cache[more.key := more.entry];
            && cache'.Keys == KeysOf(kept + [more])
            && forall key :: key in cache' ==> Latest(kept + [more], key) == Some(cache'[key])
  {
    KeysSnoc(kept, more);
    forall key | key in cache[more.key := more.entry]
      ensures Latest(kept + [more], key) == Some(cache[more.key := more.entry][key])
    {
      LatestSnoc(kept, more, key);
    }
  }

  /** So it is after every run. */
  lemma {:induction false} CacheRemembers(cookieName: string, run: seq<Step>)
    ensures Remembers(Final(cookieName, run).cache, Final(cookieName, run).stored)
  {
    if run == [] {
      assert KeysOf([]) == {};
    } else {
      var front, step := run[..|run| - 1], run[|run| - 1];
      var s := Final(cookieName, front);
      CacheRemembers(cookieName, front);
      if Enabled(s, step) {
        if step.Answer? && step.reply.Session? {
          SuccessStores(cookieName, s, step);
          InsertRemembers(s.cache, s.stored, StoredBy(s.pending[step.c], step));
        } else {
          StepKeepsCache(cookieName, s, step);
        }
      }
    }
  }

  /** Nothing is forgotten exactly as long as the successes before the last one name at most 10000 keys; then all
      successes are recent ones. */
  lemma NothingForgottenIff(stored: seq<Stored>, more: Stored)
    ensures Forgotten(stored + [more]) == 0 <==> |KeysOf(stored)| <= 10000
    ensures Forgotten(stored) == 0 ==> Recent(stored) == stored
  {
    ForgottenSnoc(stored, more);
    if stored == [] {
      assert KeysOf(stored) == {};
    }
    if |KeysOf(stored)| <= 10000 {
      FewKeysAreKept(stored);
    }
  }

  lemma {:induction false} FewKeysAreKept(stored: seq<Stored>)
    requires |KeysOf(stored)| <= 10000
    ensures Forgotten(stored) == 0
  {
    if stored != [] {
      var front, last := stored[..|stored| - 1], stored[|stored| - 1];
      assert stored == front + [last];
      KeysSnoc(front, last);
      FewerKeys(KeysOf(front), KeysOf(stored));
      FewKeysAreKept(front);
      ForgottenSnoc(front, last);
    }
  }

  lemma FewerKeys(a: set<string>, b: set<string>)
    requires a <= b
    ensures |a| <= |b|
  {
    assert b == a + (b - a);
  }

  lemma {:induction false} LatestIff(stored: seq<Stored>, key: string)
    ensures Latest(stored, key).Some? <==> key in KeysOf(stored)
  {
    if stored != [] {
      var n := |stored| - 1;
      LatestIff(stored[..n], key);
      KeysSnoc(stored[..n], stored[n]);
      assert stored == stored[..n] + [stored[n]];
    }
  }

  /** What a call finds at once: it is let in without asking exactly when the latest success for its key since the cache
      was last emptied is not 20 seconds old; a cookie header without a session is refused; and all others ask. */
  lemma LetInAtOnceIff(cookieName: string, run: seq<Step>, c: CallId, cred: Credential, now: real, later: real)
    requires c !in Final(cookieName, run).pending && c !in Final(cookieName, run).results
    ensures var s, key := Final(cookieName, run), KeyOf(cred, cookieName);
            var s' := Apply(cookieName, s, Start(c, cred, now, later));
            && (key.None? ==> c in s'.results && s'.results[c] == Err(InvalidSession))
            && (key.Some? ==>
                  var latest := Latest(Recent(s.stored), key.value);
                  if latest.Some? && Age(latest.value.time, now) < 20.0
                  then c in s'.results && s'.results[c] == Ok(latest.value.principal)
                  else c in s'.pending && c !in s'.results)
  {
    if KeyOf(cred, cookieName).Some? {
      CacheIsRecent(cookieName, run, KeyOf(cred, cookieName).value);
      StartIs(cookieName, Final(cookieName, run), c, cred, now, later);
    }
  }

  lemma StartIs(cookieName: string, s: State, c: CallId, cred: Credential, now: real, later: real)
    requires c !in s.pending && c !in s.results && KeyOf(cred, cookieName).Some?
    ensures var key, s' := KeyOf(cred, cookieName).value, Apply(cookieName, s, Start(c, cred, now, later));
            if key in s.cache && Age(s.cache[key].time, now) < 20.0
            then c in s'.results && s'.results[c] == Ok(s.cache[key].principal)
            else c in s'.pending && c !in s'.results
  {
  }

  lemma CacheIsRecent(cookieName: string, run: seq<Step>, key: string)
    ensures var s := Final(cookieName, run);
            Latest(Recent(s.stored), key) == if key in s.cache then Some(s.cache[key]) else None
  {
    CacheRemembers(cookieName, run);
    LatestIff(Recent(Final(cookieName, run).stored), key);
  }

  // ---------------------------------------------------------------------
  // Refused sessions
  // ---------------------------------------------------------------------

  predicate NoSuccess(steps: seq<Step>) { forall i :: 0 <= i < |steps| ==> steps[i].Start? || !steps[i].reply.Session? }

  /** Only successes change the cache: no refusal takes a session out of it. */
  lemma {:induction false} OnlySuccessChangesCache(cookieName: string, run: seq<Step>, more: seq<Step>)
    requires NoSuccess(more)
    ensures Final(cookieName, run + more).cache == Final(cookieName, run).cache
  {
    if more == [] {
      assert run + more == run;
    } else {
      var n := |more| - 1;
      assert (run + more)[..|run| + n] == run + more[..n] && (run + more)[|run| + n] == more[n];
      OnlySuccessChangesCache(cookieName, run, more[..n]);
      var s := Final(cookieName, run + more[..n]);
      if Enabled(s, more[n]) {
        StepKeepsCache(cookieName, s, more[n]);
      }
    }
  }

  lemma StepKeepsCache(cookieName: string, s: State, step: Step)
    requires Enabled(s, step) && (step.Start? || !step.reply.Session?)
    ensures Apply(cookieName, s, step).cache == s.cache
  {
  }

  /** Young enough for a call that looks at `now` and `later` and then finds the upstream out of order. */
  predicate StillGood(time: real, now: real, later: real) { Age(time, now) < 20.0 || Age(time, later) < 600.0 }

  lemma AskInOutage(cookieName: string, s: State, c: CallId, cred: Credential, now: real, later: real, reply: Reply, at: real)
    requires c !in s.pending && c !in s.results && KeyOf(cred, cookieName).Some? && IsOutage(reply)
    ensures var key, s1 := KeyOf(cred, cookieName).value, Apply(cookieName, s, Start(c, cred, now, later));
            var s2 := if c in s1.pending then Apply(cookieName, s1, Answer(c, reply, at)) else s1;
            && c in s2.results
            && (s2.results[c].Ok? <==> key in s.cache && StillGood(s.cache[key].time, now, later))
            && (s2.results[c].Ok? ==> s2.results[c].principal == s.cache[key].principal)
  {
  }

  /** A call made while the upstream is out of order is let in exactly when its key was in the cache after the last
      success and the entry is young enough still: whether the upstream refused the session since then, by a
      refusal among the steps of `more`, makes no difference. */
  lemma RefusalIsForgotten(cookieName: string, run: seq<Step>, more: seq<Step>,
                           c: CallId, cred: Credential, now: real, later: real, reply: Reply, at: real)
    requires NoSuccess(more) && KeyOf(cred, cookieName).Some? && IsOutage(reply)
    requires c !in Final(cookieName, run + more).pending && c !in Final(cookieName, run + more).results
    ensures var key, cache := KeyOf(cred, cookieName).value, Final(cookieName, run).cache;
            var s := Final(cookieName, run + more + [Start(c, cred, now, later)] + [Answer(c, reply, at)]);
            && c in s.results
            && (s.results[c].Ok? <==> key in cache && StillGood(cache[key].time, now, later))
            && (s.results[c].Ok? ==> s.results[c].principal == cache[key].principal)
  {
    OnlySuccessChangesCache(cookieName, run, more);
    var s, ask, answer := Final(cookieName, run + more), Start(c, cred, now, later), Answer(c, reply, at);
    AskInOutage(cookieName, s, c, cred, now, later, reply, at);
    assert (run + more + [ask])[..|run + more|] == run + more;
    assert (run + more + [ask] + [answer])[..|run + more + [ask]|] == run + more + [ask];
  }

  /** That is: exactly when the latest success stored for its key since the cache was last emptied is young enough. */
  lemma OutageLetsInIff(cookieName: string, run: seq<Step>, c: CallId, cred: Credential, now: real, later: real, reply: Reply, at: real)
    requires c !in Final(cookieName, run).pending && c !in Final(cookieName, run).results
    requires KeyOf(cred, cookieName).Some? && IsOutage(reply)
    ensures var latest := Latest(Recent(Final(cookieName, run).stored), KeyOf(cred, cookieName).value);
            var s := Final(cookieName, run + [Start(c, cred, now, later)] + [Answer(c, reply, at)]);
            && c in s.results
            && (s.results[c].Ok? <==> latest.Some? && StillGood(latest.value.time, now, later))
            && (s.results[c].Ok? ==> s.results[c].principal == latest.value.principal)
  {
    CacheIsRecent(cookieName, run, KeyOf(cred, cookieName).value);
    var none: seq<Step> := [];
    assert run + none == run;
    RefusalIsForgotten(cookieName, run, none, c, cred, now, later, reply, at);
  }

  /** A session that the upstream refuses at second 100 and that is let in at second 200, when it cannot be reached. */
  lemma RefusedAndServed(cookieName: string, data: SessionData) returns (run: seq<Step>)
    ensures Timely(cookieName, run, 0.0)
    ensures Final(cookieName, run).results ==
            map[0 := Ok(Kept(data).principal), 1 := Err(InvalidSession), 2 := Ok(Kept(data).principal)]
  {
    run := StoreAtZero(cookieName, data, 0.0);
    var p := Kept(data).principal;
    run := AskAt(cookieName, data, run, map[0 := Ok(p)], 1, 100.0, Status(401));
    run := AskAt(cookieName, data, run, map[0 := Ok(p), 1 := Err(InvalidSession)], 2, 200.0, SendFailed);
    assert map[0 := Ok(p), 1 := Err(InvalidSession)][2 := Ok(p)] == map[0 := Ok(p), 1 := Err(InvalidSession), 2 := Ok(p)];
  }

  ghost predicate KeepsStored(s: State, data: SessionData, results: map<CallId, Result>) {
    s.cache == StoredAtZero(data).cache && s.pending == map[] && s.results == results
  }

  /** One more call for the session stored at second 0, between its twentieth and its six hundredth second. */
  lemma AskAt(cookieName: string, data: SessionData, run: seq<Step>, results: map<CallId, Result>, c: CallId, t: real, reply: Reply)
      returns (run': seq<Step>)
    requires Timely(cookieName, run, 0.0) && KeepsStored(Final(cookieName, run), data, results)
    requires c !in results && FRESH <= t < STALE && !reply.Session?
    ensures Timely(cookieName, run', 0.0)
    ensures KeepsStored(Final(cookieName, run'), data, results[c := Decide(Some(Kept(data).principal), reply, BearerAuth)])
  {
    var ask, answer := Start(c, Bearer("x"), t, t), Answer(c, reply, t);
    AskedLater(cookieName, data, Final(cookieName, run), results, c, t);
    FinalSnoc(cookieName, run, ask, 0.0);
    var s := Final(cookieName, run + [ask]);
    FinalSnoc(cookieName, run + [ask], answer, 0.0);
    assert s.pending - {c} == map[];
    run' := run + [ask] + [answer];
  }

  lemma AskedLater(cookieName: string, data: SessionData, s: State, results: map<CallId, Result>, c: CallId, t: real)
    requires KeepsStored(s, data, results) && c !in results && FRESH <= t < STALE
    ensures var s' := Apply(cookieName, s, Start(c, Bearer("x"), t, t));
            && s'.cache == s.cache && s'.results == results
            && s'.pending == map[c := Pending(BearerAuth, "bearer:x", Some(Kept(data).principal), |s.stored|, t, t)]
  {
    assert "bearer:" + "x" == "bearer:x";
  }

  // ---------------------------------------------------------------------
  // Keys and principals
  // ---------------------------------------------------------------------

  /** The first piece of a cookie header that gives a session cookie gives it the value `token`. */
  ghost predicate FirstTokenIs(header: string, cookieName: string, token: string) {
    exists forwarded :: Forwards(Split(header, ';'), cookieName, forwarded, Some(token))
  }

  ghost predicate HasNoToken(header: string, cookieName: string) {
    forall i :: 0 <= i < |Split(header, ';')| ==> !GivesSome(Split(header, ';')[i], cookieName)
  }

  /** A bearer token is looked up under its own name, and a cookie header under the value of its first session cookie. */
  lemma KeyIs(cred: Credential, cookieName: string)
    ensures cred.Bearer? ==> KeyOf(cred, cookieName) == Some("bearer:" + cred.token)
    ensures cred.Cookie? ==>
              match KeyOf(cred, cookieName)
              case Some(key) => exists token :: key == "cookie:" + token && FirstTokenIs(cred.header, cookieName, token)
              case None => HasNoToken(cred.header, cookieName)
  {
    if cred.Cookie? {
      var pieces := Split(cred.header, ';');
      var forwarded := seq(|SessionPieces(pieces, cookieName)|, i requires 0 <= i < |SessionPieces(pieces, cookieName)| =>
        if Pair(SessionPieces(pieces, cookieName)[i]).Some? then Cleaned(SessionPieces(pieces, cookieName)[i]) else "");
      AllPairs(pieces, cookieName);
      PiecesForward(pieces, cookieName, forwarded, TokenOf(SessionPieces(pieces, cookieName)));
      if KeyOf(cred, cookieName).None? {
        var at :| ForwardsAt(pieces, cookieName, forwarded, None, at);
        assert at == [];
      } else {
        var token := TokenOf(SessionPieces(pieces, cookieName)).value;
        assert FirstTokenIs(cred.header, cookieName, token);
      }
    }
  }

  lemma AllPairs(pieces: seq<string>, cookieName: string)
    ensures forall i :: 0 <= i < |SessionPieces(pieces, cookieName)| ==> Pair(SessionPieces(pieces, cookieName)[i]).Some?
  {
    var at := SessionPositions(pieces, cookieName);
    forall i | 0 <= i < |at| ensures Pair(SessionPieces(pieces, cookieName)[i]).Some? {
      assert at[i] in at;
      IsSessionIff(pieces[at[i]], cookieName);
    }
  }

  /** A principal's address, when there is one, is the user's, trimmed and in lower case, and there is one exactly when that
      is not empty; its id is the session's, or the user's if the session's is blank, and all else is as given. */
  lemma PrincipalIsNormal(data: SessionData, how: AuthMethod)
    ensures var p := PrincipalFrom(data, how);
            && (p.email.Some? <==> data.email.Some? && Trim(data.email.value) != "")
            && (p.email.Some? ==> p.email.value == Lower(Trim(data.email.value)) && IsTrimmed(p.email.value) && Lower(p.email.value) == p.email.value)
            && IsTrimmed(p.userId)
            && p.userId == (if Trim(data.sessionUserId) != "" then Trim(data.sessionUserId) else Trim(data.userId))
            && p.sessionId == data.sessionId && p.orgId == data.orgId && p.method_ == how
            && (data.role.Some? ==> p.roles == [data.role.value]) && (data.role.None? ==> p.roles == [])
  {
    TrimIdempotent(data.sessionUserId);
    TrimIdempotent(data.userId);
    if data.email.Some? {
      TrimIdempotent(data.email.value);
      LowerKeepsTrimmed(Trim(data.email.value));
    }
  }
}
