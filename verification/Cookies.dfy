/** Cookie headers: which cookies carry a session, and the keys made from them. */
module Cookies {
  import opened Prelude

  // ---------------------------------------------------------------------
  // The session cookie of a rate-limited request
  // ---------------------------------------------------------------------

  const PLAIN: string := "better-auth.session_token"
  const SECURE: string := "__Secure-better-auth.session_token"

  function SessionValue(part: string): Option<string> {
    var pair := SplitOnce(Trim(part), '=');
    if pair.Some? && (pair.value.0 == PLAIN || pair.value.0 == SECURE) then Some(pair.value.1) else None
  }

  /** The first part that carries a session. */
  function ExtractSessionCookie(header: string): Option<string> { FirstOf(Split(header, ';'), SessionValue) }

  function RouteBucket(path: string): string {
    if StartsWith(path, "/api/exponential/tasks") then "/api/exponential/tasks"
    else if StartsWith(path, "/api/exponential/projects") then "/api/exponential/projects"
    else if StartsWith(path, "/api/exponential/teams") then "/api/exponential/teams"
    else "other"
  }

  /** The bucket a request is charged to: its session's, if its cookie header carries one, or else its address's,
      for the group of routes it asks for. `hash` is the fingerprint of a session value in hexadecimal. */
  function PrincipalKey(hash: string -> string, cookie: Option<string>, ip: string, path: string): string {
    var session := if cookie.Some? then ExtractSessionCookie(cookie.value) else None;
    var who := if session.Some? then "u:" + hash(session.value) else "ip:" + ip;
    who + ":" + RouteBucket(path)
  }

  lemma RouteHasNoColon(path: string)
    ensures ':' !in RouteBucket(path)
  {
  }

  /** Texts that end alike after their last colon are alike before it. */
  lemma LastColon(a: string, b: string, r: string, q: string)
    requires ':' !in r && ':' !in q && a + ":" + r == b + ":" + q
    ensures a == b && r == q
  {
    var s := a + ":" + r;
    assert s[|a|] == ':';
    assert forall i :: |a| < i < |s| ==> s[i] == r[i - |a| - 1] && s[i] != ':';
    assert s == b + ":" + q;
    assert s[|b|] == ':';
    assert forall i :: |b| < i < |s| ==> s[i] == q[i - |b| - 1] && s[i] != ':';
    assert |a| == |b|;
    assert a == s[..|a|] && b == s[..|b|];
    assert r == s[|a| + 1..] && q == s[|b| + 1..];
  }

  /** A piece of a cookie header that says the session is `v`. */
  predicate SaysSession(piece: string, v: string) {
    Trim(piece) == "better-auth.session_token" + "=" + v || Trim(piece) == "__Secure-better-auth.session_token" + "=" + v
  }

  lemma SessionValueIff(piece: string, v: string)
    ensures SessionValue(piece) == Some(v) <==> SaysSession(piece, v)
  {
    if SaysSession(piece, v) {
      var name := if Trim(piece) == PLAIN + "=" + v then PLAIN else SECURE;
      assert '=' !in name;
      SplitOnceIs(name, v, '=');
    }
  }

  /** The session of a request is what the first piece of its header that says one says, and none if none does. */
  lemma ExtractIff(header: string, v: string)
    ensures ExtractSessionCookie(header) == Some(v) <==> IsFirst(Split(header, ';'), SaysSession, v)
    ensures ExtractSessionCookie(header).None? <==> AllMute(Split(header, ';'), SaysSession)
  {
    forall piece, w ensures SessionValue(piece) == Some(w) <==> SaysSession(piece, w) {
      SessionValueIff(piece, w);
    }
    FirstOfIff(Split(header, ';'), SessionValue, SaysSession, v);
  }

  const GROUPS: seq<string> := ["/api/exponential/tasks", "/api/exponential/projects", "/api/exponential/teams"]

  /** A group of routes is charged by its prefix, and all other routes together. */
  lemma RouteBucketIs(path: string)
    ensures forall i :: 0 <= i < |GROUPS| ==> (RouteBucket(path) == GROUPS[i] <==> StartsWith(path, GROUPS[i]))
    ensures RouteBucket(path) == "other" <==> forall i :: 0 <= i < |GROUPS| ==> !StartsWith(path, GROUPS[i])
  {
    assert GROUPS[0][17] == 't' && GROUPS[1][17] == 'p' && GROUPS[2][17] == 't';
    assert GROUPS[0][18] == 'a' && GROUPS[2][18] == 'e' && "other"[0] == 'o';
    assert |GROUPS[0]| > 18 && |GROUPS[1]| > 18 && |GROUPS[2]| > 18;
  }

  predicate SameGroup(path: string, path': string) {
    forall i :: 0 <= i < |GROUPS| ==> (StartsWith(path, GROUPS[i]) <==> StartsWith(path', GROUPS[i]))
  }

  lemma SameGroupIff(path: string, path': string)
    ensures RouteBucket(path) == RouteBucket(path') <==> SameGroup(path, path')
  {
    RouteBucketIs(path);
    RouteBucketIs(path');
    if SameGroup(path, path') {
      assert GROUPS[0] in GROUPS && GROUPS[1] in GROUPS && GROUPS[2] in GROUPS;
    }
  }

  /** What a request's cookie header says about its session. */
  ghost predicate SaysOf(cookie: Option<string>, session: Option<string>) {
    if session.Some? then cookie.Some? && IsFirst(Split(cookie.value, ';'), SaysSession, session.value)
    else cookie.Some? ==> AllMute(Split(cookie.value, ';'), SaysSession)
  }

  lemma KeyOfSession(hash: string -> string, cookie: Option<string>, ip: string, path: string, session: Option<string>)
    requires SaysOf(cookie, session)
    ensures PrincipalKey(hash, cookie, ip, path)
         == (if session.Some? then "u:" + hash(session.value) else "ip:" + ip) + ":" + RouteBucket(path)
  {
    if cookie.Some? {
      ExtractIff(cookie.value, session.GetOr(""));
    }
  }

  /** Two requests share a bucket exactly when they ask for the same group of routes and either both
      carry sessions of one fingerprint or both carry none and come from one address. */
  lemma KeysTellPrincipals(hash: string -> string, cookie: Option<string>, ip: string, path: string, s: Option<string>,
                           cookie': Option<string>, ip': string, path': string, s': Option<string>)
    requires SaysOf(cookie, s) && SaysOf(cookie', s')
    ensures PrincipalKey(hash, cookie, ip, path) == PrincipalKey(hash, cookie', ip', path') <==>
              && SameGroup(path, path')
              && (if s.Some? then s'.Some? && hash(s.value) == hash(s'.value) else s'.None? && ip == ip')
  {
    var who := if s.Some? then "u:" + hash(s.value) else "ip:" + ip;
    var who' := if s'.Some? then "u:" + hash(s'.value) else "ip:" + ip';
    KeyOfSession(hash, cookie, ip, path, s);
    KeyOfSession(hash, cookie', ip', path', s');
    RouteHasNoColon(path);
    RouteHasNoColon(path');
    SameGroupIff(path, path');
    if PrincipalKey(hash, cookie, ip, path) == PrincipalKey(hash, cookie', ip', path') {
      LastColon(who, who', RouteBucket(path), RouteBucket(path'));
      assert s.Some? ==> who[0] == 'u' && who[2..] == hash(s.value);
      assert s.None? ==> who[0] == 'i' && who[3..] == ip;
      assert s'.Some? ==> who'[0] == 'u' && who'[2..] == hash(s'.value);
      assert s'.None? ==> who'[0] == 'i' && who'[3..] == ip';
    }
  }

  /** Every request's header says one thing about its session. */
  lemma SessionIsSaid(cookie: Option<string>) returns (session: Option<string>)
    ensures SaysOf(cookie, session) && forall other :: SaysOf(cookie, other) ==> other == session
  {
    session := if cookie.Some? then ExtractSessionCookie(cookie.value) else None;
    if cookie.Some? {
      ExtractIff(cookie.value, session.GetOr(""));
      forall other | SaysOf(cookie, other) ensures other == session {
        ExtractIff(cookie.value, other.GetOr(""));
      }
    }
  }

  // ---------------------------------------------------------------------
  // The session cookies forwarded upstream
  // ---------------------------------------------------------------------

  function Candidates(cookieName: string): set<string> { {cookieName, "__Secure-" + cookieName, PLAIN, SECURE} }

  /** The name and value of a cookie, or nothing when the piece has no equals sign. */
  function Pair(piece: string): Option<(string, string)> {
    var pair := SplitOnce(Trim(piece), '=');
    if pair.None? then None else Some((Trim(pair.value.0), Trim(pair.value.1)))
  }

  predicate IsSession(piece: string, cookieName: string) {
    Pair(piece).Some? && Pair(piece).value.0 in Candidates(cookieName)
  }

  function SessionPieces(pieces: seq<string>, cookieName: string): seq<string> {
    Select(pieces, (piece: string) => IsSession(piece, cookieName))
  }

  function Cleaned(piece: string): string
    requires Pair(piece).Some?
  {
    Pair(piece).value.0 + "=" + Pair(piece).value.1
  }

  predicate AreCleaned(forwarded: seq<string>, pieces: seq<string>) {
    |forwarded| == |pieces| && forall i :: 0 <= i < |pieces| ==> Pair(pieces[i]).Some? && forwarded[i] == Cleaned(pieces[i])
  }

  /** The token of the first session cookie. */
  function TokenOf(pieces: seq<string>): Option<string> {
    if pieces != [] && Pair(pieces[0]).Some? then Some(Pair(pieces[0]).value.1) else None
  }

  lemma OneMore(forwarded: seq<string>, kept: seq<string>, piece: string)
    requires AreCleaned(forwarded, kept) && Pair(piece).Some?
    ensures AreCleaned(forwarded + [Cleaned(piece)], kept + [piece])
    ensures TokenOf(kept + [piece]) == if TokenOf(kept).Some? then TokenOf(kept) else Some(Pair(piece).value.1)
  {
  }

  lemma SessionSnoc(pieces: seq<string>, k: nat, cookieName: string)
    requires k < |pieces|
    ensures var kept := SessionPieces(pieces[..k], cookieName);
            SessionPieces(pieces[..k + 1], cookieName) == if IsSession(pieces[k], cookieName) then kept + [pieces[k]] else kept
  {
    assert pieces[..k + 1][..k] == pieces[..k];
  }

  /** A piece of a cookie header that gives a session cookie, of the configured name or of the usual one, the value `v`. */
  ghost predicate Gives(piece: string, cookieName: string, name: string, v: string) {
    && name in {cookieName, "__Secure-" + cookieName, "better-auth.session_token", "__Secure-better-auth.session_token"}
    && exists k, w :: Trim(piece) == k + "=" + w && '=' !in k && Trim(k) == name && Trim(w) == v
  }

  lemma PairIff(piece: string, name: string, v: string)
    ensures Pair(piece) == Some((name, v)) <==>
            exists k, w :: Trim(piece) == k + "=" + w && '=' !in k && Trim(k) == name && Trim(w) == v
  {
    var pair := SplitOnce(Trim(piece), '=');
    if Pair(piece) == Some((name, v)) {
      assert Trim(piece) == pair.value.0 + "=" + pair.value.1 && '=' !in pair.value.0;
    }
    if k, w :| Trim(piece) == k + "=" + w && '=' !in k && Trim(k) == name && Trim(w) == v {
      SplitOnceIs(k, w, '=');
    }
  }

  lemma GivesIff(piece: string, cookieName: string, name: string, v: string)
    ensures Gives(piece, cookieName, name, v) <==> IsSession(piece, cookieName) && Pair(piece) == Some((name, v))
  {
    PairIff(piece, name, v);
  }

  ghost predicate GivesSome(piece: string, cookieName: string) { exists name, v :: Gives(piece, cookieName, name, v) }

  /** Positions of all the pieces that give a session cookie, in order. */
  ghost predicate AreGiving(pieces: seq<string>, cookieName: string, at: seq<nat>) {
    && (forall k :: 0 <= k < |at| ==> at[k] < |pieces|)
    && (forall j, k :: 0 <= j < k < |at| ==> at[j] < at[k])
    && (forall i: nat :: i < |pieces| ==> (i in at <==> GivesSome(pieces[i], cookieName)))
  }

  lemma IsSessionIff(piece: string, cookieName: string)
    ensures IsSession(piece, cookieName) <==> GivesSome(piece, cookieName)
  {
    if IsSession(piece, cookieName) {
      GivesIff(piece, cookieName, Pair(piece).value.0, Pair(piece).value.1);
    }
    if name, v :| Gives(piece, cookieName, name, v) {
      GivesIff(piece, cookieName, name, v);
    }
  }

  lemma SessionPositions(pieces: seq<string>, cookieName: string) returns (at: seq<nat>)
    ensures AreGiving(pieces, cookieName, at)
    ensures |at| == |SessionPieces(pieces, cookieName)|
    ensures forall k :: 0 <= k < |at| ==> SessionPieces(pieces, cookieName)[k] == pieces[at[k]]
  {
    at := SelectPositions(pieces, (piece: string) => IsSession(piece, cookieName));
    forall i: nat | i < |pieces| ensures i in at <==> GivesSome(pieces[i], cookieName) {
      IsSessionIff(pieces[i], cookieName);
    }
  }

  /** Keeps the session cookies of a header, in order, and nothing else; the token is the first one's. */
  method ForwardedCookies(header: string, cookieName: string) returns (forwarded: seq<string>, token: Option<string>)
    ensures AreCleaned(forwarded, SessionPieces(Split(header, ';'), cookieName))
    ensures token == TokenOf(SessionPieces(Split(header, ';'), cookieName))
    ensures Forwards(Split(header, ';'), cookieName, forwarded, token)
  {
    var pieces := Split(header, ';');
    ghost var kept: seq<string> := [];
    forwarded, token := [], None;
    for k := 0 to |pieces|
      invariant kept == SessionPieces(pieces[..k], cookieName)
      invariant AreCleaned(forwarded, kept) && token == TokenOf(kept)
    {
      SessionSnoc(pieces, k, cookieName);
      var pair := Pair(pieces[k]);
      if pair.Some? && pair.value.0 in Candidates(cookieName) {
        OneMore(forwarded, kept, pieces[k]);
        kept := kept + [pieces[k]];
        forwarded := forwarded + [pair.value.0 + "=" + pair.value.1];
        if token.None? {
          token := Some(pair.value.1);
        }
      }
    }
    assert pieces[..|pieces|] == pieces;
    PiecesForward(pieces, cookieName, forwarded, token);
  }

  /** A forwarded cookie is what its piece gives, without the white space around name and value. */
  ghost predicate ForwardsPiece(piece: string, cookieName: string, forwarded: string) {
    exists name, v :: Gives(piece, cookieName, name, v) && forwarded == name + "=" + v
  }

  ghost predicate TokenOfPiece(piece: string, cookieName: string, token: string) {
    exists name :: Gives(piece, cookieName, name, token)
  }

  /** What is forwarded, said of the header's pieces: one cookie for each that gives a session cookie, in order; and
      the token is the first one's value, if there is one. */
  ghost predicate ForwardsAt(pieces: seq<string>, cookieName: string, forwarded: seq<string>, token: Option<string>, at: seq<nat>) {
    && AreGiving(pieces, cookieName, at) && |forwarded| == |at|
    && (forall k :: 0 <= k < |at| ==> ForwardsPiece(pieces[at[k]], cookieName, forwarded[k]))
    && (token.Some? <==> at != [])
    && (at != [] ==> TokenOfPiece(pieces[at[0]], cookieName, token.value))
  }

  ghost predicate Forwards(pieces: seq<string>, cookieName: string, forwarded: seq<string>, token: Option<string>) {
    exists at :: ForwardsAt(pieces, cookieName, forwarded, token, at)
  }

  lemma PieceForwards(piece: string, cookieName: string)
    requires IsSession(piece, cookieName)
    ensures ForwardsPiece(piece, cookieName, Cleaned(piece)) && TokenOfPiece(piece, cookieName, Pair(piece).value.1)
  {
    GivesIff(piece, cookieName, Pair(piece).value.0, Pair(piece).value.1);
  }

  lemma PiecesForward(pieces: seq<string>, cookieName: string, forwarded: seq<string>, token: Option<string>)
    requires AreCleaned(forwarded, SessionPieces(pieces, cookieName)) && token == TokenOf(SessionPieces(pieces, cookieName))
    ensures Forwards(pieces, cookieName, forwarded, token)
  {
    var at := SessionPositions(pieces, cookieName);
    forall k | 0 <= k < |at|
      ensures IsSession(pieces[at[k]], cookieName)
      ensures ForwardsPiece(pieces[at[k]], cookieName, Cleaned(pieces[at[k]]))
      ensures TokenOfPiece(pieces[at[k]], cookieName, Pair(pieces[at[k]]).value.1)
    {
      assert at[k] in at;
      IsSessionIff(pieces[at[k]], cookieName);
      PieceForwards(pieces[at[k]], cookieName);
    }
    assert ForwardsAt(pieces, cookieName, forwarded, token, at);
  }
}
