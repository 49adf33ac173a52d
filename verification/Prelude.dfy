/** Vocabulary shared by the components: optional values, sums over maps, and
    the text operations the gateway borrows from its host language. */
module Prelude {

  datatype Option<+T> = None | Some(value: T) {
    function GetOr(default: T): T {
      match this
      case Some(v) => v
      case None => default
    }
  }

  /** A truth value as a count. */
  function Bit(b: bool): nat { if b then 1 else 0 }

  // ---------------------------------------------------------------------
  // Sums over finite maps
  // ---------------------------------------------------------------------

  /** The sum of `weight` over the values of `m`, in whatever order keys are met. */
  ghost function Sum<K, V>(m: map<K, V>, weight: V -> nat): nat
    decreases |m|
  {
    if m == map[] then 0
    else
      var k :| k in m;
      weight(m[k]) + Sum(m - {k}, weight)
  }

  /** The order of keys does not matter: any key may be taken out first. */
  lemma {:induction false} SumTakeOut<K, V>(m: map<K, V>, weight: V -> nat, k: K)
    requires k in m
    ensures Sum(m, weight) == weight(m[k]) + Sum(m - {k}, weight)
    decreases |m|
  {
    var j :| j in m && Sum(m, weight) == weight(m[j]) + Sum(m - {j}, weight);
    if j != k {
      SumTakeOut(m - {j}, weight, k);
      SumTakeOut(m - {k}, weight, j);
      assert m - {j} - {k} == m - {k} - {j};
    }
  }

  /** What one update does to the sum. */
  lemma SumUpdate<K, V>(m: map<K, V>, weight: V -> nat, k: K, v: V)
    ensures Sum(m[k := v], weight) + (if k in m then weight(m[k]) else 0)
         == Sum(m, weight) + weight(v)
  {
    SumTakeOut(m[k := v], weight, k);
    assert m[k := v] - {k} == m - {k};
    if k in m {
      SumTakeOut(m, weight, k);
    } else {
      assert m - {k} == m;
    }
  }

  // ---------------------------------------------------------------------
  // The first, and all, elements of a kind
  // ---------------------------------------------------------------------

  /** What the first element with an answer answers. */
  function FirstOf(s: seq<string>, answer: string -> Option<string>): Option<string> {
    if s == [] then None
    else if answer(s[0]).Some? then answer(s[0])
    else FirstOf(s[1..], answer)
  }

  ghost predicate IsFirst(s: seq<string>, says: (string, string) -> bool, v: string) {
    exists i :: 0 <= i < |s| && says(s[i], v) && AllMute(s[..i], says)
  }

  ghost predicate AllMute(s: seq<string>, says: (string, string) -> bool) {
    forall i, w :: 0 <= i < |s| ==> !says(s[i], w)
  }

  lemma {:induction false} FirstOfIff(s: seq<string>, answer: string -> Option<string>, says: (string, string) -> bool, v: string)
    requires forall x, w :: answer(x) == Some(w) <==> says(x, w)
    ensures FirstOf(s, answer) == Some(v) <==> IsFirst(s, says, v)
    ensures FirstOf(s, answer).None? <==> AllMute(s, says)
  {
    if s != [] {
      FirstOfIff(s[1..], answer, says, v);
      if answer(s[0]).Some? {
        FirstAnswers(s, says, v, answer(s[0]).value);
      } else {
        assert forall w :: !says(s[0], w) by {
          forall w ensures !says(s[0], w) {
            assert answer(s[0]) != Some(w);
          }
        }
        FirstIsMute(s, says, v);
      }
    }
  }

  lemma FirstAnswers(s: seq<string>, says: (string, string) -> bool, v: string, w: string)
    requires s != [] && forall u :: says(s[0], u) <==> u == w
    ensures IsFirst(s, says, v) <==> v == w
    ensures !AllMute(s, says)
  {
    assert AllMute(s[..0], says) && says(s[0], w);
    forall i | 0 < i < |s| ensures !AllMute(s[..i], says) {
      assert s[..i][0] == s[0];
    }
  }

  lemma FirstIsMute(s: seq<string>, says: (string, string) -> bool, v: string)
    requires s != [] && forall w :: !says(s[0], w)
    ensures IsFirst(s, says, v) <==> IsFirst(s[1..], says, v)
    ensures AllMute(s, says) <==> AllMute(s[1..], says)
  {
    var rest := s[1..];
    if IsFirst(s, says, v) {
      var i :| 0 <= i < |s| && says(s[i], v) && AllMute(s[..i], says);
      assert rest[..i - 1] == s[..i][1..] && says(rest[i - 1], v);
    }
    if IsFirst(rest, says, v) {
      var i :| 0 <= i < |rest| && says(rest[i], v) && AllMute(rest[..i], says);
      assert s[..i + 1] == [s[0]] + rest[..i] && says(s[i + 1], v);
    }
  }

  function Select<T>(s: seq<T>, p: T -> bool): seq<T> {
    if s == [] then []
    else
      var front, last := Select(s[..|s| - 1], p), s[|s| - 1];
      if p(last) then front + [last] else front
  }

  /** `at` are the positions of the elements of the kind, in order. */
  ghost predicate AreAll<T>(s: seq<T>, p: T -> bool, at: seq<nat>) {
    && (forall k :: 0 <= k < |at| ==> at[k] < |s|)
    && (forall j, k :: 0 <= j < k < |at| ==> at[j] < at[k])
    && (forall i: nat :: i < |s| ==> (i in at <==> p(s[i])))
  }

  lemma {:induction false} SelectPositions<T>(s: seq<T>, p: T -> bool) returns (at: seq<nat>)
    ensures AreAll(s, p, at) && |at| == |Select(s, p)|
    ensures forall k :: 0 <= k < |at| ==> Select(s, p)[k] == s[at[k]]
  {
    if s == [] {
      at := [];
    } else {
      var n := |s| - 1;
      var before := SelectPositions(s[..n], p);
      at := if p(s[n]) then before + [n] else before;
      MorePositions(s, p, before, at);
    }
  }

  lemma MorePositions<T>(s: seq<T>, p: T -> bool, before: seq<nat>, at: seq<nat>)
    requires s != [] && AreAll(s[..|s| - 1], p, before)
    requires at == if p(s[|s| - 1]) then before + [|s| - 1] else before
    ensures AreAll(s, p, at)
  {
    forall i: nat | i < |s| ensures i in at <==> p(s[i]) {
      if i < |s| - 1 {
        assert s[..|s| - 1][i] == s[i];
      }
    }
  }

  // ---------------------------------------------------------------------
  // Text
  // ---------------------------------------------------------------------

  /** The characters with the Unicode property White_Space. */
  predicate IsSpace(c: char) {
    || '\U{0009}' <= c <= '\U{000D}' || c == ' ' || c == '\U{0085}' || c == '\U{00A0}'
    || c == '\U{1680}' || '\U{2000}' <= c <= '\U{200A}' || c == '\U{2028}' || c == '\U{2029}'
    || c == '\U{202F}' || c == '\U{205F}' || c == '\U{3000}'
  }

  function TrimStart(s: string): (r: string)
    ensures |r| <= |s|
    ensures r != [] ==> !IsSpace(r[0])
    ensures s != [] && !IsSpace(s[0]) ==> r == s
  {
    if s != [] && IsSpace(s[0]) then TrimStart(s[1..]) else s
  }

  function TrimEnd(s: string): (r: string)
    ensures r <= s
    ensures r != [] ==> !IsSpace(r[|r| - 1])
    ensures s != [] && !IsSpace(s[|s| - 1]) ==> r == s
  {
    if s != [] && IsSpace(s[|s| - 1]) then TrimEnd(s[..|s| - 1]) else s
  }

  function Trim(s: string): (r: string)
    ensures r != [] ==> !IsSpace(r[0]) && !IsSpace(r[|r| - 1])
  {
    TrimEnd(TrimStart(s))
  }

  predicate IsTrimmed(s: string) { Trim(s) == s }

  predicate AllSpace(s: string) { forall i :: 0 <= i < |s| ==> IsSpace(s[i]) }

  lemma {:induction false} TrimStartIs(a: string, t: string)
    requires AllSpace(a) && (t != [] ==> !IsSpace(t[0]))
    ensures TrimStart(a + t) == t
  {
    if a == [] {
      assert a + t == t;
    } else {
      assert (a + t)[1..] == a[1..] + t;
      TrimStartIs(a[1..], t);
    }
  }

  lemma {:induction false} TrimEndIs(t: string, b: string)
    requires AllSpace(b) && (t != [] ==> !IsSpace(t[|t| - 1]))
    ensures TrimEnd(t + b) == t
  {
    if b == [] {
      assert t + b == t;
    } else {
      assert (t + b)[..|t + b| - 1] == t + b[..|b| - 1];
      TrimEndIs(t, b[..|b| - 1]);
    }
  }

  /** Trimming takes the white space off both ends and nothing else. */
  lemma TrimIs(a: string, t: string, b: string)
    requires AllSpace(a) && AllSpace(b) && (t != [] ==> !IsSpace(t[0]) && !IsSpace(t[|t| - 1]))
    ensures Trim(a + t + b) == t
  {
    if t == [] {
      var all := a + t + b;
      assert AllSpace(all) && all + [] == all;
      TrimStartIs(all, []);
    } else {
      assert a + t + b == a + (t + b);
      TrimStartIs(a, t + b);
      TrimEndIs(t, b);
    }
  }

  lemma TrimIdempotent(s: string)
    ensures IsTrimmed(Trim(s))
  {}

  function LowerChar(c: char): char {
    if 'A' <= c <= 'Z' then c + 32 as char else c
  }

  /** ASCII lower-casing: all other characters stay. */
  function Lower(s: string): (r: string)
    ensures |r| == |s| && forall i :: 0 <= i < |s| ==> r[i] == LowerChar(s[i])
  {
    seq(|s|, i requires 0 <= i < |s| => LowerChar(s[i]))
  }

  /** Lower-casing neither makes nor removes white space at the ends. */
  lemma LowerKeepsTrimmed(s: string)
    requires IsTrimmed(s)
    ensures IsTrimmed(Lower(s)) && Lower(Lower(s)) == Lower(s)
  {
    var l := Lower(s);
    if s != [] {
      assert !IsSpace(s[0]) && !IsSpace(s[|s| - 1]) by {
        assert s == Trim(s);
      }
      assert l[0] == LowerChar(s[0]) && l[|l| - 1] == LowerChar(s[|s| - 1]);
      assert !IsSpace(l[0]) && !IsSpace(l[|l| - 1]);
      assert TrimStart(l) == l;
    }
    assert Lower(l) == l;
  }

  function NormalizeEmail(email: Option<string>): Option<string> {
    if email.Some? && Lower(Trim(email.value)) != "" then Some(Lower(Trim(email.value))) else None
  }

  predicate BlankOption(v: Option<string>) { v.None? || Trim(v.value) == "" }

  /** An address is normalised by trimming and lower-casing it, and a blank one is none. */
  lemma NormalizeEmailIs(email: Option<string>)
    ensures BlankOption(email) <==> NormalizeEmail(email).None?
    ensures !BlankOption(email) ==> NormalizeEmail(email) == Some(Lower(Trim(email.value)))
  {
    if email.Some? {
      assert |Lower(Trim(email.value))| == |Trim(email.value)|;
    }
  }

  lemma NormalizeEmailTwice(email: Option<string>)
    ensures NormalizeEmail(NormalizeEmail(email)) == NormalizeEmail(email)
  {
    if email.Some? {
      LowerKeepsTrimmed(Trim(email.value));
    }
  }

  predicate StartsWith(s: string, p: string) { p <= s }

  predicate EndsWith(s: string, p: string) { |p| <= |s| && s[|s| - |p|..] == p }

  predicate Contains(s: string, p: string) {
    exists i :: 0 <= i <= |s| && StartsWith(s[i..], p)
  }

  // ---------------------------------------------------------------------
  // Splitting
  // ---------------------------------------------------------------------

  /** The pieces of `s` between occurrences of `c`; there is always one. */
  function Split(s: string, c: char): (pieces: seq<string>)
    ensures |pieces| >= 1
  {
    if s == [] then [""]
    else
      var rest := Split(s[1..], c);
      if s[0] == c then [""] + rest else [[s[0]] + rest[0]] + rest[1..]
  }

  function JoinWith(pieces: seq<string>, sep: string): string {
    if pieces == [] then ""
    else if |pieces| == 1 then pieces[0]
    else pieces[0] + sep + JoinWith(pieces[1..], sep)
  }

  lemma JoinPrepends(front: string, pieces: seq<string>, sep: string)
    requires pieces != []
    ensures JoinWith([front + pieces[0]] + pieces[1..], sep) == front + JoinWith(pieces, sep)
  {
    var all := [front + pieces[0]] + pieces[1..];
    assert all[1..] == pieces[1..];
    if |pieces| > 1 {
      var rest := JoinWith(pieces[1..], sep);
      assert (front + pieces[0]) + sep + rest == front + (pieces[0] + sep + rest);
    }
  }

  /** Nothing is lost in splitting. */
  lemma {:induction false} SplitIsJoined(s: string, c: char)
    ensures JoinWith(Split(s, c), [c]) == s
  {
    if s != [] {
      SplitIsJoined(s[1..], c);
      var rest := Split(s[1..], c);
      if s[0] == c {
        assert ([""] + rest)[1..] == rest;
        assert "" + [c] + s[1..] == s;
      } else {
        JoinPrepends([s[0]], rest, [c]);
        assert [s[0]] + s[1..] == s;
      }
    }
  }

  /** No piece holds a separator. */
  lemma {:induction false} PiecesAreFree(s: string, c: char)
    ensures forall i :: 0 <= i < |Split(s, c)| ==> c !in Split(s, c)[i]
  {
    if s != [] {
      PiecesAreFree(s[1..], c);
    }
  }

  lemma {:induction false} SplitFree(s: string, c: char)
    requires c !in s
    ensures Split(s, c) == [s]
  {
    if s != [] {
      SplitFree(s[1..], c);
      assert [s[0]] + s[1..] == s;
    }
  }

  lemma {:induction false} SplitAt(a: string, b: string, c: char)
    requires c !in a
    ensures Split(a + [c] + b, c) == [a] + Split(b, c)
  {
    var s := a + [c] + b;
    if a == [] {
      assert s[1..] == b;
    } else {
      assert s[1..] == a[1..] + [c] + b && s[0] == a[0];
      SplitAt(a[1..], b, c);
      assert [a[0]] + a[1..] == a;
    }
  }

  /** What is before and after the first `c`. */
  function SplitOnce(s: string, c: char): (r: Option<(string, string)>)
    ensures r.Some? <==> c in s
    ensures r.Some? ==> r.value.0 + [c] + r.value.1 == s && c !in r.value.0
  {
    if s == [] then None
    else if s[0] == c then Some(("", s[1..]))
    else
      var rest := SplitOnce(s[1..], c);
      if rest.None? then None else Some(([s[0]] + rest.value.0, rest.value.1))
  }

  /** It is the only such pair. */
  lemma {:induction false} SplitOnceIs(a: string, b: string, c: char)
    requires c !in a
    ensures SplitOnce(a + [c] + b, c) == Some((a, b))
  {
    var s := a + [c] + b;
    if a == [] {
      assert s[0] == c && s[1..] == b;
    } else {
      assert s[0] == a[0] && s[1..] == a[1..] + [c] + b;
      SplitOnceIs(a[1..], b, c);
      assert [a[0]] + a[1..] == a;
    }
  }

  // ---------------------------------------------------------------------
  // The order of strings: by the first character in which they differ
  // ---------------------------------------------------------------------

  predicate Before(a: string, b: string) {
    b != [] && (a == [] || a[0] < b[0] || (a[0] == b[0] && Before(a[1..], b[1..])))
  }

  lemma {:induction false} BeforeTotal(a: string, b: string)
    ensures Before(a, b) || Before(b, a) || a == b
  {
    if a != [] && b != [] && a[0] == b[0] {
      BeforeTotal(a[1..], b[1..]);
      assert a == [a[0]] + a[1..] && b == [b[0]] + b[1..];
    }
  }

  lemma {:induction false} BeforeAsymmetric(a: string, b: string)
    requires Before(a, b)
    ensures !Before(b, a) && a != b
  {
    if a != [] && a[0] == b[0] {
      BeforeAsymmetric(a[1..], b[1..]);
    }
  }

  lemma {:induction false} BeforeTransitive(a: string, b: string, c: string)
    requires Before(a, b) && Before(b, c)
    ensures Before(a, c)
  {
    if a != [] && a[0] == b[0] && b[0] == c[0] {
      BeforeTransitive(a[1..], b[1..], c[1..]);
    }
  }

  /** Strings that open with parts of one length are ordered part by part. */
  lemma {:induction false} BeforeByParts(a: string, a': string, b: string, b': string)
    requires |a| == |b|
    ensures Before(a + a', b + b') <==> Before(a, b) || (a == b && Before(a', b'))
  {
    if a == [] {
      assert a + a' == a' && b + b' == b';
    } else {
      assert (a + a')[1..] == a[1..] + a' && (b + b')[1..] == b[1..] + b';
      BeforeByParts(a[1..], a', b[1..], b');
      assert a == [a[0]] + a[1..] && b == [b[0]] + b[1..];
    }
  }
}
