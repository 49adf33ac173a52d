/** The table of note shares: selecting rows, and putting them in order by age. */
module ShareTable {
  import opened Prelude

  datatype ShareRow = ShareRow(noteId: string, user: Option<string>, email: Option<string>, permission: string, createdAt: Option<string>)

  datatype Target = UserTarget(user: string) | EmailTarget(email: string)

  predicate Names(r: ShareRow, t: Target) {
    match t
    case UserTarget(u) => r.user == Some(u)
    case EmailTarget(e) => r.email == Some(e)
  }

  function OfNote(id: string): ShareRow -> bool { (r: ShareRow) => r.noteId == id }
  function NamedBy(t: Target): ShareRow -> bool { (r: ShareRow) => Names(r, t) }
  function OfAge(at: Option<string>): ShareRow -> bool { (r: ShareRow) => r.createdAt == at }
  function RowFor(id: string, t: Target): ShareRow -> bool { (r: ShareRow) => r.noteId == id && Names(r, t) }

  function Where(rows: seq<ShareRow>, p: ShareRow -> bool): seq<ShareRow> {
    if rows == [] then []
    else if p(rows[0]) then [rows[0]] + Where(rows[1..], p)
    else Where(rows[1..], p)
  }

  /** An answer to a query: the selected rows, in whatever order the data plane gives them. */
  ghost predicate Answers(answer: seq<ShareRow>, rows: seq<ShareRow>, p: ShareRow -> bool) {
    multiset(answer) == multiset(Where(rows, p))
  }

  /** An answer to a query for one row. */
  ghost predicate AnswersOne(answer: Option<ShareRow>, rows: seq<ShareRow>, p: ShareRow -> bool) {
    if answer.Some? then answer.value in Where(rows, p) else Where(rows, p) == []
  }

  lemma {:induction false} WhereCounts(rows: seq<ShareRow>, p: ShareRow -> bool, r: ShareRow)
    ensures multiset(Where(rows, p))[r] == if p(r) then multiset(rows)[r] else 0
  {
    if rows != [] {
      WhereCounts(rows[1..], p, r);
      assert rows == [rows[0]] + rows[1..];
    }
  }

  lemma {:induction false} WhereConcat(a: seq<ShareRow>, b: seq<ShareRow>, p: ShareRow -> bool)
    ensures Where(a + b, p) == Where(a, p) + Where(b, p)
  {
    if a == [] {
      assert a + b == b;
    } else {
      assert (a + b)[1..] == a[1..] + b;
      WhereConcat(a[1..], b, p);
    }
  }

  lemma {:induction false} WhereIn(rows: seq<ShareRow>, p: ShareRow -> bool, r: ShareRow)
    ensures r in Where(rows, p) <==> r in rows && p(r)
  {
    WhereCounts(rows, p, r);
    assert r in rows <==> multiset(rows)[r] > 0 by {
      assert r in rows <==> r in multiset(rows);
    }
    assert r in Where(rows, p) <==> r in multiset(Where(rows, p));
  }

  // ---------------------------------------------------------------------
  // Newest first
  // ---------------------------------------------------------------------

  /** Later than; a missing time is earlier than any. */
  predicate Newer(a: Option<string>, b: Option<string>) { a.Some? && (b.None? || Before(b.value, a.value)) }

  /** A row with a time is newer than one without, and of two times the one that sorts later; without a time none is. */
  lemma NewerIs(a: string, b: string, any: Option<string>)
    ensures Newer(Some(a), None) && !Newer(None, any) && (Newer(Some(a), Some(b)) <==> Before(b, a))
  {
  }

  lemma NewerChains(a: Option<string>, b: Option<string>, c: Option<string>)
    requires !Newer(c, b) && !Newer(b, a)
    ensures !Newer(c, a)
  {
    if c.Some? && b.Some? && a.Some? {
      BeforeTotal(a.value, b.value);
      BeforeTotal(b.value, c.value);
      if Before(a.value, c.value) {
        if Before(c.value, b.value) {
          BeforeTransitive(a.value, c.value, b.value);
        }
      }
    }
  }

  function Insert(r: ShareRow, rows: seq<ShareRow>): seq<ShareRow> {
    if rows == [] || !Newer(rows[0].createdAt, r.createdAt) then [r] + rows
    else [rows[0]] + Insert(r, rows[1..])
  }

  /** Sorted newest first; rows of one age keep their order. */
  function NewestFirst(rows: seq<ShareRow>): seq<ShareRow> {
    if rows == [] then [] else Insert(rows[0], NewestFirst(rows[1..]))
  }

  predicate InOrder(rows: seq<ShareRow>) {
    rows == [] || (InOrder(rows[1..]) && forall r :: r in rows[1..] ==> !Newer(r.createdAt, rows[0].createdAt))
  }

  lemma {:induction false} InsertKeeps(r: ShareRow, rows: seq<ShareRow>)
    requires InOrder(rows)
    ensures multiset(Insert(r, rows)) == multiset(rows) + multiset{r}
    ensures InOrder(Insert(r, rows))
  {
    if rows != [] {
      assert rows == [rows[0]] + rows[1..];
      if Newer(rows[0].createdAt, r.createdAt) {
        InsertKeeps(r, rows[1..]);
        var more := Insert(r, rows[1..]);
        assert ([rows[0]] + more)[1..] == more;
        forall x | x in more ensures !Newer(x.createdAt, rows[0].createdAt) {
          assert x in multiset(more);
          if x == r {
            NewerFlips(rows[0].createdAt, r.createdAt);
          }
        }
      } else {
        assert ([r] + rows)[1..] == rows;
        forall x | x in rows ensures !Newer(x.createdAt, r.createdAt) {
          if x != rows[0] {
            NewerChains(r.createdAt, rows[0].createdAt, x.createdAt);
          }
        }
      }
    }
  }

  lemma NewerFlips(a: Option<string>, b: Option<string>)
    requires Newer(a, b)
    ensures !Newer(b, a)
  {
    if b.Some? {
      BeforeAsymmetric(b.value, a.value);
    }
  }

  /** Sorting keeps all rows and puts them in order. */
  lemma {:induction false} SortIsSorted(rows: seq<ShareRow>)
    ensures InOrder(NewestFirst(rows)) && multiset(NewestFirst(rows)) == multiset(rows)
  {
    if rows != [] {
      SortIsSorted(rows[1..]);
      InsertKeeps(rows[0], NewestFirst(rows[1..]));
      assert rows == [rows[0]] + rows[1..];
    }
  }

  lemma {:induction false} InsertThenSelect(r: ShareRow, rows: seq<ShareRow>, p: ShareRow -> bool)
    requires InOrder(rows)
    ensures Where(Insert(r, rows), p) == if p(r) then Insert(r, Where(rows, p)) else Where(rows, p)
  {
    if rows == [] || !Newer(rows[0].createdAt, r.createdAt) {
      assert ([r] + rows)[1..] == rows;
      var chosen := Where(rows, p);
      if chosen != [] {
        WhereIn(rows, p, chosen[0]);
        if chosen[0] != rows[0] {
          assert chosen[0] in rows[1..];
          NewerChains(r.createdAt, rows[0].createdAt, chosen[0].createdAt);
        }
      }
    } else {
      InsertThenSelect(r, rows[1..], p);
      var more := Insert(r, rows[1..]);
      assert ([rows[0]] + more)[1..] == more;
      if p(rows[0]) {
        assert Where(rows, p)[1..] == Where(rows[1..], p);
      }
    }
  }

  /** Selecting from sorted rows is sorting the selected ones. */
  lemma {:induction false} SortThenSelect(rows: seq<ShareRow>, p: ShareRow -> bool)
    ensures Where(NewestFirst(rows), p) == NewestFirst(Where(rows, p))
  {
    if rows != [] {
      SortThenSelect(rows[1..], p);
      SortIsSorted(rows[1..]);
      InsertThenSelect(rows[0], NewestFirst(rows[1..]), p);
      if p(rows[0]) {
        assert Where(rows, p)[1..] == Where(rows[1..], p);
      }
    }
  }

  predicate SameAge(rows: seq<ShareRow>, at: Option<string>) { forall r :: r in rows ==> r.createdAt == at }

  lemma {:induction false} SortOfOneAge(rows: seq<ShareRow>, at: Option<string>)
    requires SameAge(rows, at)
    ensures NewestFirst(rows) == rows
  {
    if rows != [] {
      SortOfOneAge(rows[1..], at);
      if at.Some? && Before(at.value, at.value) {
        BeforeAsymmetric(at.value, at.value);
      }
      assert rows == [rows[0]] + rows[1..];
    }
  }

  /** Rows of one age stay in the order they had. */
  lemma SortIsStable(rows: seq<ShareRow>, at: Option<string>)
    ensures Where(NewestFirst(rows), OfAge(at)) == Where(rows, OfAge(at))
  {
    var p := OfAge(at);
    SortThenSelect(rows, p);
    forall r | r in Where(rows, p) ensures r.createdAt == at {
      WhereIn(rows, p, r);
    }
    SortOfOneAge(Where(rows, p), at);
  }

  // ---------------------------------------------------------------------
  // At most one row for a note and a target
  // ---------------------------------------------------------------------

  predicate Single(rows: seq<ShareRow>) {
    forall i, j :: 0 <= i < j < |rows| ==> !(rows[i].noteId == rows[j].noteId && SharesTarget(rows[i], rows[j]))
  }

  predicate SharesTarget(a: ShareRow, b: ShareRow) {
    (a.user.Some? && a.user == b.user) || (a.email.Some? && a.email == b.email)
  }

  lemma {:induction false} SingleSelects(rows: seq<ShareRow>, id: string, t: Target)
    requires Single(rows)
    ensures |Where(rows, RowFor(id, t))| <= 1
  {
    if rows != [] {
      var p := RowFor(id, t);
      SingleSelects(rows[1..], id, t);
      if p(rows[0]) && Where(rows[1..], p) != [] {
        WhereIn(rows[1..], p, Where(rows[1..], p)[0]);
        assert false;
      }
    }
  }

  /** What one look finds. */
  function Find(rows: seq<ShareRow>, id: string, t: Target): Option<ShareRow> {
    var found := Where(rows, RowFor(id, t));
    if found == [] then None else Some(found[0])
  }

  function AsSeq(r: Option<ShareRow>): seq<ShareRow> { if r.Some? then [r.value] else [] }

  /** In such a table every query for one row has one answer, and a query for all rows of a target holds
      that row and no other for the note. */
  lemma OneAnswer(rows: seq<ShareRow>, id: string, t: Target, one: Option<ShareRow>, all: seq<ShareRow>)
    requires Single(rows) && AnswersOne(one, rows, RowFor(id, t)) && Answers(all, rows, NamedBy(t))
    ensures one == Find(rows, id, t)
    ensures Where(all, OfNote(id)) == AsSeq(one)
  {
    SingleSelects(rows, id, t);
    SameBag(rows, id, t, all);
    SmallBags(Where(all, OfNote(id)), Where(rows, RowFor(id, t)));
  }

  lemma SameBag(rows: seq<ShareRow>, id: string, t: Target, all: seq<ShareRow>)
    requires Answers(all, rows, NamedBy(t))
    ensures multiset(Where(all, OfNote(id))) == multiset(Where(rows, RowFor(id, t)))
  {
    var here, found := Where(all, OfNote(id)), Where(rows, RowFor(id, t));
    forall r ensures multiset(here)[r] == multiset(found)[r] {
      WhereCounts(all, OfNote(id), r);
      WhereCounts(rows, NamedBy(t), r);
      WhereCounts(rows, RowFor(id, t), r);
    }
  }

  lemma SmallBags(a: seq<ShareRow>, b: seq<ShareRow>)
    requires multiset(a) == multiset(b) && |b| <= 1
    ensures a == b
  {
    assert |a| == |multiset(a)| == |multiset(b)| == |b|;
    if |b| == 1 {
      assert b[0] in multiset(b);
      assert b[0] in a;
    }
  }
}
