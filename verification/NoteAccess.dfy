/** Who may do what with a note: the role found for one note, and the roles found for a whole list. */
module NoteAccess {
  import opened Prelude
  import opened ShareTable

  datatype Role = Owner | Editor | Viewer

  datatype Scope = Scope(userId: string, email: Option<string>)

  datatype Note = Note(id: string, ownerUserId: Option<string>, ownerEmail: Option<string>, archived: bool)

  function NormalizeUserId(v: Option<string>): Option<string> {
    if v.Some? && Trim(v.value) != "" then Some(Trim(v.value)) else None
  }

  function NormalizePermission(v: Option<string>): Option<string> {
    if v.None? then None
    else
      var p := Lower(Trim(v.value));
      if p == "viewer" || p == "editor" then Some(p) else None
  }

  function RoleOf(permission: string): Option<Role> {
    match NormalizePermission(Some(permission))
    case Some(p) => if p == "editor" then Some(Editor) else Some(Viewer)
    case None => None
  }

  /** The principal's own address, or the forwarded one if it was forwarded for the same user. */
  function ScopeFrom(userId: string, email: Option<string>, forwardedUser: Option<string>, forwardedEmail: Option<string>): Scope {
    var id := NormalizeUserId(Some(userId)).GetOr("");
    var forwarded := if NormalizeUserId(forwardedUser) == Some(id) then NormalizeEmail(forwardedEmail) else None;
    Scope(id, if NormalizeEmail(email).Some? then NormalizeEmail(email) else forwarded)
  }

  predicate NormalScope(scope: Scope) { IsTrimmed(scope.userId) && NormalizeEmail(scope.email) == scope.email }

  lemma ScopesAreNormal(userId: string, email: Option<string>, forwardedUser: Option<string>, forwardedEmail: Option<string>)
    ensures NormalScope(ScopeFrom(userId, email, forwardedUser, forwardedEmail))
  {
    TrimIdempotent(userId);
    NormalizeEmailTwice(email);
    NormalizeEmailTwice(forwardedEmail);
  }

  /** A user id is normalised by trimming it, and a blank one is none. */
  lemma NormalizeUserIdIs(v: Option<string>)
    ensures BlankOption(v) <==> NormalizeUserId(v).None?
    ensures !BlankOption(v) ==> NormalizeUserId(v) == Some(Trim(v.value))
  {
  }

  /** An actor's address is the principal's own; only where that is blank is it the forwarded one, and only
      where that was forwarded for the actor's own id. */
  lemma ScopeIs(userId: string, email: Option<string>, forwardedUser: Option<string>, forwardedEmail: Option<string>)
    ensures var scope := ScopeFrom(userId, email, forwardedUser, forwardedEmail);
            && scope.userId == Trim(userId)
            && (!BlankOption(email) ==> scope.email == Some(Lower(Trim(email.value))))
            && (BlankOption(email) ==>
                  if !BlankOption(forwardedUser) && Trim(forwardedUser.value) == Trim(userId) && !BlankOption(forwardedEmail)
                  then scope.email == Some(Lower(Trim(forwardedEmail.value))) else scope.email == None)
  {
    NormalizeUserIdIs(Some(userId));
    NormalizeUserIdIs(forwardedUser);
    NormalizeEmailIs(email);
    NormalizeEmailIs(forwardedEmail);
  }

  /** A permission means a role when it is that word, in any case and with any space around it, and nothing else. */
  lemma RoleIs(permission: string)
    ensures RoleOf(permission) == Some(Editor) <==> Lower(Trim(permission)) == "editor"
    ensures RoleOf(permission) == Some(Viewer) <==> Lower(Trim(permission)) == "viewer"
    ensures RoleOf(permission) != Some(Owner)
  {
    assert "editor"[0] == 'e' && "viewer"[0] == 'v';
  }

  /** An actor owns a note exactly when its owner's id, trimmed and not blank, is the actor's, or both have an address and
      the two are the same but for case and the space around them. */
  lemma OwnsIff(scope: Scope, note: Note)
    ensures ScopeOwns(scope, note) <==>
      || (!BlankOption(note.ownerUserId) && Trim(note.ownerUserId.value) == scope.userId)
      || (!BlankOption(scope.email) && !BlankOption(note.ownerEmail)
          && Lower(Trim(scope.email.value)) == Lower(Trim(note.ownerEmail.value)))
  {
    NormalizeUserIdIs(note.ownerUserId);
    NormalizeEmailIs(scope.email);
    NormalizeEmailIs(note.ownerEmail);
  }

  predicate SameSome<T(==)>(a: Option<T>, b: Option<T>) { a.Some? && a == b }

  predicate ScopeOwns(scope: Scope, note: Note) {
    || NormalizeUserId(note.ownerUserId) == Some(scope.userId)
    || SameSome(NormalizeEmail(scope.email), NormalizeEmail(note.ownerEmail))
  }

  // ---------------------------------------------------------------------
  // One note
  // ---------------------------------------------------------------------

  /** The first row whose permission means something. */
  function FirstRole(rows: seq<ShareRow>): Option<Role> {
    if rows == [] then None
    else if RoleOf(rows[0].permission).Some? then RoleOf(rows[0].permission)
    else FirstRole(rows[1..])
  }

  function UserRow(rows: seq<ShareRow>, scope: Scope, id: string): Option<ShareRow> {
    if scope.userId == "" then None else Find(rows, id, UserTarget(scope.userId))
  }

  function EmailRow(rows: seq<ShareRow>, scope: Scope, id: string): Option<ShareRow> {
    if scope.email.None? then None else Find(rows, id, EmailTarget(scope.email.value))
  }

  /** Of the share for the user and the share for the address the newer one counts; the user's, if they are of one age. */
  function DirectRole(user: Option<ShareRow>, email: Option<ShareRow>): Option<Role> {
    FirstRole(NewestFirst(AsSeq(user) + AsSeq(email)))
  }

  function SharedRole(rows: seq<ShareRow>, scope: Scope, id: string): Option<Role> {
    DirectRole(UserRow(rows, scope, id), EmailRow(rows, scope, id))
  }

  type Notes = m: map<string, Note> | forall id :: id in m ==> m[id].id == id

  function Resolve(notes: Notes, rows: seq<ShareRow>, scope: Scope, id: string): Option<Role> {
    if id !in notes then None
    else if ScopeOwns(scope, notes[id]) then Some(Owner)
    else SharedRole(rows, scope, id)
  }

  /** An answer to the question for the user's row, if it is asked. */
  ghost predicate UserAnswer(answer: Option<ShareRow>, rows: seq<ShareRow>, scope: Scope, id: string) {
    scope.userId != "" ==> AnswersOne(answer, rows, RowFor(id, UserTarget(scope.userId)))
  }

  ghost predicate EmailAnswer(answer: Option<ShareRow>, rows: seq<ShareRow>, scope: Scope, id: string) {
    scope.email.Some? ==> AnswersOne(answer, rows, RowFor(id, EmailTarget(scope.email.value)))
  }

  lemma OneRow(rows: seq<ShareRow>, id: string, t: Target, answer: Option<ShareRow>)
    requires Single(rows) && AnswersOne(answer, rows, RowFor(id, t))
    ensures answer == Find(rows, id, t)
  {
    OneAnswer(rows, id, t, answer, Where(rows, NamedBy(t)));
  }

  /** The role for one note, from whatever rows the data plane chose to answer with. */
  method ResolveNoteAccess(notes: Notes, ghost rows: seq<ShareRow>, scope: Scope, id: string,
                           byUser: Option<ShareRow>, byEmail: Option<ShareRow>) returns (role: Option<Role>)
    requires Single(rows) && UserAnswer(byUser, rows, scope, id) && EmailAnswer(byEmail, rows, scope, id)
    ensures role == Resolve(notes, rows, scope, id)
  {
    if id !in notes {
      return None;
    }
    if ScopeOwns(scope, notes[id]) {
      return Some(Owner);
    }
    var candidates := [];
    if scope.userId != "" {
      OneRow(rows, id, UserTarget(scope.userId), byUser);
      candidates := candidates + AsSeq(byUser);
    }
    if scope.email.Some? {
      OneRow(rows, id, EmailTarget(scope.email.value), byEmail);
      candidates := candidates + AsSeq(byEmail);
    }
    assert candidates == AsSeq(UserRow(rows, scope, id)) + AsSeq(EmailRow(rows, scope, id));
    var sorted := NewestFirst(candidates);
    for k := 0 to |sorted|
      invariant FirstRole(sorted[k..]) == FirstRole(sorted)
    {
      role := RoleOf(sorted[k].permission);
      if role.Some? {
        return;
      }
    }
    role := None;
  }

  // ---------------------------------------------------------------------
  // Many notes at once
  // ---------------------------------------------------------------------

  function Look(roles: map<string, Role>, id: string): Option<Role> { if id in roles then Some(roles[id]) else None }

  function RoleFor(rows: seq<ShareRow>, id: string): Option<Role> { FirstRole(Where(rows, OfNote(id))) }

  /** For every note the map holds the first role that the rows give. */
  ghost predicate Gives(roles: map<string, Role>, rows: seq<ShareRow>) {
    forall id :: Look(roles, id) == RoleFor(rows, id)
  }

  lemma {:induction false} FirstRoleConcat(a: seq<ShareRow>, b: seq<ShareRow>)
    ensures FirstRole(a + b) == if FirstRole(a).Some? then FirstRole(a) else FirstRole(b)
  {
    if a == [] {
      assert a + b == b;
    } else {
      assert (a + b)[1..] == a[1..] + b;
      FirstRoleConcat(a[1..], b);
    }
  }

  lemma OneMoreRow(rows: seq<ShareRow>, r: ShareRow, id: string)
    ensures RoleFor(rows + [r], id) ==
            if RoleFor(rows, id).Some? || r.noteId != id then RoleFor(rows, id) else RoleOf(r.permission)
  {
    WhereConcat(rows, [r], OfNote(id));
    FirstRoleConcat(Where(rows, OfNote(id)), Where([r], OfNote(id)));
  }

  function TakeRow(roles: map<string, Role>, id: string, role: Option<Role>): map<string, Role> {
    if id in roles || role.None? then roles else roles[id := role.value]
  }

  lemma GivesSnoc(roles: map<string, Role>, rows: seq<ShareRow>, r: ShareRow)
    requires Gives(roles, rows)
    ensures Gives(TakeRow(roles, r.noteId, RoleOf(r.permission)), rows + [r])
  {
    var roles' := TakeRow(roles, r.noteId, RoleOf(r.permission));
    forall id ensures Look(roles', id) == RoleFor(rows + [r], id) {
      OneMoreRow(rows, r, id);
      assert Look(roles, id) == RoleFor(rows, id);
    }
  }

  method CollectRoles(rows: seq<ShareRow>) returns (roles: map<string, Role>)
    ensures Gives(roles, rows)
  {
    roles := map[];
    for k := 0 to |rows|
      invariant Gives(roles, rows[..k])
    {
      GivesSnoc(roles, rows[..k], rows[k]);
      assert rows[..k + 1] == rows[..k] + [rows[k]];
      if rows[k].noteId in roles {
        continue;
      }
      var role := RoleOf(rows[k].permission);
      if role.Some? {
        roles := roles[rows[k].noteId := role.value];
      }
    }
    assert rows[..|rows|] == rows;
  }

  ghost predicate UserAnswers(answer: seq<ShareRow>, rows: seq<ShareRow>, scope: Scope) {
    if scope.userId == "" then answer == [] else Answers(answer, rows, NamedBy(UserTarget(scope.userId)))
  }

  ghost predicate EmailAnswers(answer: seq<ShareRow>, rows: seq<ShareRow>, scope: Scope) {
    if scope.email.None? then answer == [] else Answers(answer, rows, NamedBy(EmailTarget(scope.email.value)))
  }

  lemma AnswerForNote(rows: seq<ShareRow>, id: string, t: Target, answer: seq<ShareRow>)
    requires Single(rows) && Answers(answer, rows, NamedBy(t))
    ensures Where(answer, OfNote(id)) == AsSeq(Find(rows, id, t))
  {
    OneAnswer(rows, id, t, Find(rows, id, t), answer);
  }

  /** Sorting all shares of an actor and taking the first for a note gives what sorting the note's own shares gives. */
  lemma BatchIsDirect(rows: seq<ShareRow>, scope: Scope, id: string, byUser: seq<ShareRow>, byEmail: seq<ShareRow>)
    requires Single(rows) && UserAnswers(byUser, rows, scope) && EmailAnswers(byEmail, rows, scope)
    ensures RoleFor(NewestFirst(byUser + byEmail), id) == SharedRole(rows, scope, id)
  {
    SortThenSelect(byUser + byEmail, OfNote(id));
    WhereConcat(byUser, byEmail, OfNote(id));
    if scope.userId != "" {
      AnswerForNote(rows, id, UserTarget(scope.userId), byUser);
    }
    if scope.email.Some? {
      AnswerForNote(rows, id, EmailTarget(scope.email.value), byEmail);
    }
  }

  method FetchSharedPermissions(ghost rows: seq<ShareRow>, scope: Scope, byUser: seq<ShareRow>, byEmail: seq<ShareRow>)
      returns (roles: map<string, Role>)
    requires Single(rows) && UserAnswers(byUser, rows, scope) && EmailAnswers(byEmail, rows, scope)
    ensures forall id :: Look(roles, id) == SharedRole(rows, scope, id)
  {
    var entries := byUser + byEmail;
    roles := CollectRoles(NewestFirst(entries));
    forall id ensures Look(roles, id) == SharedRole(rows, scope, id) {
      BatchIsDirect(rows, scope, id, byUser, byEmail);
    }
  }

  // ---------------------------------------------------------------------
  // The list
  // ---------------------------------------------------------------------

  /** The owner fields as stored name the actor to the letter, which is what the list's queries ask. */
  predicate OwnedExactly(scope: Scope, note: Note) {
    (scope.userId != "" && note.ownerUserId == Some(scope.userId)) || SameSome(scope.email, note.ownerEmail)
  }

  predicate Shown(note: Note, includeArchived: bool) { includeArchived || !note.archived }

  ghost predicate NotesAnswer(answer: seq<Note>, notes: Notes, p: Note -> bool) {
    forall n :: n in answer <==> n.id in notes && notes[n.id] == n && p(n)
  }

  /** The first row for each id, in which all rows agree with the table. */
  method FirstById(notes: Notes, rows: seq<Note>) returns (byId: map<string, Note>)
    requires forall n :: n in rows ==> n.id in notes && notes[n.id] == n
    ensures forall id :: id in byId <==> id in notes && notes[id] in rows
    ensures forall id :: id in byId ==> byId[id] == notes[id]
  {
    byId := map[];
    for k := 0 to |rows|
      invariant forall id :: id in byId <==> id in notes && notes[id] in rows[..k]
      invariant forall id :: id in byId ==> byId[id] == notes[id]
    {
      assert rows[..k + 1] == rows[..k] + [rows[k]];
      assert rows[k] in rows;
      if rows[k].id !in byId {
        byId := byId[rows[k].id := rows[k]];
      }
    }
    assert rows[..|rows|] == rows;
  }

  function RoleIn(roles: map<string, Role>, scope: Scope, note: Note): Option<Role> {
    if ScopeOwns(scope, note) then Some(Owner) else Look(roles, note.id)
  }

  function OwnerQuery(scope: Scope, includeArchived: bool): Note -> bool {
    (n: Note) => Shown(n, includeArchived) && OwnedExactly(scope, n)
  }

  function IdQuery(ids: set<string>, includeArchived: bool): Note -> bool {
    (n: Note) => Shown(n, includeArchived) && n.id in ids
  }

  /** What belongs on the list: notes that resolve, archived ones only if asked for, whose stored owner fields name the actor
      to the letter or that are shared with the actor. */
  ghost predicate Belongs(notes: Notes, rows: seq<ShareRow>, scope: Scope, includeArchived: bool, id: string) {
    && Resolve(notes, rows, scope, id).Some? && (notes[id].archived ==> includeArchived)
    && (|| (scope.userId != "" && notes[id].ownerUserId == Some(scope.userId))
        || (scope.email.Some? && notes[id].ownerEmail == scope.email)
        || SharedRole(rows, scope, id).Some?)
  }

  /** The list of notes. Every listed note has the role that asking for it alone gives, and the list is the
      notes that resolve and may be shown, less those whose owner is stored in another spelling. */
  method ListNotes(notes: Notes, ghost rows: seq<ShareRow>, scope: Scope, includeArchived: bool,
                   owned: seq<Note>, byUser: seq<ShareRow>, byEmail: seq<ShareRow>, byIds: set<string> -> seq<Note>)
      returns (listed: map<string, Role>)
    requires NormalScope(scope) && Single(rows)
    requires NotesAnswer(owned, notes, OwnerQuery(scope, includeArchived))
    requires UserAnswers(byUser, rows, scope) && EmailAnswers(byEmail, rows, scope)
    requires forall ids :: NotesAnswer(byIds(ids), notes, IdQuery(ids, includeArchived))
    ensures forall id :: id in listed ==> Resolve(notes, rows, scope, id) == Some(listed[id])
    ensures forall id :: id in listed <==> Belongs(notes, rows, scope, includeArchived, id)
  {
    var roles := FetchSharedPermissions(rows, scope, byUser, byEmail);
    var shared := byIds(roles.Keys);
    assert NotesAnswer(shared, notes, IdQuery(roles.Keys, includeArchived));
    var byId := FirstById(notes, owned + shared);
    listed := map id | id in byId && RoleIn(roles, scope, byId[id]).Some? :: RoleIn(roles, scope, byId[id]).value;
    forall id ensures id in listed <==> Belongs(notes, rows, scope, includeArchived, id)
              ensures id in listed ==> Resolve(notes, rows, scope, id) == Some(listed[id])
    {
      if id in notes {
        FoundIff(notes, scope, includeArchived, owned, shared, roles, id);
        RoleAgrees(notes, rows, scope, roles, id);
      }
    }
  }

  lemma FoundIff(notes: Notes, scope: Scope, includeArchived: bool, owned: seq<Note>, shared: seq<Note>, roles: map<string, Role>, id: string)
    requires NotesAnswer(owned, notes, OwnerQuery(scope, includeArchived))
    requires NotesAnswer(shared, notes, IdQuery(roles.Keys, includeArchived))
    requires id in notes
    ensures notes[id] in owned + shared <==>
            Shown(notes[id], includeArchived) && (OwnedExactly(scope, notes[id]) || Look(roles, id).Some?)
  {
  }

  lemma RoleAgrees(notes: Notes, rows: seq<ShareRow>, scope: Scope, roles: map<string, Role>, id: string)
    requires NormalScope(scope) && id in notes && Look(roles, id) == SharedRole(rows, scope, id)
    ensures RoleIn(roles, scope, notes[id]) == Resolve(notes, rows, scope, id)
    ensures OwnedExactly(scope, notes[id]) ==> RoleIn(roles, scope, notes[id]).Some?
  {
    if OwnedExactly(scope, notes[id]) {
      ExactlyOwns(scope, notes[id]);
    }
  }

  lemma ExactlyOwns(scope: Scope, note: Note)
    requires NormalScope(scope) && OwnedExactly(scope, note)
    ensures ScopeOwns(scope, note)
  {
  }

  predicate NormalOwner(note: Note) {
    NormalizeUserId(note.ownerUserId) == note.ownerUserId && NormalizeEmail(note.ownerEmail) == note.ownerEmail
  }

  /** Where owner fields are stored normalised, the two ways of owning are one. */
  lemma OwnsExactly(scope: Scope, note: Note)
    requires NormalScope(scope) && NormalOwner(note)
    ensures ScopeOwns(scope, note) <==> OwnedExactly(scope, note)
  {
  }

  /** With archived notes included the list is exactly the notes that resolve, if and only if every owned note
      is either stored under the actor's normalised spelling or also shared with the actor. */
  lemma ListIsCompleteIff(notes: Notes, rows: seq<ShareRow>, scope: Scope)
    ensures (forall id :: Belongs(notes, rows, scope, true, id) <==> Resolve(notes, rows, scope, id).Some?) <==>
            (forall id :: id in notes && ScopeOwns(scope, notes[id]) ==> OwnedExactly(scope, notes[id]) || SharedRole(rows, scope, id).Some?)
  {
    if forall id :: Belongs(notes, rows, scope, true, id) <==> Resolve(notes, rows, scope, id).Some? {
      forall id | id in notes && ScopeOwns(scope, notes[id])
        ensures OwnedExactly(scope, notes[id]) || SharedRole(rows, scope, id).Some?
      {
        assert Resolve(notes, rows, scope, id).Some?;
      }
    }
  }

  lemma NormalListIsComplete(notes: Notes, rows: seq<ShareRow>, scope: Scope)
    requires NormalScope(scope) && forall id :: id in notes ==> NormalOwner(notes[id])
    ensures forall id :: Belongs(notes, rows, scope, true, id) <==> Resolve(notes, rows, scope, id).Some?
  {
    forall id | id in notes ensures ScopeOwns(scope, notes[id]) <==> OwnedExactly(scope, notes[id]) {
      OwnsExactly(scope, notes[id]);
    }
    ListIsCompleteIff(notes, rows, scope);
  }

  /** Otherwise a note can open for its owner and yet be missing from the owner's list, archived notes included. */
  lemma SpellingHidesNotes()
    ensures var notes := map["n" := Note("n", None, Some("Ann@x"), false)];
            var scope := Scope("u", Some("ann@x"));
            NormalScope(scope) && Resolve(notes, [], scope, "n") == Some(Owner) && !Belongs(notes, [], scope, true, "n")
  {
    AnnIsAnn();
    NothingShared(Scope("u", Some("ann@x")), "n");
    assert "ann@x"[0] != "Ann@x"[0];
  }

  lemma AnnIsAnn()
    ensures NormalizeEmail(Some("Ann@x")) == Some("ann@x") && NormalizeEmail(Some("ann@x")) == Some("ann@x") && IsTrimmed("u")
  {
    assert TrimStart("ann@x") == "ann@x" && TrimStart("Ann@x") == "Ann@x" && TrimStart("u") == "u";
    assert Lower("ann@x") == "ann@x" && Lower("Ann@x") == "ann@x";
  }

  lemma NothingShared(scope: Scope, id: string)
    ensures SharedRole([], scope, id).None?
  {
    var none: seq<ShareRow> := [];
    assert AsSeq(UserRow([], scope, id)) + AsSeq(EmailRow([], scope, id)) == none;
  }
}
