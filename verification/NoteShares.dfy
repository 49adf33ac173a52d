/** Giving and taking shares of notes. */
module NoteShares {
  import opened Prelude
  import opened ShareTable
  import opened NoteAccess

  datatype Payload = Payload(
    permission: Option<string>, user: Option<string>, email: Option<string>,
    public: bool, publicLink: bool, scope: Option<string>)

  predicate AsksForPublicLink(p: Payload) {
    p.public || p.publicLink || (p.scope.Some? && Lower(Trim(p.scope.value)) == "public")
  }

  /** A user id goes before an address. */
  function NormalizeTarget(p: Payload): Option<Target> {
    var user, email := NormalizeUserId(p.user), NormalizeEmail(p.email);
    if user.Some? then Some(UserTarget(user.value))
    else if email.Some? then Some(EmailTarget(email.value))
    else None
  }

  /** The user id of a payload goes before its address, and either counts only if it is not blank. */
  lemma TargetIs(p: Payload)
    ensures !BlankOption(p.user) ==> NormalizeTarget(p) == Some(UserTarget(Trim(p.user.value)))
    ensures BlankOption(p.user) && !BlankOption(p.email) ==> NormalizeTarget(p) == Some(EmailTarget(Lower(Trim(p.email.value))))
    ensures NormalizeTarget(p).None? <==> BlankOption(p.user) && BlankOption(p.email)
  {
    NormalizeUserIdIs(p.user);
    NormalizeEmailIs(p.email);
  }

  predicate TargetIsOwner(t: Target, note: Note) {
    match t
    case UserTarget(u) => SameSome(NormalizeUserId(Some(u)), NormalizeUserId(note.ownerUserId))
    case EmailTarget(e) => SameSome(NormalizeEmail(Some(e)), NormalizeEmail(note.ownerEmail))
  }

  /** What the data plane does with the look-ups and writes of one request. */
  datatype InsertReply = InsertFailed | Inserted(now: Option<string>, returned: bool)
  datatype WriteReply = Failed | Unanswered | Done   // unanswered: done, but the gateway cannot know
  datatype ShareIo = ShareIo(lookupOk: bool, patch: WriteReply, insert: InsertReply, delete: WriteReply)

  datatype Reply =
    | NotFound | NotJson | NoPublicLinks | BadPermission | NoTarget | Forbidden | OwnerHasAccess | Upstream
    | Shared(row: ShareRow) | Removed

  /** A request; a payload that is not JSON is none. */
  datatype Request =
    | Upsert(scope: Scope, noteId: string, payload: Option<Payload>, io: ShareIo)
    | Remove(scope: Scope, noteId: string, payload: Option<Payload>, io: ShareIo)

  datatype Check = Refused(reply: Reply) | Granted(target: Target, permission: string)

  // ---------------------------------------------------------------------
  // The two handlers
  // ---------------------------------------------------------------------

  /** What a payload says, once read. */
  datatype Said = Said(public: bool, permission: Option<string>, target: Option<Target>)

  function SaidBy(payload: Option<Payload>): Option<Said> {
    if payload.None? then None
    else
      Some(Said(AsksForPublicLink(payload.value), NormalizePermission(payload.value.permission), NormalizeTarget(payload.value)))
  }

  /** The checks of both handlers, in their order; only the owner gets through. */
  function CheckSaid(upsert: bool, id: string, said: Option<Said>, lookupOk: bool, resolved: Option<Role>, note: Option<Note>): Check {
    if id == "" then Refused(NotFound)
    else if said.None? then Refused(NotJson)
    else if upsert && said.value.public then Refused(NoPublicLinks)
    else if upsert && said.value.permission.None? then Refused(BadPermission)
    else if said.value.target.None? then Refused(NoTarget)
    else if !lookupOk then Refused(Upstream)
    else if resolved.None? then Refused(NotFound)
    else if resolved.value != Owner then Refused(Forbidden)
    else if upsert && note.Some? && TargetIsOwner(said.value.target.value, note.value) then Refused(OwnerHasAccess)
    else Granted(said.value.target.value, if upsert then said.value.permission.value else "")
  }

  function Patched(rows: seq<ShareRow>, id: string, t: Target, permission: string): (r: seq<ShareRow>)
    ensures |r| == |rows|
  {
    seq(|rows|, i requires 0 <= i < |rows| => if RowFor(id, t)(rows[i]) then rows[i].(permission := permission) else rows[i])
  }

  function NewRow(id: string, t: Target, permission: string, now: Option<string>): ShareRow {
    match t
    case UserTarget(u) => ShareRow(id, Some(u), None, permission, now)
    case EmailTarget(e) => ShareRow(id, None, Some(e), permission, now)
  }

  function Other(id: string, t: Target): ShareRow -> bool { (r: ShareRow) => !RowFor(id, t)(r) }

  function Without(rows: seq<ShareRow>, id: string, t: Target): seq<ShareRow> {
    Where(rows, Other(id, t))
  }

  /** The table after an upsert of the data plane: update what is there, or else insert. */
  function Upserted(rows: seq<ShareRow>, id: string, t: Target, permission: string, io: ShareIo): seq<ShareRow> {
    if io.patch.Failed? then rows
    else if Find(rows, id, t).Some? then Patched(rows, id, t, permission)
    else if !io.patch.Done? || io.insert.InsertFailed? then rows
    else rows + [NewRow(id, t, permission, io.insert.now)]
  }

  function UpsertReply(rows: seq<ShareRow>, id: string, t: Target, permission: string, io: ShareIo): Reply {
    if !io.patch.Done? then Upstream
    else if Find(rows, id, t).Some? then Shared(Find(rows, id, t).value.(permission := permission))
    else if io.insert.InsertFailed? || !io.insert.returned then Upstream
    else Shared(NewRow(id, t, permission, io.insert.now))
  }

  function NoteAt(notes: Notes, id: string): Option<Note> { if id in notes then Some(notes[id]) else None }

  function CheckOf(notes: Notes, rows: seq<ShareRow>, q: Request): Check {
    var id := Trim(q.noteId);
    CheckSaid(q.Upsert?, id, SaidBy(q.payload), q.io.lookupOk, Resolve(notes, rows, q.scope, id), NoteAt(notes, id))
  }

  /** What a request does to the table once it is checked. */
  function AfterCheck(check: Check, rows: seq<ShareRow>, q: Request): seq<ShareRow> {
    match check
    case Refused(_) => rows
    case Granted(t, permission) =>
      if q.Upsert? then Upserted(rows, Trim(q.noteId), t, permission, q.io)
      else if q.io.delete.Failed? then rows
      else Without(rows, Trim(q.noteId), t)
  }

  function After(notes: Notes, rows: seq<ShareRow>, q: Request): seq<ShareRow> { AfterCheck(CheckOf(notes, rows, q), rows, q) }

  function ReplyTo(notes: Notes, rows: seq<ShareRow>, q: Request): Reply {
    match CheckOf(notes, rows, q)
    case Refused(reply) => reply
    case Granted(t, permission) =>
      if q.Upsert? then UpsertReply(rows, Trim(q.noteId), t, permission, q.io)
      else if q.io.delete.Done? then Removed
      else Upstream
  }

  /** The data plane's share table, as the handlers change it. */
  class Shares {
    const notes: Notes
    var rows: seq<ShareRow>

    constructor (notes: Notes)
      ensures this.notes == notes && rows == []
    {
      this.notes := notes;
      rows := [];
    }

    method UpsertInDataPlane(id: string, t: Target, permission: string, io: ShareIo) returns (reply: Reply)
      modifies this
      ensures rows == Upserted(old(rows), id, t, permission, io)
      ensures reply == UpsertReply(old(rows), id, t, permission, io)
    {
      if io.patch.Failed? {
        return Upstream;
      }
      var found := Find(rows, id, t);
      rows := Patched(rows, id, t, permission);
      if found.None? {
        PatchOfNothing(old(rows), id, t, permission);
      }
      if !io.patch.Done? {
        return Upstream;
      }
      if found.Some? {
        return Shared(found.value.(permission := permission));
      }
      if io.insert.InsertFailed? {
        return Upstream;
      }
      var row := NewRow(id, t, permission, io.insert.now);
      rows := rows + [row];
      if !io.insert.returned {
        return Upstream;
      }
      return Shared(row);
    }

    method UpsertNoteShare(scope: Scope, noteId: string, payload: Option<Payload>, io: ShareIo) returns (reply: Reply)
      modifies this
      ensures rows == After(notes, old(rows), Upsert(scope, noteId, payload, io))
      ensures reply == ReplyTo(notes, old(rows), Upsert(scope, noteId, payload, io))
    {
      var id := Trim(noteId);
      if id == "" {
        return NotFound;
      }
      if payload.None? {
        return NotJson;
      }
      if AsksForPublicLink(payload.value) {
        return NoPublicLinks;
      }
      var permission := NormalizePermission(payload.value.permission);
      if permission.None? {
        return BadPermission;
      }
      var target := NormalizeTarget(payload.value);
      if target.None? {
        return NoTarget;
      }
      if !io.lookupOk {
        return Upstream;
      }
      var role := Resolve(notes, rows, scope, id);
      if role.None? {
        return NotFound;
      }
      if role.value != Owner {
        return Forbidden;
      }
      if TargetIsOwner(target.value, notes[id]) {
        return OwnerHasAccess;
      }
      reply := UpsertInDataPlane(id, target.value, permission.value, io);
    }

    method RemoveNoteShare(scope: Scope, noteId: string, payload: Option<Payload>, io: ShareIo) returns (reply: Reply)
      modifies this
      ensures rows == After(notes, old(rows), Remove(scope, noteId, payload, io))
      ensures reply == ReplyTo(notes, old(rows), Remove(scope, noteId, payload, io))
    {
      var id := Trim(noteId);
      if id == "" {
        return NotFound;
      }
      if payload.None? {
        return NotJson;
      }
      var target := NormalizeTarget(payload.value);
      if target.None? {
        return NoTarget;
      }
      if !io.lookupOk {
        return Upstream;
      }
      var role := Resolve(notes, rows, scope, id);
      if role.None? {
        return NotFound;
      }
      if role.value != Owner {
        return Forbidden;
      }
      if io.delete.Failed? {
        return Upstream;
      }
      rows := Without(rows, id, target.value);
      if !io.delete.Done? {
        return Upstream;
      }
      return Removed;
    }
  }

  lemma FindNone(rows: seq<ShareRow>, id: string, t: Target)
    ensures Find(rows, id, t).None? <==> forall i :: 0 <= i < |rows| ==> !RowFor(id, t)(rows[i])
  {
    var p := RowFor(id, t);
    if Find(rows, id, t).Some? {
      WhereIn(rows, p, Where(rows, p)[0]);
    } else {
      forall i | 0 <= i < |rows| ensures !p(rows[i]) {
        WhereIn(rows, p, rows[i]);
      }
    }
  }

  lemma PatchOfNothing(rows: seq<ShareRow>, id: string, t: Target, permission: string)
    requires Find(rows, id, t).None?
    ensures Patched(rows, id, t, permission) == rows
  {
    FindNone(rows, id, t);
  }

  // ---------------------------------------------------------------------
  // What the table looks like after any run
  // ---------------------------------------------------------------------

  function TargetOf(r: ShareRow): Option<Target> {
    if r.user.Some? && r.email.None? then Some(UserTarget(r.user.value))
    else if r.user.None? && r.email.Some? then Some(EmailTarget(r.email.value))
    else None
  }

  predicate NormalTarget(t: Target) {
    match t
    case UserTarget(u) => NormalizeUserId(Some(u)) == Some(u)
    case EmailTarget(e) => NormalizeEmail(Some(e)) == Some(e)
  }

  /** A row names a user or an address and not both, in its normal form, and never the note's owner, and says viewer or editor. */
  predicate RowOk(notes: Notes, r: ShareRow) {
    && r.noteId in notes && (r.permission == "viewer" || r.permission == "editor")
    && TargetOf(r).Some? && NormalTarget(TargetOf(r).value) && !TargetIsOwner(TargetOf(r).value, notes[r.noteId])
  }

  ghost predicate Clean(notes: Notes, rows: seq<ShareRow>) {
    Single(rows) && forall i :: 0 <= i < |rows| ==> RowOk(notes, rows[i])
  }

  lemma TargetsAreNormal(p: Payload)
    ensures NormalizeTarget(p).Some? ==> NormalTarget(NormalizeTarget(p).value)
  {
    if p.user.Some? {
      TrimIdempotent(p.user.value);
    }
    NormalizeEmailTwice(p.email);
  }

  /** A request is granted only to the owner, for a note there is, and with a target that is not the owner. */
  lemma GrantedToOwner(notes: Notes, rows: seq<ShareRow>, q: Request)
    requires CheckOf(notes, rows, q).Granted?
    ensures var id := Trim(q.noteId);
            var check := CheckOf(notes, rows, q);
            && id in notes && ScopeOwns(q.scope, notes[id]) && NormalTarget(check.target)
            && (q.Upsert? ==> !TargetIsOwner(check.target, notes[id]) && (check.permission == "viewer" || check.permission == "editor"))
  {
    OwnersResolve(notes, rows, q.scope, Trim(q.noteId));
    TargetsAreNormal(q.payload.value);
  }

  lemma SharesAreNeverOwner(rows: seq<ShareRow>)
    ensures FirstRole(rows) != Some(Owner)
  {
  }

  /** Whoever may share a note owns it, whatever the table says. */
  lemma OwnersResolve(notes: Notes, rows: seq<ShareRow>, scope: Scope, id: string)
    ensures Resolve(notes, rows, scope, id) == Some(Owner) <==> id in notes && ScopeOwns(scope, notes[id])
  {
    SharesAreNeverOwner(NewestFirst(AsSeq(UserRow(rows, scope, id)) + AsSeq(EmailRow(rows, scope, id))));
  }

  lemma PatchKeepsClean(notes: Notes, rows: seq<ShareRow>, id: string, t: Target, permission: string)
    requires Clean(notes, rows) && (permission == "viewer" || permission == "editor")
    ensures Clean(notes, Patched(rows, id, t, permission))
  {
    var rows' := Patched(rows, id, t, permission);
    assert forall i :: 0 <= i < |rows| ==>
      rows'[i].noteId == rows[i].noteId && rows'[i].user == rows[i].user && rows'[i].email == rows[i].email;
    forall i | 0 <= i < |rows| ensures RowOk(notes, rows'[i]) {
      assert RowOk(notes, rows[i]);
    }
  }

  lemma InsertKeepsClean(notes: Notes, rows: seq<ShareRow>, id: string, t: Target, permission: string, now: Option<string>)
    requires Clean(notes, rows) && (permission == "viewer" || permission == "editor")
    requires id in notes && NormalTarget(t) && !TargetIsOwner(t, notes[id]) && Find(rows, id, t).None?
    ensures Clean(notes, rows + [NewRow(id, t, permission, now)])
  {
    FindNone(rows, id, t);
    var row := NewRow(id, t, permission, now);
    assert RowOk(notes, row);
    forall i | 0 <= i < |rows| ensures !(rows[i].noteId == id && SharesTarget(rows[i], row)) {
      assert !RowFor(id, t)(rows[i]);
    }
  }

  lemma {:induction false} SelectKeepsClean(notes: Notes, rows: seq<ShareRow>, p: ShareRow -> bool)
    requires Clean(notes, rows)
    ensures Clean(notes, Where(rows, p))
  {
    if rows != [] {
      SelectKeepsClean(notes, rows[1..], p);
      var more := Where(rows[1..], p);
      if p(rows[0]) {
        forall j | 0 <= j < |more| ensures !(rows[0].noteId == more[j].noteId && SharesTarget(rows[0], more[j])) {
          WhereIn(rows[1..], p, more[j]);
          var k :| 0 <= k < |rows[1..]| && rows[1..][k] == more[j];
          assert rows[k + 1] == more[j];
        }
      }
    }
  }

  lemma StepKeepsClean(notes: Notes, rows: seq<ShareRow>, q: Request)
    requires Clean(notes, rows)
    ensures Clean(notes, After(notes, rows, q))
  {
    var check := CheckOf(notes, rows, q);
    if check.Granted? {
      GrantedToOwner(notes, rows, q);
      if q.Remove? {
        SelectKeepsClean(notes, rows, Other(Trim(q.noteId), check.target));
      } else {
        AfterGranted(notes, rows, q, check.target, check.permission);
        UpsertKeepsClean(notes, rows, Trim(q.noteId), check.target, check.permission, q.io);
      }
    }
  }

  lemma UpsertKeepsClean(notes: Notes, rows: seq<ShareRow>, id: string, t: Target, permission: string, io: ShareIo)
    requires Clean(notes, rows) && (permission == "viewer" || permission == "editor")
    requires id in notes && NormalTarget(t) && !TargetIsOwner(t, notes[id])
    ensures Clean(notes, Upserted(rows, id, t, permission, io))
  {
    if Find(rows, id, t).Some? {
      PatchKeepsClean(notes, rows, id, t, permission);
    } else if io.insert.Inserted? {
      InsertKeepsClean(notes, rows, id, t, permission, io.insert.now);
    }
  }

  function Run(notes: Notes, rows: seq<ShareRow>, run: seq<Request>): seq<ShareRow> {
    if run == [] then rows else After(notes, Run(notes, rows, run[..|run| - 1]), run[|run| - 1])
  }

  /** Whatever requests are made, and whatever the data plane fails to do. */
  lemma {:induction false} RunKeepsClean(notes: Notes, rows: seq<ShareRow>, run: seq<Request>)
    requires Clean(notes, rows)
    ensures Clean(notes, Run(notes, rows, run))
  {
    if run != [] {
      RunKeepsClean(notes, rows, run[..|run| - 1]);
      StepKeepsClean(notes, Run(notes, rows, run[..|run| - 1]), run[|run| - 1]);
    }
  }

  lemma StrangersAreRefused(notes: Notes, rows: seq<ShareRow>, q: Request)
    requires Trim(q.noteId) in notes ==> !ScopeOwns(q.scope, notes[Trim(q.noteId)])
    ensures CheckOf(notes, rows, q).Refused? && !CheckOf(notes, rows, q).reply.Shared? && !CheckOf(notes, rows, q).reply.Removed?
  {
    OwnersResolve(notes, rows, q.scope, Trim(q.noteId));
  }

  /** Who does not own a note changes nothing. */
  lemma StrangersChangeNothing(notes: Notes, rows: seq<ShareRow>, q: Request)
    requires Trim(q.noteId) in notes ==> !ScopeOwns(q.scope, notes[Trim(q.noteId)])
    ensures After(notes, rows, q) == rows
    ensures !ReplyTo(notes, rows, q).Shared? && !ReplyTo(notes, rows, q).Removed?
  {
    StrangersAreRefused(notes, rows, q);
  }

  /** No run changes who may share a note. */
  lemma SharersAreFixed(notes: Notes, rows: seq<ShareRow>, run: seq<Request>, scope: Scope, id: string)
    ensures Resolve(notes, Run(notes, rows, run), scope, id) == Some(Owner) <==> Resolve(notes, rows, scope, id) == Some(Owner)
  {
    OwnersResolve(notes, rows, scope, id);
    OwnersResolve(notes, Run(notes, rows, run), scope, id);
  }

  // ---------------------------------------------------------------------
  // The table is a map from notes and targets to permissions
  // ---------------------------------------------------------------------

  function Permission(rows: seq<ShareRow>, id: string, t: Target): Option<string> {
    var found := Find(rows, id, t);
    if found.None? then None else Some(found.value.permission)
  }

  /** The data plane did what it was asked to, whether the gateway knows or not. */
  predicate Landed(rows: seq<ShareRow>, id: string, t: Target, q: Request) {
    if q.Remove? then !q.io.delete.Failed?
    else if Find(rows, id, t).Some? then !q.io.patch.Failed?
    else q.io.patch.Done? && q.io.insert.Inserted?
  }

  lemma FindCons(rows: seq<ShareRow>, id: string, t: Target)
    requires rows != []
    ensures Find(rows, id, t) == if RowFor(id, t)(rows[0]) then Some(rows[0]) else Find(rows[1..], id, t)
  {
  }

  lemma {:induction false} FindPatched(rows: seq<ShareRow>, id: string, t: Target, permission: string, id': string, t': Target)
    requires forall i :: 0 <= i < |rows| ==> TargetOf(rows[i]).Some?
    ensures Find(Patched(rows, id, t, permission), id', t') ==
            if id' == id && t' == t && Find(rows, id, t).Some? then Some(Find(rows, id, t).value.(permission := permission))
            else Find(rows, id', t')
  {
    if rows != [] {
      var rows' := Patched(rows, id, t, permission);
      assert rows'[1..] == Patched(rows[1..], id, t, permission);
      FindPatched(rows[1..], id, t, permission, id', t');
      FindCons(rows, id, t);
      FindCons(rows, id', t');
      FindCons(rows', id', t');
    }
  }

  lemma FindInserted(rows: seq<ShareRow>, row: ShareRow, id: string, t: Target)
    ensures Find(rows + [row], id, t) == if Find(rows, id, t).Some? then Find(rows, id, t) else if RowFor(id, t)(row) then Some(row) else None
  {
    WhereConcat(rows, [row], RowFor(id, t));
  }

  lemma {:induction false} FindWithout(rows: seq<ShareRow>, id: string, t: Target, id': string, t': Target)
    requires forall i :: 0 <= i < |rows| ==> TargetOf(rows[i]).Some?
    ensures Find(Without(rows, id, t), id', t') == if id' == id && t' == t then None else Find(rows, id', t')
  {
    if rows != [] {
      FindWithout(rows[1..], id, t, id', t');
      FindCons(rows, id', t');
      if !RowFor(id, t)(rows[0]) {
        var rest := Without(rows[1..], id, t);
        assert Without(rows, id, t) == [rows[0]] + rest;
        assert ([rows[0]] + rest)[1..] == rest;
        FindCons([rows[0]] + rest, id', t');
      }
    }
  }

  /** A request that is granted and lands sets or clears one entry of the map and leaves every other row as it was,
      its age included; any other request changes nothing. */
  lemma StepIsMapUpdate(notes: Notes, rows: seq<ShareRow>, q: Request, id: string, t: Target)
    requires Clean(notes, rows)
    ensures var check := CheckOf(notes, rows, q);
            var rows' := After(notes, rows, q);
            if check.Granted? && Landed(rows, Trim(q.noteId), check.target, q) && id == Trim(q.noteId) && t == check.target
            then Permission(rows', id, t) == if q.Upsert? then Some(check.permission) else None
            else Find(rows', id, t) == Find(rows, id, t)
  {
    assert forall i :: 0 <= i < |rows| ==> RowOk(notes, rows[i]);
    CheckedIsMapUpdate(CheckOf(notes, rows, q), rows, q, id, t);
  }

  lemma CheckedIsMapUpdate(check: Check, rows: seq<ShareRow>, q: Request, id: string, t: Target)
    requires forall i :: 0 <= i < |rows| ==> TargetOf(rows[i]).Some?
    ensures var rows' := AfterCheck(check, rows, q);
            if check.Granted? && Landed(rows, Trim(q.noteId), check.target, q) && id == Trim(q.noteId) && t == check.target
            then Permission(rows', id, t) == if q.Upsert? then Some(check.permission) else None
            else Find(rows', id, t) == Find(rows, id, t)
  {
    if check.Granted? {
      if q.Remove? {
        FindWithout(rows, Trim(q.noteId), check.target, id, t);
      } else {
        FindUpserted(rows, Trim(q.noteId), check.target, check.permission, q.io, id, t);
      }
    }
  }

  lemma FindUpserted(rows: seq<ShareRow>, at: string, target: Target, permission: string, io: ShareIo, id: string, t: Target)
    requires forall i :: 0 <= i < |rows| ==> TargetOf(rows[i]).Some?
    ensures var rows' := Upserted(rows, at, target, permission, io);
            var landed := if Find(rows, at, target).Some? then !io.patch.Failed? else io.patch.Done? && io.insert.Inserted?;
            if landed && id == at && t == target then Permission(rows', id, t) == Some(permission)
            else Find(rows', id, t) == Find(rows, id, t)
  {
    if Find(rows, at, target).Some? {
      FindPatched(rows, at, target, permission, id, t);
    } else if io.insert.Inserted? {
      FindInserted(rows, NewRow(at, target, permission, io.insert.now), id, t);
    }
  }

  // ---------------------------------------------------------------------
  // What a request does, said of its own fields
  // ---------------------------------------------------------------------

  /** What a payload asks for. */
  function TargetSaid(p: Payload): Target
    requires !(BlankOption(p.user) && BlankOption(p.email))
  {
    if !BlankOption(p.user) then UserTarget(Trim(p.user.value)) else EmailTarget(Lower(Trim(p.email.value)))
  }

  predicate NamesNobody(p: Payload) { BlankOption(p.user) && BlankOption(p.email) }

  predicate SaysPermission(p: Payload) {
    p.permission.Some? && (Lower(Trim(p.permission.value)) == "viewer" || Lower(Trim(p.permission.value)) == "editor")
  }

  predicate SaysPublic(p: Payload) { p.public || p.publicLink || (p.scope.Some? && Lower(Trim(p.scope.value)) == "public") }

  /** A request that names a note and a person and, if it gives a share, a permission and no public link. */
  predicate WellFormed(q: Request) {
    && Trim(q.noteId) != "" && q.payload.Some? && !NamesNobody(q.payload.value)
    && (q.Upsert? ==> !SaysPublic(q.payload.value) && SaysPermission(q.payload.value))
  }

  lemma SaidIs(p: Payload)
    ensures SaidBy(Some(p)) ==
            Some(Said(SaysPublic(p), if SaysPermission(p) then Some(Lower(Trim(p.permission.value))) else None,
                      if NamesNobody(p) then None else Some(TargetSaid(p))))
  {
    TargetIs(p);
  }

  /** When the checks grant, and which refusal they give, by what is said, found and owned. */
  lemma SaidRefusal(upsert: bool, id: string, said: Option<Said>, lookupOk: bool, resolved: Option<Role>, note: Option<Note>)
    ensures var check := CheckSaid(upsert, id, said, lookupOk, resolved, note);
            var asks := id != "" && said.Some?;
            var formed := asks && said.value.target.Some? && (upsert ==> !said.value.public && said.value.permission.Some?);
            var owner := formed && lookupOk && resolved == Some(Owner);
            var self := upsert && formed && note.Some? && TargetIsOwner(said.value.target.value, note.value);
            && (check.Granted? <==> owner && !self)
            && (check.Granted? ==> check.target == said.value.target.value && (upsert ==> check.permission == said.value.permission.value))
            && (check == Refused(NotJson) <==> id != "" && said.None?)
            && (check == Refused(NoPublicLinks) <==> asks && upsert && said.value.public)
            && (check == Refused(BadPermission) <==> asks && upsert && !said.value.public && said.value.permission.None?)
            && (check == Refused(NoTarget) <==> asks && said.value.target.None? && (upsert ==> !said.value.public && said.value.permission.Some?))
            && (check == Refused(NotFound) <==> id == "" || (formed && lookupOk && resolved.None?))
            && (check == Refused(Forbidden) <==> formed && lookupOk && resolved.Some? && resolved.value != Owner)
            && (check == Refused(OwnerHasAccess) <==> owner && self)
            && (check == Refused(Upstream) <==> formed && !lookupOk)
  {
  }

  /** A request is granted exactly when it is well-formed, comes from an owner of the note, and does not give the owner
      a share; and what it is granted is what its payload says. */
  lemma GrantedIff(notes: Notes, rows: seq<ShareRow>, q: Request)
    ensures CheckOf(notes, rows, q).Granted? <==>
              && WellFormed(q) && q.io.lookupOk && Trim(q.noteId) in notes && ScopeOwns(q.scope, notes[Trim(q.noteId)])
              && (q.Upsert? ==> !TargetIsOwner(TargetSaid(q.payload.value), notes[Trim(q.noteId)]))
    ensures CheckOf(notes, rows, q).Granted? ==>
              && CheckOf(notes, rows, q).target == TargetSaid(q.payload.value)
              && (q.Upsert? ==> CheckOf(notes, rows, q).permission == Lower(Trim(q.payload.value.permission.value)))
  {
    var id := Trim(q.noteId);
    OwnersResolve(notes, rows, q.scope, id);
    SaidRefusal(q.Upsert?, id, SaidBy(q.payload), q.io.lookupOk, Resolve(notes, rows, q.scope, id), NoteAt(notes, id));
    if q.payload.Some? {
      SaidIs(q.payload.value);
    }
  }

  /** Why a request is refused, said of the request. */
  ghost predicate RefusedFor(notes: Notes, rows: seq<ShareRow>, q: Request, reply: Reply) {
    var id, resolved := Trim(q.noteId), Resolve(notes, rows, q.scope, Trim(q.noteId));
    match reply
    case NotJson => id != "" && q.payload.None?
    case NoPublicLinks => id != "" && q.payload.Some? && q.Upsert? && SaysPublic(q.payload.value)
    case BadPermission => id != "" && q.payload.Some? && q.Upsert? && !SaysPublic(q.payload.value) && !SaysPermission(q.payload.value)
    case NoTarget =>
      && id != "" && q.payload.Some? && NamesNobody(q.payload.value)
      && (q.Upsert? ==> !SaysPublic(q.payload.value) && SaysPermission(q.payload.value))
    case NotFound => id == "" || (WellFormed(q) && q.io.lookupOk && resolved.None?)
    case Forbidden => WellFormed(q) && q.io.lookupOk && resolved.Some? && resolved.value != Owner
    case OwnerHasAccess =>
      && q.Upsert? && WellFormed(q) && q.io.lookupOk && resolved == Some(Owner)
      && id in notes && TargetIsOwner(TargetSaid(q.payload.value), notes[id])
    case Upstream => WellFormed(q) && !q.io.lookupOk
    case Shared(_) => false
    case Removed => false
  }

  /** Every refusal is given exactly for its own reason. */
  lemma RefusalIff(notes: Notes, rows: seq<ShareRow>, q: Request, reply: Reply)
    ensures CheckOf(notes, rows, q) == Refused(reply) <==> RefusedFor(notes, rows, q, reply)
  {
    var id := Trim(q.noteId);
    SaidRefusal(q.Upsert?, id, SaidBy(q.payload), q.io.lookupOk, Resolve(notes, rows, q.scope, id), NoteAt(notes, id));
    if q.payload.Some? {
      SaidIs(q.payload.value);
    }
  }

  /** A request that is granted and lands sets or clears the share of the person its payload names, to what its payload
      says, and no other; and success is answered only then, with the row that is now in the table. */
  lemma RequestChangesItsTarget(notes: Notes, rows: seq<ShareRow>, q: Request, id: string, t: Target)
    requires Clean(notes, rows) && CheckOf(notes, rows, q).Granted?
    ensures var target := TargetSaid(q.payload.value);
            if Landed(rows, Trim(q.noteId), target, q) && id == Trim(q.noteId) && t == target
            then Permission(After(notes, rows, q), id, t) == if q.Upsert? then Some(Lower(Trim(q.payload.value.permission.value))) else None
            else Find(After(notes, rows, q), id, t) == Find(rows, id, t)
    ensures ReplyTo(notes, rows, q).Shared? ==>
              q.Upsert? && Find(After(notes, rows, q), Trim(q.noteId), TargetSaid(q.payload.value)) == Some(ReplyTo(notes, rows, q).row)
    ensures ReplyTo(notes, rows, q).Removed? ==> q.Remove? && Find(After(notes, rows, q), Trim(q.noteId), TargetSaid(q.payload.value)) == None
  {
    var check := CheckOf(notes, rows, q);
    GrantedIff(notes, rows, q);
    StepIsMapUpdate(notes, rows, q, id, t);
    if q.Upsert? {
      AfterGranted(notes, rows, q, check.target, check.permission);
      ReplyIsRow(notes, rows, Trim(q.noteId), check.target, check.permission, q.io);
    } else {
      StepIsMapUpdate(notes, rows, q, Trim(q.noteId), check.target);
    }
  }

  lemma ReplyIsRow(notes: Notes, rows: seq<ShareRow>, id: string, t: Target, permission: string, io: ShareIo)
    requires Clean(notes, rows)
    ensures var reply := UpsertReply(rows, id, t, permission, io);
            if io.patch.Done? && (Find(rows, id, t).Some? || (io.insert.Inserted? && io.insert.returned))
            then reply.Shared? && Find(Upserted(rows, id, t, permission, io), id, t) == Some(reply.row)
            else reply == Upstream
  {
    assert forall i :: 0 <= i < |rows| ==> RowOk(notes, rows[i]);
    if Find(rows, id, t).Some? {
      FindPatched(rows, id, t, permission, id, t);
    } else if io.insert.Inserted? {
      FindInserted(rows, NewRow(id, t, permission, io.insert.now), id, t);
    }
  }

  // ---------------------------------------------------------------------
  // What a change means for the person it names
  // ---------------------------------------------------------------------

  function RoleNamed(permission: string): Role { if permission == "editor" then Editor else Viewer }

  lemma PermissionIsNormal(permission: string)
    requires permission == "viewer" || permission == "editor"
    ensures NormalizePermission(Some(permission)) == Some(permission)
  {
    assert TrimStart("viewer") == "viewer" && TrimStart("editor") == "editor";
    assert Lower("viewer") == "viewer" && Lower("editor") == "editor";
  }

  lemma PermissionsAreRoles(permission: string)
    requires permission == "viewer" || permission == "editor"
    ensures RoleOf(permission) == Some(RoleNamed(permission))
  {
    PermissionIsNormal(permission);
  }

  /** The role two shares give: the newer one's, or the user's if neither is newer. */
  lemma RoleOfTwo(user: Option<ShareRow>, email: Option<ShareRow>)
    requires user.Some? ==> user.value.permission == "viewer" || user.value.permission == "editor"
    requires email.Some? ==> email.value.permission == "viewer" || email.value.permission == "editor"
    ensures DirectRole(user, email) ==
            if user.None? && email.None? then None
            else if email.None? || (user.Some? && !Newer(email.value.createdAt, user.value.createdAt)) then Some(RoleNamed(user.value.permission))
            else Some(RoleNamed(email.value.permission))
  {
    if user.Some? {
      PermissionsAreRoles(user.value.permission);
    }
    if email.Some? {
      PermissionsAreRoles(email.value.permission);
      assert NewestFirst([email.value]) == [email.value];
    }
    if user.Some? && email.Some? {
      var both := [user.value] + [email.value];
      assert both[1..] == [email.value];
      assert NewestFirst(both) == Insert(user.value, [email.value]);
    } else if user.Some? {
      assert [user.value] + [] == [user.value];
      assert NewestFirst([user.value]) == [user.value];
    } else if email.Some? {
      assert [] + [email.value] == [email.value];
    }
  }

  lemma FoundIsOk(notes: Notes, rows: seq<ShareRow>, id: string, t: Target)
    requires Clean(notes, rows) && Find(rows, id, t).Some?
    ensures RowOk(notes, Find(rows, id, t).value)
  {
    WhereIn(rows, RowFor(id, t), Find(rows, id, t).value);
  }

  lemma RoleInTable(notes: Notes, rows: seq<ShareRow>, scope: Scope, id: string)
    requires Clean(notes, rows)
    ensures var user, email := UserRow(rows, scope, id), EmailRow(rows, scope, id);
            SharedRole(rows, scope, id) ==
            if user.None? && email.None? then None
            else if email.None? || (user.Some? && !Newer(email.value.createdAt, user.value.createdAt)) then Some(RoleNamed(user.value.permission))
            else Some(RoleNamed(email.value.permission))
  {
    if UserRow(rows, scope, id).Some? {
      FoundIsOk(notes, rows, id, UserTarget(scope.userId));
    }
    if EmailRow(rows, scope, id).Some? {
      FoundIsOk(notes, rows, id, EmailTarget(scope.email.value));
    }
    RoleOfTwo(UserRow(rows, scope, id), EmailRow(rows, scope, id));
  }

  /** How old a share will be once it is given: as old as the one it changes, or new. */
  function AgeToBe(rows: seq<ShareRow>, id: string, t: Target, io: ShareIo): Option<string> {
    if Find(rows, id, t).Some? then Find(rows, id, t).value.createdAt
    else if io.insert.Inserted? then io.insert.now
    else None
  }

  lemma UpsertedAge(notes: Notes, rows: seq<ShareRow>, q: Request, id: string, t: Target)
    requires Clean(notes, rows) && q.Upsert? && CheckOf(notes, rows, q).Granted? && CheckOf(notes, rows, q).target == t
    requires id == Trim(q.noteId) && Landed(rows, id, t, q)
    ensures Find(After(notes, rows, q), id, t).Some?
    ensures Find(After(notes, rows, q), id, t).value.createdAt == AgeToBe(rows, id, t, q.io)
  {
    var permission := CheckOf(notes, rows, q).permission;
    assert forall i :: 0 <= i < |rows| ==> RowOk(notes, rows[i]);
    if Find(rows, id, t).Some? {
      FindPatched(rows, id, t, permission, id, t);
    } else {
      FindInserted(rows, NewRow(id, t, permission, q.io.insert.now), id, t);
    }
  }

  /** After an owner has shared a note with a user, that user has the permission given if and only if no newer share
      for the user's address says otherwise: an update keeps the row's age, so it can stay without effect. */
  lemma UpsertTakesEffectIff(notes: Notes, rows: seq<ShareRow>, q: Request, scope: Scope)
    requires Clean(notes, rows) && q.Upsert?
    requires CheckOf(notes, rows, q).Granted? && CheckOf(notes, rows, q).target == UserTarget(scope.userId)
    requires Landed(rows, Trim(q.noteId), UserTarget(scope.userId), q)
    ensures var id, rows' := Trim(q.noteId), After(notes, rows, q);
            var permission := CheckOf(notes, rows, q).permission;
            var email := EmailRow(rows, scope, id);
            SharedRole(rows', scope, id) == Some(RoleNamed(permission)) <==>
              || email.None? || email.value.permission == permission
              || !Newer(email.value.createdAt, AgeToBe(rows, id, UserTarget(scope.userId), q.io))
  {
    var id, rows' := Trim(q.noteId), After(notes, rows, q);
    GrantedToOwner(notes, rows, q);
    StepKeepsClean(notes, rows, q);
    UpsertedAge(notes, rows, q, id, UserTarget(scope.userId));
    StepIsMapUpdate(notes, rows, q, id, UserTarget(scope.userId));
    if scope.email.Some? {
      StepIsMapUpdate(notes, rows, q, id, EmailTarget(scope.email.value));
      if EmailRow(rows, scope, id).Some? {
        FoundIsOk(notes, rows, id, EmailTarget(scope.email.value));
      }
    }
    RoleInTable(notes, rows', scope, id);
  }

  /** A share for an address takes effect if and only if it is newer than the share for the user, or agrees with it. */
  lemma AddressUpsertTakesEffectIff(notes: Notes, rows: seq<ShareRow>, q: Request, scope: Scope)
    requires Clean(notes, rows) && q.Upsert? && scope.email.Some?
    requires CheckOf(notes, rows, q).Granted? && CheckOf(notes, rows, q).target == EmailTarget(scope.email.value)
    requires Landed(rows, Trim(q.noteId), EmailTarget(scope.email.value), q)
    ensures var id, rows' := Trim(q.noteId), After(notes, rows, q);
            var permission := CheckOf(notes, rows, q).permission;
            var user := UserRow(rows, scope, id);
            SharedRole(rows', scope, id) == Some(RoleNamed(permission)) <==>
              || user.None? || user.value.permission == permission
              || Newer(AgeToBe(rows, id, EmailTarget(scope.email.value), q.io), user.value.createdAt)
  {
    var id, rows' := Trim(q.noteId), After(notes, rows, q);
    GrantedToOwner(notes, rows, q);
    StepKeepsClean(notes, rows, q);
    UpsertedAge(notes, rows, q, id, EmailTarget(scope.email.value));
    StepIsMapUpdate(notes, rows, q, id, EmailTarget(scope.email.value));
    StepIsMapUpdate(notes, rows, q, id, UserTarget(scope.userId));
    if UserRow(rows, scope, id).Some? {
      FoundIsOk(notes, rows, id, UserTarget(scope.userId));
    }
    RoleInTable(notes, rows', scope, id);
  }

  /** Taking a share back shuts a user out if and only if the user's address has no share of its own. */
  lemma RemovalRevokesIff(notes: Notes, rows: seq<ShareRow>, q: Request, scope: Scope)
    requires Clean(notes, rows) && q.Remove? && !q.io.delete.Failed?
    requires CheckOf(notes, rows, q).Granted? && CheckOf(notes, rows, q).target == UserTarget(scope.userId)
    requires !ScopeOwns(scope, notes[Trim(q.noteId)])
    ensures Resolve(notes, After(notes, rows, q), scope, Trim(q.noteId)).None? <==> EmailRow(rows, scope, Trim(q.noteId)).None?
  {
    var id, rows' := Trim(q.noteId), After(notes, rows, q);
    GrantedToOwner(notes, rows, q);
    StepKeepsClean(notes, rows, q);
    StepIsMapUpdate(notes, rows, q, id, UserTarget(scope.userId));
    if scope.email.Some? {
      StepIsMapUpdate(notes, rows, q, id, EmailTarget(scope.email.value));
    }
    RoleInTable(notes, rows', scope, id);
  }

  /** The same for the share of an address. */
  lemma AddressRemovalRevokesIff(notes: Notes, rows: seq<ShareRow>, q: Request, scope: Scope)
    requires Clean(notes, rows) && q.Remove? && !q.io.delete.Failed? && scope.email.Some?
    requires CheckOf(notes, rows, q).Granted? && CheckOf(notes, rows, q).target == EmailTarget(scope.email.value)
    requires !ScopeOwns(scope, notes[Trim(q.noteId)])
    ensures Resolve(notes, After(notes, rows, q), scope, Trim(q.noteId)).None? <==> UserRow(rows, scope, Trim(q.noteId)).None?
  {
    var id, rows' := Trim(q.noteId), After(notes, rows, q);
    GrantedToOwner(notes, rows, q);
    StepKeepsClean(notes, rows, q);
    StepIsMapUpdate(notes, rows, q, id, EmailTarget(scope.email.value));
    StepIsMapUpdate(notes, rows, q, id, UserTarget(scope.userId));
    RoleInTable(notes, rows', scope, id);
  }

  // ---------------------------------------------------------------------
  // Changes without effect
  // ---------------------------------------------------------------------

  function PayloadFor(t: Target, permission: Option<string>): Payload {
    match t
    case UserTarget(u) => Payload(permission, Some(u), None, false, false, None)
    case EmailTarget(e) => Payload(permission, None, Some(e), false, false, None)
  }

  /** Requests for which the data plane does what it is asked to. */
  function Give(owner: Scope, id: string, t: Target, permission: string, now: string): Request {
    Upsert(owner, id, Some(PayloadFor(t, Some(permission))), ShareIo(true, Done, Inserted(Some(now), true), Done))
  }

  function TakeBack(owner: Scope, id: string, t: Target): Request {
    Remove(owner, id, Some(PayloadFor(t, None)), ShareIo(true, Done, InsertFailed, Done))
  }

  /** `owner` owns the note, and `t` is somebody else. */
  predicate MayGive(notes: Notes, owner: Scope, id: string, t: Target) {
    && IsTrimmed(id) && id != "" && id in notes && ScopeOwns(owner, notes[id])
    && NormalTarget(t) && !TargetIsOwner(t, notes[id])
  }

  lemma OwnersAreGranted(notes: Notes, rows: seq<ShareRow>, owner: Scope, id: string, t: Target, permission: string, now: string)
    requires MayGive(notes, owner, id, t) && (permission == "viewer" || permission == "editor")
    ensures CheckOf(notes, rows, Give(owner, id, t, permission, now)) == Granted(t, permission)
    ensures CheckOf(notes, rows, TakeBack(owner, id, t)) == Granted(t, "")
  {
    OwnersResolve(notes, rows, owner, id);
    PermissionIsNormal(permission);
    assert NormalizeTarget(PayloadFor(t, None)) == Some(t) && NormalizeTarget(PayloadFor(t, Some(permission))) == Some(t);
  }

  lemma GiveInserts(notes: Notes, rows: seq<ShareRow>, owner: Scope, id: string, t: Target, permission: string, now: string)
    requires MayGive(notes, owner, id, t) && (permission == "viewer" || permission == "editor") && Find(rows, id, t).None?
    ensures After(notes, rows, Give(owner, id, t, permission, now)) == rows + [NewRow(id, t, permission, Some(now))]
  {
    OwnersAreGranted(notes, rows, owner, id, t, permission, now);
    AfterGranted(notes, rows, Give(owner, id, t, permission, now), t, permission);
  }

  lemma AfterGranted(notes: Notes, rows: seq<ShareRow>, q: Request, t: Target, permission: string)
    requires q.Upsert? && CheckOf(notes, rows, q) == Granted(t, permission)
    ensures After(notes, rows, q) == Upserted(rows, Trim(q.noteId), t, permission, q.io)
  {
  }

  lemma RunOfTwo(notes: Notes, a: Request, b: Request)
    ensures Run(notes, [], [a, b]) == After(notes, After(notes, [], a), b)
  {
    assert [a, b][..1] == [a] && [a][..0] == [];
    assert Run(notes, [], [a]) == After(notes, [], a);
  }

  /** What two people's shares leave in the table. */
  lemma GiveTwo(notes: Notes, owner: Scope, id: string, first: Target, second: Target, permission: string, now: string, later: string)
    requires MayGive(notes, owner, id, first) && MayGive(notes, owner, id, second)
    requires first.UserTarget? != second.UserTarget? && (permission == "viewer" || permission == "editor")
    ensures Run(notes, [], [Give(owner, id, first, permission, now), Give(owner, id, second, permission, later)])
         == [NewRow(id, first, permission, Some(now)), NewRow(id, second, permission, Some(later))]
  {
    RunOfTwo(notes, Give(owner, id, first, permission, now), Give(owner, id, second, permission, later));
    GiveInserts(notes, [], owner, id, first, permission, now);
    var one := [NewRow(id, first, permission, Some(now))];
    assert After(notes, [], Give(owner, id, first, permission, now)) == one;
    assert Find(one, id, second).None? by {
      FindNone(one, id, second);
    }
    GiveInserts(notes, one, owner, id, second, permission, later);
  }

  /** A change of the older share to viewing is granted and carried out, and the person is an editor still. */
  predicate ChangeIsIdle(notes: Notes, rows: seq<ShareRow>, owner: Scope, id: string, older: Target, scope: Scope) {
    var change := Give(owner, id, older, "viewer", "3");
    && CheckOf(notes, rows, change) == Granted(older, "viewer") && Landed(rows, id, older, change)
    && Resolve(notes, After(notes, rows, change), scope, id) == Some(Editor)
  }

  /** And so is its removal. */
  predicate RemovalIsIdle(notes: Notes, rows: seq<ShareRow>, owner: Scope, id: string, older: Target, scope: Scope) {
    var removal := TakeBack(owner, id, older);
    && CheckOf(notes, rows, removal).Granted? && CheckOf(notes, rows, removal).target == older
    && ReplyTo(notes, rows, removal) == Removed
    && Resolve(notes, After(notes, rows, removal), scope, id) == Some(Editor)
  }

  /** In the run that first gives the older share and then the newer one, both for editing. */
  predicate OlderIsIdle(notes: Notes, owner: Scope, id: string, older: Target, newer: Target, scope: Scope) {
    var rows := Run(notes, [], [Give(owner, id, older, "editor", "1"), Give(owner, id, newer, "editor", "2")]);
    ChangeIsIdle(notes, rows, owner, id, older, scope) && RemovalIsIdle(notes, rows, owner, id, older, scope)
  }

  /** The two are the names of one person. */
  predicate AreNamesOf(older: Target, newer: Target, scope: Scope) {
    scope.email.Some? &&
    ((older, newer) == (UserTarget(scope.userId), EmailTarget(scope.email.value))
     || (newer, older) == (UserTarget(scope.userId), EmailTarget(scope.email.value)))
  }

  /** A person who has an older and a newer share under two names: in the run that gives both, taking the older one down
      to viewer has no effect, and taking it back leaves the person an editor. */
  lemma OlderShareIsIdle(notes: Notes, owner: Scope, id: string, older: Target, newer: Target, scope: Scope)
    requires MayGive(notes, owner, id, older) && MayGive(notes, owner, id, newer) && AreNamesOf(older, newer, scope)
    ensures OlderIsIdle(notes, owner, id, older, newer, scope)
  {
    GiveTwo(notes, owner, id, older, newer, "editor", "1", "2");
    var first, second := NewRow(id, older, "editor", Some("1")), NewRow(id, newer, "editor", Some("2"));
    RunKeepsClean(notes, [], [Give(owner, id, older, "editor", "1"), Give(owner, id, newer, "editor", "2")]);
    FindTwo(first, second, id, older, newer);
    NobodyOwns(notes, owner, id, older, newer, scope);
    ChangeStaysIdle(notes, [first, second], owner, id, older, newer, scope, second);
    RemovalStaysIdle(notes, [first, second], owner, id, older, newer, scope, second);
  }

  lemma NobodyOwns(notes: Notes, owner: Scope, id: string, older: Target, newer: Target, scope: Scope)
    requires MayGive(notes, owner, id, older) && MayGive(notes, owner, id, newer) && AreNamesOf(older, newer, scope)
    ensures !ScopeOwns(scope, notes[id]) && scope.userId != ""
  {
  }

  /** The older share was given at "1" and the newer one at "2". */
  ghost predicate HasBoth(notes: Notes, rows: seq<ShareRow>, id: string, older: Target, newer: Target, scope: Scope, newest: ShareRow) {
    && Clean(notes, rows) && id in notes && !ScopeOwns(scope, notes[id]) && scope.userId != "" && AreNamesOf(older, newer, scope)
    && Find(rows, id, newer) == Some(newest) && newest.permission == "editor" && newest.createdAt == Some("2")
    && Find(rows, id, older).Some? && Find(rows, id, older).value.createdAt == Some("1")
  }

  lemma ChangeStaysIdle(notes: Notes, rows: seq<ShareRow>, owner: Scope, id: string, older: Target, newer: Target, scope: Scope, newest: ShareRow)
    requires MayGive(notes, owner, id, older) && HasBoth(notes, rows, id, older, newer, scope, newest)
    ensures ChangeIsIdle(notes, rows, owner, id, older, scope)
  {
    OwnersAreGranted(notes, rows, owner, id, older, "viewer", "3");
    IdleAfter(notes, rows, Give(owner, id, older, "viewer", "3"), scope, id, older, newer, newest);
  }

  lemma RemovalStaysIdle(notes: Notes, rows: seq<ShareRow>, owner: Scope, id: string, older: Target, newer: Target, scope: Scope, newest: ShareRow)
    requires MayGive(notes, owner, id, older) && HasBoth(notes, rows, id, older, newer, scope, newest)
    ensures RemovalIsIdle(notes, rows, owner, id, older, scope)
  {
    OwnersAreGranted(notes, rows, owner, id, older, "viewer", "3");
    IdleAfter(notes, rows, TakeBack(owner, id, older), scope, id, older, newer, newest);
  }

  lemma FindTwo(first: ShareRow, second: ShareRow, id: string, older: Target, newer: Target)
    requires RowFor(id, older)(first) && RowFor(id, newer)(second) && !RowFor(id, newer)(first)
    ensures Find([first, second], id, older) == Some(first) && Find([first, second], id, newer) == Some(second)
  {
    FindCons([first, second], id, older);
    FindCons([first, second], id, newer);
    assert [first, second][1..] == [second];
    FindCons([second], id, newer);
  }

  /** A change of the older share leaves the newer one in charge. */
  lemma IdleAfter(notes: Notes, rows: seq<ShareRow>, q: Request, scope: Scope, id: string, older: Target, newer: Target, newest: ShareRow)
    requires HasBoth(notes, rows, id, older, newer, scope, newest) && Trim(q.noteId) == id
    requires CheckOf(notes, rows, q).Granted? && CheckOf(notes, rows, q).target == older
    ensures Resolve(notes, After(notes, rows, q), scope, id) == Some(Editor)
  {
    var rows' := After(notes, rows, q);
    StepKeepsClean(notes, rows, q);
    StepIsMapUpdate(notes, rows, q, id, newer);
    AgeIsKept(notes, rows, q, id, older);
    RoleInTable(notes, rows', scope, id);
    assert Before("1", "2") && !Before("2", "1");
  }

  /** Whatever becomes of a row, if it is still there it is as old as it was. */
  lemma AgeIsKept(notes: Notes, rows: seq<ShareRow>, q: Request, id: string, t: Target)
    requires Clean(notes, rows) && Find(rows, id, t).Some?
    ensures var row := Find(After(notes, rows, q), id, t);
            row.Some? ==> row.value.createdAt == Find(rows, id, t).value.createdAt
  {
    var check := CheckOf(notes, rows, q);
    StepIsMapUpdate(notes, rows, q, id, t);
    assert forall i :: 0 <= i < |rows| ==> RowOk(notes, rows[i]);
    if check.Granted? && q.Upsert? {
      FindPatched(rows, Trim(q.noteId), check.target, check.permission, id, t);
    }
  }

  /** There are such people: whichever of the two shares is the older one, it is idle. */
  lemma SomebodyHasTwoShares()
    ensures var notes := map["n" := Note("n", Some("o"), None, false)];
            var owner, scope := Scope("o", None), Scope("u", Some("e"));
            && OlderIsIdle(notes, owner, "n", UserTarget("u"), EmailTarget("e"), scope)
            && OlderIsIdle(notes, owner, "n", EmailTarget("e"), UserTarget("u"), scope)
  {
    SomebodyMayGive();
    var notes := map["n" := Note("n", Some("o"), None, false)];
    OlderShareIsIdle(notes, Scope("o", None), "n", UserTarget("u"), EmailTarget("e"), Scope("u", Some("e")));
    OlderShareIsIdle(notes, Scope("o", None), "n", EmailTarget("e"), UserTarget("u"), Scope("u", Some("e")));
  }

  lemma SomebodyMayGive()
    ensures var notes := map["n" := Note("n", Some("o"), None, false)];
            MayGive(notes, Scope("o", None), "n", UserTarget("u")) && MayGive(notes, Scope("o", None), "n", EmailTarget("e"))
  {
    assert TrimStart("n") == "n" && TrimStart("o") == "o" && TrimStart("u") == "u" && TrimStart("e") == "e";
    assert Lower("e") == "e";
  }

  /** The list of notes after any run of requests: every listed note has the role that asking for it alone gives, and
      with archived notes included and owners stored normalised the list is exactly the notes that resolve. */
  method ListAfterRun(notes: Notes, ghost run: seq<Request>, scope: Scope, includeArchived: bool,
                      owned: seq<Note>, byUser: seq<ShareRow>, byEmail: seq<ShareRow>, byIds: set<string> -> seq<Note>)
      returns (listed: map<string, Role>)
    requires NormalScope(scope)
    requires NotesAnswer(owned, notes, OwnerQuery(scope, includeArchived))
    requires UserAnswers(byUser, Run(notes, [], run), scope) && EmailAnswers(byEmail, Run(notes, [], run), scope)
    requires forall ids :: NotesAnswer(byIds(ids), notes, IdQuery(ids, includeArchived))
    ensures forall id :: id in listed ==> Resolve(notes, Run(notes, [], run), scope, id) == Some(listed[id])
    ensures forall id :: id in listed <==> Belongs(notes, Run(notes, [], run), scope, includeArchived, id)
    ensures includeArchived && (forall id :: id in notes ==> NormalOwner(notes[id])) ==>
              forall id :: id in listed <==> Resolve(notes, Run(notes, [], run), scope, id).Some?
  {
    ghost var rows := Run(notes, [], run);
    RunKeepsClean(notes, [], run);
    listed := ListNotes(notes, rows, scope, includeArchived, owned, byUser, byEmail, byIds);
    if includeArchived && forall id :: id in notes ==> NormalOwner(notes[id]) {
      NormalListIsComplete(notes, rows, scope);
    }
  }

  /** After any run the batch look-up finds, for every note, the role that looking at the note alone finds,
      in whatever order the data plane answers either. */
  lemma ListAgreesAfterAnyRun(notes: Notes, run: seq<Request>, scope: Scope, id: string, byUser: seq<ShareRow>, byEmail: seq<ShareRow>,
                              oneUser: Option<ShareRow>, oneEmail: Option<ShareRow>)
    requires var rows := Run(notes, [], run);
             && UserAnswers(byUser, rows, scope) && EmailAnswers(byEmail, rows, scope)
             && UserAnswer(oneUser, rows, scope, id) && EmailAnswer(oneEmail, rows, scope, id)
    ensures RoleFor(NewestFirst(byUser + byEmail), id)
         == DirectRole(if scope.userId == "" then None else oneUser, if scope.email.None? then None else oneEmail)
  {
    var rows := Run(notes, [], run);
    RunKeepsClean(notes, [], run);
    BatchIsDirect(rows, scope, id, byUser, byEmail);
    if scope.userId != "" {
      OneRow(rows, id, UserTarget(scope.userId), oneUser);
    }
    if scope.email.Some? {
      OneRow(rows, id, EmailTarget(scope.email.value), oneEmail);
    }
  }
}
