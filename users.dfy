/** The Users table's mutations and the signed-in user's view (convex/users.ts). */
module Users {
  import opened Wrappers
  import opened LeadTypes
  import opened ConvexSchema
  import Workspaces

  /** What the auth provider says about the caller; `getUserIdentity` gives None when signed out. */
  datatype Identity = Identity(
    subject: string,
    email: Option<string>,
    name: Option<string>,
    profileUrl: Option<string>,
    pictureUrl: Option<string>)

  /**
   * The table invariant: ids are below the next free id and distinct, and
   * subjects are distinct (which is what `.unique()` on `by_subject` needs).
   */
  predicate WellFormed(users: seq<User>, nextId: Id) {
    && (forall i :: 0 <= i < |users| ==> users[i].id < nextId)
    && (forall i, j :: 0 <= i < j < |users| ==> users[i].id != users[j].id)
    && (forall i, j :: 0 <= i < j < |users| ==> users[i].subject != users[j].subject)
  }

  /** The row with this subject (`withIndex("by_subject").unique()`): the last one, the only one when subjects are unique. */
  function FindBySubject(users: seq<User>, subject: string): (r: Option<nat>)
    ensures r.Some? ==> r.value < |users| && users[r.value].subject == subject
    ensures r.None? ==> forall i :: 0 <= i < |users| ==> users[i].subject != subject
    ensures r.Some? ==> forall i :: r.value < i < |users| ==> users[i].subject != subject
  {
    if users == [] then None
    else if users[|users| - 1].subject == subject then Some(|users| - 1)
    else FindBySubject(users[..|users| - 1], subject)
  }

  /** The row with this id (`db.get`). */
  function FindById(users: seq<User>, id: Id): (r: Option<nat>)
    ensures r.Some? ==> r.value < |users| && users[r.value].id == id
    ensures r.None? ==> forall i :: 0 <= i < |users| ==> users[i].id != id
  {
    if users == [] then None
    else if users[|users| - 1].id == id then Some(|users| - 1)
    else FindById(users[..|users| - 1], id)
  }

  /** The workspace with this id (`db.get` on Workspaces). */
  function FindWorkspace(table: seq<Workspace>, id: Id): (r: Option<Workspace>)
    ensures r.Some? ==> r.value in table && r.value.id == id
    ensures r.None? ==> forall w :: w in table ==> w.id != id
  {
    if table == [] then None
    else if table[0].id == id then Some(table[0])
    else FindWorkspace(table[1..], id)
  }

  /** The profile picture: `profileUrl ?? pictureUrl`. */
  function ImageUrl(ident: Identity): (r: Option<string>)
    ensures ident.profileUrl.Some? ==> r == ident.profileUrl
    ensures ident.profileUrl.None? ==> r == ident.pictureUrl
  {
    if ident.profileUrl.Some? then ident.profileUrl else ident.pictureUrl
  }

  /** A user row refreshed from the identity (`baseFields`). */
  function Refreshed(u: User, ident: Identity, now: int): (r: User)
    ensures r.id == u.id && r.subject == u.subject && r.createdAt == u.createdAt && r.workspaceId == u.workspaceId
    ensures r.email == ident.email && r.name == ident.name && r.imageUrl == ImageUrl(ident) && r.updatedAt == now
  {
    u.(email := ident.email, name := ident.name, imageUrl := ImageUrl(ident), updatedAt := now)
  }

  /** A row made at the first sign-in; it is linked to no workspace. */
  function Fresh(id: Id, ident: Identity, now: int): (r: User)
    ensures r.id == id && r.subject == ident.subject && r.workspaceId == None
    ensures r.createdAt == now && r.updatedAt == now && r.imageUrl == ImageUrl(ident)
  {
    User(id, ident.subject, ident.email, ident.name, ImageUrl(ident), now, now, None)
  }

  lemma WellFormedAfterPatch(users: seq<User>, nextId: Id, i: nat, u: User)
    requires WellFormed(users, nextId) && i < |users|
    requires u.id == users[i].id && u.subject == users[i].subject
    ensures WellFormed(users[i := u], nextId)
  {
  }

  /**
   * `ensureUser`: a signed-out caller is refused; a known subject has its
   * profile fields refreshed; an unknown subject gets a new row with a fresh id.
   */
  method EnsureUser(db: Db, ident: Option<Identity>, now: int) returns (r: Result<Id>)
    requires WellFormed(db.users, db.nextId)
    modifies db
    ensures WellFormed(db.users, db.nextId)
    ensures db.workspaces == old(db.workspaces) && db.analytics == old(db.analytics)
    ensures ident.None? ==> r == Failure("Not authenticated") && db.users == old(db.users) && db.nextId == old(db.nextId)
    ensures ident.Some? && FindBySubject(old(db.users), ident.value.subject).Some? ==>
      var i := FindBySubject(old(db.users), ident.value.subject).value;
      && r == Success(old(db.users)[i].id)
      && db.users == old(db.users)[i := Refreshed(old(db.users)[i], ident.value, now)]
      && db.nextId == old(db.nextId)
    ensures ident.Some? && FindBySubject(old(db.users), ident.value.subject).None? ==>
      && r == Success(old(db.nextId))
      && db.users == old(db.users) + [Fresh(old(db.nextId), ident.value, now)]
      && db.nextId == old(db.nextId) + 1
  {
    if ident.None? {
      return Failure("Not authenticated");
    }
    var who := ident.value;
    var existing := FindBySubject(db.users, who.subject);
    if existing.Some? {
      var i := existing.value;
      WellFormedAfterPatch(db.users, db.nextId, i, Refreshed(db.users[i], who, now));
      db.users := db.users[i := Refreshed(db.users[i], who, now)];
      return Success(db.users[i].id);
    }
    var id := db.nextId;
    db.users := db.users + [Fresh(id, who, now)];
    db.nextId := id + 1;
    return Success(id);
  }

  /** Each workspace name is used once (what `.unique()` on `by_name` needs). */
  predicate UniqueNames(table: seq<Workspace>) {
    forall i, j :: 0 <= i < j < |table| ==> table[i].workspaceName != table[j].workspaceName
  }

  /**
   * `setMyWorkspaceByName`: links the caller's row to the workspace of that
   * name, refusing a signed-out caller, an unknown user and an unknown name.
   */
  method SetMyWorkspaceByName(db: Db, ident: Option<Identity>, workspaceName: string, now: int) returns (r: Result<Id>)
    requires WellFormed(db.users, db.nextId) && UniqueNames(db.workspaces)
    modifies db
    ensures WellFormed(db.users, db.nextId)
    ensures db.workspaces == old(db.workspaces) && db.analytics == old(db.analytics) && db.nextId == old(db.nextId)
    ensures r.Failure? ==> db.users == old(db.users)
    ensures ident.None? ==> r == Failure("Not authenticated")
    ensures ident.Some? && FindBySubject(old(db.users), ident.value.subject).None? ==>
      r == Failure("User row not found. Call ensureUser first.")
    ensures ident.Some? && FindBySubject(old(db.users), ident.value.subject).Some?
            && Workspaces.FirstNamed(old(db.workspaces), workspaceName).None? ==>
      r == Failure("Workspace \"" + workspaceName + "\" not found")
    ensures ident.Some? && FindBySubject(old(db.users), ident.value.subject).Some?
            && Workspaces.FirstNamed(old(db.workspaces), workspaceName).Some? ==>
      r.Success?
    ensures r.Success? ==>
      && ident.Some?
      && var i := FindBySubject(old(db.users), ident.value.subject).value;
      && var ws := Workspaces.FirstNamed(old(db.workspaces), workspaceName);
      && ws.Some?
      && r.value == old(db.users)[i].id
      && db.users == old(db.users)[i := old(db.users)[i].(workspaceId := Some(ws.value.id), updatedAt := now)]
  {
    if ident.None? {
      return Failure("Not authenticated");
    }
    var user := FindBySubject(db.users, ident.value.subject);
    if user.None? {
      return Failure("User row not found. Call ensureUser first.");
    }
    var ws := Workspaces.FirstNamed(db.workspaces, workspaceName);
    if ws.None? {
      return Failure("Workspace \"" + workspaceName + "\" not found");
    }
    var i := user.value;
    var patched := db.users[i].(workspaceId := Some(ws.value.id), updatedAt := now);
    WellFormedAfterPatch(db.users, db.nextId, i, patched);
    db.users := db.users[i := patched];
    return Success(db.users[i].id);
  }

  /** The workspace fields `me` may show: everything but the Slack credentials. */
  datatype WorkspaceView = WorkspaceView(
    id: Id,
    workspaceName: string,
    formProvider: string,
    bookingUrl: string,
    successPageUrl: string,
    criteria: WorkspaceCriteria,
    creationTime: int)

  function View(w: Workspace): (v: WorkspaceView)
    ensures v.id == w.id && v.workspaceName == w.workspaceName && v.formProvider == w.formProvider
    ensures v.bookingUrl == w.bookingUrl && v.successPageUrl == w.successPageUrl
    ensures v.criteria == w.criteria && v.creationTime == w.creationTime
  {
    WorkspaceView(w.id, w.workspaceName, w.formProvider, w.bookingUrl, w.successPageUrl, w.criteria, w.creationTime)
  }

  datatype MeView = MeView(user: User, workspace: Option<WorkspaceView>)

  /**
   * `me`: null when signed out or unknown; otherwise the caller's row and the
   * public view of the workspace it is linked to, null when it is unlinked or
   * the workspace is gone.
   */
  function Me(db: Db, ident: Option<Identity>): (r: Option<MeView>)
    reads db
    ensures r.Some? <==> ident.Some? && FindBySubject(db.users, ident.value.subject).Some?
    ensures r.Some? ==> r.value.user.subject == ident.value.subject && r.value.user in db.users
    ensures r.Some? && r.value.workspace.Some? ==>
      && r.value.user.workspaceId == Some(r.value.workspace.value.id)
      && exists w :: w in db.workspaces && w.id == r.value.workspace.value.id && View(w) == r.value.workspace.value
    ensures r.Some? && r.value.user.workspaceId.Some?
            && (exists w :: w in db.workspaces && w.id == r.value.user.workspaceId.value) ==>
      r.value.workspace.Some?
  {
    if ident.None? then None
    else
      var i := FindBySubject(db.users, ident.value.subject);
      if i.None? then None
      else
        var user := db.users[i.value];
        var ws := if user.workspaceId.Some? then FindWorkspace(db.workspaces, user.workspaceId.value) else None;
        Some(MeView(user, if ws.Some? then Some(View(ws.value)) else None))
  }

  /**
   * `linkUserToWorkspace`: links a user to a workspace by ids, refusing an
   * unknown user first and an unknown workspace second.
   */
  method LinkUserToWorkspace(db: Db, userId: Id, workspaceId: Id, now: int) returns (r: Result<(Id, Id)>)
    requires WellFormed(db.users, db.nextId)
    modifies db
    ensures WellFormed(db.users, db.nextId)
    ensures db.workspaces == old(db.workspaces) && db.analytics == old(db.analytics) && db.nextId == old(db.nextId)
    ensures r.Failure? ==> db.users == old(db.users)
    ensures FindById(old(db.users), userId).None? ==> r == Failure("User not found")
    ensures FindById(old(db.users), userId).Some? && FindWorkspace(old(db.workspaces), workspaceId).None? ==>
      r == Failure("Workspace not found")
    ensures FindById(old(db.users), userId).Some? && FindWorkspace(old(db.workspaces), workspaceId).Some? ==>
      var i := FindById(old(db.users), userId).value;
      && r == Success((userId, workspaceId))
      && db.users == old(db.users)[i := old(db.users)[i].(workspaceId := Some(workspaceId), updatedAt := now)]
  {
    var user := FindById(db.users, userId);
    if user.None? {
      return Failure("User not found");
    }
    var ws := FindWorkspace(db.workspaces, workspaceId);
    if ws.None? {
      return Failure("Workspace not found");
    }
    var i := user.value;
    var patched := db.users[i].(workspaceId := Some(workspaceId), updatedAt := now);
    WellFormedAfterPatch(db.users, db.nextId, i, patched);
    db.users := db.users[i := patched];
    return Success((userId, workspaceId));
  }

  /** After `ensureUser`, `me` finds the caller. */
  lemma MeAfterEnsureUser(users: seq<User>, nextId: Id, ident: Identity, now: int)
    requires WellFormed(users, nextId)
    ensures var after := if FindBySubject(users, ident.subject).Some?
                         then users[FindBySubject(users, ident.subject).value := Refreshed(users[FindBySubject(users, ident.subject).value], ident, now)]
                         else users + [Fresh(nextId, ident, now)];
            FindBySubject(after, ident.subject).Some?
  {
    var k := FindBySubject(users, ident.subject);
    if k.Some? {
      var after := users[k.value := Refreshed(users[k.value], ident, now)];
      assert after[k.value].subject == ident.subject;
    } else {
      var after := users + [Fresh(nextId, ident, now)];
      assert after[|after| - 1].subject == ident.subject;
    }
  }
}
