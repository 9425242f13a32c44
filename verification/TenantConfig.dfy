/** The document of backend/tenant/export_import.go, and the checks an import makes on its users. */
module TenantConfig {
  import opened Wrappers
  import opened Schema

  datatype AdminConfig = AdminConfig(email: string, password: string)

  datatype UserConfig = UserConfig(email: string, password: string, passwordHash: string, name: string, role: string)

  datatype ClientConfig = ClientConfig(clientId: string, secret: string, secretHash: string, name: string,
                                       redirectUris: seq<string>)

  datatype SegmentConfig = SegmentConfig(name: string, description: string)

  datatype ContactConfig = ContactConfig(email: string, name: string, segments: seq<string>, consentSource: string,
                                         unsubscribed: Option<bool>, consentAt: Option<Time>, createdAt: Option<Time>,
                                         inviteToken: Option<Id>)

  datatype RecipientConfig = RecipientConfig(email: string, status: string, errorMessage: string,
                                             sentAt: Option<Time>, openedAt: Option<Time>)

  datatype CampaignConfig = CampaignConfig(subject: string, htmlBody: string, fromName: string, fromEmail: string,
                                           attachmentUrl: string, segments: seq<string>, status: string,
                                           sentAt: Option<Time>, createdAt: Option<Time>,
                                           recipients: seq<RecipientConfig>)

  datatype ImportConfig = ImportConfig(slug: string, name: string, registrationEnabled: bool, smtp: Option<Smtp>,
                                       admin: Option<AdminConfig>, users: seq<UserConfig>, clients: seq<ClientConfig>,
                                       segments: seq<SegmentConfig>, contacts: seq<ContactConfig>,
                                       campaigns: seq<CampaignConfig>)

  /** Code outside the model: letter case, the three syntax checks, password hashing and fresh identifiers. */
  datatype Platform = Platform(lower: string -> string, validEmail: string -> bool, validUri: string -> bool,
                               validSlug: string -> bool, bcrypt: string -> string, uuid: nat -> Id)

  const ADMIN := "admin"
  const MEMBER := "member"

  predicate NameOk(name: string) {
    0 < |name| <= 200
  }

  predicate UserOk(p: Platform, u: UserConfig) {
    p.validEmail(u.email) && NameOk(u.name) && (u.role == ADMIN || u.role == MEMBER)
  }

  /** No two emails that differ in letter case only, and every entry well formed. */
  ghost predicate UsersOk(p: Platform, users: seq<UserConfig>) {
    && (forall i, j :: 0 <= i < j < |users| ==> p.lower(users[i].email) != p.lower(users[j].email))
    && (forall i :: 0 <= i < |users| ==> UserOk(p, users[i]))
  }

  method ValidateUsers(p: Platform, users: seq<UserConfig>) returns (ok: bool)
    ensures ok <==> UsersOk(p, users)
    ensures ok <==>
      && (forall i, j :: 0 <= i < j < |users| ==> p.lower(users[i].email) != p.lower(users[j].email))
      && (forall i :: 0 <= i < |users| ==>
            && p.validEmail(users[i].email) && 0 < |users[i].name| <= 200
            && (users[i].role == "admin" || users[i].role == "member"))
  {
    var seen: set<string> := {};
    for i := 0 to |users|
      invariant UsersOk(p, users[..i])
      invariant forall e :: e in seen <==> exists k :: 0 <= k < i && p.lower(users[k].email) == e
    {
      var lower := p.lower(users[i].email);
      if lower in seen {
        return false;
      }
      seen := seen + {lower};
      if !UserOk(p, users[i]) {
        return false;
      }
    }
    assert users[..|users|] == users;
    return true;
  }

  predicate IsAdminEntry(p: Platform, admin: AdminConfig, u: UserConfig) {
    p.lower(u.email) == p.lower(admin.email)
  }

  function Promoted(admin: AdminConfig, u: UserConfig): UserConfig {
    u.(role := ADMIN, password := if admin.password != "" && u.password == "" then admin.password else u.password)
  }

  /** The position of the first entry with the admin's email, or past the end. */
  function AdminAt(p: Platform, admin: AdminConfig, users: seq<UserConfig>): (i: nat)
    ensures i <= |users| && (i < |users| ==> IsAdminEntry(p, admin, users[i]))
    ensures forall k :: 0 <= k < i ==> !IsAdminEntry(p, admin, users[k])
  {
    if users == [] || IsAdminEntry(p, admin, users[0]) then 0
    else
      var i := AdminAt(p, admin, users[1..]);
      assert forall k :: 0 < k < 1 + i ==> users[k] == users[1..][k - 1];
      1 + i
  }

  /** The users an import works on: the legacy admin entry merged into the list. */
  function Merged(p: Platform, admin: Option<AdminConfig>, users: seq<UserConfig>): seq<UserConfig> {
    if admin.None? || admin.value.email == "" then users
    else
      var i := AdminAt(p, admin.value, users);
      if i < |users| then users[i := Promoted(admin.value, users[i])]
      else [UserConfig(admin.value.email, admin.value.password, "", "Admin", ADMIN)] + users
  }

  /**
   * The slice itself is edited when the admin's email is already in it; otherwise it stays as it was and the result is
   * a new one. Either way a second merge of the slice, as the import does after its handler, gives the same list.
   */
  method MergeAdminAndUsers(p: Platform, admin: Option<AdminConfig>, users: array<UserConfig>)
    returns (merged: array<UserConfig>)
    modifies users
    ensures merged[..] == Merged(p, admin, old(users[..]))
    ensures merged == users || (fresh(merged) && users[..] == old(users[..]))
    ensures Merged(p, admin, users[..]) == Merged(p, admin, old(users[..]))
    ensures admin.None? || admin.value.email == "" ==> merged[..] == old(users[..])
    ensures admin.Some? && admin.value.email != "" ==>
      var given := old(users[..]);
      && (forall i :: 0 <= i < |given| && p.lower(given[i].email) == p.lower(admin.value.email)
                      && (forall k :: 0 <= k < i ==> p.lower(given[k].email) != p.lower(admin.value.email)) ==>
            var u := given[i];
            merged[..] == given[i := UserConfig(u.email,
              if u.password == "" then admin.value.password else u.password, u.passwordHash, u.name, "admin")])
      && ((forall i :: 0 <= i < |given| ==> p.lower(given[i].email) != p.lower(admin.value.email)) ==>
            merged[..] == [UserConfig(admin.value.email, admin.value.password, "", "Admin", "admin")] + given)
  {
    ghost var given := users[..];
    MergedTwice(p, admin, given);
    if admin.None? || admin.value.email == "" {
      return users;
    }
    var lowerAdmin := p.lower(admin.value.email);
    for i := 0 to users.Length
      invariant users[..] == given
      invariant forall k :: 0 <= k < i ==> !IsAdminEntry(p, admin.value, users[k])
    {
      if p.lower(users[i].email) == lowerAdmin {
        var u := users[i].(role := ADMIN);
        users[i] := if admin.value.password != "" && u.password == "" then u.(password := admin.value.password) else u;
        assert users[..] == Merged(p, admin, given);
        return users;
      }
    }
    var all := [UserConfig(admin.value.email, admin.value.password, "", "Admin", ADMIN)] + users[..];
    merged := new UserConfig[|all|](i requires 0 <= i < |all| => all[i]);
    assert merged[..] == all;
  }

  lemma FirstAdmin(p: Platform, admin: AdminConfig, users: seq<UserConfig>, i: nat)
    requires i < |users| && IsAdminEntry(p, admin, users[i])
    requires forall k :: 0 <= k < i ==> !IsAdminEntry(p, admin, users[k])
    ensures AdminAt(p, admin, users) == i
  {
    hide IsAdminEntry;
  }

  lemma MergedTwice(p: Platform, admin: Option<AdminConfig>, users: seq<UserConfig>)
    ensures Merged(p, admin, Merged(p, admin, users)) == Merged(p, admin, users)
  {
    if admin.Some? && admin.value.email != "" {
      var merged, i := Merged(p, admin, users), AdminAt(p, admin.value, users);
      FirstAdmin(p, admin.value, merged, if i < |users| then i else 0);
    }
  }

  /** After a merge the admin's email is there exactly as often as before or once, and always as an admin. */
  lemma MergeMakesAdmin(p: Platform, admin: AdminConfig, users: seq<UserConfig>)
    requires admin.email != "" && UsersOk(p, Merged(p, Some(admin), users))
    ensures
      var merged := Merged(p, Some(admin), users);
      && (exists i :: 0 <= i < |merged| && IsAdminEntry(p, admin, merged[i]))
      && (forall i :: 0 <= i < |merged| && IsAdminEntry(p, admin, merged[i]) ==> merged[i].role == ADMIN)
      && (forall u :: u in users && !IsAdminEntry(p, admin, u) ==> u in merged)
  {
    var merged, i := Merged(p, Some(admin), users), AdminAt(p, admin, users);
    assert IsAdminEntry(p, admin, merged[if i < |users| then i else 0]);
    forall u | u in users && !IsAdminEntry(p, admin, u)
      ensures u in merged
    {
      var k :| 0 <= k < |users| && users[k] == u;
      assert merged[if i < |users| then k else k + 1] == u;
    }
  }
}
