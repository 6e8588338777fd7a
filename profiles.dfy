/**
 * The server's profile service (`ProfileServiceImpl`): creation and partial update of
 * profiles, the rule that keeps "protected" users active, resolution of a ticket to
 * its profile, bulk (de)activation, and the comma-separated list of protected users.
 */
module Profiles {
  import opened Wrappers
  import opened JavaStrings

  /** An attribute value (a `java.io.Serializable`); the service never looks inside one. */
  type AttributeValue(==, !new)

  /** A stored profile; nullable Java fields are `Option`s, dates are epoch milliseconds. */
  datatype Profile = Profile(
    id: string,
    userName: Option<string>,
    password: string,
    active: Option<bool>,
    tenantName: Option<string>,
    email: Option<string>,
    attributes: Option<map<string, AttributeValue>>,
    roles: Option<seq<string>>,
    created: int,
    modified: int)

  /** A ticket of the profile server: the ticket string and the account it was issued to. */
  datatype Ticket = Ticket(ticket: string, username: Option<string>, tenantName: Option<string>)

  /** What `createProfile` does: returns the saved profile, throws `InvalidEmailException`, or returns null after a duplicate key. */
  datatype CreateOutcome = Created(profile: Profile) | InvalidEmail | DuplicateKey

  /**
   * What `updateProfile` does: returns null for an unknown id, returns the saved profile,
   * or lets the store's `DuplicateKeyException` escape while saving `profile`.
   */
  datatype UpdateOutcome = NoSuchProfile | Updated(profile: Profile) | SaveRejected(profile: Profile)

  /** `p` belongs to the account `(userName, tenantName)`. */
  predicate HasAccount(p: Profile, userName: Option<string>, tenantName: Option<string>) {
    p.userName == userName && p.tenantName == tenantName
  }

  /**
   * The profile store's invariant: each profile is filed under its own id, and the store's
   * unique index admits one profile per account (user name within tenant).
   */
  ghost predicate ValidStore(profiles: map<string, Profile>) {
    && (forall id :: id in profiles ==> profiles[id].id == id)
    && (forall a, b :: a in profiles && b in profiles && HasAccount(profiles[a], profiles[b].userName, profiles[b].tenantName) ==> a == b)
  }

  /** Returns true iff some profile other than the one filed under `except` is filed under the account of `p`. */
  predicate AccountTaken(profiles: map<string, Profile>, p: Profile, except: Option<string>) {
    exists id :: id in profiles && Some(id) != except && HasAccount(profiles[id], p.userName, p.tenantName)
  }

  /**
   * The attributes `updateProfile` stores: when both maps exist, the stored map with the
   * given entries put over it (`putAll`); otherwise the given map, even when that is null.
   */
  function MergeAttributes(stored: Option<map<string, AttributeValue>>, given: Option<map<string, AttributeValue>>)
    : (r: Option<map<string, AttributeValue>>)
    ensures stored.None? || given.None? ==> r == given
    ensures stored.Some? && given.Some? ==>
      && r.Some?
      && r.value.Keys == stored.value.Keys + given.value.Keys
      && (forall k :: k in given.value ==> r.value[k] == given.value[k])
      && (forall k :: k in stored.value && k !in given.value ==> r.value[k] == stored.value[k])
  {
    if stored.Some? && given.Some? then Some(stored.value + given.value) else given
  }

  /** Merging the same attributes in twice stores what merging them once stores. */
  lemma MergeAttributesIdempotent(stored: Option<map<string, AttributeValue>>, given: Option<map<string, AttributeValue>>)
    ensures MergeAttributes(MergeAttributes(stored, given), given) == MergeAttributes(stored, given)
  {
    if stored.Some? && given.Some? {
      var m := stored.value + given.value;
      assert (m + given.value).Keys == m.Keys;
      assert forall k :: k in m ==> (m + given.value)[k] == m[k];
      assert m + given.value == m;
    } else if given.Some? {
      assert given.value + given.value == given.value;
    }
  }

  /** Filing `p` under its own id keeps the store valid when no other profile holds its account. */
  lemma ReplaceKeepsValid(profiles: map<string, Profile>, p: Profile)
    requires ValidStore(profiles)
    requires !AccountTaken(profiles, p, Some(p.id))
    ensures ValidStore(profiles[p.id := p])
  {
  }

  /**
   * The profile `updateProfile` saves, given the stored profile `before`: user name, password
   * (hashed) and tenant change only to a non-null value that is not blank once trimmed; roles
   * and email change to any non-null value; `active` changes to a non-null value unless the
   * user name given to the call is protected; attributes are merged; the modification time is `now`.
   */
  ghost predicate UpdatedProfile(before: Profile, after: Profile, userName: Option<string>, password: Option<string>,
                                 active: Option<bool>, tenantName: Option<string>, email: Option<string>,
                                 attributes: Option<map<string, AttributeValue>>, roles: Option<seq<string>>, now: int,
                                 protectedName: bool, hash: Option<string> -> string)
  {
    && after.id == before.id
    && after.userName == (if userName.Some? && Trim(userName.value) != [] then userName else before.userName)
    && after.password == (if password.Some? && Trim(password.value) != [] then hash(password) else before.password)
    && after.active == (if active.Some? && !protectedName then active else before.active)
    && after.tenantName == (if tenantName.Some? && Trim(tenantName.value) != [] then tenantName else before.tenantName)
    && after.roles == (if roles.Some? then roles else before.roles)
    && after.email == (if email.Some? then email else before.email)
    && after.attributes == MergeAttributes(before.attributes, attributes)
    && after.created == before.created
    && after.modified == now
  }

  /** Trimming never introduces a char: what `s` lacks, `Trim(s)` lacks. */
  lemma TrimKeepsOut(s: string, c: char)
    requires c !in s
    ensures c !in Trim(s)
  {
  }

  /**
   * Trimming each of some pieces that lack `c` gives pieces that lack `c` and
   * neither start nor end with white space.
   */
  lemma TrimmedPiecesKeepOut(pieces: seq<string>, values: seq<string>, c: char)
    requires |values| == |pieces| && forall i :: 0 <= i < |pieces| ==> values[i] == Trim(pieces[i])
    requires forall i :: 0 <= i < |pieces| ==> c !in pieces[i]
    ensures forall i :: 0 <= i < |values| ==>
      c !in values[i] && (values[i] == [] || (!IsTrimmable(values[i][0]) && !IsTrimmable(values[i][|values[i]| - 1])))
  {
    forall i | 0 <= i < |values|
      ensures c !in values[i] && (values[i] == [] || (!IsTrimmable(values[i][0]) && !IsTrimmable(values[i][|values[i]| - 1])))
    {
      TrimKeepsOut(pieces[i], c);
    }
  }

  class ProfileService {
    /** The profile repository, by profile id. */
    var profiles: map<string, Profile>
    /** The ticket repository, by ticket string. */
    var tickets: map<string, Ticket>
    /** The protected user names, or null until they are configured. */
    var protectedDisableUsers: Option<seq<string>>
    /** The MD5 password encoder, left uninterpreted. */
    const hash: Option<string> -> string
    /** The email validator service, left uninterpreted. */
    const validateEmail: Option<string> -> bool

    ghost predicate Valid()
      reads this
    {
      ValidStore(profiles)
    }

    constructor (hash: Option<string> -> string, validateEmail: Option<string> -> bool,
                 profiles: map<string, Profile>, tickets: map<string, Ticket>)
      requires ValidStore(profiles)
      ensures Valid()
      ensures this.hash == hash && this.validateEmail == validateEmail
      ensures this.profiles == profiles && this.tickets == tickets && protectedDisableUsers == None
    {
      this.hash := hash;
      this.validateEmail := validateEmail;
      this.profiles := profiles;
      this.tickets := tickets;
      protectedDisableUsers := None;
    }

    /** `username` is on the configured list of users that must stay active. */
    predicate Protected(username: Option<string>)
      reads this
    {
      protectedDisableUsers.Some? && username.Some? && username.value in protectedDisableUsers.value
    }

    /** `isProtectedToKeepActive`: a linear scan of the protected list for an equal name. */
    method IsProtectedToKeepActive(username: Option<string>) returns (protectedUsername: bool)
      ensures protectedUsername <==>
        protectedDisableUsers.Some? && exists k :: 0 <= k < |protectedDisableUsers.value| && Some(protectedDisableUsers.value[k]) == username
      ensures protectedUsername == Protected(username)
    {
      protectedUsername := false;
      if protectedDisableUsers.None? || |protectedDisableUsers.value| == 0 {
        return;
      }
      var users := protectedDisableUsers.value;
      for i := 0 to |users|
        invariant protectedUsername <==> exists k :: 0 <= k < i && Some(users[k]) == username
      {
        if Some(users[i]) == username {
          protectedUsername := true;
        }
      }
    }

    /**
     * `convertLineToList`: the comma-separated pieces of `list`, each trimmed, in order;
     * nothing for a null or empty line.
     */
    static method ConvertLineToList(list: Option<string>) returns (values: seq<string>)
      ensures list.None? || list.value == [] ==> values == []
      ensures list.Some? && list.value != [] ==>
        var pieces := Split(list.value, ',');
        |values| == |pieces| && forall i :: 0 <= i < |values| ==> values[i] == Trim(pieces[i])
      ensures list.Some? ==> |values| <= CountOf(list.value, ',') + 1
      ensures forall i :: 0 <= i < |values| ==>
        ',' !in values[i] && (values[i] == [] || (!IsTrimmable(values[i][0]) && !IsTrimmable(values[i][|values[i]| - 1])))
    {
      values := [];
      if list.None? || |list.value| == 0 {
        return;
      }
      var arrayRoles := Split(list.value, ',');
      for i := 0 to |arrayRoles|
        invariant |values| == i
        invariant forall j :: 0 <= j < i ==> values[j] == Trim(arrayRoles[j])
      {
        values := values + [Trim(arrayRoles[i])];
      }
      TrimmedPiecesKeepOut(arrayRoles, values, ',');
    }

    /** `setProtectedDisableUsers`: the configured line, parsed by `convertLineToList`. */
    method SetProtectedDisableUsers(users: Option<string>)
      modifies this
      ensures protectedDisableUsers.Some?
      ensures users.None? || users.value == [] ==> protectedDisableUsers == Some([])
      ensures users.Some? && users.value != [] ==>
        var pieces := Split(users.value, ',');
        |protectedDisableUsers.value| == |pieces| &&
        forall i :: 0 <= i < |pieces| ==> protectedDisableUsers.value[i] == Trim(pieces[i])
      ensures profiles == old(profiles) && tickets == old(tickets)
    {
      var values := ConvertLineToList(users);
      protectedDisableUsers := Some(values);
    }

    /** The repository's lookup by account; the store's invariant makes the answer unique. */
    function ProfileByUserName(userName: Option<string>, tenantName: Option<string>): (r: Option<Profile>)
      reads this
      requires Valid()
      ensures r.Some? ==> r.value.id in profiles && profiles[r.value.id] == r.value && HasAccount(r.value, userName, tenantName)
      ensures r.None? ==> forall id :: id in profiles ==> !HasAccount(profiles[id], userName, tenantName)
    {
      if exists id :: id in profiles && HasAccount(profiles[id], userName, tenantName) then
        var id :| id in profiles && HasAccount(profiles[id], userName, tenantName);
        Some(profiles[id])
      else
        None
    }

    /**
     * `getProfileByTicket`: null for an unknown ticket, otherwise the profile of the account
     * the ticket names (null when that account has no profile).
     */
    function GetProfileByTicket(ticketStr: string): (r: Option<Profile>)
      reads this
      requires Valid()
      ensures ticketStr !in tickets ==> r == None
      ensures r.Some? ==> ticketStr in tickets && r.value.id in profiles && profiles[r.value.id] == r.value
                          && HasAccount(r.value, tickets[ticketStr].username, tickets[ticketStr].tenantName)
      ensures ticketStr in tickets ==>
        ((exists id :: id in profiles && HasAccount(profiles[id], tickets[ticketStr].username, tickets[ticketStr].tenantName))
         ==> r.Some?)
    {
      if ticketStr !in tickets then None
      else
        var ticket := tickets[ticketStr];
        ProfileByUserName(ticket.username, ticket.tenantName)
    }

    /**
     * `createProfile`: rejects an email the validator refuses; otherwise saves a new profile
     * under the id the store assigns, active if the user name is protected, and answers
     * null when the store reports a duplicate key.
     */
    method CreateProfile(userName: Option<string>, password: Option<string>, active: Option<bool>,
                         tenantName: Option<string>, email: Option<string>,
                         attributes: Option<map<string, AttributeValue>>, roles: Option<seq<string>>,
                         newId: string, now: int)
      returns (r: CreateOutcome)
      requires Valid()
      modifies this
      ensures Valid()
      ensures tickets == old(tickets) && protectedDisableUsers == old(protectedDisableUsers)
      ensures r.InvalidEmail? <==> !validateEmail(email)
      ensures !r.Created? ==> profiles == old(profiles)
      ensures r.DuplicateKey? <==>
        validateEmail(email) &&
        (newId in old(profiles) || exists id :: id in old(profiles) && HasAccount(old(profiles)[id], userName, tenantName))
      ensures r.Created? ==>
        && newId !in old(profiles)
        && profiles == old(profiles)[newId := r.profile]
        && r.profile == Profile(newId, userName, hash(password), if Protected(userName) then Some(true) else active,
                                tenantName, email, attributes, roles, now, now)
    {
      if !validateEmail(email) {
        return InvalidEmail;
      }
      var hashedPassword := hash(password);
      var newActive := Some(true);
      var keepActive := IsProtectedToKeepActive(userName);
      if !keepActive {
        newActive := active;
      }
      var profile := Profile(newId, userName, hashedPassword, newActive, tenantName, email, attributes, roles, now, now);
      if newId in profiles || AccountTaken(profiles, profile, None) {
        return DuplicateKey;
      }
      ReplaceKeepsValid(profiles, profile);
      profiles := profiles[newId := profile];
      r := Created(profile);
    }

    /**
     * The setters `updateProfile` applies to the stored profile `before`, in the order it
     * applies them; the result is what it then saves.
     */
    method ApplyUpdate(before: Profile, userName: Option<string>, password: Option<string>, active: Option<bool>,
                       tenantName: Option<string>, email: Option<string>,
                       attributes: Option<map<string, AttributeValue>>, roles: Option<seq<string>>, now: int)
      returns (profile: Profile)
      ensures UpdatedProfile(before, profile, userName, password, active, tenantName, email, attributes, roles, now,
                             Protected(userName), hash)
    {
      var newUserName, newPassword, newActive := before.userName, before.password, before.active;
      var newTenantName, newRoles, newEmail := before.tenantName, before.roles, before.email;
      if userName.Some? && Trim(userName.value) != [] {
        newUserName := userName;
      }
      if password.Some? && Trim(password.value) != [] {
        newPassword := hash(password);
      }
      if active.Some? {
        var keepActive := IsProtectedToKeepActive(userName);
        if !keepActive {
          newActive := active;
        }
      }
      if tenantName.Some? && Trim(tenantName.value) != [] {
        newTenantName := tenantName;
      }
      if roles.Some? {
        newRoles := roles;
      }
      if email.Some? {
        newEmail := email;
      }
      var currentAttributes := MergeAttributes(before.attributes, attributes);
      profile := before.(userName := newUserName, password := newPassword, active := newActive,
                         tenantName := newTenantName, roles := newRoles, email := newEmail,
                         attributes := currentAttributes, modified := now);
    }

    /**
     * `updateProfile`: null for an unknown id; otherwise the stored profile with the
     * setters applied, saved over the stored copy unless the unique index refuses it.
     */
    method UpdateProfile(profileId: string, userName: Option<string>, password: Option<string>, active: Option<bool>,
                         tenantName: Option<string>, email: Option<string>,
                         attributes: Option<map<string, AttributeValue>>, roles: Option<seq<string>>, now: int)
      returns (r: UpdateOutcome)
      requires Valid()
      modifies this
      ensures Valid()
      ensures tickets == old(tickets) && protectedDisableUsers == old(protectedDisableUsers)
      ensures r.NoSuchProfile? <==> profileId !in old(profiles)
      ensures !r.Updated? ==> profiles == old(profiles)
      ensures !r.NoSuchProfile? ==>
        UpdatedProfile(old(profiles)[profileId], r.profile, userName, password, active, tenantName, email, attributes,
                       roles, now, Protected(userName), hash)
      ensures r.SaveRejected? <==> profileId in old(profiles) && AccountTaken(old(profiles), r.profile, Some(profileId))
      ensures r.Updated? ==> profiles == old(profiles)[profileId := r.profile]
    {
      if profileId !in profiles {
        return NoSuchProfile;
      }
      var profile := ApplyUpdate(profiles[profileId], userName, password, active, tenantName, email, attributes, roles, now);
      var saved := SaveExisting(profile);
      r := if saved then Updated(profile) else SaveRejected(profile);
    }

    /**
     * The repository's `save` of a profile already filed under its id: it replaces the stored
     * copy, unless the unique index finds another profile with the same account.
     */
    method SaveExisting(p: Profile) returns (saved: bool)
      requires Valid() && p.id in profiles
      modifies this
      ensures Valid()
      ensures saved <==> !AccountTaken(old(profiles), p, Some(p.id))
      ensures profiles == if saved then old(profiles)[p.id := p] else old(profiles)
      ensures tickets == old(tickets) && protectedDisableUsers == old(protectedDisableUsers)
    {
      saved := !AccountTaken(profiles, p, Some(p.id));
      if saved {
        ReplaceKeepsValid(profiles, p);
        profiles := profiles[p.id := p];
      }
    }

    /** The private `activeProfile(p, active)`: set the flag on `p` and save it over its stored copy. */
    method SaveActive(p: Profile, active: bool)
      requires Valid()
      requires p.id in profiles && HasAccount(profiles[p.id], p.userName, p.tenantName)
      modifies this
      ensures Valid()
      ensures profiles == old(profiles)[p.id := p.(active := Some(active))]
      ensures tickets == old(tickets) && protectedDisableUsers == old(protectedDisableUsers)
    {
      profiles := profiles[p.id := p.(active := Some(active))];
    }

    /** `activeProfile(profileId, active)`: set the flag of one profile, if it exists. */
    method ActiveProfile(profileId: string, active: bool)
      requires Valid()
      modifies this
      ensures Valid()
      ensures profiles == if profileId in old(profiles) then old(profiles)[profileId := old(profiles)[profileId].(active := Some(active))]
                          else old(profiles)
      ensures tickets == old(tickets) && protectedDisableUsers == old(protectedDisableUsers)
    {
      if profileId in profiles {
        SaveActive(profiles[profileId], active);
      }
    }

    /** `activeProfiles(active)`: every stored profile, and nothing else, gets the flag `active`. */
    method ActiveProfiles(active: bool)
      requires Valid()
      modifies this
      ensures Valid()
      ensures profiles.Keys == old(profiles).Keys
      ensures forall id :: id in profiles ==> profiles[id] == old(profiles)[id].(active := Some(active))
      ensures tickets == old(tickets) && protectedDisableUsers == old(protectedDisableUsers)
    {
      var all := profiles;
      var pending := all.Keys;
      while pending != {}
        invariant Valid()
        invariant pending <= all.Keys && profiles.Keys == all.Keys
        invariant forall id :: id in profiles ==>
          profiles[id] == if id in pending then all[id] else all[id].(active := Some(active))
        invariant tickets == old(tickets) && protectedDisableUsers == old(protectedDisableUsers)
        decreases pending
      {
        var id :| id in pending;
        SaveActive(all[id], active);
        pending := pending - {id};
      }
    }
  }

  /**
   * A protected user can still be deactivated: the protection is looked up by the user name
   * given to `updateProfile`, so a call without one changes `active`; a call that names the
   * protected user does not.
   */
  method ProtectedUserDeactivatedWithoutUserName(hash: Option<string> -> string, validateEmail: Option<string> -> bool)
    returns (unnamed: Option<bool>, named: Option<bool>)
    ensures unnamed == Some(false)
    ensures named == Some(true)
  {
    var admin := Profile("p1", Some("admin"), "h", Some(true), Some("default"), None, None, None, 0, 0);
    var service := new ProfileService(hash, validateEmail, map["p1" := admin], map[]);
    service.SetProtectedDisableUsers(Some("admin"));
    assert Split("admin", ',') == ["admin"] by {
      assert ',' !in "admin";
    }
    assert Trim("admin") == "admin" by {
      assert Leading("admin") == 0;
    }
    assert service.protectedDisableUsers.value[0] == "admin";
    assert service.Protected(Some("admin"));
    var kept := service.UpdateProfile("p1", Some("admin"), None, Some(false), None, None, None, None, 1);
    named := kept.profile.active;
    var changed := service.UpdateProfile("p1", None, None, Some(false), None, None, None, None, 2);
    unnamed := changed.profile.active;
  }
}
