/** The rule processor of user_sync/rules.py: user keys, group-name
    normalisation, the per-user ledgers of group changes already
    registered, the exclusion rules, the group differences between the
    directory and a dashboard organisation, the stray limits, and the
    qualified names of dashboard groups. */
module Rules {
  import opened Wrappers
  import opened Strings
  import opened Helper

  // ---------------------------------------------------------------------
  // User keys (`get_user_key`, `parse_user_key`)

  /** The username a key uses: the normalised username when that is
      non-empty, otherwise the normalised email, if an email is given. */
  function KeyUsername(username: Option<string>, email: Option<string>): Option<string> {
    var e := if NonEmpty(email) then NormalizeString(email) else None;
    var u := NormalizeString(username);
    if NonEmpty(u) then u else e
  }

  /** `get_user_key`, given the identity type as `parse_identity_type`
      returns it: `type,username,domain`, with the domain left empty when
      the username holds an `@`; no key without an identity type, without a
      username, or for a username that is not an email and has no domain. */
  function GetUserKey(idType: Option<string>, username: Option<string>, domain: Option<string>, email: Option<string>): Option<string> {
    var u := KeyUsername(username, email);
    var d := NormalizeString(domain);
    if !NonEmpty(idType) || !NonEmpty(u) then None
    else if Find(u.value, "@") >= 0 then Some(idType.value + "," + u.value + ",")
    else if !NonEmpty(d) then None
    else Some(idType.value + "," + u.value + "," + d.value)
  }

  /** `parse_user_key`: the parts between commas. */
  function ParseUserKey(key: string): (r: seq<string>)
    ensures |r| >= 1
  {
    Split(key, ",")
  }

  lemma FindCharIn(s: string, c: char)
    ensures Find(s, [c]) >= 0 <==> c in s
  {
    FindIsFirst(s, [c]);
    if c !in s {
      NoCharNoOccurrence(s, c);
    } else {
      var i :| 0 <= i < |s| && s[i] == c;
      assert OccursAt(s, [c], i);
    }
  }

  /** There is a key exactly when there is an identity type and a username,
      and either the username is an email or there is a domain. */
  lemma UserKeyDefined(idType: Option<string>, username: Option<string>, domain: Option<string>, email: Option<string>)
    ensures var u := KeyUsername(username, email);
      GetUserKey(idType, username, domain, email).Some? <==>
        NonEmpty(idType) && NonEmpty(u) && ('@' in u.value || NonEmpty(NormalizeString(domain)))
  {
    var u := KeyUsername(username, email);
    if u.Some? {
      FindCharIn(u.value, '@');
    }
  }

  /** Normalising cannot create a character that is not a lower-case
      letter. */
  lemma NormalizeKeepsOut(s: string, c: char)
    requires c !in s && !IsLowerAscii(c)
    ensures c !in Normalize(s)
  {
    var t := Strip(s);
    forall i | 0 <= i < |t| ensures t[i] != c {
      StripIsSlice(s, i);
    }
    forall i | 0 <= i < |t| ensures Lower(t)[i] != c {
      assert Lower(t)[i] == LowerChar(t[i]);
    }
  }

  lemma StripIsSlice(s: string, i: nat)
    requires i < |Strip(s)|
    ensures Strip(s)[i] in s
  {
    var l := StripLeft(s);
    assert Strip(s) == StripRight(l);
    assert Strip(s)[i] == l[i];
    assert l[i] == s[|s| - |l| + i];
  }

  /** A normalised string is free of commas when its source is. */
  lemma NormalizedNoComma(v: Option<string>)
    requires v.Some? ==> ',' !in v.value
    ensures NormalizeString(v).Some? ==> ',' !in NormalizeString(v).value
  {
    if v.Some? {
      NormalizeKeepsOut(v.value, ',');
    }
  }

  /** The username part of a key is one of the normalised inputs. */
  lemma KeyUsernameNoComma(username: Option<string>, email: Option<string>)
    requires username.Some? ==> ',' !in username.value
    requires email.Some? ==> ',' !in email.value
    ensures var u := KeyUsername(username, email);
      u.Some? ==> ',' !in u.value
  {
    if NonEmpty(NormalizeString(username)) {
      assert KeyUsername(username, email) == NormalizeString(username);
      NormalizedNoComma(username);
    } else if NonEmpty(email) {
      assert KeyUsername(username, email) == NormalizeString(email);
      NormalizedNoComma(email);
    } else {
      assert KeyUsername(username, email).None?;
    }
  }

  /** The username and domain parts of a key are already normalised:
      normalising them again changes nothing. */
  lemma UserKeyPartsNormal(username: Option<string>, domain: Option<string>, email: Option<string>)
    ensures var u := KeyUsername(username, email);
      u.Some? ==> Normalize(u.value) == u.value
    ensures NormalizeString(domain).Some? ==> Normalize(NormalizeString(domain).value) == NormalizeString(domain).value
  {
    if NonEmpty(NormalizeString(username)) {
      assert KeyUsername(username, email) == NormalizeString(username);
      NormalizeIdempotent(username.value);
    } else if NonEmpty(email) {
      assert KeyUsername(username, email) == NormalizeString(email);
      NormalizeIdempotent(email.value);
    }
    if domain.Some? {
      NormalizeIdempotent(domain.value);
    }
  }

  lemma SplitThree(a: string, b: string, c: string)
    requires ',' !in a && ',' !in b && ',' !in c
    ensures ParseUserKey(a + "," + b + "," + c) == [a, b, c]
  {
    var parts := [a, b, c];
    assert parts[1..] == [b, c];
    assert parts[1..][1..] == [c];
    assert Join([c], ",") == c;
    assert Join([b, c], ",") == b + "," + c;
    assert Join(parts, ",") == a + "," + (b + "," + c);
    assert a + "," + (b + "," + c) == a + "," + b + "," + c;
    SplitJoinChar(parts, ',');
  }

  /** Parsing a key gives back the identity type and the normalised
      username and domain that built it, when none of them holds a comma. */
  lemma UserKeyRoundTrip(idType: Option<string>, username: Option<string>, domain: Option<string>, email: Option<string>)
    requires GetUserKey(idType, username, domain, email).Some?
    requires ',' !in idType.value
    requires username.Some? ==> ',' !in username.value
    requires domain.Some? ==> ',' !in domain.value
    requires email.Some? ==> ',' !in email.value
    ensures var parts := ParseUserKey(GetUserKey(idType, username, domain, email).value);
      var u := KeyUsername(username, email).value;
      |parts| == 3 && parts[0] == idType.value && parts[1] == u &&
      parts[2] == (if Find(u, "@") >= 0 then "" else NormalizeString(domain).value)
  {
    var u := KeyUsername(username, email).value;
    assert ',' !in u by { KeyUsernameNoComma(username, email); }
    assert '@' in u <==> Find(u, "@") >= 0 by { FindCharIn(u, '@'); }
    var key := GetUserKey(idType, username, domain, email).value;
    if '@' in u {
      assert key == idType.value + "," + u + "," + "";
      SplitThree(idType.value, u, "");
    } else {
      var d := NormalizeString(domain).value;
      assert key == idType.value + "," + u + "," + d;
      assert ',' !in d by { NormalizedNoComma(domain); }
      SplitThree(idType.value, u, d);
    }
  }

  // ---------------------------------------------------------------------
  // Group names (`normalize_groups`)

  /** The normalised names of a group list; none for `None`. */
  function NormalizedGroups(names: Option<seq<string>>): set<string> {
    if names.None? then {} else set i | 0 <= i < |names.value| :: Normalize(names.value[i])
  }

  /** `normalize_groups` */
  method NormalizeGroups(names: Option<seq<string>>) returns (r: set<string>)
    ensures r == NormalizedGroups(names)
  {
    r := {};
    if names.None? {
      return;
    }
    var ns := names.value;
    for i := 0 to |ns|
      invariant r == set k | 0 <= k < i :: Normalize(ns[k])
    {
      r := r + {Normalize(ns[i])};
    }
  }

  /** Every normalised name is its own normalisation. */
  lemma NormalizedGroupsAreNormal(names: Option<seq<string>>)
    ensures forall g :: g in NormalizedGroups(names) ==> Normalize(g) == g
  {
    forall g | g in NormalizedGroups(names) ensures Normalize(g) == g {
      var i :| 0 <= i < |names.value| && g == Normalize(names.value[i]);
      NormalizeIdempotent(names.value[i]);
    }
  }

  // ---------------------------------------------------------------------
  // Ledgers of registered group changes (`get_new_groups`)

  /** The groups registered for `key`; none when it has no entry. */
  function Registered(m: map<string, set<string>>, key: string): set<string> {
    if key in m then m[key] else {}
  }

  /** The ledger after registering `desired` for `key`: the union, with an
      entry created only when something is new. */
  function Register(m: map<string, set<string>>, key: string, desired: Option<set<string>>): map<string, set<string>> {
    if desired.None? || desired.value - Registered(m, key) == {} then m
    else m[key := Registered(m, key) + desired.value]
  }

  /** After registering, the user's groups are the old ones and the desired
      ones, other users are untouched, and the same request finds nothing
      new. */
  lemma RegisterUnion(m: map<string, set<string>>, key: string, desired: set<string>)
    ensures Registered(Register(m, key, Some(desired)), key) == Registered(m, key) + desired
    ensures forall k :: k != key ==> Registered(Register(m, key, Some(desired)), k) == Registered(m, k)
    ensures desired - Registered(Register(m, key, Some(desired)), key) == {}
  {
    if desired - Registered(m, key) == {} {
      forall g | g in desired ensures g in Registered(m, key) {
        assert g !in desired - Registered(m, key);
      }
      assert Registered(m, key) + desired == Registered(m, key);
    }
  }

  /** A map from user key to the groups already registered for that user
      (`groups_added_by_user_key` or `groups_removed_by_user_key`). */
  class GroupLedger {
    var byUserKey: map<string, set<string>>

    constructor()
      ensures byUserKey == map[]
    {
      byUserKey := map[];
    }

    /** `get_new_groups`: the desired groups not yet registered for the
        user, which are registered now; `None` asks for nothing. */
    method GetNewGroups(userKey: string, desired: Option<set<string>>) returns (r: Option<set<string>>)
      modifies this
      ensures desired.None? ==> r.None?
      ensures desired.Some? ==> r == Some(desired.value - Registered(old(byUserKey), userKey))
      ensures byUserKey == Register(old(byUserKey), userKey, desired)
    {
      r := None;
      if desired.Some? {
        var current: Option<set<string>> := if userKey in byUserKey then Some(byUserKey[userKey]) else None;
        var newGroups := if current.Some? then desired.value - current.value else desired.value;
        assert newGroups == desired.value - Registered(byUserKey, userKey);
        if newGroups != {} {
          var cur := if current.None? then {} else current.value;
          byUserKey := byUserKey[userKey := cur + newGroups];
          assert cur + newGroups == Registered(old(byUserKey), userKey) + desired.value;
        }
        r := Some(newGroups);
      }
    }
  }

  // ---------------------------------------------------------------------
  // Organisations

  /** A user as a dashboard reports it: its key and its group list. */
  datatype DashboardUser = DashboardUser(key: string, groups: Option<seq<string>>)

  /** The dashboard users by key, after recording `users` in order. */
  function AddUsers(m: map<string, DashboardUser>, users: seq<DashboardUser>): (r: map<string, DashboardUser>)
    ensures r.Keys == m.Keys + KeysOf(users)
    decreases |users|
  {
    if users == [] then m
    else
      var n := |users| - 1;
      assert KeysOf(users) == KeysOf(users[..n]) + {users[n].key};
      AddUsers(m, users[..n])[users[n].key := users[n]]
  }

  function KeysOf(users: seq<DashboardUser>): set<string> {
    set i | 0 <= i < |users| :: users[i].key
  }

  /** `OrganizationInfo`: one dashboard organisation; `None` names the
      owning one. */
  class OrganizationInfo {
    const name: Option<string>
    var mappedGroups: set<string>
    var desiredGroupsByUserKey: map<string, set<string>>
    var dashboardUserByUserKey: map<string, DashboardUser>
    var dashboardUsersLoaded: bool
    const groupsAdded: GroupLedger
    const groupsRemoved: GroupLedger

    constructor(name: Option<string>)
      ensures this.name == name && mappedGroups == {} && desiredGroupsByUserKey == map[]
      ensures dashboardUserByUserKey == map[] && !dashboardUsersLoaded
      ensures fresh(groupsAdded) && fresh(groupsRemoved) && groupsAdded != groupsRemoved
      ensures groupsAdded.byUserKey == map[] && groupsRemoved.byUserKey == map[]
    {
      this.name := name;
      mappedGroups := {};
      desiredGroupsByUserKey := map[];
      dashboardUserByUserKey := map[];
      dashboardUsersLoaded := false;
      groupsAdded := new GroupLedger();
      groupsRemoved := new GroupLedger();
    }

    /** `add_mapped_group` */
    method AddMappedGroup(group: string)
      modifies this
      ensures mappedGroups == old(mappedGroups) + {Normalize(group)}
      ensures desiredGroupsByUserKey == old(desiredGroupsByUserKey)
      ensures dashboardUserByUserKey == old(dashboardUserByUserKey) && dashboardUsersLoaded == old(dashboardUsersLoaded)
    {
      mappedGroups := mappedGroups + {Normalize(group)};
    }

    /** `add_desired_group_for`: the user gets an entry, and the normalised
        group when one is given. */
    method AddDesiredGroupFor(userKey: string, group: Option<string>)
      modifies this
      ensures desiredGroupsByUserKey ==
        old(desiredGroupsByUserKey)[userKey := Registered(old(desiredGroupsByUserKey), userKey) +
          (if group.Some? then {Normalize(group.value)} else {})]
      ensures mappedGroups == old(mappedGroups)
      ensures dashboardUserByUserKey == old(dashboardUserByUserKey) && dashboardUsersLoaded == old(dashboardUsersLoaded)
    {
      var desired := if userKey in desiredGroupsByUserKey then desiredGroupsByUserKey[userKey] else {};
      assert desired == Registered(desiredGroupsByUserKey, userKey);
      if group.Some? {
        desired := desired + {Normalize(group.value)};
      } else {
        assert desired == desired + {};
      }
      desiredGroupsByUserKey := desiredGroupsByUserKey[userKey := desired];
    }

    /** `add_dashboard_user` */
    method AddDashboardUser(user: DashboardUser)
      modifies this
      ensures dashboardUserByUserKey == old(dashboardUserByUserKey)[user.key := user]
      ensures mappedGroups == old(mappedGroups) && desiredGroupsByUserKey == old(desiredGroupsByUserKey)
      ensures dashboardUsersLoaded == old(dashboardUsersLoaded)
    {
      dashboardUserByUserKey := dashboardUserByUserKey[user.key := user];
    }
  }

  /** Registering desired groups only ever adds: every user keeps what it
      had. */
  lemma AddDesiredKeeps(m: map<string, set<string>>, userKey: string, extra: set<string>)
    ensures var m' := m[userKey := Registered(m, userKey) + extra];
      forall k :: k in m ==> k in m' && m[k] <= m'[k]
  {
  }

  // ---------------------------------------------------------------------
  // Group differences for one dashboard user

  /** The group changes for one dashboard user when groups are managed: a
      user with a directory match gains the desired groups it lacks and
      loses the mapped groups it has but should not; a user without one
      loses all its mapped groups. */
  function GroupChange(manageGroups: bool, matched: bool, current: set<string>, desired: set<string>, mapped: set<string>): (set<string>, set<string>) {
    if !manageGroups then ({}, {})
    else if matched then (desired - current, (current - desired) * mapped)
    else ({}, current * mapped)
  }

  /** Applying the changes of a matched user leaves it with exactly the
      desired groups among the mapped ones; groups that are not mapped are
      kept when all desired groups are mapped. An unmatched user keeps only
      its groups that are not mapped. No group is both added and removed,
      and only mapped groups the user has are removed. */
  lemma GroupChangeSyncsMapped(current: set<string>, desired: set<string>, mapped: set<string>)
    ensures var (add, remove) := GroupChange(true, true, current, desired, mapped);
      add * remove == {} && remove <= current * mapped &&
      ((current - remove) + add) * mapped == desired * mapped &&
      (desired <= mapped ==> (current - remove) + add - mapped == current - mapped)
    ensures var (add, remove) := GroupChange(true, false, current, desired, mapped);
      add == {} && (current - remove) + add == current - mapped
  {
  }

  /** Removals are mapped groups, additions and removals are disjoint, and
      a user without a match gains nothing. */
  lemma GroupChangeShape(manageGroups: bool, matched: bool, current: set<string>, desired: set<string>, mapped: set<string>)
    ensures var (add, remove) := GroupChange(manageGroups, matched, current, desired, mapped);
      remove <= mapped && add * remove == {} && (!matched ==> add == {})
  {
  }

  /** Every change adds only groups the user lacks, removes only mapped
      groups, never both, and adds nothing to a user without a match. */
  predicate DiffsRespectMapped(diffs: seq<GroupDiff>, mapped: set<string>) {
    forall k :: 0 <= k < |diffs| ==>
      diffs[k].toRemove <= mapped && diffs[k].toAdd * diffs[k].toRemove == {} &&
      (!diffs[k].matched ==> diffs[k].toAdd == {})
  }

  /** Appending one decision adds its key, and its key as a stray when it
      has no match. */
  lemma DiffsStep(diffs: seq<GroupDiff>, d: GroupDiff)
    ensures DiffKeys(diffs + [d]) == DiffKeys(diffs) + {d.userKey}
    ensures StrayKeys(diffs + [d]) == StrayKeys(diffs) + (if d.matched then [] else [d.userKey])
  {
    var all := diffs + [d];
    assert all[..|diffs|] == diffs;
    forall k | k in DiffKeys(all) ensures k in DiffKeys(diffs) + {d.userKey} {
      var i :| 0 <= i < |all| && all[i].userKey == k;
      if i < |diffs| {
        assert all[i] == diffs[i];
      }
    }
    forall k | k in DiffKeys(diffs) + {d.userKey} ensures k in DiffKeys(all) {
      if k in DiffKeys(diffs) {
        var i :| 0 <= i < |diffs| && diffs[i].userKey == k;
        assert all[i] == diffs[i];
      } else {
        assert all[|diffs|] == d;
      }
    }
  }

  // ---------------------------------------------------------------------
  // Stray limits (`process_strays`)

  /** What `process_strays` leads to: the stray list is written out, or the
      given owning-organisation strays are cleaned. */
  datatype StrayAction = WriteStrayList | Clean(keys: seq<string>)

  /** How many strays are cleaned: all of them, or `max_removed_users` when
      there are more. */
  function StraysCleaned(strayCount: nat, maxRemoved: nat): (r: nat)
    ensures r <= strayCount && r <= maxRemoved
    ensures r == strayCount || r == maxRemoved
  {
    if strayCount > maxRemoved then maxRemoved else strayCount
  }

  /** The `adobe_strays_processed` count as the source sets it after the
      limits: always `max_removed_users`. */
  function StraysReportedAsWritten(strayCount: nat, maxRemoved: nat): nat {
    maxRemoved
  }

  /** With 3 strays and the default limit of 10, the summary reports 10
      strays processed where 3 are cleaned. */
  lemma StraysOverReported()
    ensures StraysReportedAsWritten(3, DefaultMaxRemovedUsers) == 10
    ensures StraysCleaned(3, DefaultMaxRemovedUsers) == 3
  {
  }

  const DefaultMaxRemovedUsers: nat := 10
  const DefaultMaxUnmatchedUsers: nat := 200

  // ---------------------------------------------------------------------
  // The processor

  /** The group changes decided for one dashboard user that is not
      excluded. */
  datatype GroupDiff = GroupDiff(userKey: string, matched: bool, toAdd: set<string>, toRemove: set<string>)

  /** The outcome of the walk over one organisation's dashboard users: the
      changes per user, and how many users were excluded in the owning
      organisation. */
  datatype Scan = Scan(diffs: seq<GroupDiff>, excluded: nat)

  /** The keys of the users with changes decided. */
  function DiffKeys(diffs: seq<GroupDiff>): set<string> {
    set i | 0 <= i < |diffs| :: diffs[i].userKey
  }

  /** The keys of the users without a directory match, in order: the
      strays. */
  function StrayKeys(diffs: seq<GroupDiff>): seq<string>
    decreases |diffs|
  {
    if diffs == [] then []
    else
      var n := |diffs| - 1;
      StrayKeys(diffs[..n]) + (if diffs[n].matched then [] else [diffs[n].userKey])
  }

  /** The state a walk over dashboard users starts from. */
  datatype WalkStart = WalkStart(included: set<string>, excluded: nat, strays: map<Option<string>, seq<string>>,
                                 straysProcessed: nat, dashboardUsers: map<string, DashboardUser>,
                                 desired: map<string, set<string>>, mapped: set<string>)

  /** Every key is a key of its parts. */
  predicate WellFormedKeys(users: seq<DashboardUser>) {
    forall i :: 0 <= i < |users| ==> |ParseUserKey(users[i].key)| == 3
  }

  class RuleProcessor {
    const excludeIdentityTypes: set<string>
    const excludeGroups: set<string>
    /** The `exclude_users` patterns, as whether each matches a username. */
    const excludeUsers: seq<string -> bool>
    const updateUserInfo: bool
    const manageGroups: bool
    const strayListOutput: bool
    const needToProcessStrays: bool
    const maxUnmatchedUsers: nat
    const maxRemovedUsers: nat
    /** The keys of the selected directory users. */
    const filteredDirectoryUserKeys: set<string>
    var includedUserKeys: set<string>
    var excludedUserCount: nat
    var strayKeyMap: map<Option<string>, seq<string>>
    var straysProcessed: nat

    /** `__init__`: the options with their defaults, the normalised
        excluded groups, and empty counters. */
    constructor(excludeIdentityTypes: set<string>, excludeGroups: seq<string>, excludeUsers: seq<string -> bool>,
                updateUserInfo: bool, manageGroups: bool, strayListOutput: bool,
                disentitleStrays: bool, removeStrays: bool, deleteStrays: bool,
                maxUnmatchedUsers: Option<nat>, maxRemovedUsers: Option<nat>,
                strayKeyMap: Option<map<Option<string>, seq<string>>>,
                filteredDirectoryUserKeys: set<string>)
      ensures this.excludeIdentityTypes == excludeIdentityTypes && this.excludeUsers == excludeUsers
      ensures this.excludeGroups == NormalizedGroups(Some(excludeGroups))
      ensures this.updateUserInfo == updateUserInfo && this.manageGroups == manageGroups
      ensures this.strayListOutput == strayListOutput
      ensures needToProcessStrays == (strayListOutput || disentitleStrays || removeStrays || deleteStrays)
      ensures this.maxUnmatchedUsers == maxUnmatchedUsers.GetOr(DefaultMaxUnmatchedUsers)
      ensures this.maxRemovedUsers == maxRemovedUsers.GetOr(DefaultMaxRemovedUsers)
      ensures this.strayKeyMap == strayKeyMap.GetOr(map[])
      ensures this.filteredDirectoryUserKeys == filteredDirectoryUserKeys
      ensures includedUserKeys == {} && excludedUserCount == 0 && straysProcessed == 0
    {
      this.excludeIdentityTypes := excludeIdentityTypes;
      this.excludeGroups := NormalizedGroups(Some(excludeGroups));
      this.excludeUsers := excludeUsers;
      this.updateUserInfo := updateUserInfo;
      this.manageGroups := manageGroups;
      this.strayListOutput := strayListOutput;
      this.needToProcessStrays := strayListOutput || disentitleStrays || removeStrays || deleteStrays;
      this.maxUnmatchedUsers := maxUnmatchedUsers.GetOr(DefaultMaxUnmatchedUsers);
      this.maxRemovedUsers := maxRemovedUsers.GetOr(DefaultMaxRemovedUsers);
      this.strayKeyMap := strayKeyMap.GetOr(map[]);
      this.filteredDirectoryUserKeys := filteredDirectoryUserKeys;
      includedUserKeys := {};
      excludedUserCount := 0;
      straysProcessed := 0;
    }

    /** Whether a dashboard user is excluded: in the owning organisation by
        identity type, by group, or by a username pattern; in the others
        when the owning organisation did not include its key. */
    predicate IsExcluded(inOwningOrg: bool, included: set<string>, userKey: string, currentGroups: set<string>)
      requires inOwningOrg ==> |ParseUserKey(userKey)| == 3
    {
      if inOwningOrg then
        var parts := ParseUserKey(userKey);
        parts[0] in excludeIdentityTypes || currentGroups * excludeGroups != {} ||
        exists j :: 0 <= j < |excludeUsers| && excludeUsers[j](parts[1])
      else userKey !in included
    }

    /** `is_dashboard_user_excluded`: in the owning organisation an
        excluded user is counted and any other is included. */
    method IsDashboardUserExcluded(inOwningOrg: bool, userKey: string, currentGroups: set<string>) returns (excluded: bool)
      requires inOwningOrg ==> |ParseUserKey(userKey)| == 3
      modifies this
      ensures excluded == IsExcluded(inOwningOrg, old(includedUserKeys), userKey, currentGroups)
      ensures inOwningOrg && excluded ==> excludedUserCount == old(excludedUserCount) + 1 && includedUserKeys == old(includedUserKeys)
      ensures inOwningOrg && !excluded ==> excludedUserCount == old(excludedUserCount) && includedUserKeys == old(includedUserKeys) + {userKey}
      ensures !inOwningOrg ==> excludedUserCount == old(excludedUserCount) && includedUserKeys == old(includedUserKeys)
      ensures strayKeyMap == old(strayKeyMap) && straysProcessed == old(straysProcessed)
    {
      if !inOwningOrg {
        return userKey !in includedUserKeys;
      }
      var parts := ParseUserKey(userKey);
      if parts[0] in excludeIdentityTypes {
        excludedUserCount := excludedUserCount + 1;
        return true;
      }
      if currentGroups * excludeGroups != {} {
        excludedUserCount := excludedUserCount + 1;
        return true;
      }
      for j := 0 to |excludeUsers|
        invariant forall k :: 0 <= k < j ==> !excludeUsers[k](parts[1])
        invariant excludedUserCount == old(excludedUserCount) && includedUserKeys == old(includedUserKeys)
      {
        if excludeUsers[j](parts[1]) {
          excludedUserCount := excludedUserCount + 1;
          return true;
        }
      }
      includedUserKeys := includedUserKeys + {userKey};
      return false;
    }

    /** The decision for one dashboard user in the walk of
        `update_dashboard_users_for_connector`: none for an excluded user;
        otherwise the changes for its match status, given the desired
        groups still pending for its key. */
    function Decide(inOwningOrg: bool, included: set<string>, pending: map<string, set<string>>,
                    mapped: set<string>, u: DashboardUser): (r: Option<GroupDiff>)
      requires inOwningOrg ==> |ParseUserKey(u.key)| == 3
      ensures r.Some? ==> r.value.userKey == u.key && r.value.matched == (u.key in filteredDirectoryUserKeys)
    {
      var current := NormalizedGroups(u.groups);
      if IsExcluded(inOwningOrg, included, u.key, current) then None
      else
        var want := if u.key in pending then pending[u.key] else {};
        var matched := u.key in filteredDirectoryUserKeys;
        var change := GroupChange(manageGroups, matched, current, want, mapped);
        Some(GroupDiff(u.key, matched, change.0, change.1))
    }

    /** One step of the walk: an excluded user is only counted (in the
        owning organisation); any other gets its decision recorded. */
    function ScanNext(inOwningOrg: bool, included: set<string>, pending: map<string, set<string>>,
                      mapped: set<string>, prev: Scan, u: DashboardUser): Scan
      requires inOwningOrg ==> |ParseUserKey(u.key)| == 3
    {
      match Decide(inOwningOrg, included, pending, mapped, u)
      case None => Scan(prev.diffs, prev.excluded + if inOwningOrg then 1 else 0)
      case Some(d) => Scan(prev.diffs + [d], prev.excluded)
    }

    /** The walk over `users`, each taking the desired groups not yet
        taken by an earlier user. */
    function ScanUsers(inOwningOrg: bool, included: set<string>, desired: map<string, set<string>>,
                       mapped: set<string>, users: seq<DashboardUser>): Scan
      requires inOwningOrg ==> WellFormedKeys(users)
      decreases |users|
    {
      if users == [] then Scan([], 0)
      else
        var n := |users| - 1;
        ScanNext(inOwningOrg, included, desired - KeysOf(users[..n]), mapped,
                 ScanUsers(inOwningOrg, included, desired, mapped, users[..n]), users[n])
    }

    lemma ScanUsersSnoc(inOwningOrg: bool, included: set<string>, desired: map<string, set<string>>,
                        mapped: set<string>, users: seq<DashboardUser>, i: nat)
      requires i < |users| && (inOwningOrg ==> WellFormedKeys(users))
      ensures inOwningOrg ==> WellFormedKeys(users[..i]) && WellFormedKeys(users[..i + 1])
      ensures ScanUsers(inOwningOrg, included, desired, mapped, users[..i + 1]) ==
        ScanNext(inOwningOrg, included, desired - KeysOf(users[..i]), mapped,
                 ScanUsers(inOwningOrg, included, desired, mapped, users[..i]), users[i])
    {
      assert users[..i + 1][..i] == users[..i];
    }

    /** One step of the walk, given the decision for the next user. */
    lemma WalkStep(inOwningOrg: bool, included: set<string>, desired: map<string, set<string>>,
                   mapped: set<string>, users: seq<DashboardUser>, i: nat, prev: Scan, d: Option<GroupDiff>)
      requires i < |users| && (inOwningOrg ==> WellFormedKeys(users))
      requires prev == ScanUsers(inOwningOrg, included, desired, mapped, users[..i])
      requires d == Decide(inOwningOrg, included, desired - KeysOf(users[..i]), mapped, users[i])
      ensures ScanUsers(inOwningOrg, included, desired, mapped, users[..i + 1]) ==
        Scan(if d.Some? then prev.diffs + [d.value] else prev.diffs,
             prev.excluded + if d.None? && inOwningOrg then 1 else 0)
    {
      ScanUsersSnoc(inOwningOrg, included, desired, mapped, users, i);
    }

    static lemma StraysStep(m: map<Option<string>, seq<string>>, org: Option<string>, a: seq<string>, b: seq<string>)
      ensures m[org := a][org := b] == m[org := b]
    {
    }

    static lemma PendingStep(desired: map<string, set<string>>, seen: set<string>, key: string)
      ensures (desired - seen) - {key} == desired - (seen + {key})
    {
    }

    /** What recording one more user does to the keys seen and to the
        dashboard users by key. */
    static lemma PrefixStep(m: map<string, DashboardUser>, users: seq<DashboardUser>, i: nat)
      requires i < |users|
      ensures KeysOf(users[..i + 1]) == KeysOf(users[..i]) + {users[i].key}
      ensures AddUsers(m, users[..i + 1]) == AddUsers(m, users[..i])[users[i].key := users[i]]
    {
      assert users[..i + 1][..i] == users[..i];
      assert users[..i + 1][i] == users[i];
    }

    /** Every decided change adds only groups the user lacks, removes only
        mapped groups it has, never both, and adds nothing to a user
        without a directory match. */
    lemma {:induction false} ScanRespectsMapped(inOwningOrg: bool, included: set<string>, desired: map<string, set<string>>,
                                                mapped: set<string>, users: seq<DashboardUser>)
      requires inOwningOrg ==> WellFormedKeys(users)
      ensures DiffsRespectMapped(ScanUsers(inOwningOrg, included, desired, mapped, users).diffs, mapped)
      decreases |users|
    {
      if users != [] {
        var n := |users| - 1;
        assert inOwningOrg ==> WellFormedKeys(users[..n]);
        ScanRespectsMapped(inOwningOrg, included, desired, mapped, users[..n]);
        var prev := ScanUsers(inOwningOrg, included, desired, mapped, users[..n]).diffs;
        var diffs := ScanUsers(inOwningOrg, included, desired, mapped, users).diffs;
        var u := users[n];
        var pending := desired - KeysOf(users[..n]);
        var want := if u.key in pending then pending[u.key] else {};
        var matched := u.key in filteredDirectoryUserKeys;
        GroupChangeShape(manageGroups, matched, NormalizedGroups(u.groups), want, mapped);
        assert diffs == prev || (|diffs| == |prev| + 1 && diffs[..|prev|] == prev &&
          diffs[|prev|] == Decide(inOwningOrg, included, pending, mapped, u).value);
        forall k | 0 <= k < |diffs|
          ensures diffs[k].toRemove <= mapped && diffs[k].toAdd * diffs[k].toRemove == {} &&
            (!diffs[k].matched ==> diffs[k].toAdd == {})
        {
          if k < |prev| {
            assert diffs[..|prev|][k] == diffs[k];
            assert diffs[k] == prev[k];
          } else {
            var d := diffs[k];
            assert d.toRemove <= mapped;
            assert d.toAdd * d.toRemove == {};
          }
        }
      }
    }

  /** Outside the owning organisation, only the users it included get
        changes. */
    lemma {:induction false} ScanKeepsToIncluded(included: set<string>, desired: map<string, set<string>>,
                                                 mapped: set<string>, users: seq<DashboardUser>)
      ensures DiffKeys(ScanUsers(false, included, desired, mapped, users).diffs) <= included
      decreases |users|
    {
      if users != [] {
        var n := |users| - 1;
        ScanKeepsToIncluded(included, desired, mapped, users[..n]);
        var prev := ScanUsers(false, included, desired, mapped, users[..n]).diffs;
        var diffs := ScanUsers(false, included, desired, mapped, users).diffs;
        forall k | k in DiffKeys(diffs) ensures k in included {
          var i :| 0 <= i < |diffs| && diffs[i].userKey == k;
          if i < |prev| {
            assert diffs[i] == prev[i];
            assert k in DiffKeys(prev);
          }
        }
      }
    }

    /** `add_stray` */
    method AddStray(userKey: Option<string>, orgName: Option<string>)
      requires userKey.Some? ==> orgName in strayKeyMap
      modifies this
      ensures userKey.None? ==> strayKeyMap == old(strayKeyMap)[orgName := []]
      ensures userKey.Some? ==> strayKeyMap == old(strayKeyMap)[orgName := old(strayKeyMap)[orgName] + [userKey.value]]
      ensures includedUserKeys == old(includedUserKeys) && excludedUserCount == old(excludedUserCount)
      ensures straysProcessed == old(straysProcessed)
    {
      if userKey.None? {
        strayKeyMap := strayKeyMap[orgName := []];
      } else {
        strayKeyMap := strayKeyMap[orgName := strayKeyMap[orgName] + [userKey.value]];
      }
    }

    /** The body of the walk for one dashboard user: the user is recorded
        in the organisation, its desired groups are taken, and, unless it
        is excluded, its decision is made and a user without a directory
        match is recorded as a stray. */
    method VisitDashboardUser(org: OrganizationInfo, u: DashboardUser, pending: map<string, set<string>>,
                              ghost included: set<string>) returns (d: Option<GroupDiff>)
      requires org.name.None? ==> |ParseUserKey(u.key)| == 3
      requires !org.name.None? ==> includedUserKeys == included
      requires needToProcessStrays ==> org.name in strayKeyMap
      modifies this, org
      ensures d == Decide(org.name.None?, included, pending, org.mappedGroups, u)
      ensures excludedUserCount == old(excludedUserCount) + if d.None? && org.name.None? then 1 else 0
      ensures includedUserKeys == if d.Some? && org.name.None? then old(includedUserKeys) + {u.key} else old(includedUserKeys)
      ensures strayKeyMap == if needToProcessStrays && d.Some? && !d.value.matched
        then old(strayKeyMap)[org.name := old(strayKeyMap)[org.name] + [u.key]] else old(strayKeyMap)
      ensures straysProcessed == old(straysProcessed)
      ensures org.dashboardUserByUserKey == old(org.dashboardUserByUserKey)[u.key := u]
      ensures org.desiredGroupsByUserKey == old(org.desiredGroupsByUserKey) && org.mappedGroups == old(org.mappedGroups)
      ensures org.dashboardUsersLoaded == old(org.dashboardUsersLoaded)
    {
      org.AddDashboardUser(u);
      var current := NormalizeGroups(u.groups);
      var want := if u.key in pending then pending[u.key] else {};
      var excluded := IsDashboardUserExcluded(org.name.None?, u.key, current);
      if excluded {
        return None;
      }
      var matched := u.key in filteredDirectoryUserKeys;
      if !matched && needToProcessStrays {
        AddStray(Some(u.key), org.name);
      }
      var change := GroupChange(manageGroups, matched, current, want, org.mappedGroups);
      d := Some(GroupDiff(u.key, matched, change.0, change.1));
    }

    /** The decisions, counters and strays the walk has after visiting
        `users[..i]`, from the state `w` in which it started. */
    ghost predicate WalkedScan(orgName: Option<string>, users: seq<DashboardUser>, i: nat,
                               diffs: seq<GroupDiff>, excluded: nat, included: set<string>,
                               strays: map<Option<string>, seq<string>>, w: WalkStart)
    {
      i <= |users| && (orgName.None? ==> WellFormedKeys(users)) &&
      excluded >= w.excluded &&
      ScanUsers(orgName.None?, w.included, w.desired, w.mapped, users[..i]) == Scan(diffs, excluded - w.excluded) &&
      included == (if orgName.None? then w.included + DiffKeys(diffs) else w.included) &&
      strays == (if needToProcessStrays then w.strays[orgName := StrayKeys(diffs)] else w.strays)
    }

    /** The pending desired groups and the dashboard users recorded after
        visiting `users[..i]`. */
    static ghost predicate WalkedSeen(users: seq<DashboardUser>, i: nat, pending: map<string, set<string>>,
                                      dashboardUsers: map<string, DashboardUser>, w: WalkStart)
    {
      i <= |users| &&
      pending == w.desired - KeysOf(users[..i]) &&
      dashboardUsers == AddUsers(w.dashboardUsers, users[..i])
    }

    static lemma SeenStep(users: seq<DashboardUser>, i: nat, pending: map<string, set<string>>,
                          dashboardUsers: map<string, DashboardUser>, w: WalkStart)
      requires i < |users| && WalkedSeen(users, i, pending, dashboardUsers, w)
      ensures WalkedSeen(users, i + 1, pending - {users[i].key}, dashboardUsers[users[i].key := users[i]], w)
    {
      PrefixStep(w.dashboardUsers, users, i);
      PendingStep(w.desired, KeysOf(users[..i]), users[i].key);
    }

    /** The walk's decisions, counters and strays after one more user,
        given its decision. */
    lemma ScanStep(orgName: Option<string>, users: seq<DashboardUser>, i: nat, pending: map<string, set<string>>,
                   diffs: seq<GroupDiff>, excluded: nat, included: set<string>,
                   strays: map<Option<string>, seq<string>>, w: WalkStart, d: Option<GroupDiff>)
      requires i < |users| && WalkedScan(orgName, users, i, diffs, excluded, included, strays, w)
      requires pending == w.desired - KeysOf(users[..i])
      requires d == Decide(orgName.None?, w.included, pending, w.mapped, users[i])
      ensures WalkedScan(orgName, users, i + 1,
        if d.Some? then diffs + [d.value] else diffs,
        excluded + (if d.None? && orgName.None? then 1 else 0),
        if d.Some? && orgName.None? then included + {users[i].key} else included,
        if needToProcessStrays && d.Some? && !d.value.matched then strays[orgName := strays[orgName] + [users[i].key]] else strays,
        w)
    {
      var diffs' := if d.Some? then diffs + [d.value] else diffs;
      var excluded' := excluded + (if d.None? && orgName.None? then 1 else 0);
      var included' := if d.Some? && orgName.None? then included + {users[i].key} else included;
      WalkStep(orgName.None?, w.included, w.desired, w.mapped, users, i, Scan(diffs, excluded - w.excluded), d);
      assert ScanUsers(orgName.None?, w.included, w.desired, w.mapped, users[..i + 1]) == Scan(diffs', excluded' - w.excluded);
      if d.Some? {
        DiffsStep(diffs, d.value);
      }
      assert included' == (if orgName.None? then w.included + DiffKeys(diffs') else w.included);
      if needToProcessStrays {
        StraysStep(w.strays, orgName, StrayKeys(diffs), StrayKeys(diffs'));
        assert strays[orgName] == StrayKeys(diffs);
        if d.Some? && !d.value.matched {
          assert StrayKeys(diffs') == StrayKeys(diffs) + [users[i].key];
        } else {
          assert StrayKeys(diffs') == StrayKeys(diffs);
        }
      }
    }

    /** The state after the walk has visited `users[..i]`. */
    ghost predicate Walked(org: OrganizationInfo, users: seq<DashboardUser>, i: nat,
                           pending: map<string, set<string>>, diffs: seq<GroupDiff>, w: WalkStart)
      reads this, org
    {
      WalkedScan(org.name, users, i, diffs, excludedUserCount, includedUserKeys, strayKeyMap, w) &&
      WalkedSeen(users, i, pending, org.dashboardUserByUserKey, w) &&
      straysProcessed == w.straysProcessed &&
      org.desiredGroupsByUserKey == w.desired && org.mappedGroups == w.mapped
    }

    /** One turn of the walk: visit `users[i]` and take its desired
        groups off the pending ones. */
    method WalkOne(org: OrganizationInfo, users: seq<DashboardUser>, i: nat,
                   pending: map<string, set<string>>, diffs: seq<GroupDiff>, ghost w: WalkStart)
      returns (pending': map<string, set<string>>, diffs': seq<GroupDiff>)
      requires i < |users| && Walked(org, users, i, pending, diffs, w)
      modifies this, org
      ensures Walked(org, users, i + 1, pending', diffs', w)
      ensures org.dashboardUsersLoaded == old(org.dashboardUsersLoaded)
    {
      var u := users[i];
      var d := VisitDashboardUser(org, u, pending, w.included);
      WalkedAfterVisit(org, users, i, pending, diffs, w, d,
        old(excludedUserCount), old(includedUserKeys), old(strayKeyMap), old(org.dashboardUserByUserKey));
      pending' := pending - {u.key};
      diffs' := if d.Some? then diffs + [d.value] else diffs;
    }

    /** The state after visiting `users[i]`, from the state before it. */
    lemma WalkedAfterVisit(org: OrganizationInfo, users: seq<DashboardUser>, i: nat,
                           pending: map<string, set<string>>, diffs: seq<GroupDiff>, w: WalkStart, d: Option<GroupDiff>,
                           excluded: nat, included: set<string>, strays: map<Option<string>, seq<string>>,
                           dashboardUsers: map<string, DashboardUser>)
      requires i < |users|
      requires WalkedScan(org.name, users, i, diffs, excluded, included, strays, w)
      requires WalkedSeen(users, i, pending, dashboardUsers, w)
      requires d == Decide(org.name.None?, w.included, pending, w.mapped, users[i])
      requires excludedUserCount == excluded + if d.None? && org.name.None? then 1 else 0
      requires includedUserKeys == if d.Some? && org.name.None? then included + {users[i].key} else included
      requires strayKeyMap == if needToProcessStrays && d.Some? && !d.value.matched
        then strays[org.name := strays[org.name] + [users[i].key]] else strays
      requires org.dashboardUserByUserKey == dashboardUsers[users[i].key := users[i]]
      requires straysProcessed == w.straysProcessed
      requires org.desiredGroupsByUserKey == w.desired && org.mappedGroups == w.mapped
      ensures Walked(org, users, i + 1, pending - {users[i].key}, if d.Some? then diffs + [d.value] else diffs, w)
    {
      ScanStep(org.name, users, i, pending, diffs, excluded, included, strays, w, d);
      SeenStep(users, i, pending, dashboardUsers, w);
    }

    /** `update_dashboard_users_for_connector` up to the sending of the
        changes: every dashboard user is recorded in the organisation, the
        excluded ones are skipped, the others get the changes `ScanUsers`
        decides and, without a directory match, are recorded as strays.
        Returns the desired groups of the directory users no dashboard user
        matched, and the changes. */
    method UpdateDashboardUsersForConnector(org: OrganizationInfo, users: seq<DashboardUser>)
      returns (remaining: map<string, set<string>>, diffs: seq<GroupDiff>)
      requires org.name.None? ==> WellFormedKeys(users)
      modifies this, org
      ensures var scan := ScanUsers(org.name.None?, old(includedUserKeys), old(org.desiredGroupsByUserKey), old(org.mappedGroups), users);
        diffs == scan.diffs && excludedUserCount == old(excludedUserCount) + scan.excluded
      ensures remaining == old(org.desiredGroupsByUserKey) - KeysOf(users)
      ensures includedUserKeys == if org.name.None? then old(includedUserKeys) + DiffKeys(diffs) else old(includedUserKeys)
      ensures strayKeyMap == if needToProcessStrays then old(strayKeyMap)[org.name := StrayKeys(diffs)] else old(strayKeyMap)
      ensures straysProcessed == old(straysProcessed)
      ensures org.dashboardUserByUserKey == AddUsers(old(org.dashboardUserByUserKey), users) && org.dashboardUsersLoaded
      ensures org.desiredGroupsByUserKey == old(org.desiredGroupsByUserKey) && org.mappedGroups == old(org.mappedGroups)
    {
      var pending := org.desiredGroupsByUserKey;
      if needToProcessStrays {
        AddStray(None, org.name);
      }
      ghost var w := WalkStart(old(includedUserKeys), old(excludedUserCount), old(strayKeyMap), straysProcessed,
                               old(org.dashboardUserByUserKey), pending, org.mappedGroups);
      diffs := [];
      var i := 0;
      assert users[..0] == [];
      while i < |users|
        invariant Walked(org, users, i, pending, diffs, w)
      {
        pending, diffs := WalkOne(org, users, i, pending, diffs, w);
        i := i + 1;
      }
      assert users[..i] == users;
      org.dashboardUsersLoaded := true;
      remaining := pending;
    }

    /** `process_strays`: with a stray list to write, all strays are
        reported; otherwise more strays than `max_unmatched_users` is an
        error, and at most `max_removed_users` of the owning
        organisation's strays are cleaned and reported. */
    method ProcessStrays() returns (r: Result<StrayAction, string>)
      modifies this
      ensures var strays := if None in old(strayKeyMap) then old(strayKeyMap)[None] else [];
        (strayListOutput ==> r == Ok(WriteStrayList) && straysProcessed == |strays|) &&
        (!strayListOutput && |strays| > maxUnmatchedUsers ==> r.Err? && straysProcessed == old(straysProcessed)) &&
        (!strayListOutput && |strays| <= maxUnmatchedUsers ==>
          var n := StraysCleaned(|strays|, maxRemovedUsers);
          r == Ok(Clean(strays[..n])) && straysProcessed == n)
      ensures strayKeyMap == old(strayKeyMap) && includedUserKeys == old(includedUserKeys)
      ensures excludedUserCount == old(excludedUserCount)
    {
      var strays := if None in strayKeyMap then strayKeyMap[None] else [];
      var strayCount := |strays|;
      if strayListOutput {
        straysProcessed := strayCount;
        return Ok(WriteStrayList);
      }
      if strayCount > maxUnmatchedUsers {
        return Err("Unable to process strays, as their count is larger than max_unmatched_users setting");
      }
      if strayCount > maxRemovedUsers {
        strayCount := maxRemovedUsers;
      }
      straysProcessed := strayCount;
      r := Ok(Clean(strays[..strayCount]));
    }
  }

  // ---------------------------------------------------------------------
  // Dashboard groups (`DashboardGroup`)

  const GroupNameDelimiter: string := "::"

  /** A dashboard group: its name and its organisation, `None` for the
      owning one. */
  datatype DashboardGroup = DashboardGroup(groupName: string, organizationName: Option<string>)

  /** `get_qualified_name`: `org::group` outside the owning organisation. */
  function QualifiedName(g: DashboardGroup): string {
    if g.organizationName.Some? then g.organizationName.value + GroupNameDelimiter + g.groupName else g.groupName
  }

  /** `_parse`: the text after the last delimiter is the group, the text
      before it the organisation; none means the owning one. */
  function ParseQualifiedName(q: string): (string, Option<string>) {
    var parts := Split(q, GroupNameDelimiter);
    var org := Join(parts[..|parts| - 1], GroupNameDelimiter);
    (parts[|parts| - 1], if org == "" then None else Some(org))
  }

  /** Parsing a qualified name gives back the group and its organisation
      when the group name has no delimiter and the organisation name is
      non-empty, has no delimiter and does not end in `:`. */
  lemma ParseQualifiedNameRoundTrip(g: DashboardGroup)
    requires !Contains(g.groupName, GroupNameDelimiter)
    requires g.organizationName.Some? ==>
      var o := g.organizationName.value;
      o != "" && !Contains(o, GroupNameDelimiter) && o[|o| - 1] != ':'
    ensures ParseQualifiedName(QualifiedName(g)) == (g.groupName, g.organizationName)
  {
    NoDelimiterOnePiece(g.groupName);
    if g.organizationName.Some? {
      var o := g.organizationName.value;
      var q := o + GroupNameDelimiter + g.groupName;
      FirstDelimiterAfter(o, g.groupName);
      assert q[..|o|] == o;
      assert q[|o| + 2..] == g.groupName;
      var parts := Split(q, GroupNameDelimiter);
      assert parts == [o, g.groupName];
      assert parts[..1] == [o];
    }
  }

  lemma NoDelimiterOnePiece(s: string)
    requires !Contains(s, GroupNameDelimiter)
    ensures Split(s, GroupNameDelimiter) == [s]
  {
    FindIsFirst(s, GroupNameDelimiter);
  }

  /** In `o::g`, the first delimiter is the one after `o` when `o` holds no
      delimiter and does not end in `:`. */
  lemma FirstDelimiterAfter(o: string, g: string)
    requires o != "" && !Contains(o, GroupNameDelimiter) && o[|o| - 1] != ':'
    ensures Find(o + GroupNameDelimiter + g, GroupNameDelimiter) == |o|
  {
    var q := o + GroupNameDelimiter + g;
    assert q[|o|..|o| + 2] == GroupNameDelimiter;
    assert OccursAt(q, GroupNameDelimiter, |o|);
    FindIsFirst(q, GroupNameDelimiter);
    forall j: nat | j < |o| ensures !OccursAt(q, GroupNameDelimiter, j) {
      if j + 2 <= |o| {
        assert q[j..j + 2] == o[j..j + 2];
        assert !OccursAt(o, GroupNameDelimiter, j);
      } else {
        assert q[j] == o[j];
      }
    }
  }

  /** The registry of dashboard groups (`DashboardGroup.index_map`), by
      group and organisation name. */
  class GroupRegistry {
    var indexMap: map<(string, Option<string>), DashboardGroup>

    /** Each group is registered under its own names. */
    predicate Valid()
      reads this
    {
      forall k :: k in indexMap ==> indexMap[k] == DashboardGroup(k.0, k.1)
    }

    constructor()
      ensures Valid() && indexMap == map[]
    {
      indexMap := map[];
    }

    /** `lookup` */
    function Lookup(q: string): (r: Option<DashboardGroup>)
      reads this
      requires Valid()
      ensures r.Some? ==> r.value == DashboardGroup(ParseQualifiedName(q).0, ParseQualifiedName(q).1)
      ensures r.Some? <==> ParseQualifiedName(q) in indexMap
    {
      var key := ParseQualifiedName(q);
      if key in indexMap then Some(indexMap[key]) else None
    }

    /** `create`: the registered group for the parsed name; otherwise a
        new group, registered, unless the group name is empty. */
    method Create(q: string) returns (r: Option<DashboardGroup>)
      requires Valid()
      modifies this
      ensures Valid()
      ensures var key := ParseQualifiedName(q);
        (key in old(indexMap) ==> r == Some(old(indexMap)[key]) && indexMap == old(indexMap)) &&
        (key !in old(indexMap) && key.0 != "" ==> r == Some(DashboardGroup(key.0, key.1)) && indexMap == old(indexMap)[key := r.value]) &&
        (key !in old(indexMap) && key.0 == "" ==> r.None? && indexMap == old(indexMap))
      ensures r.Some? ==> r == Lookup(q)
    {
      var key := ParseQualifiedName(q);
      if key in indexMap {
        return Some(indexMap[key]);
      }
      if |key.0| > 0 {
        var g := DashboardGroup(key.0, key.1);
        indexMap := indexMap[key := g];
        return Some(g);
      }
      return None;
    }
  }
}
