/** The Okta directory connector of user_sync/connector/directory_okta.py:
    host normalisation, group lookup by name, the attributes asked of the
    Okta client, the conversion of an Okta member into a user, and the
    uid-keyed cache filled by `load_users_and_groups`. The Okta clients are
    given as functions from a query to its results. */
module Okta {
  import opened Wrappers
  import opened Strings
  import opened Helper

  // ---------------------------------------------------------------------
  // Host (`__init__`)

  const HttpsScheme: string := "https://"

  /** The host the clients connect to: a host without a scheme gets
      `https://` in front; a host with any other scheme is an error. */
  function NormalizeHost(host: string): (r: Result<string, string>)
    ensures r.Ok? ==> StartsWith(r.value, HttpsScheme) && EndsWith(r.value, host)
    ensures r.Err? <==> !StartsWith(host, HttpsScheme) && Contains(host, "://")
    ensures StartsWith(host, HttpsScheme) ==> r == Ok(host)
  {
    if StartsWith(host, HttpsScheme) then Ok(host)
    else if Contains(host, "://") then Err("Okta protocol must be https")
    else Ok(HttpsScheme + host)
  }

  /** Normalising a normalised host changes nothing. */
  lemma NormalizeHostIdempotent(host: string)
    requires NormalizeHost(host).Ok?
    ensures NormalizeHost(NormalizeHost(host).value) == NormalizeHost(host)
  {
  }

  // ---------------------------------------------------------------------
  // Groups (`find_group`)

  /** A group as the Okta groups client returns it. */
  datatype OktaGroup = OktaGroup(id: string, profileName: string)

  /** The index of the first group in `results` whose profile name is
      `name`, or -1 when there is none. */
  function FirstNamed(results: seq<OktaGroup>, name: string): (k: int)
    ensures -1 <= k < |results|
    ensures k >= 0 ==> results[k].profileName == name
    ensures forall j :: 0 <= j < |results| && (k < 0 || j < k) ==> results[j].profileName != name
  {
    if results == [] then -1
    else if results[0].profileName == name then 0
    else
      var k := FirstNamed(results[1..], name);
      if k < 0 then -1 else k + 1
  }

  /** `find_group` on what the client answered for the stripped name: no
      answer finds nothing; otherwise the first group whose name matches
      exactly, or nothing when none does. */
  function FindGroup(group: string, results: Option<seq<OktaGroup>>): (r: Option<OktaGroup>)
    ensures r.None? <==> results.None? || forall j :: 0 <= j < |results.value| ==> results.value[j].profileName != Strip(group)
    ensures r.Some? ==> r.value == results.value[FirstNamed(results.value, Strip(group))]
    ensures r.Some? ==> r.value.profileName == Strip(group)
  {
    if results.None? then None
    else
      var k := FirstNamed(results.value, Strip(group));
      if k < 0 then None else Some(results.value[k])
  }

  // ---------------------------------------------------------------------
  // Attributes (`iter_group_members`, `get_extended_attribute_dict`)

  /** The profile attributes always asked for. */
  const StandardAttributes: seq<string> := ["firstName", "lastName", "login", "email", "countryCode"]

  function Elems(xs: seq<string>): set<string> {
    set i | 0 <= i < |xs| :: xs[i]
  }

  predicate Distinct(xs: seq<string>) {
    forall i, j :: 0 <= i < j < |xs| ==> xs[i] != xs[j]
  }

  lemma ElemsSnoc(xs: seq<string>, x: string)
    ensures Elems(xs + [x]) == Elems(xs) + {x}
  {
    assert forall i :: 0 <= i < |xs| ==> (xs + [x])[i] == xs[i];
    assert (xs + [x])[|xs|] == x;
  }

  lemma DistinctSnoc(xs: seq<string>, x: string)
    requires Distinct(xs) && x !in xs
    ensures Distinct(xs + [x])
  {
  }

  /** The extended attributes that are not standard ones, each once. */
  function Extras(extended: seq<string>): (r: seq<string>)
    ensures Elems(r) == Elems(extended) - Elems(StandardAttributes)
    ensures Distinct(r)
    decreases |extended|
  {
    if extended == [] then []
    else
      var n := |extended| - 1;
      var x := extended[n];
      var prev := Extras(extended[..n]);
      assert Elems(extended) == Elems(extended[..n]) + {x} by {
        assert forall i :: 0 <= i < n ==> extended[..n][i] == extended[i];
      }
      if x in StandardAttributes || x in extended[..n] then
        assert x in Elems(StandardAttributes) || x in Elems(extended[..n]) by {
          if x in extended[..n] {
            var i :| 0 <= i < n && extended[..n][i] == x;
          } else {
            var i :| 0 <= i < |StandardAttributes| && StandardAttributes[i] == x;
          }
        }
        prev
      else
        assert x !in Elems(StandardAttributes);
        assert x !in Elems(extended[..n]);
        ElemsSnoc(prev, x);
        assert forall i :: 0 <= i < |prev| ==> prev[i] in Elems(prev);
        DistinctSnoc(prev, x);
        prev + [x]
  }

  /** The attributes asked of the client: the standard ones, then the
      extra ones. */
  function RequestedAttributes(extended: seq<string>): (r: seq<string>)
    ensures StandardAttributes <= r
    ensures Elems(r) == Elems(StandardAttributes) + Elems(extended)
    ensures Distinct(r)
  {
    var xs := Extras(extended);
    var r := StandardAttributes + xs;
    assert Elems(r) == Elems(StandardAttributes) + Elems(xs) by {
      forall y | y in Elems(r) ensures y in Elems(StandardAttributes) + Elems(xs) {
        var i :| 0 <= i < |r| && r[i] == y;
        if i >= |StandardAttributes| { assert xs[i - |StandardAttributes|] == y; }
      }
      forall y | y in Elems(StandardAttributes) + Elems(xs) ensures y in Elems(r) {
        if y in Elems(xs) {
          var i :| 0 <= i < |xs| && xs[i] == y;
          assert r[|StandardAttributes| + i] == y;
        } else {
          var i :| 0 <= i < |StandardAttributes| && StandardAttributes[i] == y;
          assert r[i] == y;
        }
      }
    }
    forall i, j | 0 <= i < j < |r| ensures r[i] != r[j] {
      if j >= |StandardAttributes| {
        assert r[j] in Elems(xs) by { assert xs[j - |StandardAttributes|] == r[j]; }
        if i < |StandardAttributes| {
          assert r[i] in Elems(StandardAttributes) by { assert StandardAttributes[i] == r[i]; }
        } else {
          assert xs[i - |StandardAttributes|] == r[i];
        }
      }
    }
    r
  }

  /** The type every asked attribute is to be returned as. */
  datatype AttrType = StrType

  /** `get_extended_attribute_dict`: every attribute name, once, as text. */
  method GetExtendedAttributeDict(attributes: seq<string>) returns (r: map<string, AttrType>)
    ensures r.Keys == Elems(attributes)
    ensures forall a :: a in r ==> r[a] == StrType
  {
    r := map[];
    for i := 0 to |attributes|
      invariant r.Keys == Elems(attributes[..i])
      invariant forall a :: a in r ==> r[a] == StrType
    {
      assert attributes[..i + 1] == attributes[..i] + [attributes[i]];
      assert Elems(attributes[..i + 1]) == Elems(attributes[..i]) + {attributes[i]} by {
        assert forall k :: 0 <= k < i ==> attributes[..i + 1][k] == attributes[..i][k];
      }
      if attributes[i] !in r {
        r := r[attributes[i] := StrType];
      }
    }
    assert attributes[..|attributes|] == attributes;
  }

  /** The dictionary of attribute types for `names`. */
  function AttributeDict(names: seq<string>): map<string, AttrType> {
    map a | a in Elems(names) :: StrType
  }

  // ---------------------------------------------------------------------
  // Users (`convert_user`)

  /** An Okta profile: its standard attributes, and the others by name. */
  datatype Profile = Profile(
    email: Option<string>,
    login: Option<string>,
    firstName: Option<string>,
    lastName: Option<string>,
    countryCode: Option<string>,
    extra: map<string, Option<string>>)

  /** A group member as the Okta client returns it. */
  datatype OktaMember = OktaMember(id: string, profile: Profile)

  /** A user as the connector builds it. */
  datatype OktaUser = OktaUser(
    uid: Option<string>,
    email: Option<string>,
    identityType: Option<string>,
    username: Option<string>,
    firstname: Option<string>,
    lastname: Option<string>,
    country: Option<string>,
    groups: seq<string>,
    sourceAttributes: map<string, Option<string>>)

  /** A truthy value, or none. */
  function IfTruthy(v: Option<string>): (r: Option<string>)
    ensures r.Some? <==> NonEmpty(v)
    ensures r.Some? ==> r == v
  {
    if NonEmpty(v) then v else None
  }

  /** The value of a profile attribute that is not a standard one: none
      when the profile has no such attribute. */
  function ProfileAttribute(p: Profile, name: string): Option<string> {
    if name in p.extra then p.extra[name] else None
  }

  /** The source attributes `convert_user` records before the extended
      ones. */
  function BaseSourceAttributes(record: OktaMember, identityType: Option<string>): map<string, Option<string>> {
    var p := record.profile;
    map["id" := Some(record.id), "email" := p.email, "identity_type" := identityType, "login" := p.login,
        "firstName" := IfTruthy(p.firstName), "lastName" := IfTruthy(p.lastName), "countryCode" := IfTruthy(p.countryCode)]
  }

  /** The source attributes with the extended ones added: each extended
      name not yet recorded takes the profile's value, or none. */
  function WithExtended(base: map<string, Option<string>>, p: Profile, extended: seq<string>): (r: map<string, Option<string>>)
    ensures r.Keys == base.Keys + Elems(extended)
    ensures forall k :: k in base ==> r[k] == base[k]
    ensures forall k :: k in r && k !in base ==> r[k] == ProfileAttribute(p, k)
  {
    map k | k in base.Keys + Elems(extended) :: if k in base then base[k] else ProfileAttribute(p, k)
  }

  /** Adding one more extended name: it takes the profile's value unless
      already recorded. */
  lemma WithExtendedSnoc(base: map<string, Option<string>>, p: Profile, xs: seq<string>, x: string)
    ensures WithExtended(base, p, xs + [x]) ==
      var s := WithExtended(base, p, xs);
      if x in s then s else s[x := ProfileAttribute(p, x)]
  {
    ElemsSnoc(xs, x);
  }

  /** The identity type of converted users: the configured one when it is
      empty, otherwise its parse, which may fail. */
  function ConvertedIdentityType(configured: Option<string>, parseIdentity: string -> Option<string>): Result<Option<string>, string> {
    if !NonEmpty(configured) then Ok(configured)
    else match parseIdentity(configured.value)
      case None => Err("Skipping user: unknown identity type")
      case Some(t) => Ok(Some(t))
  }

  /** `convert_user`: the user for an Okta member, or none when the
      configured identity type does not parse. The username is always
      empty, the names and country are taken only when truthy, the groups
      start empty, and the source attributes hold the member's id and
      standard attributes (none for an untruthy name or country) and every
      extended attribute. */
  function Convert(record: OktaMember, extended: seq<string>, configured: Option<string>,
                   parseIdentity: string -> Option<string>): (r: Option<OktaUser>)
    ensures r.None? <==> ConvertedIdentityType(configured, parseIdentity).Err?
  {
    match ConvertedIdentityType(configured, parseIdentity)
    case Err(_) => None
    case Ok(t) =>
      var p := record.profile;
      var base := BaseSourceAttributes(record, configured);
      Some(OktaUser(Some(record.id), p.email, t, Some(""), IfTruthy(p.firstName), IfTruthy(p.lastName),
                    IfTruthy(p.countryCode), [], WithExtended(base, p, extended)))
  }

  /** What `convert_user` promises of a converted user: the uid is the
      member's id; the email is the profile's; the username is empty; the
      groups start empty; the names and country are taken only when
      truthy; and the source attributes hold exactly the id, the
      configured identity type, the standard attributes and the extended
      ones. */
  lemma ConvertFields(record: OktaMember, extended: seq<string>, configured: Option<string>,
                      parseIdentity: string -> Option<string>)
    requires Convert(record, extended, configured, parseIdentity).Some?
    ensures var u := Convert(record, extended, configured, parseIdentity).value;
      u.uid == Some(record.id) && u.email == record.profile.email && u.username == Some("") && u.groups == []
    ensures Convert(record, extended, configured, parseIdentity).value.identityType ==
      ConvertedIdentityType(configured, parseIdentity).value
    ensures var u := Convert(record, extended, configured, parseIdentity).value;
      (u.firstname.Some? <==> NonEmpty(record.profile.firstName)) && (u.firstname.Some? ==> u.firstname == record.profile.firstName)
    ensures var u := Convert(record, extended, configured, parseIdentity).value;
      (u.lastname.Some? <==> NonEmpty(record.profile.lastName)) && (u.lastname.Some? ==> u.lastname == record.profile.lastName)
    ensures var u := Convert(record, extended, configured, parseIdentity).value;
      (u.country.Some? <==> NonEmpty(record.profile.countryCode)) && (u.country.Some? ==> u.country == record.profile.countryCode)
    ensures var u := Convert(record, extended, configured, parseIdentity).value;
      u.sourceAttributes.Keys == {"id", "email", "identity_type", "login", "firstName", "lastName", "countryCode"} + Elems(extended)
    ensures var u := Convert(record, extended, configured, parseIdentity).value;
      u.sourceAttributes["identity_type"] == configured && u.sourceAttributes["firstName"] == u.firstname &&
      u.sourceAttributes["countryCode"] == u.country
    ensures var u := Convert(record, extended, configured, parseIdentity).value;
      u.sourceAttributes["id"] == Some(record.id) && u.sourceAttributes["email"] == record.profile.email &&
      u.sourceAttributes["login"] == record.profile.login && u.sourceAttributes["lastName"] == u.lastname
    ensures var u := Convert(record, extended, configured, parseIdentity).value;
      forall k :: k in Elems(extended) && k !in StandardAttributes && k !in {"id", "identity_type"} ==>
        u.sourceAttributes[k] == ProfileAttribute(record.profile, k)
  {
    ConvertSourceAttributes(record, extended, configured, parseIdentity);
  }

  lemma ConvertSourceAttributes(record: OktaMember, extended: seq<string>, configured: Option<string>,
                                parseIdentity: string -> Option<string>)
    requires Convert(record, extended, configured, parseIdentity).Some?
    ensures var a := Convert(record, extended, configured, parseIdentity).value.sourceAttributes;
      a.Keys == {"id", "email", "identity_type", "login", "firstName", "lastName", "countryCode"} + Elems(extended) &&
      a["identity_type"] == configured && a["firstName"] == IfTruthy(record.profile.firstName) &&
      a["countryCode"] == IfTruthy(record.profile.countryCode) &&
      a["id"] == Some(record.id) && a["email"] == record.profile.email && a["login"] == record.profile.login &&
      a["lastName"] == IfTruthy(record.profile.lastName) &&
      forall k :: k in Elems(extended) && k !in StandardAttributes && k !in {"id", "identity_type"} ==>
        a[k] == ProfileAttribute(record.profile, k)
  {
    var base := BaseSourceAttributes(record, configured);
    assert Convert(record, extended, configured, parseIdentity).value.sourceAttributes == WithExtended(base, record.profile, extended);
  }

  /** The members of one group that become users: members with a truthy
      email whose conversion succeeds, in order. */
  function Converted(members: seq<OktaMember>, extended: seq<string>, configured: Option<string>,
                     parseIdentity: string -> Option<string>): (r: seq<OktaUser>)
    ensures forall k :: 0 <= k < |r| ==> r[k].groups == [] && NonEmpty(r[k].email) && r[k].uid.Some?
    ensures |r| <= |members|
    decreases |members|
  {
    if members == [] then []
    else
      var n := |members| - 1;
      var prev := Converted(members[..n], extended, configured, parseIdentity);
      var m := members[n];
      if !NonEmpty(m.profile.email) then prev
      else match Convert(m, extended, configured, parseIdentity)
        case None => prev
        case Some(u) =>
          ConvertFields(m, extended, configured, parseIdentity);
          prev + [u]
  }

  // ---------------------------------------------------------------------
  // The uid-keyed cache (`load_users_and_groups`)

  /** Records that `u` is a member of `group`: a user without a truthy uid
      is dropped; the first record of a uid is kept; the group is appended
      to its groups unless already there. */
  function AddMember(m: map<string, OktaUser>, group: string, u: OktaUser): map<string, OktaUser> {
    if !NonEmpty(u.uid) then m
    else
      var uid := u.uid.value;
      var cur := if uid in m then m[uid] else u;
      m[uid := cur.(groups := if group in cur.groups then cur.groups else cur.groups + [group])]
  }

  /** The members of one group, recorded in order. */
  function AddMembers(m: map<string, OktaUser>, group: string, us: seq<OktaUser>): map<string, OktaUser>
    decreases |us|
  {
    if us == [] then m
    else AddMember(AddMembers(m, group, us[..|us| - 1]), group, us[|us| - 1])
  }

  /** The truthy uids of `us`. */
  function Uids(us: seq<OktaUser>): set<string> {
    set k | 0 <= k < |us| && NonEmpty(us[k].uid) :: us[k].uid.value
  }

  /** The truthy uid of `u`, as a set. */
  function UidOf(u: OktaUser): set<string> {
    if NonEmpty(u.uid) then {u.uid.value} else {}
  }

  /** The groups cached for `uid`, as a set. */
  function CachedGroups(m: map<string, OktaUser>, uid: string): set<string> {
    if uid in m then Elems(m[uid].groups) else {}
  }

  /** Two records that agree on everything but their groups. */
  predicate SameButGroups(a: OktaUser, b: OktaUser) {
    a.(groups := []) == b.(groups := [])
  }

  /** Recording a member without groups caches its truthy uid, adds the
      group to that uid's groups once and to no other uid's, and changes
      nothing else of an already cached record. */
  lemma AddMemberUser(m: map<string, OktaUser>, group: string, u: OktaUser, uid: string)
    requires u.groups == []
    ensures uid in AddMember(m, group, u) <==> uid in m || uid in UidOf(u)
    ensures CachedGroups(AddMember(m, group, u), uid) == CachedGroups(m, uid) + (if uid in UidOf(u) then {group} else {})
    ensures uid in m ==> SameButGroups(AddMember(m, group, u)[uid], m[uid])
    ensures uid !in m && uid in UidOf(u) ==> SameButGroups(AddMember(m, group, u)[uid], u)
    ensures (uid in m ==> Distinct(m[uid].groups)) && uid in AddMember(m, group, u) ==> Distinct(AddMember(m, group, u)[uid].groups)
  {
    if NonEmpty(u.uid) && uid == u.uid.value {
      var cur := if uid in m then m[uid] else u;
      if group !in cur.groups {
        ElemsSnoc(cur.groups, group);
        if uid in m && Distinct(cur.groups) { DistinctSnoc(cur.groups, group); }
      } else {
        assert group in Elems(cur.groups) by {
          var i :| 0 <= i < |cur.groups| && cur.groups[i] == group;
        }
      }
    }
  }

  /** The position of the first user of `us` whose truthy uid is `uid`. */
  function FirstWithUid(us: seq<OktaUser>, uid: string): (k: nat)
    requires uid in Uids(us)
    ensures k < |us| && NonEmpty(us[k].uid) && us[k].uid.value == uid
    ensures forall j :: 0 <= j < k ==> !(NonEmpty(us[j].uid) && us[j].uid.value == uid)
    decreases |us|
  {
    var n := |us| - 1;
    if uid in Uids(us[..n]) then
      var k := FirstWithUid(us[..n], uid);
      assert forall j :: 0 <= j <= k ==> us[..n][j] == us[j];
      k
    else
      assert forall j :: 0 <= j < n && NonEmpty(us[j].uid) ==> us[j].uid.value in Uids(us[..n]) by {
        forall j | 0 <= j < n && NonEmpty(us[j].uid) ensures us[j].uid.value in Uids(us[..n]) {
          assert us[..n][j] == us[j];
        }
      }
      assert uid in UidOf(us[n]) by {
        var k :| 0 <= k < |us| && NonEmpty(us[k].uid) && us[k].uid.value == uid;
        assert k == n;
      }
      n
  }

  /** Recording the members of a group: a uid is cached afterwards when it
      was before or is among the members' truthy uids; the group is added
      to exactly the members' uids; cached records keep everything but
      their groups; and no uid gets a group twice. */
  lemma {:induction false} AddMembersUser(m: map<string, OktaUser>, group: string, us: seq<OktaUser>, uid: string)
    requires forall k :: 0 <= k < |us| ==> us[k].groups == []
    ensures uid in AddMembers(m, group, us) <==> uid in m || uid in Uids(us)
    ensures CachedGroups(AddMembers(m, group, us), uid) == CachedGroups(m, uid) + (if uid in Uids(us) then {group} else {})
    ensures uid in m ==> SameButGroups(AddMembers(m, group, us)[uid], m[uid])
    ensures uid !in m && uid in Uids(us) ==> SameButGroups(AddMembers(m, group, us)[uid], us[FirstWithUid(us, uid)])
    ensures (uid in m ==> Distinct(m[uid].groups)) && uid in AddMembers(m, group, us) ==> Distinct(AddMembers(m, group, us)[uid].groups)
    decreases |us|
  {
    if us != [] {
      var n := |us| - 1;
      var prev := AddMembers(m, group, us[..n]);
      assert Uids(us) == Uids(us[..n]) + UidOf(us[n]) by {
        assert forall k :: 0 <= k < n ==> us[..n][k] == us[k];
      }
      AddMembersUser(m, group, us[..n], uid);
      AddMemberUser(prev, group, us[n], uid);
      if uid !in m && uid in Uids(us) && uid in Uids(us[..n]) {
        assert us[..n][FirstWithUid(us[..n], uid)] == us[FirstWithUid(us, uid)];
      }
    }
  }

  // ---------------------------------------------------------------------
  // The connector

  class OktaConnector {
    const host: string
    /** The configured identity type, as `parse_identity_type` returned it. */
    const userIdentityType: Option<string>
    const parseIdentity: string -> Option<string>
    /** The groups client: what it answers for a group name, or the error
        it raises. */
    const queryGroups: string -> Result<Option<seq<OktaGroup>>, string>
    /** The groups client: the members of a group, given the attributes
        asked for, after the configured user filter; or the error the
        listing or the filter raises. */
    const groupMembers: (string, map<string, AttrType>) -> Result<seq<OktaMember>, string>
    var userByUid: map<string, OktaUser>

    constructor(host: string, userIdentityType: Option<string>, parseIdentity: string -> Option<string>,
                queryGroups: string -> Result<Option<seq<OktaGroup>>, string>,
                groupMembers: (string, map<string, AttrType>) -> Result<seq<OktaMember>, string>)
      ensures this.host == host && this.userIdentityType == userIdentityType && this.parseIdentity == parseIdentity
      ensures this.queryGroups == queryGroups && this.groupMembers == groupMembers
      ensures userByUid == map[]
    {
      this.host := host;
      this.userIdentityType := userIdentityType;
      this.parseIdentity := parseIdentity;
      this.queryGroups := queryGroups;
      this.groupMembers := groupMembers;
      userByUid := map[];
    }

    /** What `iter_group_members` does for a group: a failing group query
        or member listing is an error; no group with the stripped name
        yields no user; otherwise the converted members of the first group
        with that name. */
    function GroupQuery(group: string, extended: seq<string>): Result<seq<OktaUser>, string> {
      var results :- queryGroups(Strip(group));
      var g := FindGroup(group, results);
      if g.None? then Ok([])
      else
        var members :- groupMembers(g.value.id, AttributeDict(RequestedAttributes(extended)));
        Ok(Converted(members, Extras(extended), userIdentityType, parseIdentity))
    }

    /** The users a group yields when its client calls succeed. */
    function GroupUsers(group: string, extended: seq<string>): seq<OktaUser> {
      var q := GroupQuery(group, extended);
      if q.Ok? then q.value else []
    }

    /** The client calls for each of `groups` succeed. */
    predicate AllAnswered(groups: seq<string>, extended: seq<string>) {
      forall k :: 0 <= k < |groups| ==> GroupQuery(groups[k], extended).Ok?
    }

    /** `convert_user` */
    method ConvertUser(record: OktaMember, extended: seq<string>) returns (r: Option<OktaUser>)
      ensures r == Convert(record, extended, userIdentityType, parseIdentity)
    {
      var p := record.profile;
      var identityType: Option<string>;
      if !NonEmpty(userIdentityType) {
        identityType := userIdentityType;
      } else {
        var t := parseIdentity(userIdentityType.value);
        if t.None? {
          return None;
        }
        identityType := t;
      }
      var source := BaseSourceAttributes(record, userIdentityType);
      ghost var base := source;
      for i := 0 to |extended|
        invariant source == WithExtended(base, p, extended[..i])
      {
        assert extended[..i + 1] == extended[..i] + [extended[i]];
        WithExtendedSnoc(base, p, extended[..i], extended[i]);
        if extended[i] !in source {
          source := source[extended[i] := ProfileAttribute(p, extended[i])];
        }
      }
      assert extended[..|extended|] == extended;
      r := Some(OktaUser(Some(record.id), p.email, identityType, Some(""), IfTruthy(p.firstName), IfTruthy(p.lastName),
                         IfTruthy(p.countryCode), [], source));
    }

    /** `iter_group_members`: the converted members of the named group, or
        the error a client call raises. */
    method IterGroupMembers(group: string, extended: seq<string>) returns (r: Result<seq<OktaUser>, string>)
      ensures r == GroupQuery(group, extended)
    {
      var names := RequestedAttributes(extended);
      var extras := Extras(extended);
      var results := queryGroups(Strip(group));
      if results.Err? {
        return Err(results.error);
      }
      var resGroup := FindGroup(group, results.value);
      if resGroup.None? {
        return Ok([]);
      }
      var attrDict := GetExtendedAttributeDict(names);
      assert attrDict == AttributeDict(names);
      var listed := groupMembers(resGroup.value.id, attrDict);
      if listed.Err? {
        return Err(listed.error);
      }
      var members := listed.value;
      var users: seq<OktaUser> := [];
      for i := 0 to |members|
        invariant users == Converted(members[..i], extras, userIdentityType, parseIdentity)
      {
        assert members[..i + 1][..i] == members[..i];
        var m := members[i];
        if NonEmpty(m.profile.email) {
          var u := ConvertUser(m, extras);
          if u.Some? {
            users := users + [u.value];
          }
        }
      }
      assert members[..|members|] == members;
      r := Ok(users);
    }

    /** The cache after recording the members of `groups` in order. */
    function LoadGroups(groups: seq<string>, extended: seq<string>): map<string, OktaUser>
      decreases |groups|
    {
      if groups == [] then map[]
      else
        var n := |groups| - 1;
        AddMembers(LoadGroups(groups[..n], extended), groups[n], GroupUsers(groups[n], extended))
    }

    /** The truthy uids of the users of `groups`. */
    function AllUids(groups: seq<string>, extended: seq<string>): set<string>
      decreases |groups|
    {
      if groups == [] then {}
      else AllUids(groups[..|groups| - 1], extended) + Uids(GroupUsers(groups[|groups| - 1], extended))
    }

    /** The groups among `groups` whose users include `uid`. */
    function GroupsOf(uid: string, groups: seq<string>, extended: seq<string>): set<string>
      decreases |groups|
    {
      if groups == [] then {}
      else
        var n := |groups| - 1;
        GroupsOf(uid, groups[..n], extended) + (if uid in Uids(GroupUsers(groups[n], extended)) then {groups[n]} else {})
    }

    /** The record kept for `uid`: the first user with that uid in the
        first of `groups` whose users include it. */
    function FirstRecord(uid: string, groups: seq<string>, extended: seq<string>): OktaUser
      requires uid in AllUids(groups, extended)
      decreases |groups|
    {
      var n := |groups| - 1;
      if uid in AllUids(groups[..n], extended) then FirstRecord(uid, groups[..n], extended)
      else
        var us := GroupUsers(groups[n], extended);
        us[FirstWithUid(us, uid)]
    }

    /** After loading, a uid is cached exactly when some group lists a
        user with that uid; its groups are exactly the groups that list
        it, each once. */
    lemma {:induction false} LoadGroupsUser(groups: seq<string>, extended: seq<string>, uid: string)
      ensures uid in LoadGroups(groups, extended) <==> uid in AllUids(groups, extended)
      ensures CachedGroups(LoadGroups(groups, extended), uid) == GroupsOf(uid, groups, extended)
      ensures uid in LoadGroups(groups, extended) ==> Distinct(LoadGroups(groups, extended)[uid].groups)
      ensures uid in AllUids(groups, extended) ==>
        SameButGroups(LoadGroups(groups, extended)[uid], FirstRecord(uid, groups, extended))
      decreases |groups|
    {
      if groups != [] {
        var n := |groups| - 1;
        LoadGroupsUser(groups[..n], extended, uid);
        AddMembersUser(LoadGroups(groups[..n], extended), groups[n], GroupUsers(groups[n], extended), uid);
      }
    }

    /** One step of `load_users_and_groups`: the member is cached under its
        uid unless already there, and the group is appended to the cached
        record's groups unless already there. */
    method RecordMember(group: string, user: OktaUser)
      modifies this
      ensures userByUid == AddMember(old(userByUid), group, user)
    {
      if NonEmpty(user.uid) {
        var uid := user.uid.value;
        if uid !in userByUid {
          userByUid := userByUid[uid := user];
        }
        var userGroups := userByUid[uid].groups;
        if group !in userGroups {
          userByUid := userByUid[uid := userByUid[uid].(groups := userGroups + [group])];
        }
      }
    }

    /** `load_users_and_groups`: the cache is reset, then filled with the
        members of each group in turn. Returns the cached users; a client
        error aborts the load. */
    method LoadUsersAndGroups(groups: seq<string>, extended: seq<string>) returns (r: Result<map<string, OktaUser>, string>)
      modifies this
      ensures r.Ok? <==> AllAnswered(groups, extended)
      ensures r.Ok? ==> r.value == userByUid == LoadGroups(groups, extended)
    {
      userByUid := map[];
      for k := 0 to |groups|
        invariant AllAnswered(groups[..k], extended)
        invariant userByUid == LoadGroups(groups[..k], extended)
      {
        assert groups[..k + 1][..k] == groups[..k];
        var members := IterGroupMembers(groups[k], extended);
        AnsweredSnoc(groups, k, extended);
        if members.Err? {
          return Err(members.error);
        }
        RecordMembers(groups[k], members.value);
      }
      assert groups[..|groups|] == groups;
      r := Ok(userByUid);
    }

    /** The groups up to and including `groups[k]` are answered exactly
        when those before it are and `groups[k]` is; an unanswered group
        leaves the whole list unanswered. */
    lemma AnsweredSnoc(groups: seq<string>, k: int, extended: seq<string>)
      requires 0 <= k < |groups|
      ensures AllAnswered(groups[..k + 1], extended) <==>
        AllAnswered(groups[..k], extended) && GroupQuery(groups[k], extended).Ok?
      ensures GroupQuery(groups[k], extended).Err? ==> !AllAnswered(groups, extended)
    {
      var before, upTo := groups[..k], groups[..k + 1];
      assert upTo[k] == groups[k];
      if AllAnswered(before, extended) && GroupQuery(groups[k], extended).Ok? {
        forall j | 0 <= j < k + 1
          ensures GroupQuery(upTo[j], extended).Ok?
        {
          if j < k {
            assert upTo[j] == before[j];
          }
        }
      }
      if AllAnswered(upTo, extended) {
        forall j | 0 <= j < k
          ensures GroupQuery(before[j], extended).Ok?
        {
          assert before[j] == upTo[j];
        }
      }
    }

    /** The inner loop of `load_users_and_groups`: every member of one
        group in turn. */
    method RecordMembers(group: string, members: seq<OktaUser>)
      modifies this
      ensures userByUid == AddMembers(old(userByUid), group, members)
    {
      for j := 0 to |members|
        invariant userByUid == AddMembers(old(userByUid), group, members[..j])
      {
        assert members[..j + 1][..j] == members[..j];
        RecordMember(group, members[j]);
      }
      assert members[..|members|] == members;
    }
  }

  /** `connector_initialize`: a connector for the normalised host with an
      empty cache, or the error for a host with a scheme other than
      https. */
  method Initialize(host: string, userIdentityType: Option<string>, parseIdentity: string -> Option<string>,
                    queryGroups: string -> Result<Option<seq<OktaGroup>>, string>,
                    groupMembers: (string, map<string, AttrType>) -> Result<seq<OktaMember>, string>)
    returns (r: Result<OktaConnector, string>)
    ensures r.Err? <==> NormalizeHost(host).Err?
    ensures r.Ok? ==> fresh(r.value) && r.value.host == NormalizeHost(host).value && r.value.userByUid == map[]
    ensures r.Ok? ==> r.value.userIdentityType == userIdentityType && r.value.parseIdentity == parseIdentity
  {
    var h := NormalizeHost(host);
    if h.Err? {
      return Err(h.error);
    }
    var c := new OktaConnector(h.value, userIdentityType, parseIdentity, queryGroups, groupMembers);
    return Ok(c);
  }
}
