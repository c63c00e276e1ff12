/** The option checks of `LDAPDirectoryConnector.get_options` and the filter
    building, group lookup, search-result and scope helpers of
    user_sync/connector/directory_ldap.py. */
module LdapFilters {
  import opened Wrappers
  import opened Strings
  import opened Helper
  import opened Config
  import opened LdapEscape
  import opened LdapValues

  /** The options of the two-step lookup. */
  datatype TwoSteps = TwoSteps(groupMemberAttributeName: string, nestedGroup: bool)

  /** The validated connector options. */
  datatype LdapOptions = LdapOptions(
    groupFilterFormat: string,
    allUsersFilter: string,
    groupMemberFilterFormat: Option<string>,
    requireTlsCert: bool,
    twoStepsLookup: Option<TwoSteps>,
    stringEncoding: string,
    userIdentityTypeFormat: Option<string>,
    userEmailFormat: string,
    userUsernameFormat: Option<string>,
    userDomainFormat: Option<string>,
    userGivenNameFormat: string,
    userSurnameFormat: string,
    userCountryCodeFormat: string,
    userIdentityType: Option<string>,
    searchPageSize: int,
    loggerName: string,
    authenticationMethod: string,
    username: Option<string>,
    host: string,
    baseDn: string)

  const DefaultGroupFilterFormat: string :=
    "(&(|(objectCategory=group)(objectClass=groupOfNames)(objectClass=posixGroup))(cn={group}))"
  const DefaultAllUsersFilter: string :=
    "(&(objectClass=user)(objectCategory=person)(!(userAccountControl:1.2.840.113556.1.4.803:=2)))"
  const DefaultMemberFilterFormat: string := "(memberOf={group_dn})"

  /** `set_string_value` with a default. */
  function StringOption(config: map<string, Value>, key: string, default: string): (r: Result<string, string>)
    ensures key !in config ==> r == Ok(default)
    ensures key in config ==> (r.Ok? <==> config[key].VStr?)
    ensures key in config && r.Ok? ==> r.value == config[key].s
  {
    var v :- OptionValue(config, key, Some({TStr}), VStr(default));
    assert IsInstance(v, TStr);
    Ok(v.s)
  }

  /** `set_string_value` with `None` as the default. */
  function OptionalStringOption(config: map<string, Value>, key: string): (r: Result<Option<string>, string>)
    ensures key !in config ==> r == Ok(None)
    ensures key in config ==> (r.Ok? <==> config[key].VStr?)
    ensures key in config && r.Ok? ==> r.value == Some(config[key].s)
  {
    var v :- OptionValue(config, key, Some({TStr}), VNone);
    if v.VNone? then Ok(None)
    else
      assert IsInstance(v, TStr);
      Ok(Some(v.s))
  }

  /** `set_bool_value` */
  function BoolOption(config: map<string, Value>, key: string, default: bool): (r: Result<bool, string>)
    ensures key !in config ==> r == Ok(default)
    ensures key in config ==> (r.Ok? <==> config[key].VBool?)
    ensures key in config && r.Ok? ==> r.value == config[key].b
  {
    var v :- OptionValue(config, key, Some({TBool}), VBool(default));
    assert IsInstance(v, TBool);
    Ok(v.b)
  }

  /** `set_int_value`; a boolean passes as an integer, as it does in
      Python. */
  function IntOption(config: map<string, Value>, key: string, default: int): (r: Result<int, string>)
    ensures key !in config ==> r == Ok(default)
    ensures key in config ==> (r.Ok? <==> config[key].VInt? || config[key].VBool?)
    ensures key in config && r.Ok? && config[key].VInt? ==> r.value == config[key].i
  {
    var v :- OptionValue(config, key, Some({TInt}), VInt(default));
    assert IsInstance(v, TInt);
    if v.VBool? then Ok(if v.b then 1 else 0) else Ok(v.i)
  }

  /** `require_string_value` */
  function RequiredString(config: map<string, Value>, key: string): (r: Result<string, string>)
    ensures r.Ok? <==> key in config && config[key].VStr?
    ensures r.Ok? ==> r.value == config[key].s
  {
    var v :- Lookup(config, key, Some({TStr}), false);
    assert IsInstance(v, TStr);
    Ok(v.s)
  }

  /** The options read from the two-step lookup section. */
  function TwoStepsOptions(ts: map<string, Value>): (r: Result<TwoSteps, string>)
    ensures r.Ok? <==> RequiredString(ts, "group_member_attribute_name").Ok? && BoolOption(ts, "nested_group", false).Ok?
  {
    var attr :- RequiredString(ts, "group_member_attribute_name");
    var nested :- BoolOption(ts, "nested_group", false);
    Ok(TwoSteps(attr, nested))
  }

  /** The last step of `get_options`: with a two-step section the member
      attribute is required and a member filter must not also be set; without
      one the member filter falls back to `(memberOf={group_dn})`. */
  function MemberLookup(twoSteps: Option<map<string, Value>>, memberFilter: Option<string>): (r: Result<(Option<TwoSteps>, Option<string>), string>)
    ensures twoSteps.Some? && NonEmpty(memberFilter) ==> r.Err?
    ensures twoSteps.None? ==> r == Ok((None, Some(if NonEmpty(memberFilter) then memberFilter.value else DefaultMemberFilterFormat)))
    ensures twoSteps.Some? && r.Ok? ==>
      TwoStepsOptions(twoSteps.value).Ok? && r.value == (Some(TwoStepsOptions(twoSteps.value).value), memberFilter)
  {
    match twoSteps
    case Some(ts) =>
      var t :- TwoStepsOptions(ts);
      if NonEmpty(memberFilter) then
        Err("Cannot define both 'group_member_attribute_name' and 'group_member_filter_format' in config")
      else Ok((Some(t), memberFilter))
    case None =>
      Ok((None, Some(if NonEmpty(memberFilter) then memberFilter.value else DefaultMemberFilterFormat)))
  }

  /** The two-step section as `set_dict_value` reads it. */
  function TwoStepsSection(config: map<string, Value>): (r: Result<Option<map<string, Value>>, string>)
    ensures "two_steps_lookup" !in config ==> r == Ok(None)
    ensures "two_steps_lookup" in config ==> (r.Ok? <==> config["two_steps_lookup"].VDict?)
    ensures "two_steps_lookup" in config && r.Ok? ==> r.value == Some(config["two_steps_lookup"].entries)
  {
    var v :- OptionValue(config, "two_steps_lookup", Some({TDict}), VNone);
    if v.VNone? then Ok(None)
    else
      assert IsInstance(v, TDict);
      Ok(Some(v.entries))
  }

  /** `get_options` (validation part): every option type-checked with its
      default, `host` and `base_dn` required, then the member lookup. */
  function GetOptions(config: map<string, Value>): (r: Result<LdapOptions, string>)
    ensures "host" !in config || "base_dn" !in config ==> r.Err?
    ensures "two_steps_lookup" in config && config["two_steps_lookup"].VDict? &&
            "group_member_filter_format" in config && config["group_member_filter_format"].VStr? &&
            config["group_member_filter_format"].s != ""
            ==> r.Err?
    ensures r.Ok? ==> (r.value.twoStepsLookup.Some? <==> "two_steps_lookup" in config)
    ensures r.Ok? && r.value.twoStepsLookup.None? ==>
      r.value.groupMemberFilterFormat ==
        Some(if "group_member_filter_format" in config && config["group_member_filter_format"].VStr? &&
                config["group_member_filter_format"].s != ""
             then config["group_member_filter_format"].s else DefaultMemberFilterFormat)
    ensures r.Ok? && r.value.twoStepsLookup.Some? ==>
      "two_steps_lookup" in config && config["two_steps_lookup"].VDict? &&
      var ts := config["two_steps_lookup"].entries;
      var t := r.value.twoStepsLookup.value;
      "group_member_attribute_name" in ts && ts["group_member_attribute_name"] == VStr(t.groupMemberAttributeName) &&
      ("nested_group" in ts ==> ts["nested_group"] == VBool(t.nestedGroup)) &&
      ("nested_group" !in ts ==> !t.nestedGroup)
    ensures r.Ok? ==> "host" in config && config["host"] == VStr(r.value.host)
    ensures r.Ok? ==> "base_dn" in config && config["base_dn"] == VStr(r.value.baseDn)
  {
    var (typed, twoSteps) :- TypedOptions(config);
    var host :- RequiredString(config, "host");
    var baseDn :- RequiredString(config, "base_dn");
    var lookup :- MemberLookup(twoSteps, typed.groupMemberFilterFormat);
    Ok(typed.(twoStepsLookup := lookup.0, groupMemberFilterFormat := lookup.1, host := host, baseDn := baseDn))
  }

  /** The options `get_options` type-checks before the required ones, in its
      order: the member filter format as read, and the two-step section
      still to be checked; host, base DN and the member lookup are filled in
      afterwards. */
  function TypedOptions(config: map<string, Value>): (r: Result<(LdapOptions, Option<map<string, Value>>), string>)
    ensures r.Ok? ==> TwoStepsSection(config) == Ok(r.value.1)
    ensures r.Ok? ==> OptionalStringOption(config, "group_member_filter_format") == Ok(r.value.0.groupMemberFilterFormat)
  {
    var groupFilterFormat :- StringOption(config, "group_filter_format", DefaultGroupFilterFormat);
    var allUsersFilter :- StringOption(config, "all_users_filter", DefaultAllUsersFilter);
    var memberFilter :- OptionalStringOption(config, "group_member_filter_format");
    var requireTlsCert :- BoolOption(config, "require_tls_cert", false);
    var twoSteps :- TwoStepsSection(config);
    var stringEncoding :- StringOption(config, "string_encoding", "utf8");
    var identityTypeFormat :- OptionalStringOption(config, "user_identity_type_format");
    var emailFormat :- StringOption(config, "user_email_format", "{mail}");
    var usernameFormat :- OptionalStringOption(config, "user_username_format");
    var domainFormat :- OptionalStringOption(config, "user_domain_format");
    var givenNameFormat :- StringOption(config, "user_given_name_format", "{givenName}");
    var surnameFormat :- StringOption(config, "user_surname_format", "{sn}");
    var countryCodeFormat :- StringOption(config, "user_country_code_format", "{c}");
    var identityType :- OptionalStringOption(config, "user_identity_type");
    var searchPageSize :- IntOption(config, "search_page_size", 200);
    var loggerName :- StringOption(config, "logger_name", "ldap");
    var authenticationMethod :- StringOption(config, "authentication_method", "simple");
    var username :- OptionalStringOption(config, "username");
    Ok((LdapOptions(groupFilterFormat, allUsersFilter, memberFilter, requireTlsCert, None, stringEncoding,
      identityTypeFormat, emailFormat, usernameFormat, domainFormat, givenNameFormat, surnameFormat,
      countryCodeFormat, identityType, searchPageSize, loggerName, authenticationMethod, username, "", ""), twoSteps))
  }

  /** The value formatters the connector builds from its options. */
  datatype Formatters = Formatters(
    identityType: ValueFormatter,
    email: ValueFormatter,
    username: ValueFormatter,
    domain: ValueFormatter,
    givenName: ValueFormatter,
    surname: ValueFormatter,
    countryCode: ValueFormatter)

  /** The formatters of `__init__`; a template that does not parse is an
      error. */
  function FormattersFrom(o: LdapOptions): (r: Result<Formatters, string>)
    ensures r.Ok? <==>
      (NewValueFormatter(o.userIdentityTypeFormat).Ok? && NewValueFormatter(Some(o.userEmailFormat)).Ok? &&
       NewValueFormatter(o.userUsernameFormat).Ok? && NewValueFormatter(o.userDomainFormat).Ok? &&
       NewValueFormatter(Some(o.userGivenNameFormat)).Ok? && NewValueFormatter(Some(o.userSurnameFormat)).Ok? &&
       NewValueFormatter(Some(o.userCountryCodeFormat)).Ok?)
    ensures o.userUsernameFormat.None? && r.Ok? ==> r.value.username.format.None?
    ensures o.userDomainFormat.None? && r.Ok? ==> r.value.domain.format.None?
  {
    var identityType :- NewValueFormatter(o.userIdentityTypeFormat);
    var email :- NewValueFormatter(Some(o.userEmailFormat));
    var username :- NewValueFormatter(o.userUsernameFormat);
    var domain :- NewValueFormatter(o.userDomainFormat);
    var givenName :- NewValueFormatter(Some(o.userGivenNameFormat));
    var surname :- NewValueFormatter(Some(o.userSurnameFormat));
    var countryCode :- NewValueFormatter(Some(o.userCountryCodeFormat));
    Ok(Formatters(identityType, email, username, domain, givenName, surname, countryCode))
  }

  /** A sub-filter as it goes into a conjunction: wrapped in parentheses
      unless it already starts with one. */
  function Parenthesized(s: string): (r: string)
    ensures StartsWith(r, "(")
    ensures StartsWith(s, "(") ==> r == s
    ensures !StartsWith(s, "(") ==> r == "(" + s + ")"
  {
    if StartsWith(s, "(") then s else "(" + s + ")"
  }

  /** `format_group_user_filter`: the conjunction of the member filter for
      the group and the all-users filter. */
  function FormatGroupUserFilter(memberFilterFormat: string, allUsersFilter: string, groupDn: string): (r: Result<string, string>)
    ensures r.Ok? <==> Query(memberFilterFormat, map["group_dn" := groupDn]).Ok?
    ensures r.Ok? ==>
      r.value == "(&" + Parenthesized(Query(memberFilterFormat, map["group_dn" := groupDn]).value) + Parenthesized(allUsersFilter) + ")"
  {
    var member :- Query(memberFilterFormat, map["group_dn" := groupDn]);
    Ok("(&" + Parenthesized(member) + Parenthesized(allUsersFilter) + ")")
  }

  lemma DefaultMemberFilterQuery(groupDn: string)
    ensures Query(DefaultMemberFilterFormat, map["group_dn" := groupDn]) == Ok("(memberOf=" + Escaped(groupDn) + ")")
  {
    var before, name, after := "(memberOf=", "group_dn", ")";
    assert DefaultMemberFilterFormat == before + "{" + name + "}" + after;
    assert '{' !in before && '}' !in before && '{' !in after && '}' !in after;
    assert '{' !in name && '}' !in name && '!' !in name && ':' !in name;
    assert !Template.Positional(name) by { assert !('0' <= name[0] <= '9'); }
    QueryOneField(before, name, after, groupDn);
  }

  /** With the default member filter the group DN appears escaped inside
      `(memberOf=...)`. */
  lemma DefaultGroupUserFilter(allUsersFilter: string, groupDn: string)
    ensures FormatGroupUserFilter(DefaultMemberFilterFormat, allUsersFilter, groupDn) ==
      Ok("(&" + ("(memberOf=" + Escaped(groupDn) + ")") + Parenthesized(allUsersFilter) + ")")
  {
    DefaultMemberFilterQuery(groupDn);
    var m := "(memberOf=" + Escaped(groupDn) + ")";
    assert StartsWith(m, "(") by { assert m[0] == '('; }
  }

  /** An entry of a search result: a directory entry, whose DN may be
      missing, or a referral. */
  datatype SearchEntry = Entry(dn: Option<string>, attributes: Record) | Reference

  /** The entries of a search result without its referrals, in order. */
  function Entries(es: seq<SearchEntry>): (r: seq<SearchEntry>)
    ensures |r| <= |es|
    ensures forall i :: 0 <= i < |r| ==> r[i].Entry?
    ensures forall e :: e in es && e.Entry? ==> e in r
    ensures forall e :: e in r ==> e in es
  {
    if es == [] then []
    else if es[0].Reference? then Entries(es[1..])
    else [es[0]] + Entries(es[1..])
  }

  lemma {:induction false} EntriesAppend(a: seq<SearchEntry>, b: seq<SearchEntry>)
    ensures Entries(a + b) == Entries(a) + Entries(b)
  {
    if a == [] {
      assert a + b == b;
    } else {
      assert (a + b)[0] == a[0] && (a + b)[1..] == a[1..] + b;
      EntriesAppend(a[1..], b);
    }
  }

  /** `iter_search_result`: the loop that drops the referrals of a paged
      search. */
  method IterSearchResult(es: seq<SearchEntry>) returns (r: seq<SearchEntry>)
    ensures r == Entries(es)
  {
    r := [];
    var i := 0;
    while i < |es|
      invariant 0 <= i <= |es|
      invariant r == Entries(es[..i])
    {
      EntriesAppend(es[..i], [es[i]]);
      assert es[..i + 1] == es[..i] + [es[i]];
      if !es[i].Reference? {
        r := r + [es[i]];
      }
      i := i + 1;
    }
    assert es[..i] == es;
  }

  /** `find_ldap_group_dn`: the group search under the base DN finds no
      entry (no group), one (its DN), or more than one (an error). A failed
      search or a filter that cannot be formatted is an error too. */
  function FindLdapGroupDn(groupFilterFormat: string, group: string, baseDn: string, search: (string, string) -> Option<seq<SearchEntry>>): (r: Result<Option<string>, string>)
    ensures Query(groupFilterFormat, map["group" := group]).Err? ==> r.Err?
    ensures Query(groupFilterFormat, map["group" := group]).Ok? ==>
      var res := search(baseDn, Query(groupFilterFormat, map["group" := group]).value);
      (res.None? ==> r.Err?) &&
      (res.Some? && |Entries(res.value)| == 0 ==> r == Ok(None)) &&
      (res.Some? && |Entries(res.value)| > 1 ==> r.Err?) &&
      (res.Some? && |Entries(res.value)| == 1 ==> r == Ok(Entries(res.value)[0].dn))
  {
    var filter :- Query(groupFilterFormat, map["group" := group]);
    match search(baseDn, filter)
    case None => Err("Unexpected LDAP failure reading group info")
    case Some(es) =>
      var result := Entries(es);
      if |result| == 0 then Ok(None)
      else if |result| > 1 then Err("Multiple LDAP groups found for: " + group)
      else Ok(result[0].dn)
  }

  /** Python's `xs[-k:]` for `k >= 0`: `xs[-0:]` is the whole list, and a
      `k` past the length clamps to the whole list. */
  function PyTail<T>(xs: seq<T>, k: nat): (r: seq<T>)
    ensures 0 < k <= |xs| ==> r == xs[|xs| - k..]
    ensures k == 0 || k > |xs| ==> r == xs
  {
    if k == 0 || k > |xs| then xs else xs[|xs| - k..]
  }

  /** `is_dn_within_base_dn_scope`, with DN parsing given; a DN that does
      not parse is an error. */
  function IsDnWithinBaseDnScope(baseDn: string, dn: string, parseDn: string -> Option<seq<string>>): Result<bool, string> {
    match (parseDn(Lower(baseDn)), parseDn(Lower(dn)))
    case (None, _) => Err("invalid base DN")
    case (_, None) => Err("invalid DN")
    case (Some(base), Some(parts)) => Ok(base == PyTail(parts, |base|))
  }

  /** A DN is within scope exactly when the base DN's components are its
      trailing components, except that an empty base DN admits only the empty
      DN. */
  lemma InScopeIffSuffix(baseDn: string, dn: string, parseDn: string -> Option<seq<string>>)
    requires parseDn(Lower(baseDn)).Some? && parseDn(Lower(dn)).Some?
    ensures var base := parseDn(Lower(baseDn)).value;
      var parts := parseDn(Lower(dn)).value;
      IsDnWithinBaseDnScope(baseDn, dn, parseDn) ==
        Ok(if base == [] then parts == [] else |base| <= |parts| && parts[|parts| - |base|..] == base)
  {
  }

  /** Scope does not depend on letter case. */
  lemma InScopeIgnoresCase(baseDn: string, dn: string, parseDn: string -> Option<seq<string>>)
    ensures IsDnWithinBaseDnScope(baseDn, dn, parseDn) == IsDnWithinBaseDnScope(Lower(baseDn), Lower(dn), parseDn)
  {
    LowerIdempotent(baseDn);
    LowerIdempotent(dn);
  }
}
