# User Sync core, modelled in Dafny

User Sync reads users and groups from a customer directory (LDAP or Okta),
matches them against the users of an Adobe organisation, and works out the
group changes, exclusions and strays. This project models the deterministic
core of that tool and proves properties about the model:

- **LDAP connector** (`ldap_escape.dfy`, `template.dfy`, `ldap_values.dfy`,
  `ldap_filters.dfy`, `ldap_connector.dfy`):
  - the RFC 4515 escaping of substituted filter values;
  - the `str.format` templates of `LDAPValueFormatter`;
  - the option checks and group-user filter;
  - group lookup and the referral-free search results;
  - the two-step member walk with its shared `searched_dns` list;
  - the base-DN scope check;
  - the `user_by_dn` cache filled by `iter_users` and extended with group names by `load_users_and_groups`.
- **Rule processor** (`rules.dfy`): user keys, normalised group sets, the
  "groups already registered" ledger, per-organisation bookkeeping, the
  exclusion rules, the dashboard-user walk with its group arithmetic, the
  stray limits, and qualified dashboard-group names with their registry.
- **Configuration layer** (`config.dfy`): `combine_dicts`, `as_list`, the
  typed look-ups of `DictConfig` with accessed-key tracking and cached
  children (a tree of nodes held by one object), unused-key reporting,
  `OptionsBuilder`, and the relative-path rewrite of a loaded YAML tree.
- **String helpers** (`helper.dfy`): `normalize_string`, delimiter guessing,
  the job-stats divider line and the rows of the CSV export.
- **Okta connector** (`okta.dfy`): host normalisation, group matching,
  attribute lists, user conversion and the uid-keyed user cache.
- **Command line and start-up** (`app.dfy`): `create_config_loader_options`,
  the accessor check and connector defaults of `begin_work`, and the
  log-level fallback of `init_log`.

`wrappers.dfy` holds `Option`/`Result`. `strings.dfy` models the Python
string methods the core relies on: `strip`, `lower`/`upper`, `find`, `split`
and `join`.

Code that changes state in place is modelled imperatively:
- `LdapConnector`, `OktaConnector`, `RuleProcessor`, `OrganizationInfo`, the
  group ledger, the dashboard-group registry, the configuration tree and
  `OptionsBuilder` are classes whose methods update their fields.
- The source's loops are `while` or `for` loops with invariants. Most are
  proved equal to a specification function whose properties are lemmas:
  for example the escaping loop, the formatter loop, `iter_users`,
  `combine_dicts`, the CSV rows, and the Okta member and cache loops.
- The LDAP group loops are proved equal to specification functions too.
  The member walk equals `Walk`, a function that recurses as the source
  does; its invariants are proved as well: what it has recorded, that every
  reachable member is covered, and the members-first order. One group gives
  exactly `GroupOutcome`: its DN look-up, then `TwoStepsFold` over the walk
  or `FilterOutcome` (built on `AppendAll`). The loop over the groups gives
  exactly `GroupsFold`, which applies `GroupOutcome` to each group in turn.
  Each is stated both ways: the method errs exactly when the function does,
  and otherwise returns what it gives.
- Pure code is modelled as functions and lemmas.

## Model

| member | source | states |
|---|---|---|
| Helper.NormalizeString | user_sync/helper.py:42-48 | None maps to None; otherwise the result is no longer than the input, has no upper-case letter and no blank at either end |
| Helper.NormalizeIdempotent | user_sync/helper.py:42-48 | normalising an already normalised string changes nothing |
| Helper.Extension | user_sync/helper.py:56 | the extension split off a path is empty or a suffix of the path that starts with a dot |
| Helper.ExtensionOfSuffix | user_sync/helper.py:56 | for a file name `stem.e`, with a non-empty stem not ending in `/` or `.` and an `e` with no dot or slash, the extension is exactly `.e` |
| Helper.GuessDelimiterByExtension | user_sync/helper.py:51-62 | for a non-empty stem not ending in `/` or `.` and an `e` with no dot or slash, the delimiter guessed for `stem.e` is a comma iff `e`, without its trailing white space and lower-cased, is `csv`; every other extension gets a tab |
| Helper.GuessIgnoresTrailingBlanks | user_sync/helper.py:51-62 | for a non-empty stem not ending in `/` or `.` and an `e` with no dot or slash, blanks after `stem.e` never change the guess, as `normalize_string` strips them |
| Helper.CreateDivider | user_sync/helper.py:124-134 | fails exactly for an empty divider; otherwise the line is ten dividers, then the header, then exactly max(0, (60 - len(header)) // len(divider) - 10) dividers |
| Helper.DividerLineWidth | user_sync/helper.py:116-134 | with a one-character divider, a header of at most 50 characters gives a line of exactly 60 characters, and a longer header gets no right-hand padding |
| Helper.CsvRow | user_sync/helper.py:97-104 | a row has one cell per header column, in header order; each cell is the user's value, a list joined by commas, or empty when absent |
| Helper.CsvRows | user_sync/helper.py:93-112 | the export is the header row followed by one such row per user |
| LdapEscape.EscapeValue | user_sync/connector/directory_ldap.py:470-485 | the character loop produces exactly the escaped value: each of `*()\&\|<>~!:` becomes a backslash and its lower-case hex code, and every other character is kept |
| LdapEscape.EscapedLength | user_sync/connector/directory_ldap.py:470-485 | the escaped value is the input length plus two per special character |
| LdapEscape.EscapedPlain | user_sync/connector/directory_ldap.py:470-485 | a value without special characters passes through unchanged |
| LdapEscape.EscapedHasNoMeta | user_sync/connector/directory_ldap.py:470-485 | no filter metacharacter survives unescaped in an escaped value |
| LdapEscape.UnescapeEscaped | user_sync/connector/directory_ldap.py:469-485 | decoding the `\XX` escapes of RFC 4515 section 3 recovers any value without NUL characters |
| LdapEscape.NulIsLeftBare | user_sync/connector/directory_ldap.py:470 | NUL is not in the escape set, so it stays bare and the RFC 4515 decoding rejects it |
| LdapEscape.EscapedArgs | user_sync/connector/directory_ldap.py:471-485 | every argument is escaped, under the same keys |
| LdapEscape.FormatLdapQueryString | user_sync/connector/directory_ldap.py:461-486 | the query is the template filled with the escaped arguments |
| LdapEscape.QueryOneField | user_sync/connector/directory_ldap.py:461-486 | a template with one placeholder gives the text around it with the escaped value in its place |
| Template.FieldNames | user_sync/connector/directory_ldap.py:510-517 | the attribute names are exactly the non-empty placeholder names of the template |
| Template.RenderSucceedsIff | user_sync/connector/directory_ldap.py:541 | for a template whose placeholders are bare names, formatting by keyword succeeds iff every placeholder has a name that is not positional (empty or all digits) and is among the supplied values |
| Template.PlainTextRendersItself | user_sync/connector/directory_ldap.py:510-541 | text without braces parses to itself, has no attribute names and renders to itself |
| Template.ParsePrint | user_sync/connector/directory_ldap.py:515 | parsing the printed form of a template gives the template back |
| LdapValues.GetAttributeValue | user_sync/connector/directory_ldap.py:545-563 | a missing or empty attribute gives None; a single value is returned as is; a list is returned whole, or only its first element when asked |
| LdapValues.NewValueFormatter | user_sync/connector/directory_ldap.py:506-523 | no format gives no attribute names; otherwise the format must parse as Python 2.7's `Formatter.parse` does (a lone `{` or `}`, an unbalanced field and a malformed `!` conversion are errors; braces nest inside a field), and the names are its placeholder names |
| LdapValues.FirstMissing | user_sync/connector/directory_ldap.py:534-538 | the index of the first attribute without a value, with every earlier one present |
| LdapValues.ValuesOf | user_sync/connector/directory_ldap.py:533-539 | the values map has exactly the attribute names as keys, each holding the first value |
| LdapValues.GenerateValue | user_sync/connector/directory_ldap.py:525-542 | the loop over the attribute names returns what the function `Generate` gives |
| LdapValues.GenerateOutcome | user_sync/connector/directory_ldap.py:525-542 | no format gives (None, None); the value is None, with the first missing name, exactly when an attribute lacks a value; otherwise the text rendered from the attribute values with the last attribute name (None when there is none), or the rendering's error |
| LdapValues.GenerateRenders | user_sync/connector/directory_ldap.py:525-542 | for a template of bare-name placeholders with every attribute present, rendering fails only on a positional placeholder (empty or all digits) |
| LdapFilters.StringOption | user_sync/config.py:788-796 | a missing key gives the default; a present one must be a string and is returned |
| LdapFilters.BoolOption | user_sync/config.py:788-796 | a missing key gives the default; a present one must be a boolean and is returned |
| LdapFilters.IntOption | user_sync/config.py:788-796 | a missing key gives the default; a present one must be an int, and a boolean also passes as in Python |
| LdapFilters.RequiredString | user_sync/config.py:798-813 | succeeds exactly when the key holds a string, and returns it |
| LdapFilters.MemberLookup | user_sync/connector/directory_ldap.py:148-161 | two-step lookup together with a member filter format is an error; without two-step lookup the member filter defaults to `(memberOf={group_dn})` |
| LdapFilters.GetOptions | user_sync/connector/directory_ldap.py:122-162 | host and base DN are required strings; a two-step section together with a member filter format is rejected; two-step options come from their section with `nested_group` defaulting to false |
| LdapFilters.FormattersFrom | user_sync/connector/directory_ldap.py:73-79 | the connector is built only when all seven value formats parse; absent username and domain formats give formatters without a format |
| LdapFilters.Parenthesized | user_sync/connector/directory_ldap.py:172-177 | a filter already starting with `(` is kept; anything else is wrapped in parentheses |
| LdapFilters.FormatGroupUserFilter | user_sync/connector/directory_ldap.py:164-178 | the group-user filter is `(&` + the parenthesised member subfilter + the parenthesised users filter + `)`, and fails when the member template does |
| LdapFilters.DefaultGroupUserFilter | user_sync/connector/directory_ldap.py:161-178 | with the default member format the filter is `(&(memberOf=<escaped group DN>)` + users filter + `)` |
| LdapFilters.Entries | user_sync/connector/directory_ldap.py:437-460 | the results keep exactly the search entries, in order, and drop referrals |
| LdapFilters.IterSearchResult | user_sync/connector/directory_ldap.py:437-460 | the loop yields exactly the non-referral entries |
| LdapFilters.FindLdapGroupDn | user_sync/connector/directory_ldap.py:242-264 | a failed search errs; no entry gives None; exactly one entry gives its DN; several entries err |
| LdapFilters.PyTail | user_sync/connector/directory_ldap.py:498 | Python's `xs[-k:]`: the last k elements, or the whole list when k is 0 or too large |
| LdapFilters.InScopeIffSuffix | user_sync/connector/directory_ldap.py:489-500 | a DN is in scope iff the parsed lower-cased base DN equals its trailing components; an empty base DN admits only the empty DN |
| LdapFilters.InScopeIgnoresCase | user_sync/connector/directory_ldap.py:489-500 | the scope check does not depend on letter case |
| LdapConnector.IterGroupMemberDns | user_sync/connector/directory_ldap.py:266-296 | the walk terminates on cycles; every DN is yielded at most once and only if not searched before; nested members come before their sub-group; an unknown group yields nothing; every member of the group ends up searched, and with nesting so does every member of every DN the walk recorded; without nesting the yield is the group's new members in order; the yield and the new searched list are exactly those of `Walk` |
| LdapConnector.Walk | user_sync/connector/directory_ldap.py:266-296 | the walk as a function: the searched list only grows, keeps the old list as its prefix, and never holds a DN twice |
| LdapConnector.MemberInAll | user_sync/connector/directory_ldap.py:266-296 | every member DN of a group belongs to the finite set of member DNs the walk can reach |
| LdapConnector.StripIfTruthy | user_sync/connector/directory_ldap.py:324-360 | an empty or missing value becomes None; otherwise the value is stripped |
| LdapConnector.BuildUserSkips | user_sync/connector/directory_ldap.py:323-346 | a record is skipped iff its stripped email is empty or its identity type does not parse |
| LdapConnector.BuildFromMakes | user_sync/connector/directory_ldap.py:323-398 | a built user is made from the formatter outputs as the record-building steps describe |
| LdapConnector.BuildUserIdentity | user_sync/connector/directory_ldap.py:323-346 | the email is the stripped, non-blank email text; a missing identity type falls back to the connector default; a present one is the parsed value |
| LdapConnector.BuildUserNames | user_sync/connector/directory_ldap.py:348-367 | a missing username falls back to the email; a missing domain becomes the text after `@` unless the username is the email |
| LdapConnector.BuildUserAttributes | user_sync/connector/directory_ldap.py:369-397 | first and last names are copied, the country is upper-cased, groups start empty, and every extended attribute is recorded |
| LdapConnector.UsersStepCache | user_sync/connector/directory_ldap.py:316-400 | cached users are never rebuilt or changed; every new cache entry comes from a search entry and starts with no groups |
| LdapConnector.UsersStepYields | user_sync/connector/directory_ldap.py:316-400 | the yield grows by at most one user per entry, and every yielded pair is the cache entry for its DN |
| LdapConnector.UsersStepDns | user_sync/connector/directory_ldap.py:316-400 | every yielded user carries the DN of one of the search entries |
| LdapConnector.OneUserFound | user_sync/connector/directory_ldap.py:221-229 | when a search yields one user, that user is cached under an entry's DN, and giving it the group only extends the cache |
| LdapConnector.UsersStepExtends | user_sync/connector/directory_ldap.py:316-400 | iterating users only adds cache entries and never changes existing ones |
| LdapConnector.LdapConnector.constructor | user_sync/connector/directory_ldap.py:62-79 | a new connector keeps its options and formatters and starts with an empty user cache |
| LdapConnector.LdapConnector.IterUsers | user_sync/connector/directory_ldap.py:298-400 | a failed search errs and leaves the cache alone; otherwise the yield and the new cache are those the record-building function `UsersStep` gives |
| LdapConnector.LdapConnector.AppendGroup | user_sync/connector/directory_ldap.py:228-234 | appending a group changes only that user's groups |
| LdapConnector.AppendAllGroups | user_sync/connector/directory_ldap.py:233-235 | appending a group to a list of DNs keeps the cache's keys and gives each cached user the group once per listing of its DN, at the end of its groups, with its other fields kept |
| LdapConnector.AppendAllExtends | user_sync/connector/directory_ldap.py:233-235 | appending a group to a list of DNs only adds that group to cached users |
| LdapConnector.AppendAllHolds | user_sync/connector/directory_ldap.py:233-235 | every cached DN of the list holds the group afterwards |
| LdapConnector.LdapConnector.AppendGroupToAll | user_sync/connector/directory_ldap.py:233-235 | the new cache is exactly the old one with the group appended to the user of each yielded DN in turn (`AppendAll`), so every yielded user holds the group and no other user changes |
| LdapConnector.LdapConnector.AddTwoStepMember | user_sync/connector/directory_ldap.py:218-230 | a scope-check error is an error; out-of-scope DNs are skipped with no change; inside the scope the search at the DN decides, as `AddSearchedUser` states |
| LdapConnector.LdapConnector.AddSearchedUser | user_sync/connector/directory_ldap.py:219-230 | a failed search is an error; no user found leaves the cache as the search left it; one user gets the group and is the result; several users are an error |
| LdapConnector.LdapConnector.TwoStepsFoldErr | user_sync/connector/directory_ldap.py:215-230 | once the step at one walked DN fails, the whole two-step lookup fails |
| LdapConnector.LdapConnector.LoadGroupTwoSteps | user_sync/connector/directory_ldap.py:215-230 | the walked DNs are exactly what `Walk` yields from nothing searched, and the walk covers all members (nested ones too when asked); the result and the new cache are exactly what the lookup over the walked DNs in order gives (`TwoStepsFold`): each in-scope DN is searched, the one user it finds gets the group and is listed, several users or a failed search are an error; every walked DN was scope-checked and searched, and each listed user was found at a walked DN and holds the group |
| LdapConnector.LdapConnector.AddWalkedMember | user_sync/connector/directory_ldap.py:217-230 | one step of the two-step loop: a failed step makes the whole lookup fail; otherwise the cache and the users found are what the lookup gives over one more walked DN |
| LdapConnector.LdapConnector.LoadGroupByFilter | user_sync/connector/directory_ldap.py:231-235 | errs exactly when `FilterOutcome` does: the member filter does not format, the search fails, or a found user's record cannot be built. Otherwise the result is exactly the DNs the group-user filter search yields, in order, and the new cache is the one that search leaves with the group appended to each of them (`AppendAll`); each holds the group and the cache changes only by that group |
| LdapConnector.LdapConnector.LoadGroup | user_sync/connector/directory_ldap.py:208-237 | errs exactly when `GroupOutcome` does: the group search fails, finds no group or an empty DN, or the configured strategy fails for the found DN. Otherwise the result and the new cache are exactly that strategy's (`TwoStepsFold` over the walk, or `FilterOutcome`), the users of the result hold the group, and the cache changes only by that group |
| LdapConnector.LdapConnector.LoadGroups | user_sync/connector/directory_ldap.py:207-237 | errs exactly when `GroupsFold` does, that is when some group's `GroupOutcome` errs, the earlier groups loaded first. Otherwise the result lists each group's users and the new cache is the fold's: each group in turn is loaded from the cache the previous one left. Every group was found and its users hold it at the end |
| LdapConnector.LdapConnector.LoadNextGroup | user_sync/connector/directory_ldap.py:208-237 | one step of the loop over the groups: a failed group makes the whole fold fail; otherwise the cache and the users found are what the fold gives over one more group |
| LdapConnector.LdapConnector.GroupsFoldErr | user_sync/connector/directory_ldap.py:207-237 | once one group fails, loading the groups fails |
| LdapConnector.LdapConnector.LoadAllUsers | user_sync/connector/directory_ldap.py:192-206 | a failed search is an error; otherwise the new cache is exactly what `UsersStep` gives for the all-users search, which only adds entries |
| LdapConnector.LdapConnector.LoadUsersAndGroups | user_sync/connector/directory_ldap.py:180-240 | errs exactly when `UsersAndGroupsOutcome` does: the all-users search (when asked) fails or a record from it cannot be built, or some group fails. Otherwise the result is the cache and both are the outcome's: the groups start from the all-users search's cache (when asked) and are loaded one after the other by `GroupsFold`, so `members[i]` is exactly what group `i`'s strategy found. Those users hold the group at the end, and existing users only gained requested group names |
| Rules.ParseUserKey | user_sync/rules.py:860-865 | splitting a key on commas always yields at least one part |
| Rules.UserKeyDefined | user_sync/rules.py:832-857 | a key exists iff the identity type is non-empty, the username (falling back to the email) is non-empty, and the username contains `@` or the domain is non-empty |
| Rules.UserKeyRoundTrip | user_sync/rules.py:832-865 | when no part contains a comma, parsing a key gives back the identity type, the normalised username and the domain, which is empty for an email username |
| Rules.NormalizeGroups | user_sync/rules.py:745-755 | the loop builds exactly the set of normalised names, empty for None |
| Rules.NormalizedGroupsAreNormal | user_sync/rules.py:745-755 | every name in a normalised group set is already normalised |
| Rules.RegisterUnion | user_sync/rules.py:785-803 | after registering, a key holds its old groups plus the desired ones, other keys are untouched, and nothing desired is new any more |
| Rules.GroupLedger.GetNewGroups | user_sync/rules.py:785-803 | None gives None; otherwise the result is the desired groups minus those already registered for the key, and the ledger registers them |
| Rules.OrganizationInfo.constructor | user_sync/rules.py:1058-1069 | a new organisation has no mapped groups, desired groups or dashboard users, and two separate ledgers |
| Rules.OrganizationInfo.AddMappedGroup | user_sync/rules.py:1074-1079 | the normalised group joins the mapped groups and nothing else changes |
| Rules.OrganizationInfo.AddDesiredGroupFor | user_sync/rules.py:1094-1104 | the key gets an entry, extended by the normalised group when one is given; nothing else changes |
| Rules.AddDesiredKeeps | user_sync/rules.py:1094-1104 | adding a desired group never removes a key or a group |
| Rules.OrganizationInfo.AddDashboardUser | user_sync/rules.py:1106-1111 | the user is stored under its key and nothing else changes |
| Rules.GroupChangeSyncsMapped | user_sync/rules.py:695-707 | for a matched user the additions and removals are disjoint, removals are mapped groups the user has, the result agrees with the desired groups on mapped groups, and unmapped groups are kept; an unmatched user loses exactly its mapped groups |
| Rules.GroupChangeShape | user_sync/rules.py:673-707 | removals are always mapped groups and disjoint from additions, and nothing is added to an unmatched user |
| Rules.RuleProcessor.constructor | user_sync/rules.py:47-119 | options are stored with their defaults, exclude groups normalised, and strays processed iff an output list or a stray action is requested |
| Rules.RuleProcessor.IsDashboardUserExcluded | user_sync/rules.py:717-742 | in the owning organisation, an excluded user bumps the excluded count and an included one joins the included keys; elsewhere a user is excluded iff its key is not included |
| Rules.RuleProcessor.Decide | user_sync/rules.py:680-707 | a user that is not excluded gets a group diff under its own key, matched iff its key is among the selected directory users |
| Rules.RuleProcessor.ScanRespectsMapped | user_sync/rules.py:673-707 | every group diff of the walk removes only mapped groups, never removes what it adds, and adds nothing to unmatched users |
| Rules.RuleProcessor.ScanKeepsToIncluded | user_sync/rules.py:739-742 | outside the owning organisation, diffs are made only for users included in the owning one |
| Rules.RuleProcessor.AddStray | user_sync/rules.py:370-380 | no key starts an empty stray list for the organisation; a key is appended to it |
| Rules.RuleProcessor.VisitDashboardUser | user_sync/rules.py:667-711 | one step of the walk records the user, decides its diff, updates the exclusion state and records an unmatched user as a stray |
| Rules.RuleProcessor.UpdateDashboardUsersForConnector | user_sync/rules.py:626-715 | the walk's diffs and exclusions are those the function `ScanUsers` gives; the returned map is the desired map minus every dashboard key seen; strays are the unmatched keys in order; the organisation's users are loaded |
| Rules.StraysCleaned | user_sync/rules.py:396-403 | the number of strays cleaned is the stray count capped at `max_removed_users` |
| Rules.RuleProcessor.ProcessStrays | user_sync/rules.py:382-405 | with an output list the owning strays are written out; too many strays is an error; otherwise at most `max_removed_users` strays are cleaned and that number is reported |
| Rules.StraysOverReported | user_sync/rules.py:404 | with 3 strays and the default limit of 10, the code as written reports 10 strays processed while 3 are cleaned |
| Rules.ParseQualifiedNameRoundTrip | user_sync/rules.py:1012-1035 | parsing a qualified name gives back the group and organisation when neither contains the delimiter and the organisation does not end with `:` |
| Rules.GroupRegistry.Lookup | user_sync/rules.py:1038-1039 | a lookup finds a group iff its parsed name is registered, and returns that group |
| Rules.GroupRegistry.Create | user_sync/rules.py:1042-1050 | a known name returns the existing group; a new non-empty group name registers a new group; an empty group name gives None |
| Config.AsList | user_sync/config.py:226-231 | None becomes the empty list, a list stays as is, anything else is wrapped in a one-element list |
| Config.MergeDict | user_sync/config.py:276-283 | merging adds the new keys; a new value overwrites the old one, except that two dicts are merged one level deep with new keys winning |
| Config.MergeInto | user_sync/config.py:278-283 | the inner loop computes exactly that merge |
| Config.CombineDicts | user_sync/config.py:268-284 | the loop computes the combination of all the dicts in order |
| Config.CombineKeys | user_sync/config.py:268-284 | the combined keys are exactly the keys of the dict items; non-dict items contribute nothing |
| Config.CombineSkipsNonDict | user_sync/config.py:277 | a non-dict item changes nothing |
| Config.CombineLastWins | user_sync/config.py:268-284 | for a key never holding a dict, the last dict that has the key gives its value |
| Config.CombineMergesNested | user_sync/config.py:280-281 | a nested dict meeting a nested dict is merged with the new entries winning |
| Config.Lookup | user_sync/config.py:589-603 | a missing or None value errs unless None is allowed; a value of the wrong type errs; otherwise the value is returned |
| Config.ListLookup | user_sync/config.py:571-575 | as for a plain look-up, with a non-list value wrapped into a one-element list |
| Config.ConfigTree.constructor | user_sync/config.py:526-533 | a new configuration has one root with nothing accessed and no children |
| Config.ConfigTree.GetValue | user_sync/config.py:589-603 | the key is always marked accessed, and the result is that of the typed look-up |
| Config.ConfigTree.GetList | user_sync/config.py:571-575 | the key is marked accessed, and the result is that of the list look-up |
| Config.ConfigTree.AddChild | user_sync/config.py:432-437 | the child is appended with its parent set and registered under its scope |
| Config.ConfigTree.GetDictConfig | user_sync/config.py:546-556 | a cached child is returned unchanged; otherwise the value is looked up as a dict and a new child is created only when it is present |
| Config.ConfigTree.GetListConfig | user_sync/config.py:577-587 | the same caching rule for list children |
| Config.ConfigTree.Scopes | user_sync/config.py:451-457 | the scope chain from the root ends with the node's own scope |
| Config.ConfigTree.FullScopeSplits | user_sync/config.py:451-457 | the full scope is the scopes from root to node joined by `.`, so splitting it at dots recovers them |
| Config.ConfigTree.IterUnusedKeys | user_sync/config.py:541-544 | yields exactly the keys never accessed, each once |
| Config.ConfigTree.ReportUnusedValues | user_sync/config.py:473-487 | errs iff some configuration that is not optional has an unused key |
| Config.OptionsBuilder.constructor | user_sync/config.py:750-755 | a new builder has no options |
| Config.OptionsBuilder.SetValue | user_sync/config.py:788-796 | an absent key (or no configuration) stores the default; a present one stores the type-checked value or errs |
| Config.OptionsBuilder.RequireValue | user_sync/config.py:805-813 | no configuration is an error; otherwise the typed look-up's value is returned and stored |
| Config.OptionValue | user_sync/config.py:788-796 | the value `set_value` stores: the default for an absent key, the type-checked value otherwise |
| Config.RewritePath | user_sync/config.py:663-680 | a byte string (`str`, an all-ASCII YAML scalar) is made relative, a list has each of its byte strings made relative, anything else is kept, a `unicode` string included |
| Config.ProcessPathKeyFrame | user_sync/config.py:683-716 | keys other than the one on the path are untouched, and a wildcard step leaves non-dict values alone |
| Config.ProcessPathKeyKeys | user_sync/config.py:683-716 | no key is removed; only the path key can be added, and only when a default is given |
| Config.ProcessPathKeyRewrites | user_sync/config.py:683-716 | along a path without wildcards, the value found at the end is rewritten (a byte string made relative, each byte string of a list made relative); when the path runs into a missing key and a default is given, the relative default is placed at the end of the path, creating the dictionaries on the way |
| Config.ProcessPathKeyIdentity | user_sync/config.py:638-716 | with an identity path function and no default, the walk changes nothing |
| Config.ProcessPathKeys | user_sync/config.py:718-726 | the loop applies every path key in turn |
| Config.ApplyPathKeysKeepsOtherTopLevel | user_sync/config.py:718-726 | a top-level key named by no path key keeps its value |
| Config.ProcessPathKeyKeepsString | user_sync/config.py:683-716 | a path key that names neither `a.b` nor a path through it leaves the string at `a.b` unchanged |
| Config.ApplyPathKeysKeepString | user_sync/config.py:718-726 | path keys that each pass `a.b` by leave the string there unchanged |
| Config.RootOwningDefault | user_sync/config.py:33-46 | with the root path keys, a configuration that names no `dashboard.owning` file gets `dashboard-owning-config.yml`, made relative to the configuration's directory, and no later path key changes it |
| Config.SubPrivKeyResolved | user_sync/config.py:49-53 | with the sub-configuration path key, the value at `enterprise.priv_key_path` is rewritten as `Config.RewritePath` says: made relative to the file's directory when it is a byte string |
| Okta.NormalizeHost | user_sync/connector/directory_okta.py:81-84 | an `https://` host is kept; a host with another scheme is an error; a host without a scheme gets `https://` prepended |
| Okta.NormalizeHostIdempotent | user_sync/connector/directory_okta.py:81-84 | normalising a normalised host changes nothing |
| Okta.FindGroup | user_sync/connector/directory_okta.py:132-153 | the group name is stripped; the result is the first group with exactly that profile name, or None when the query gave nothing or no group matches |
| Okta.RequestedAttributes | user_sync/connector/directory_okta.py:162-164 | the five standard names come first, followed by the extended names not among them, without duplicates |
| Okta.GetExtendedAttributeDict | user_sync/connector/directory_okta.py:267-274 | the map has exactly the distinct attribute names as keys, each with the string type |
| Okta.Convert | user_sync/connector/directory_okta.py:188-236 | a user is dropped exactly when the configured identity type does not parse |
| Okta.ConvertFields | user_sync/connector/directory_okta.py:194-233 | uid and email are copied; the identity type is the configured one, parsed when non-empty; username is `''`; names and country are set only when truthy; the source attributes hold exactly `id`, `email`, `identity_type`, `login`, `firstName`, `lastName`, `countryCode` with their values, and every extended attribute not among them with the profile's value or None |
| Okta.Converted | user_sync/connector/directory_okta.py:175-184 | members without an email are skipped; every user kept has an email, a uid and no groups |
| Okta.AddMembersUser | user_sync/connector/directory_okta.py:116-126 | a uid is cached iff it was or is a member's; a newly cached uid keeps the first member record with that uid; cached records keep all but their groups; the group is added once to exactly the members' uids; group lists stay free of duplicates |
| Okta.LoadGroupsUser | user_sync/connector/directory_okta.py:111-126 | after loading, a uid is cached iff it is a member of some group; its record is the first one met for it, group by group; its groups are exactly the groups it belongs to, without duplicates |
| Okta.OktaConnector.constructor | user_sync/connector/directory_okta.py:60-86 | a new connector keeps its settings and starts with an empty uid cache |
| Okta.OktaConnector.ConvertUser | user_sync/connector/directory_okta.py:188-236 | the method builds the converted user |
| Okta.OktaConnector.IterGroupMembers | user_sync/connector/directory_okta.py:132-186 | a failing group query or member listing is an error; otherwise the loop yields exactly the converted members of the found group, and nothing for an unknown group |
| Okta.OktaConnector.RecordMember | user_sync/connector/directory_okta.py:119-126 | one member is added to the cache as the dedup rule says |
| Okta.OktaConnector.RecordMembers | user_sync/connector/directory_okta.py:116-126 | the inner loop over one group's members leaves exactly the cache the dedup rule gives for them in order |
| Okta.OktaConnector.LoadUsersAndGroups | user_sync/connector/directory_okta.py:100-130 | the load fails exactly when a client call fails for some group; when it succeeds, the cache, reset first, holds exactly the loaded groups' users and is returned |
| Okta.OktaConnector.AnsweredSnoc | user_sync/connector/directory_okta.py:111-113 | the groups loaded so far all answered exactly when the earlier ones did and the last one did; one failing group fails the whole list |
| Okta.Initialize | user_sync/connector/directory_okta.py:81-86 | the host check of initialisation: it fails exactly when the host has a scheme other than https, and otherwise keeps the normalised host and an empty cache |
| App.VerbMeaning | user_sync/app.py:227-244 | a missing action or `all` selects all users; `file`, `mapped` and `group` select their modes; anything else is unknown |
| App.UsersOptions | user_sync/app.py:225-244 | `--users` is rejected for an unknown action or for `file`/`group` without an argument; otherwise it sets the connector module, the file path, the mapped flag or the comma-split group filter |
| App.StrayFlag | user_sync/app.py:280-286 | a stray flag is switched off by a non-empty output list but is counted whenever given |
| App.StrayActionOptions | user_sync/app.py:276-310 | more than one stray action is an error; otherwise at most one action is on, and none is with an output list |
| App.SourceFilterOption | user_sync/app.py:312-322 | a source filter without `:` is an error; otherwise it is split at the first `:` |
| App.UserFilterOption | user_sync/app.py:246-252 | a non-empty pattern that does not compile is an error; otherwise it becomes the username filter |
| App.StrayListOptions | user_sync/app.py:254-274 | an input list with `--users` is an error, and so is an output list with a non-empty input list; an input list switches the directory off and supplies the stray keys |
| App.DirectoryOptions | user_sync/app.py:218-274 | the first checks reject exactly the bad `--users`, bad filter and stray-list combinations, and otherwise give the expected options |
| App.CreateConfigLoaderOptions | user_sync/app.py:217-324 | the command line is rejected exactly under the listed conditions; otherwise the options are the expected ones |
| App.AcceptedStrayActions | user_sync/app.py:276-310 | an accepted command line has at most one stray action on, none with an output list, and removal only when it was asked for |
| App.AcceptedSourceFilter | user_sync/app.py:312-320 | an accepted source filter is one connector whose name has no `:` and which rejoins with its path into the argument |
| App.AcceptedConnector | user_sync/app.py:225-260 | a connector module is chosen iff `--users` is given; the directory is switched off iff an input list is given; the CSV connector is chosen iff the action is `file` |
| App.GroupFilterRoundTrip | user_sync/app.py:242 | the group filter pieces contain no comma and rejoin into the argument |
| App.UnknownAccessors | user_sync/app.py:170-176 | the unknown set is exactly the non-owning organisations named by some mapped group that have no accessor configuration |
| App.BeginWork | user_sync/app.py:166-194 | unknown accessor organisations are an error; a mapped configuration filters on exactly the directory groups; `user_identity_type` defaults to the new account type and other connector options are kept |
| App.LevelLookup | user_sync/app.py:123-129 | a level is found exactly for the five lower-case names, and its name is the one looked up |
| App.LevelLookupName | user_sync/app.py:123-129 | every level is found by its own name |
| App.LevelNamesCaseSensitive | user_sync/app.py:123-133 | a name holding any upper-case letter is not a level name |
| App.LevelOrInfo | user_sync/app.py:131-143 | an unknown level name falls back to INFO |
| App.InitLog | user_sync/app.py:112-154 | option type errors are errors; the console level is the configured one or INFO; a file handler exists iff `log_to_file` is true, with its directory and level; one warning per unknown level in use |

## Left out

- Python's `str.strip`, `lower` and `upper` are modelled on ASCII only: ASCII letters and the blanks ` \t\n\v\f\r`. Unicode case mapping and Unicode blanks are not modelled.
- I/O is not modelled: reading YAML, CSV and stray files, writing the CSV export and the stray list, creating the log directory, and the dated log-file path. `write_dict_to_csv` is modelled as the rows it writes. The `sorted` ordering of the users is not modelled.
- The LDAP transport is modelled as data:
  - connection, bind and the choice of authentication method are left out;
  - a search is a given function from a base DN and a filter to a sequence of entries, or to None for a failed search;
  - `ldap3.utils.dn.parse_dn` is a given function.
- The Okta SDK clients are given functions: the group query and the member listing, each giving its answer or the error it raises. The text of the Okta group query and the users filter are not modelled, nor the error messages.
- `filter_users` evaluates configuration text with `eval`, so it is not modelled. The member listing is taken as already filtered, and an error of the filter is an error of the listing.
- `parse_identity_type` is a given function, so that user_sync/identity_type.py is not part of this model.
- user_sync/connector/helper.py is not part of this model. The blank user it creates is modelled as a user with no optional fields set.
- Regular expressions are not modelled:
  - whether `--user-filter` compiles is a parameter;
  - the exclude patterns of the rule processor are given predicates.
- Logging and warning texts are not modelled. `InitLog` only counts its warnings.
- Python dict aliasing is modelled by value. The LDAP connector appends a group to the user held in `user_by_dn`, where the source appends to the list shared by the cache and the yielded record. `combine_dicts` updates the first nested dict in place, and the model merges a copy.
- Dashboard/UMAPI command sending, `try_and_update_dashboard_user`, attribute differences, `execute_actions` and `clean_strays` are not modelled. `ProcessStrays` returns the strays to clean instead of cleaning them.
- `get_dashboard_user_key` is not modelled: each dashboard user carries its key. In the owning organisation, keys must split into three parts (`WellFormedKeys`); the source unpacks three values there and would raise otherwise.
- Rules.ParseQualifiedNameRoundTrip: requires that the organisation name is non-empty, has no `::` and does not end with `:`. `_parse` splits left to right, so `a:` + `::g` splits differently.
- `RuleProcessor.read_remove_list` is called by user_sync/app.py:263 but is not defined in user_sync/rules.py. The stray keys it would read are a parameter of `App.CreateConfigLoaderOptions`.
- The following are not modelled: argument parsing (`process_args`), `main`, the lock file, `log_parameters`, the dynamic import and construction of connectors, `RuleProcessor.run`, `check_unused_config_keys` inside `begin_work`, and the warning for a configuration with no mapped groups.
- App.BeginWork: the error message does not list the unknown organisation names.
- Template.Render: a conversion (`!r`) and a format spec (`:>10`) are dropped: the field renders as the value stored under its name, the text before the first `!` or `:`. Python applies the conversion and the spec, and raises on a spec it cannot apply. An attribute access or index in a field name (`{a.b}`, `{a[0]}`) is not interpreted either: the whole name is the key, where Python looks up only the part before the first `.` or `[`.
- Template.RenderPiece: the same limits as `Template.Render`.
- Template.RenderSucceedsIff: stated only for templates whose fields are bare names, where `Template.Render` behaves as Python does.
- LdapValues.GenerateRenders: stated only for templates whose fields are bare names, for the same reason.
- Okta.Initialize: models only the host check. The required `host` and `api_token` options, the option type checks and defaults, the parse of `user_identity_type` (which fails for an unknown type), the unused-key report and the client construction are not modelled.
- LdapConnector.LdapConnector.IterUsers: after an error part-way through, the cache is left unspecified. The source may already have cached some users by then.
- LdapConnector.LdapConnector.LoadGroups: after an error, the cache and the error text are left unspecified. Only the fact that an error is raised is stated.
- LdapConnector.LdapConnector.LoadGroup: after an error, the cache and the error text are left unspecified. Only the fact that an error is raised is stated.
- LdapConnector.LdapConnector.LoadGroupByFilter: after an error, the cache and the error text are left unspecified. Only the fact that an error is raised is stated.
- LdapConnector.LdapConnector.LoadUsersAndGroups: after an error, the cache and the error text are left unspecified. Only the fact that an error is raised is stated.
- Okta.OktaConnector.LoadUsersAndGroups: after a client error, the cache and the error text are left unspecified. The source may already have cached the users of earlier groups by then.
- The path keys are held already cut at `/`, as the `split('/')` in `load_from_yaml` leaves them (user_sync/config.py:720, 723). The split of the constant paths is done by hand in `RootConfigPathKeys` and `SubConfigPathKeys`.
- `member_groups` and `additional_group_filters` of the LDAP connector are not modelled. The model starts `member_groups` empty.
- The order of the extended attributes that Okta requests beyond the five standard ones is not stated. Only their set and their distinctness are.
- The after-mapping hook (`exec`), the credential manager and the Sign client are not modelled.

## Findings

| source | as written | input that shows it | evidently intended | confidence | as-written member | corrected member |
|---|---|---|---|---|---|---|
| user_sync/rules.py:404 | `adobe_strays_processed` is set to `max_removed_users` | 3 owning-organisation strays with the default `max_removed_users` of 10: 10 are reported, 3 are cleaned | report the number of strays cleaned: the stray count capped at `max_removed_users` | not executed | Rules.StraysOverReported | Rules.RuleProcessor.ProcessStrays |
