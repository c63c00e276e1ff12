/** The application layer of user_sync/app.py: the configuration options
    derived from the command line, the accessor-organisation check at the
    start of a run, and the choice of console and file log levels. */
module App {
  import opened Wrappers
  import opened Strings
  import opened Helper
  import opened Config
  import Rules

  // ---------------------------------------------------------------------
  // Command-line options (`create_config_loader_options`)

  /** The parsed command line, as far as the configuration options use it. */
  datatype Args = Args(
    testMode: bool,
    manageGroups: bool,
    updateUserInfo: bool,
    users: Option<seq<string>>,
    usernameFilterPattern: Option<string>,
    strayListInputPath: Option<string>,
    strayListOutputPath: Option<string>,
    removeStrays: bool,
    deleteStrays: bool,
    disentitleStrays: bool,
    sourceFilterArgs: Option<string>)

  const LdapConnectorModule: string := "user_sync.connector.directory_ldap"
  const CsvConnectorModule: string := "user_sync.connector.directory_csv"

  /** The configuration options; a field that is `None` is a key the
      options do not hold. */
  datatype ConfigOptions = ConfigOptions(
    testMode: bool,
    manageGroups: bool,
    updateUserInfo: bool,
    directoryGroupMapped: bool,
    directoryConnectorModuleName: Option<Option<string>>,
    directoryConnectorOverriddenOptions: Option<map<string, string>>,
    directoryGroupFilter: Option<seq<string>>,
    usernameFilterRegex: Option<string>,
    strayKeyList: Option<seq<string>>,
    strayListOutputPath: Option<string>,
    removeStrays: Option<bool>,
    deleteStrays: Option<bool>,
    disentitleStrays: Option<bool>,
    directorySourceFilters: Option<map<string, string>>)

  // The messages of the errors raised while the options are built.
  const MissingFilePath: string := "Missing file path for --users "
  const MissingGroups: string := "Missing groups for --users "
  const UnknownUsersArgument: string := "Unknown argument --users "
  const BadUserFilter: string := "Bad regular expression for --user-filter: "
  const UsersWithStrayInput: string := "You cannot specify both --users and --input-stray-list"
  const StrayInputWithOutput: string := "You cannot specify both --input-stray-list and --output-stray-list"
  const TooManyStrayActions: string :=
    "You cannot specify more than one of --remove-entitlements-for-strays, --remove-strays and --delete-strays"
  const InvalidSourceFilter: string := "Invalid arg for --source-filter: "

  /** The `--users` action: the first word, normalised; none when no word
      follows the flag. */
  function UsersAction(users: seq<string>): Option<string> {
    if users == [] then None else Some(Normalize(users[0]))
  }

  /** How many of the three stray actions the command line asks for,
      whether or not a stray-list output then switches them off. */
  function StrayFlagCount(args: Args): nat {
    (if args.removeStrays then 1 else 0) + (if args.deleteStrays then 1 else 0) +
    (if args.disentitleStrays then 1 else 0)
  }

  /** The command lines that make the option building raise. */
  predicate Rejected(args: Args, compiles: bool) {
    (args.users.Some? && UsersRejected(args.users.value)) ||
    (NonEmpty(args.usernameFilterPattern) && !compiles) ||
    (args.strayListInputPath.Some? && args.users.Some?) ||
    (args.strayListOutputPath.Some? && NonEmpty(args.strayListInputPath)) ||
    StrayFlagCount(args) > 1 ||
    (args.sourceFilterArgs.Some? && ':' !in args.sourceFilterArgs.value)
  }

  /** How many stray actions the options switch on. */
  function StrayActions(o: ConfigOptions): nat {
    (if o.removeStrays == Some(true) then 1 else 0) +
    (if o.deleteStrays == Some(true) then 1 else 0) +
    (if o.disentitleStrays == Some(true) then 1 else 0)
  }

  /** The options before any flag is read. */
  function InitialOptions(args: Args): ConfigOptions {
    ConfigOptions(args.testMode, args.manageGroups, args.updateUserInfo, false,
                  None, None, None, None, None, None, None, None, None, None)
  }

  /** What the first `--users` word asks for. */
  datatype UsersVerb = AllUsers | FileUsers | MappedUsers | GroupUsers | UnknownVerb(word: string)

  /** The verb of a normalised `--users` action; no action means all users. */
  function Verb(action: Option<string>): UsersVerb {
    match action
    case None => AllUsers
    case Some(a) =>
      if a == "all" then AllUsers
      else if a == "file" then FileUsers
      else if a == "mapped" then MappedUsers
      else if a == "group" then GroupUsers
      else UnknownVerb(a)
  }

  /** Each verb stands for exactly its word; any other word is unknown. */
  lemma VerbMeaning(action: Option<string>)
    ensures Verb(action) == AllUsers <==> action.None? || action.value == "all"
    ensures Verb(action) == FileUsers <==> action == Some("file")
    ensures Verb(action) == MappedUsers <==> action == Some("mapped")
    ensures Verb(action) == GroupUsers <==> action == Some("group")
    ensures Verb(action).UnknownVerb? ==> action == Some(Verb(action).word)
  {
  }

  /** The verb of a `--users` word list. */
  function UsersVerbOf(users: seq<string>): UsersVerb {
    Verb(UsersAction(users))
  }

  /** `--users` with an unknown action, or with `file` or `group` and no
      word after it. */
  predicate UsersRejected(users: seq<string>) {
    var v := UsersVerbOf(users);
    v.UnknownVerb? || ((v == FileUsers || v == GroupUsers) && |users| < 2)
  }

  /** The `--users` block: the first word chooses the directory connector,
      and `file` and `group` consume the next word too. */
  method UsersOptions(options: ConfigOptions, users: seq<string>) returns (r: Result<ConfigOptions, string>)
    ensures r.Err? <==> UsersRejected(users)
    ensures r.Ok? ==> r.value == options.(
      directoryGroupMapped := options.directoryGroupMapped || UsersVerbOf(users) == MappedUsers,
      directoryConnectorModuleName :=
        Some(Some(if UsersVerbOf(users) == FileUsers then CsvConnectorModule else LdapConnectorModule)),
      directoryConnectorOverriddenOptions :=
        (if UsersVerbOf(users) == FileUsers then Some(map["file_path" := users[1]])
         else options.directoryConnectorOverriddenOptions),
      directoryGroupFilter :=
        (if UsersVerbOf(users) == GroupUsers then Some(Split(users[1], ","))
         else options.directoryGroupFilter))
  {
    var usersArgs := users;
    var action: Option<string> := None;
    if |usersArgs| > 0 {
      action := NormalizeString(Some(usersArgs[0]));
      usersArgs := usersArgs[1..];
    }
    assert action == UsersAction(users);
    var verb := Verb(action);
    r := UsersVerbOptions(options, verb, usersArgs);
  }

  /** The options one `--users` verb sets, with the words after it. */
  method UsersVerbOptions(options: ConfigOptions, verb: UsersVerb, usersArgs: seq<string>) returns (r: Result<ConfigOptions, string>)
    ensures r.Err? <==> verb.UnknownVerb? || (verb in {FileUsers, GroupUsers} && usersArgs == [])
    ensures r.Ok? ==> r.value == options.(
      directoryGroupMapped := options.directoryGroupMapped || verb == MappedUsers,
      directoryConnectorModuleName :=
        Some(Some(if verb == FileUsers then CsvConnectorModule else LdapConnectorModule)),
      directoryConnectorOverriddenOptions :=
        (if verb == FileUsers then Some(map["file_path" := usersArgs[0]])
         else options.directoryConnectorOverriddenOptions),
      directoryGroupFilter :=
        (if verb == GroupUsers then Some(Split(usersArgs[0], ","))
         else options.directoryGroupFilter))
  {
    var rest := usersArgs;
    r := Ok(options);
    match verb
    case AllUsers =>
      r := Ok(r.value.(directoryConnectorModuleName := Some(Some(LdapConnectorModule))));
    case FileUsers =>
      if |rest| == 0 {
        return Err(MissingFilePath + "file [file_path]");
      }
      r := Ok(r.value.(directoryConnectorModuleName := Some(Some(CsvConnectorModule))));
      r := Ok(r.value.(directoryConnectorOverriddenOptions := Some(map["file_path" := rest[0]])));
      rest := rest[1..];
    case MappedUsers =>
      r := Ok(r.value.(directoryConnectorModuleName := Some(Some(LdapConnectorModule))));
      r := Ok(r.value.(directoryGroupMapped := true));
    case GroupUsers =>
      if |rest| == 0 {
        return Err(MissingGroups + "group [groups]");
      }
      r := Ok(r.value.(directoryConnectorModuleName := Some(Some(LdapConnectorModule))));
      r := Ok(r.value.(directoryGroupFilter := Some(Split(rest[0], ","))));
      rest := rest[1..];
    case UnknownVerb(word) =>
      return Err(UnknownUsersArgument + word);
  }

  /** One stray-action flag: counted when given, switched off when a stray
      list is written. */
  method StrayFlag(flag: bool, outputPath: Option<string>, count: nat) returns (on: bool, count': nat)
    ensures on == (flag && !NonEmpty(outputPath))
    ensures count' == count + (if flag then 1 else 0)
  {
    on, count' := flag, count;
    if on {
      if NonEmpty(outputPath) {
        on := false;
      }
      count' := count' + 1;
    }
  }

  /** The three stray-action flags, of which at most one may be given. */
  method StrayActionOptions(options: ConfigOptions, args: Args) returns (r: Result<ConfigOptions, string>)
    ensures r.Err? <==> StrayFlagCount(args) > 1
    ensures r.Ok? ==> r.value == options.(
      removeStrays := Some(args.removeStrays && !NonEmpty(args.strayListOutputPath)),
      deleteStrays := Some(args.deleteStrays && !NonEmpty(args.strayListOutputPath)),
      disentitleStrays := Some(args.disentitleStrays && !NonEmpty(args.strayListOutputPath)))
    ensures r.Ok? ==> StrayActions(r.value) <= 1
  {
    var strayCount := 0;
    var removeStrays, deleteStrays, disentitleStrays;
    removeStrays, strayCount := StrayFlag(args.removeStrays, args.strayListOutputPath, strayCount);
    deleteStrays, strayCount := StrayFlag(args.deleteStrays, args.strayListOutputPath, strayCount);
    disentitleStrays, strayCount := StrayFlag(args.disentitleStrays, args.strayListOutputPath, strayCount);
    if strayCount > 1 {
      return Err(TooManyStrayActions);
    }
    return Ok(options.(removeStrays := Some(removeStrays), deleteStrays := Some(deleteStrays),
                       disentitleStrays := Some(disentitleStrays)));
  }

  /** `--source-filter connector:path`, split at the first colon. */
  method SourceFilterOption(options: ConfigOptions, filterArgs: string) returns (r: Result<ConfigOptions, string>)
    ensures r.Err? <==> ':' !in filterArgs
    ensures r.Ok? ==> r.value == options.(directorySourceFilters := SourceFilters(Some(filterArgs)))
  {
    var sep := Find(filterArgs, ":");
    FindChar(filterArgs, ':');
    if sep >= 0 {
      var connector := filterArgs[..sep];
      var path := filterArgs[sep + 1..];
      return Ok(options.(directorySourceFilters := Some(map[connector := path])));
    } else {
      return Err(InvalidSourceFilter + filterArgs);
    }
  }

  /** The `--user-filter` block: a non-empty pattern must compile. */
  method UserFilterOption(options: ConfigOptions, pattern: Option<string>, compiles: bool)
    returns (r: Result<ConfigOptions, string>)
    ensures r.Err? <==> NonEmpty(pattern) && !compiles
    ensures r.Ok? ==> r.value == options.(
      usernameFilterRegex := if NonEmpty(pattern) then pattern else options.usernameFilterRegex)
  {
    r := Ok(options);
    if NonEmpty(pattern) {
      if !compiles {
        return Err(BadUserFilter + pattern.value);
      }
      r := Ok(options.(usernameFilterRegex := Some(pattern.value)));
    }
  }

  /** The `--input-stray-list` and `--output-stray-list` blocks: an input
      list replaces the directory and excludes `--users`; an output list
      excludes a non-empty input list. */
  method StrayListOptions(options: ConfigOptions, args: Args, strayKeys: seq<string>)
    returns (r: Result<ConfigOptions, string>)
    ensures r.Err? <==> (args.strayListInputPath.Some? && args.users.Some?) ||
                        (args.strayListOutputPath.Some? && NonEmpty(args.strayListInputPath))
    ensures r.Ok? ==> r.value == options.(
      directoryConnectorModuleName :=
        if args.strayListInputPath.Some? then Some(None) else options.directoryConnectorModuleName,
      strayKeyList :=
        if args.strayListInputPath.Some? then Some(strayKeys)
        else options.strayKeyList,
      strayListOutputPath :=
        if args.strayListOutputPath.Some? then args.strayListOutputPath else options.strayListOutputPath)
  {
    r := Ok(options);
    var inputPath := args.strayListInputPath;
    if inputPath.Some? {
      if args.users.Some? {
        return Err(UsersWithStrayInput);
      }
      r := Ok(r.value.(directoryConnectorModuleName := Some(None)));
      r := Ok(r.value.(strayKeyList := Some(strayKeys)));
    }
    var outputPath := args.strayListOutputPath;
    if outputPath.Some? {
      if NonEmpty(inputPath) {
        return Err(StrayInputWithOutput);
      }
      r := Ok(r.value.(strayListOutputPath := Some(outputPath.value)));
    }
  }

  /** The source filters of a `--source-filter` argument with a colon: the
      connector before the first colon, the path after it. */
  function SourceFilters(filterArgs: Option<string>): Option<map<string, string>> {
    if filterArgs.None? then None
    else
      var sep := Find(filterArgs.value, ":");
      if sep < 0 then None else Some(map[filterArgs.value[..sep] := filterArgs.value[sep + 1..]])
  }

  /** The options a command line that is not rejected yields: those of the
      directory and the stray lists, then the stray actions and the source
      filters. */
  function ExpectedOptions(args: Args, strayKeys: seq<string>): ConfigOptions {
    var quiet := NonEmpty(args.strayListOutputPath);
    ExpectedDirectoryOptions(args, strayKeys).(
      removeStrays := Some(args.removeStrays && !quiet),
      deleteStrays := Some(args.deleteStrays && !quiet),
      disentitleStrays := Some(args.disentitleStrays && !quiet),
      directorySourceFilters := SourceFilters(args.sourceFilterArgs))
  }

  /** The directory to read, the user filter and the stray lists of a
      command line that is not rejected, field by field. */
  function ExpectedDirectoryOptions(args: Args, strayKeys: seq<string>): ConfigOptions {
    var verb := if args.users.Some? then Some(UsersVerbOf(args.users.value)) else None;
    var next := if args.users.Some? && |args.users.value| >= 2 then args.users.value[1] else "";
    ConfigOptions(
      testMode := args.testMode,
      manageGroups := args.manageGroups,
      updateUserInfo := args.updateUserInfo,
      directoryGroupMapped := verb == Some(MappedUsers),
      directoryConnectorModuleName :=
        if args.strayListInputPath.Some? then Some(None)
        else if verb.None? then None
        else if verb == Some(FileUsers) then Some(Some(CsvConnectorModule))
        else Some(Some(LdapConnectorModule)),
      directoryConnectorOverriddenOptions :=
        if verb == Some(FileUsers) then Some(map["file_path" := next]) else None,
      directoryGroupFilter := if verb == Some(GroupUsers) then Some(Split(next, ",")) else None,
      usernameFilterRegex := if NonEmpty(args.usernameFilterPattern) then args.usernameFilterPattern else None,
      strayKeyList :=
        if args.strayListInputPath.Some? then Some(strayKeys) else None,
      strayListOutputPath := args.strayListOutputPath,
      removeStrays := None,
      deleteStrays := None,
      disentitleStrays := None,
      directorySourceFilters := None)
  }

  /** The first blocks of `create_config_loader_options`: the directory to
      read, the user filter and the stray lists. */
  method DirectoryOptions(args: Args, compiles: bool, strayKeys: seq<string>)
    returns (r: Result<ConfigOptions, string>)
    ensures r.Err? <==>
      (args.users.Some? && UsersRejected(args.users.value)) ||
      (NonEmpty(args.usernameFilterPattern) && !compiles) ||
      (args.strayListInputPath.Some? && args.users.Some?) ||
      (args.strayListOutputPath.Some? && NonEmpty(args.strayListInputPath))
    ensures r.Ok? ==> r.value == ExpectedDirectoryOptions(args, strayKeys)
  {
    var options := InitialOptions(args);
    if args.users.Some? {
      options :- UsersOptions(options, args.users.value);
    }
    options :- UserFilterOption(options, args.usernameFilterPattern, compiles);
    options :- StrayListOptions(options, args, strayKeys);
    ghost var expected := ExpectedDirectoryOptions(args, strayKeys);
    assert options.directoryConnectorModuleName == expected.directoryConnectorModuleName;
    assert options.directoryConnectorOverriddenOptions == expected.directoryConnectorOverriddenOptions;
    assert options.directoryGroupFilter == expected.directoryGroupFilter;
    return Ok(options);
  }

  /** `create_config_loader_options`: the options are built key by key,
      block by block, the first failing check raising. Whether the user
      filter expression compiles is `compiles`; the keys a stray list read
      from the input path holds are `strayKeys`. */
  method CreateConfigLoaderOptions(args: Args, compiles: bool, strayKeys: seq<string>)
    returns (r: Result<ConfigOptions, string>)
    ensures r.Err? <==> Rejected(args, compiles)
    ensures r.Ok? ==> r.value == ExpectedOptions(args, strayKeys)
  {
    var options :- DirectoryOptions(args, compiles, strayKeys);
    options :- StrayActionOptions(options, args);
    if args.sourceFilterArgs.Some? {
      options :- SourceFilterOption(options, args.sourceFilterArgs.value);
    }
    return Ok(options);
  }

  /** An accepted command line switches on at most one stray action, and
      none when a stray list is written. */
  lemma AcceptedStrayActions(args: Args, compiles: bool, strayKeys: seq<string>)
    requires !Rejected(args, compiles)
    ensures StrayActions(ExpectedOptions(args, strayKeys)) <= 1
    ensures NonEmpty(args.strayListOutputPath) ==> StrayActions(ExpectedOptions(args, strayKeys)) == 0
    ensures ExpectedOptions(args, strayKeys).removeStrays == Some(true) ==> args.removeStrays
  {
  }

  /** An accepted `--source-filter` names exactly one connector, by the text
      before the first colon, and the path after it. */
  lemma AcceptedSourceFilter(args: Args, compiles: bool, strayKeys: seq<string>)
    requires !Rejected(args, compiles) && args.sourceFilterArgs.Some?
    ensures ExpectedOptions(args, strayKeys).directorySourceFilters.Some?
    ensures var f := ExpectedOptions(args, strayKeys).directorySourceFilters.value;
      |f| == 1 && forall c :: c in f ==> ':' !in c && c + ":" + f[c] == args.sourceFilterArgs.value
  {
    var filter := args.sourceFilterArgs.value;
    FindChar(filter, ':');
    var sep := Find(filter, ":");
    assert filter[..sep] + ":" + filter[sep + 1..] == filter;
  }

  /** An accepted command line reads the directory through a connector
      module exactly when it neither reads a stray list nor leaves `--users`
      out; `file` selects the CSV connector and all other verbs LDAP. */
  lemma AcceptedConnector(args: Args, compiles: bool, strayKeys: seq<string>)
    requires !Rejected(args, compiles)
    ensures var m := ExpectedOptions(args, strayKeys).directoryConnectorModuleName;
      (m.Some? && m.value.Some? <==> args.users.Some?) &&
      (m == Some(None) <==> args.strayListInputPath.Some?) &&
      (m == Some(Some(CsvConnectorModule)) <==> args.users.Some? && UsersAction(args.users.value) == Some("file"))
  {
    if args.users.Some? {
      VerbMeaning(UsersAction(args.users.value));
    }
  }

  /** The groups `--users group` selects, joined back with commas, give the
      word they came from, and none of them holds a comma. */
  lemma GroupFilterRoundTrip(word: string)
    ensures Join(Split(word, ","), ",") == word
    ensures forall k :: 0 <= k < |Split(word, ",")| ==> ',' !in Split(word, ",")[k]
  {
    JoinSplit(word, ",");
    SplitCharPieces(word, ',');
  }

  // ---------------------------------------------------------------------
  // The start of a run (`begin_work`)

  /** Some group of `groups` belongs to the organisation `name`. */
  predicate NamesOrganization(groups: seq<Rules.DashboardGroup>, name: string) {
    exists i :: 0 <= i < |groups| && groups[i].organizationName == Some(name)
  }

  /** Some directory group among `keys` maps to a dashboard group of the
      organisation `name`. */
  predicate ReferencedBy(directoryGroups: map<string, seq<Rules.DashboardGroup>>, keys: set<string>, name: string) {
    exists d :: d in keys && d in directoryGroups && NamesOrganization(directoryGroups[d], name)
  }

  /** The loops of `begin_work` over the mapped dashboard groups: the
      organisations named outside the owning one, less those with accessor
      configuration. */
  method UnknownAccessors(directoryGroups: map<string, seq<Rules.DashboardGroup>>, accessorNames: set<string>)
    returns (unknown: set<string>)
    ensures forall n :: n in unknown <==> ReferencedBy(directoryGroups, directoryGroups.Keys, n) && n !in accessorNames
  {
    var referenced: set<string> := {};
    var todo := directoryGroups.Keys;
    ghost var done: set<string> := {};
    while todo != {}
      invariant todo + done == directoryGroups.Keys && todo !! done
      invariant forall n :: n in referenced <==> ReferencedBy(directoryGroups, done, n)
      decreases todo
    {
      var d :| d in todo;
      var groups := directoryGroups[d];
      var i := 0;
      while i < |groups|
        invariant 0 <= i <= |groups|
        invariant forall n :: n in referenced <==> ReferencedBy(directoryGroups, done, n) || NamesOrganization(groups[..i], n)
      {
        var name := groups[i].organizationName;
        // the owning organisation is named `None`
        if name.Some? {
          referenced := referenced + {name.value};
        }
        assert groups[..i + 1] == groups[..i] + [groups[i]];
        i := i + 1;
      }
      assert groups[..i] == groups;
      todo := todo - {d};
      done := done + {d};
    }
    referenced := referenced - accessorNames;
    unknown := referenced;
  }

  const UnknownAccessorDashboards: string := "dashboard_groups have references to unknown accessor dashboards"

  /** The rule options `begin_work` reads and completes. */
  datatype RuleConfig = RuleConfig(directoryGroupMapped: bool, directoryGroupFilter: Option<set<string>>, newAccountType: string)

  /** `begin_work` up to the start of the rule processor: `mapped` makes the
      directory groups of the configuration the group filter; a reference to
      an organisation without accessor configuration is an error; a directory
      connector gets the new-account type as its default identity type. */
  method BeginWork(directoryGroups: map<string, seq<Rules.DashboardGroup>>, accessorNames: set<string>,
                   ruleConfig: RuleConfig, connectorOptions: Option<map<string, Value>>)
    returns (r: Result<(RuleConfig, Option<map<string, Value>>), string>)
    ensures r.Err? <==> exists n :: ReferencedBy(directoryGroups, directoryGroups.Keys, n) && n !in accessorNames
    ensures r.Ok? ==> r.value.0 == (if ruleConfig.directoryGroupMapped
                                    then ruleConfig.(directoryGroupFilter := Some(directoryGroups.Keys))
                                    else ruleConfig)
    ensures r.Ok? ==> (r.value.1.None? <==> connectorOptions.None?)
    ensures r.Ok? && connectorOptions.Some? ==>
      var opts := r.value.1.value;
      opts.Keys == connectorOptions.value.Keys + {"user_identity_type"} &&
      (forall k :: k in connectorOptions.value ==> opts[k] == connectorOptions.value[k]) &&
      ("user_identity_type" !in connectorOptions.value ==> opts["user_identity_type"] == VStr(ruleConfig.newAccountType))
  {
    var rules := ruleConfig;
    if rules.directoryGroupMapped {
      rules := rules.(directoryGroupFilter := Some(directoryGroups.Keys));
    }
    var unknown := UnknownAccessors(directoryGroups, accessorNames);
    if |unknown| > 0 {
      return Err(UnknownAccessorDashboards);
    }
    var options := connectorOptions;
    if options.Some? && "user_identity_type" !in options.value {
      options := Some(options.value["user_identity_type" := VStr(rules.newAccountType)]);
    }
    return Ok((rules, options));
  }

  // ---------------------------------------------------------------------
  // Log levels (`init_log`)

  datatype Level = Debug | Info | Warning | Error | Critical

  /** The configured name of each level. */
  function LevelName(l: Level): string {
    match l
    case Debug => "debug"
    case Info => "info"
    case Warning => "warning"
    case Error => "error"
    case Critical => "critical"
  }

  /** `level_lookup.get(name)`: the level of exactly the lower-case names. */
  function LevelLookup(name: string): (r: Option<Level>)
    ensures r.Some? <==> name in {"debug", "info", "warning", "error", "critical"}
    ensures r.Some? ==> LevelName(r.value) == name
  {
    if name == "debug" then Some(Debug)
    else if name == "info" then Some(Info)
    else if name == "warning" then Some(Warning)
    else if name == "error" then Some(Error)
    else if name == "critical" then Some(Critical)
    else None
  }

  /** Looking a level's name up gives the level back. */
  lemma LevelLookupName(l: Level)
    ensures LevelLookup(LevelName(l)) == Some(l)
  {
  }

  /** The level names are case-sensitive: a name with an upper-case letter,
      such as `DEBUG`, is not a level. */
  lemma LevelNamesCaseSensitive(name: string, i: nat)
    requires i < |name| && IsUpperAscii(name[i])
    ensures LevelLookup(name).None?
  {
  }

  /** The logging set-up `init_log` makes: the console level, the directory
      and level of the log file when there is one, and the warnings logged
      about unknown level names. */
  datatype LogSetup = LogSetup(console: Level, file: Option<(string, Level)>, warnings: seq<string>)

  /** The level a configured name selects, the information level for an
      unknown name. */
  function LevelOrInfo(name: string): (l: Level)
    ensures LevelLookup(name).Some? ==> l == LevelLookup(name).value
    ensures LevelLookup(name).None? ==> l == Info
  {
    match LevelLookup(name)
    case Some(l) => l
    case None => Info
  }

  const StrTypes: Option<set<PyType>> := Some({TStr})
  const BoolTypes: Option<set<PyType>> := Some({TBool})

  /** `init_log`: the four logging options with their defaults, then the
      console and file levels, an unknown name falling back to the
      information level with a warning. */
  method InitLog(loggingConfig: map<string, Value>) returns (r: Result<LogSetup, string>)
    ensures r.Err? <==>
      OptionValue(loggingConfig, "log_to_file", BoolTypes, VBool(false)).Err? ||
      OptionValue(loggingConfig, "file_log_directory", StrTypes, VStr("logs")).Err? ||
      OptionValue(loggingConfig, "file_log_level", StrTypes, VStr("info")).Err? ||
      OptionValue(loggingConfig, "console_log_level", StrTypes, VStr("info")).Err?
    ensures r.Ok? ==>
      var console := OptionValue(loggingConfig, "console_log_level", StrTypes, VStr("info")).value;
      console.VStr? && r.value.console == LevelOrInfo(console.s)
    ensures r.Ok? ==>
      (r.value.file.Some? <==> OptionValue(loggingConfig, "log_to_file", BoolTypes, VBool(false)).value == VBool(true))
    ensures r.Ok? && r.value.file.Some? ==>
      var dir := OptionValue(loggingConfig, "file_log_directory", StrTypes, VStr("logs")).value;
      var level := OptionValue(loggingConfig, "file_log_level", StrTypes, VStr("info")).value;
      dir.VStr? && level.VStr? && r.value.file.value == (dir.s, LevelOrInfo(level.s))
    ensures r.Ok? ==>
      var console := OptionValue(loggingConfig, "console_log_level", StrTypes, VStr("info")).value;
      var level := OptionValue(loggingConfig, "file_log_level", StrTypes, VStr("info")).value;
      |r.value.warnings| ==
        (if LevelLookup(console.s).None? then 1 else 0) +
        (if r.value.file.Some? && LevelLookup(level.s).None? then 1 else 0)
  {
    var logToFile :- OptionValue(loggingConfig, "log_to_file", BoolTypes, VBool(false));
    var directory :- OptionValue(loggingConfig, "file_log_directory", StrTypes, VStr("logs"));
    var fileLevelName :- OptionValue(loggingConfig, "file_log_level", StrTypes, VStr("info"));
    var consoleLevelName :- OptionValue(loggingConfig, "console_log_level", StrTypes, VStr("info"));

    var warnings: seq<string> := [];
    var consoleLevel := LevelLookup(consoleLevelName.s);
    if consoleLevel == None {
      consoleLevel := Some(Info);
      warnings := warnings + ["Unknown console log level: " + consoleLevelName.s + " setting to info"];
    }

    var file: Option<(string, Level)> := None;
    if logToFile == VBool(true) {
      var fileLevel := LevelLookup(fileLevelName.s);
      if fileLevel == None {
        fileLevel := Some(Info);
        warnings := warnings + ["Unknown file log level: " + fileLevelName.s + " setting to info"];
      }
      file := Some((directory.s, fileLevel.value));
    }
    return Ok(LogSetup(consoleLevel.value, file, warnings));
  }
}
