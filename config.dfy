/** The configuration layer of user_sync/config.py: configuration values,
    dictionary merging, the tree of `DictConfig`/`ListConfig` objects with
    their typed, access-tracking lookups, `OptionsBuilder`, and the rewrite
    of file paths in a loaded YAML tree. */
module Config {
  import opened Wrappers
  import opened Strings

  /** A value of a loaded YAML document. */
  datatype Value =
    | VNone
    | VBool(b: bool)
    | VInt(i: int)
    | VStr(s: string)
    | VList(items: seq<Value>)
    | VDict(entries: map<string, Value>)

  /** The Python types a lookup can demand. */
  datatype PyType = TBool | TInt | TStr | TList | TDict

  /** `isinstance(v, t)`; a boolean is also an `int`, as in Python. */
  predicate IsInstance(v: Value, t: PyType) {
    match t
    case TBool => v.VBool?
    case TInt => v.VInt? || v.VBool?
    case TStr => v.VStr?
    case TList => v.VList?
    case TDict => v.VDict?
  }

  /** `allowed_types` of `None` accepts anything. */
  predicate HasType(v: Value, allowed: Option<set<PyType>>) {
    allowed.None? || exists t :: t in allowed.value && IsInstance(v, t)
  }

  /** `ConfigLoader.as_list` */
  function AsList(v: Value): (r: seq<Value>)
    ensures v.VNone? ==> r == []
    ensures v.VList? ==> r == v.items
    ensures !v.VNone? && !v.VList? ==> r == [v]
  {
    match v
    case VNone => []
    case VList(items) => items
    case _ => [v]
  }

  // ---------------------------------------------------------------------
  // combine_dicts

  /** One dictionary merged into the result: its keys overwrite, except
      that a dictionary arriving on a dictionary is merged into it one level
      deep, its own keys winning. */
  function MergeDict(result: map<string, Value>, d: map<string, Value>): (r: map<string, Value>)
    ensures r.Keys == result.Keys + d.Keys
    ensures forall k :: k in d && !(k in result && result[k].VDict? && d[k].VDict?) ==> r[k] == d[k]
    ensures forall k :: k in d && k in result && result[k].VDict? && d[k].VDict? ==>
      r[k] == VDict(result[k].entries + d[k].entries)
    ensures forall k :: k in result && k !in d ==> r[k] == result[k]
  {
    map k | k in result.Keys + d.Keys ::
      if k in d then
        if k in result && result[k].VDict? && d[k].VDict? then VDict(result[k].entries + d[k].entries) else d[k]
      else result[k]
  }

  /** The merge of a list of items, left to right; items that are not
      dictionaries are skipped. */
  function Combine(dicts: seq<Value>): map<string, Value> {
    if dicts == [] then map[]
    else
      var prev := Combine(dicts[..|dicts| - 1]);
      var last := dicts[|dicts| - 1];
      if last.VDict? then MergeDict(prev, last.entries) else prev
  }

  /** The inner loop of `combine_dicts`: one dictionary merged into the
      result key by key. */
  method MergeInto(start: map<string, Value>, d: map<string, Value>) returns (result: map<string, Value>)
    ensures result == MergeDict(start, d)
  {
    result := start;
    var todo := d.Keys;
    while todo != {}
      invariant todo <= d.Keys
      invariant MergedSoFar(start, d, d.Keys - todo, result)
      decreases todo
    {
      var key :| key in todo;
      ghost var prev := result;
      var value := d[key];
      if key in result && result[key].VDict? && value.VDict? {
        result := result[key := VDict(result[key].entries + value.entries)];
      } else {
        result := result[key := value];
      }
      MergeOneKey(start, d, todo, prev, key, result);
      todo := todo - {key};
    }
    MergedAll(start, d, result);
  }

  /** The loop's invariant: the keys in `done` hold their merged value and
      every other key of `start` is untouched. */
  predicate MergedSoFar(start: map<string, Value>, d: map<string, Value>, done: set<string>, result: map<string, Value>) {
    result.Keys == start.Keys + done &&
    (forall k :: k in result && k !in done ==> result[k] == start[k]) &&
    (forall k :: k in done && k in d ==> result[k] == MergeDict(start, d)[k])
  }

  lemma MergeOneKey(start: map<string, Value>, d: map<string, Value>, todo: set<string>,
                    prev: map<string, Value>, key: string, next: map<string, Value>)
    requires todo <= d.Keys && key in todo
    requires MergedSoFar(start, d, d.Keys - todo, prev)
    requires next == if key in prev && prev[key].VDict? && d[key].VDict?
      then prev[key := VDict(prev[key].entries + d[key].entries)] else prev[key := d[key]]
    ensures MergedSoFar(start, d, d.Keys - (todo - {key}), next)
  {
    assert d.Keys - (todo - {key}) == (d.Keys - todo) + {key};
  }

  lemma MergedAll(start: map<string, Value>, d: map<string, Value>, result: map<string, Value>)
    requires MergedSoFar(start, d, d.Keys, result)
    ensures result == MergeDict(start, d)
  {
    var m := MergeDict(start, d);
    forall k | k in result ensures result[k] == m[k] {
      if k !in d {
        assert result[k] == start[k];
      }
    }
  }

  /** `combine_dicts` */
  method CombineDicts(dicts: seq<Value>) returns (result: map<string, Value>)
    ensures result == Combine(dicts)
  {
    result := map[];
    var i := 0;
    while i < |dicts|
      invariant 0 <= i <= |dicts|
      invariant result == Combine(dicts[..i])
    {
      assert dicts[..i + 1][..i] == dicts[..i];
      if dicts[i].VDict? {
        result := MergeInto(result, dicts[i].entries);
      }
      i := i + 1;
    }
    assert dicts[..i] == dicts;
  }

  /** The keys of the merge are the keys of all the dictionary items. */
  lemma {:induction false} CombineKeys(dicts: seq<Value>)
    ensures forall k :: k in Combine(dicts) <==> exists j :: 0 <= j < |dicts| && dicts[j].VDict? && k in dicts[j].entries
  {
    if dicts != [] {
      var init := dicts[..|dicts| - 1];
      CombineKeys(init);
      assert forall j :: 0 <= j < |init| ==> init[j] == dicts[j];
    }
  }

  /** An item that is not a dictionary changes nothing. */
  lemma CombineSkipsNonDict(dicts: seq<Value>, v: Value)
    requires !v.VDict?
    ensures Combine(dicts + [v]) == Combine(dicts)
  {
    assert (dicts + [v])[..|dicts|] == dicts;
  }

  /** Nothing nested: a value that no item holds as a dictionary. */
  predicate FlatAt(dicts: seq<Value>, k: string) {
    forall j :: 0 <= j < |dicts| && dicts[j].VDict? && k in dicts[j].entries ==> !dicts[j].entries[k].VDict?
  }

  /** Index of the last dictionary item holding `k`, or -1. */
  function LastWith(dicts: seq<Value>, k: string): (r: int)
    ensures -1 <= r < |dicts|
    ensures r >= 0 ==> dicts[r].VDict? && k in dicts[r].entries
    ensures forall j :: r < j < |dicts| ==> !(dicts[j].VDict? && k in dicts[j].entries)
  {
    if dicts == [] then -1
    else if dicts[|dicts| - 1].VDict? && k in dicts[|dicts| - 1].entries then |dicts| - 1
    else LastWith(dicts[..|dicts| - 1], k)
  }

  /** For a key never holding a dictionary, the merge keeps the value of the
      last item that has the key: later dictionaries overwrite earlier ones. */
  lemma {:induction false} CombineLastWins(dicts: seq<Value>, k: string)
    requires FlatAt(dicts, k)
    requires LastWith(dicts, k) >= 0
    ensures k in Combine(dicts) && Combine(dicts)[k] == dicts[LastWith(dicts, k)].entries[k]
  {
    var n := |dicts| - 1;
    var init := dicts[..n];
    assert forall j :: 0 <= j < n ==> init[j] == dicts[j];
    if !(dicts[n].VDict? && k in dicts[n].entries) {
      CombineLastWins(init, k);
    }
  }

  /** Two dictionaries under one key are merged one level deep. */
  lemma CombineMergesNested(dicts: seq<Value>, d: map<string, Value>, k: string)
    requires k in Combine(dicts) && Combine(dicts)[k].VDict?
    requires k in d && d[k].VDict?
    ensures Combine(dicts + [VDict(d)])[k] == VDict(Combine(dicts)[k].entries + d[k].entries)
  {
    assert (dicts + [VDict(d)])[..|dicts|] == dicts;
  }

  // ---------------------------------------------------------------------
  // The configuration object tree

  /** What a configuration object holds: a dictionary with the keys read so
      far, or a list. */
  datatype Kind = DictKind(value: map<string, Value>, accessed: set<string>) | ListKind(items: seq<Value>)

  /** One configuration object: its scope name, its parent, what it holds and
      the children created from it, by scope. */
  datatype Node = Node(scope: string, parent: Option<nat>, kind: Kind, children: map<string, nat>)

  /** `get_value`: a missing key or a `None` value is an error unless
      `noneAllowed`, and then gives `None`; a value of another type is an
      error. */
  function Lookup(value: map<string, Value>, key: string, allowed: Option<set<PyType>>, noneAllowed: bool): (r: Result<Value, string>)
    ensures r.Err? <==> ((key !in value || value[key].VNone?) && !noneAllowed) ||
                        (key in value && !value[key].VNone? && !HasType(value[key], allowed))
    ensures r.Ok? ==> (r.value == VNone <==> key !in value || value[key].VNone?)
    ensures r.Ok? && r.value != VNone ==> r.value == value[key] && HasType(r.value, allowed)
  {
    if key !in value || value[key].VNone? then
      if noneAllowed then Ok(VNone) else Err("Value not found for key: " + key)
    else if !HasType(value[key], allowed) then Err("Value should be one of the allowed types for key: " + key)
    else Ok(value[key])
  }

  /** `get_list`: the value, with a non-list wrapped in a one-element list. */
  function ListLookup(value: map<string, Value>, key: string, noneAllowed: bool): (r: Result<Option<seq<Value>>, string>)
    ensures r.Err? <==> (key !in value || value[key].VNone?) && !noneAllowed
    ensures r.Ok? && r.value.Some? ==> key in value && r.value.value == AsList(value[key])
    ensures r.Ok? ==> (r.value.None? <==> key !in value || value[key].VNone?)
  {
    var v :- Lookup(value, key, None, noneAllowed);
    if v.VNone? then Ok(None) else Ok(Some(AsList(v)))
  }

  /** The configuration objects of one tree, kept in an arena: an object is
      its index, and a parent comes before its children. */
  class ConfigTree {
    var nodes: seq<Node>

    ghost predicate Valid()
      reads this
    {
      |nodes| >= 1 && nodes[0].parent.None? &&
      (forall i :: 0 < i < |nodes| ==> nodes[i].parent.Some? && nodes[i].parent.value < i) &&
      (forall i, k :: 0 <= i < |nodes| && k in nodes[i].children ==> nodes[i].children[k] < |nodes|)
    }

    /** `DictConfig(scope, value)` as the root of a tree. */
    constructor(scope: string, value: map<string, Value>)
      ensures Valid()
      ensures nodes == [Node(scope, None, DictKind(value, {}), map[])]
    {
      nodes := [Node(scope, None, DictKind(value, {}), map[])];
    }

    predicate IsDict(n: nat)
      reads this
    {
      n < |nodes| && nodes[n].kind.DictKind?
    }

    /** `get_value`: records the key as accessed whatever the outcome. */
    method GetValue(n: nat, key: string, allowed: Option<set<PyType>>, noneAllowed: bool) returns (r: Result<Value, string>)
      requires Valid() && IsDict(n)
      modifies this
      ensures Valid()
      ensures r == Lookup(old(nodes[n].kind.value), key, allowed, noneAllowed)
      ensures nodes == old(nodes[n := nodes[n].(kind := DictKind(nodes[n].kind.value, nodes[n].kind.accessed + {key}))])
    {
      var node := nodes[n];
      nodes := nodes[n := node.(kind := DictKind(node.kind.value, node.kind.accessed + {key}))];
      var value := node.kind.value;
      if key !in value || value[key].VNone? {
        if noneAllowed {
          r := Ok(VNone);
        } else {
          r := Err("Value not found for key: " + key);
        }
      } else if !HasType(value[key], allowed) {
        r := Err("Value should be one of the allowed types for key: " + key);
      } else {
        r := Ok(value[key]);
      }
    }

    /** `get_list` */
    method GetList(n: nat, key: string, noneAllowed: bool) returns (r: Result<Option<seq<Value>>, string>)
      requires Valid() && IsDict(n)
      modifies this
      ensures Valid()
      ensures r == ListLookup(old(nodes[n].kind.value), key, noneAllowed)
      ensures nodes == old(nodes[n := nodes[n].(kind := DictKind(nodes[n].kind.value, nodes[n].kind.accessed + {key}))])
    {
      var v := GetValue(n, key, None, noneAllowed);
      if v.Err? {
        return Err(v.error);
      }
      if v.value.VNone? {
        r := Ok(None);
      } else if v.value.VList? {
        r := Ok(Some(v.value.items));
      } else {
        r := Ok(Some([v.value]));
      }
    }

    /** Appends a new child of `n` registered under `key`. */
    method AddChild(n: nat, key: string, kind: Kind) returns (child: nat)
      requires Valid() && n < |nodes| && key !in nodes[n].children
      modifies this
      ensures Valid()
      ensures child == |old(nodes)|
      ensures nodes == old(nodes[n := nodes[n].(children := nodes[n].children[key := |nodes|])]) +
        [Node(key, Some(n), kind, map[])]
    {
      child := |nodes|;
      var node := nodes[n];
      nodes := nodes[n := node.(children := node.children[key := child])] + [Node(key, Some(n), kind, map[])];
    }

    /** `get_dict_config`: the child created by an earlier call, or a new one
        for a dictionary value; no child for an allowed missing value. */
    method GetDictConfig(n: nat, key: string, noneAllowed: bool) returns (r: Result<Option<nat>, string>)
      requires Valid() && IsDict(n)
      modifies this
      ensures Valid()
      ensures key in old(nodes[n].children) ==> r == Ok(Some(old(nodes[n].children[key]))) && nodes == old(nodes)
      ensures key !in old(nodes[n].children) ==>
        var looked := Lookup(old(nodes[n].kind.value), key, Some({TDict}), noneAllowed);
        var marked := old(nodes[n := nodes[n].(kind := DictKind(nodes[n].kind.value, nodes[n].kind.accessed + {key}))]);
        (looked.Err? ==> r == Err(looked.error) && nodes == marked) &&
        (looked == Ok(VNone) ==> r == Ok(None) && nodes == marked) &&
        (looked.Ok? && looked.value.VDict? ==>
          r == Ok(Some(|marked|)) &&
          nodes == marked[n := marked[n].(children := marked[n].children[key := |marked|])] +
            [Node(key, Some(n), DictKind(looked.value.entries, {}), map[])])
    {
      if key in nodes[n].children {
        return Ok(Some(nodes[n].children[key]));
      }
      var v := GetValue(n, key, Some({TDict}), noneAllowed);
      if v.Err? {
        return Err(v.error);
      }
      if v.value.VNone? {
        return Ok(None);
      }
      assert IsInstance(v.value, TDict);
      var child := AddChild(n, key, DictKind(v.value.entries, {}));
      r := Ok(Some(child));
    }

    /** `get_list_config`: as `get_dict_config`, for a list, a non-list
        value being wrapped in a one-element list. */
    method GetListConfig(n: nat, key: string, noneAllowed: bool) returns (r: Result<Option<nat>, string>)
      requires Valid() && IsDict(n)
      modifies this
      ensures Valid()
      ensures key in old(nodes[n].children) ==> r == Ok(Some(old(nodes[n].children[key]))) && nodes == old(nodes)
      ensures key !in old(nodes[n].children) ==>
        var looked := ListLookup(old(nodes[n].kind.value), key, noneAllowed);
        var marked := old(nodes[n := nodes[n].(kind := DictKind(nodes[n].kind.value, nodes[n].kind.accessed + {key}))]);
        (looked.Err? ==> r == Err(looked.error) && nodes == marked) &&
        (looked == Ok(None) ==> r == Ok(None) && nodes == marked) &&
        (looked.Ok? && looked.value.Some? ==>
          r == Ok(Some(|marked|)) &&
          nodes == marked[n := marked[n].(children := marked[n].children[key := |marked|])] +
            [Node(key, Some(n), ListKind(looked.value.value), map[])])
    {
      if key in nodes[n].children {
        return Ok(Some(nodes[n].children[key]));
      }
      var v := GetList(n, key, noneAllowed);
      if v.Err? {
        return Err(v.error);
      }
      if v.value.None? {
        return Ok(None);
      }
      var child := AddChild(n, key, ListKind(v.value.value));
      r := Ok(Some(child));
    }

    /** The scopes from the root down to `n`. */
    function Scopes(n: nat): (r: seq<string>)
      reads this
      requires Valid() && n < |nodes|
      ensures |r| >= 1 && r[|r| - 1] == nodes[n].scope
      decreases n
    {
      match nodes[n].parent
      case None => [nodes[n].scope]
      case Some(p) => Scopes(p) + [nodes[n].scope]
    }

    /** `get_full_scope`: the scopes from root to `n`, joined with dots. */
    function FullScope(n: nat): string
      reads this
      requires Valid() && n < |nodes|
    {
      Join(Scopes(n), ".")
    }

    /** A full scope splits back at its dots into the scopes from the root
        to `n`, when none of them holds a dot. */
    lemma FullScopeSplits(n: nat)
      requires Valid() && n < |nodes|
      requires forall k :: 0 <= k < |Scopes(n)| ==> '.' !in Scopes(n)[k]
      ensures Split(FullScope(n), ".") == Scopes(n)
    {
      SplitJoinChar(Scopes(n), '.');
    }

    /** The keys of a dictionary object never read. */
    function UnusedKeys(n: nat): set<string>
      reads this
      requires n < |nodes|
    {
      match nodes[n].kind
      case DictKind(value, accessed) => value.Keys - accessed
      case ListKind(_) => {}
    }

    /** `iter_unused_keys` */
    method IterUnusedKeys(n: nat) returns (keys: seq<string>)
      requires IsDict(n)
      ensures forall k :: k in keys <==> k in nodes[n].kind.value && k !in nodes[n].kind.accessed
      ensures forall i, j :: 0 <= i < j < |keys| ==> keys[i] != keys[j]
    {
      keys := [];
      var todo := nodes[n].kind.value.Keys;
      while todo != {}
        invariant todo <= nodes[n].kind.value.Keys
        invariant forall k :: k in keys <==> k in nodes[n].kind.value.Keys - todo && k !in nodes[n].kind.accessed
        invariant forall i, j :: 0 <= i < j < |keys| ==> keys[i] != keys[j]
        decreases todo
      {
        var key :| key in todo;
        if key !in nodes[n].kind.accessed {
          keys := keys + [key];
        }
        todo := todo - {key};
      }
    }

    /** `report_unused_values` on the root: an error exactly when some object
        of the tree outside `optional` has a key never read. */
    method ReportUnusedValues(optional: set<nat>) returns (r: Result<(), string>)
      ensures r.Err? <==> exists i :: 0 <= i < |nodes| && i !in optional && UnusedKeys(i) != {}
    {
      var hasError := false;
      var i := 0;
      while i < |nodes|
        invariant 0 <= i <= |nodes|
        invariant hasError <==> exists j :: 0 <= j < i && j !in optional && UnusedKeys(j) != {}
      {
        if UnusedKeys(i) != {} && i !in optional {
          hasError := true;
        }
        i := i + 1;
      }
      if hasError {
        r := Err("Detected unused keys that are not ignorable.");
      } else {
        r := Ok(());
      }
    }
  }

  /** `OptionsBuilder`: options filled from a dictionary configuration
      object, or from defaults when it lacks a key. */
  class OptionsBuilder {
    const tree: ConfigTree?
    const node: nat
    var options: map<string, Value>

    constructor(tree: ConfigTree?, node: nat)
      ensures this.tree == tree && this.node == node && options == map[]
    {
      this.tree := tree;
      this.node := node;
      options := map[];
    }

    /** `set_value`: the default when there is no configuration or it lacks
        the key; otherwise the type-checked configured value, a `None` there
        being an error. */
    method SetValue(key: string, allowed: Option<set<PyType>>, default: Value) returns (r: Result<(), string>)
      requires tree != null ==> tree.Valid() && tree.IsDict(node)
      modifies this, tree
      ensures tree != null ==> tree.Valid()
      ensures tree == null || key !in old(tree.nodes[node].kind.value) ==>
        r == Ok(()) && options == old(options)[key := default] && (tree != null ==> tree.nodes == old(tree.nodes))
      ensures tree != null && key in old(tree.nodes[node].kind.value) ==>
        var looked := Lookup(old(tree.nodes[node].kind.value), key, allowed, false);
        (looked.Ok? ==> r == Ok(()) && options == old(options)[key := looked.value]) &&
        (looked.Err? ==> r == Err(looked.error) && options == old(options)) &&
        tree.nodes == old(tree.nodes[node := tree.nodes[node].(kind := DictKind(tree.nodes[node].kind.value, tree.nodes[node].kind.accessed + {key}))])
    {
      var value := default;
      if tree != null && key in tree.nodes[node].kind.value {
        var looked := tree.GetValue(node, key, allowed, false);
        if looked.Err? {
          return Err(looked.error);
        }
        value := looked.value;
      }
      options := options[key := value];
      r := Ok(());
    }

    /** `require_value`: an error without a configuration; otherwise the
        configured value, which must be present and of an allowed type. */
    method RequireValue(key: string, allowed: Option<set<PyType>>) returns (r: Result<Value, string>)
      requires tree != null ==> tree.Valid() && tree.IsDict(node)
      modifies this, tree
      ensures tree != null ==> tree.Valid()
      ensures tree == null ==> r.Err? && options == old(options)
      ensures tree != null ==>
        r == Lookup(old(tree.nodes[node].kind.value), key, allowed, false) &&
        options == (if r.Ok? then old(options)[key := r.value] else old(options)) &&
        tree.nodes == old(tree.nodes[node := tree.nodes[node].(kind := DictKind(tree.nodes[node].kind.value, tree.nodes[node].kind.accessed + {key}))])
    {
      if tree == null {
        return Err("No config found.");
      }
      r := tree.GetValue(node, key, allowed, false);
      if r.Ok? {
        options := options[key := r.value];
      }
    }
  }

  /** The value `set_value` stores for `key`, stated on the dictionary the
      builder reads. */
  function OptionValue(config: map<string, Value>, key: string, allowed: Option<set<PyType>>, default: Value): (r: Result<Value, string>)
    ensures key !in config ==> r == Ok(default)
    ensures key in config ==> r == Lookup(config, key, allowed, false)
  {
    if key in config then Lookup(config, key, allowed, false) else Ok(default)
  }

  // ---------------------------------------------------------------------
  // Relative-path rewriting of a loaded YAML tree (`load_from_yaml`)

  /** Whether the YAML loader gives a scalar as a byte string (`str`):
      exactly when every character is ASCII. A scalar with any other
      character loads as `unicode`. */
  predicate IsByteString(s: string) {
    forall i :: 0 <= i < |s| ==> s[i] < 128 as char
  }

  /** Whether `process_path_key_value` treats a value as a path: a string
      that loaded as `str`. */
  predicate IsPathString(v: Value) {
    v.VStr? && IsByteString(v.s)
  }

  /** `process_path_key_value` on one value: a byte string is resolved, so
      is every byte string of a list; anything else, a `unicode` string
      included, stays. */
  function RewritePath(v: Value, rel: string -> string): (r: Value)
    ensures IsPathString(v) ==> r == VStr(rel(v.s))
    ensures v.VList? ==> r.VList? && |r.items| == |v.items|
    ensures v.VList? ==>
      forall i :: 0 <= i < |v.items| ==> r.items[i] == (if IsPathString(v.items[i]) then VStr(rel(v.items[i].s)) else v.items[i])
    ensures !IsPathString(v) && !v.VList? ==> r == v
  {
    match v
    case VStr(s) => if IsByteString(s) then VStr(rel(s)) else v
    case VList(items) => VList(seq(|items|, i requires 0 <= i < |items| => if IsPathString(items[i]) then VStr(rel(items[i].s)) else items[i]))
    case _ => v
  }

  /** `process_path_key`: walks the key path from `level`, `*` standing for
      every key at its level. At the last level the values found are
      rewritten; a missing last key gets the default, resolved. At an inner
      level the walk goes into dictionaries only, and a missing key is
      created as an empty dictionary only when there is a default. */
  function ProcessPathKey(d: map<string, Value>, keys: seq<string>, level: nat, default: Option<string>, rel: string -> string): map<string, Value>
    decreases |keys| - level
  {
    var hasDefault := default.Some? && default.value != "";
    if level + 1 == |keys| then
      var key := keys[level];
      if key == "*" then map k | k in d :: RewritePath(d[k], rel)
      else if key in d then d[key := RewritePath(d[key], rel)]
      else if hasDefault then d[key := VStr(rel(default.value))]
      else d
    else if level + 1 < |keys| then
      var key := keys[level];
      if key == "*" then
        map k | k in d :: if d[k].VDict? then VDict(ProcessPathKey(d[k].entries, keys, level + 1, default, rel)) else d[k]
      else if key in d then
        if d[key].VDict? then d[key := VDict(ProcessPathKey(d[key].entries, keys, level + 1, default, rel))] else d
      else if hasDefault then d[key := VDict(ProcessPathKey(map[], keys, level + 1, default, rel))]
      else d
    else d
  }

  /** Only the key named at the current level can change; with a wildcard,
      only dictionaries (inner level) change. Past the end of the path
      nothing changes. */
  lemma ProcessPathKeyFrame(d: map<string, Value>, keys: seq<string>, level: nat, default: Option<string>, rel: string -> string)
    ensures var r := ProcessPathKey(d, keys, level, default, rel);
      (level >= |keys| ==> r == d) &&
      (level < |keys| && keys[level] != "*" ==>
        forall k :: k in d && k != keys[level] ==> k in r && r[k] == d[k]) &&
      (level + 1 < |keys| && keys[level] == "*" ==>
        forall k :: k in d && !d[k].VDict? ==> k in r && r[k] == d[k])
  {
  }

  /** The walk adds at most the named key, and only when there is a
      default; without one the keys stay the same. */
  lemma ProcessPathKeyKeys(d: map<string, Value>, keys: seq<string>, level: nat, default: Option<string>, rel: string -> string)
    ensures var r := ProcessPathKey(d, keys, level, default, rel);
      d.Keys <= r.Keys &&
      (default.None? ==> r.Keys == d.Keys) &&
      (level < |keys| ==> r.Keys <= d.Keys + {keys[level]})
  {
  }

  /** At the current level, a key other than the one the path names there
      (when that is not a wildcard) keeps its value. */
  lemma {:induction false} ProcessPathKeyUntouched(d: map<string, Value>, keys: seq<string>, level: nat, default: Option<string>, rel: string -> string, k: string)
    requires level < |keys| && keys[level] != "*" && k != keys[level] && k in d
    ensures ProcessPathKey(d, keys, level, default, rel)[k] == d[k]
  {
    ProcessPathKeyFrame(d, keys, level, default, rel);
  }

  /** The value reached from `d` by following `path` through nested
      dictionaries, if every step finds its key. */
  function At(d: map<string, Value>, path: seq<string>): Option<Value>
    decreases |path|
  {
    if path == [] || path[0] !in d then None
    else if |path| == 1 then Some(d[path[0]])
    else if d[path[0]].VDict? then At(d[path[0]].entries, path[1..])
    else None
  }

  /** Following `path` from `d` meets only dictionaries, then a missing
      key. */
  predicate Missing(d: map<string, Value>, path: seq<string>)
    decreases |path|
  {
    path != [] &&
    (path[0] !in d || (|path| > 1 && d[path[0]].VDict? && Missing(d[path[0]].entries, path[1..])))
  }

  /** What the walk does at the end of a path without wildcards: the value
      found there is rewritten, and when the path runs into a missing key
      and there is a default, the resolved default is put at the end of the
      path, creating the dictionaries on the way. */
  lemma {:induction false} ProcessPathKeyRewrites(d: map<string, Value>, keys: seq<string>, level: nat, default: Option<string>, rel: string -> string)
    requires level < |keys| && forall i :: level <= i < |keys| ==> keys[i] != "*"
    ensures var r := ProcessPathKey(d, keys, level, default, rel);
      (At(d, keys[level..]).Some? ==> At(r, keys[level..]) == Some(RewritePath(At(d, keys[level..]).value, rel))) &&
      (Missing(d, keys[level..]) && default.Some? && default.value != "" ==> At(r, keys[level..]) == Some(VStr(rel(default.value))))
    decreases |keys| - level
  {
    var r := ProcessPathKey(d, keys, level, default, rel);
    var path := keys[level..];
    var key := keys[level];
    assert path[0] == key;
    if level + 1 < |keys| {
      assert path[1..] == keys[level + 1..];
      if key in d && d[key].VDict? {
        ProcessPathKeyRewrites(d[key].entries, keys, level + 1, default, rel);
      } else if key !in d {
        ProcessPathKeyRewrites(map[], keys, level + 1, default, rel);
        assert Missing(map[], keys[level + 1..]);
      }
    }
  }

  lemma RewriteIdentity(v: Value, rel: string -> string)
    requires forall s :: rel(s) == s
    ensures RewritePath(v, rel) == v
  {
    if v.VList? {
      assert RewritePath(v, rel).items == v.items;
    }
  }

  /** With a resolver that leaves every path as it is and no default, the
      walk changes nothing at any depth. */
  lemma {:induction false} ProcessPathKeyIdentity(d: map<string, Value>, keys: seq<string>, level: nat, rel: string -> string)
    requires forall s :: rel(s) == s
    ensures ProcessPathKey(d, keys, level, None, rel) == d
    decreases |keys| - level
  {
    var r := ProcessPathKey(d, keys, level, None, rel);
    if level + 1 == |keys| {
      forall k | k in d ensures RewritePath(d[k], rel) == d[k] {
        RewriteIdentity(d[k], rel);
      }
      assert r.Keys == d.Keys;
    } else if level + 1 < |keys| {
      forall k | k in d && d[k].VDict? ensures ProcessPathKey(d[k].entries, keys, level + 1, None, rel) == d[k].entries {
        ProcessPathKeyIdentity(d[k].entries, keys, level + 1, rel);
      }
      assert r.Keys == d.Keys;
    }
  }

  /** A path key as the loader lists it: a path, or a path with a default.
      The path is held as the components `split('/')` cuts it into; it
      starts with `/`, so its first component is empty. */
  datatype PathKey = Path(keys: seq<string>) | PathWithDefault(keys: seq<string>, default: string)

  /** The loaded tree with one path key applied; the walk starts at level 1,
      past the empty first component. */
  function ApplyPathKey(yml: map<string, Value>, pk: PathKey, rel: string -> string): map<string, Value> {
    match pk
    case Path(keys) => ProcessPathKey(yml, keys, 1, None, rel)
    case PathWithDefault(keys, dv) => ProcessPathKey(yml, keys, 1, Some(dv), rel)
  }

  function ApplyPathKeys(yml: map<string, Value>, pks: seq<PathKey>, rel: string -> string): map<string, Value>
    decreases |pks|
  {
    if pks == [] then yml else ApplyPathKeys(ApplyPathKey(yml, pks[0], rel), pks[1..], rel)
  }

  /** The loop of `load_from_yaml` over the path keys. */
  method ProcessPathKeys(yml: map<string, Value>, pks: seq<PathKey>, rel: string -> string) returns (r: map<string, Value>)
    ensures r == ApplyPathKeys(yml, pks, rel)
  {
    r := yml;
    var i := 0;
    while i < |pks|
      invariant 0 <= i <= |pks|
      invariant ApplyPathKeys(r, pks[i..], rel) == ApplyPathKeys(yml, pks, rel)
    {
      assert pks[i..][1..] == pks[i + 1..];
      r := ApplyPathKey(r, pks[i], rel);
      i := i + 1;
    }
  }

  /** The path keys of a root configuration file. */
  const RootConfigPathKeys: seq<PathKey> := [
    PathWithDefault(["", "dashboard", "owning"], "dashboard-owning-config.yml"),           // /dashboard/owning
    Path(["", "dashboard", "owning", "enterprise", "priv_key_path"]),                      // /dashboard/owning/enterprise/priv_key_path
    Path(["", "dashboard", "accessors", "*"]),                                             // /dashboard/accessors/*
    Path(["", "dashboard", "accessors", "*", "enterprise", "priv_key_path"]),              // /dashboard/accessors/*/enterprise/priv_key_path
    PathWithDefault(["", "dashboard", "accessor_config_filename_format"],
                    "dashboard-accessor-{organization_name}-config.yml"),                   // /dashboard/accessor_config_filename_format
    Path(["", "directory", "connectors", "ldap"]),                                         // /directory/connectors/ldap
    Path(["", "logging", "file_log_directory"])                                            // /logging/file_log_directory
  ]

  /** The path keys of a sub-configuration file. */
  const SubConfigPathKeys: seq<PathKey> := [Path(["", "enterprise", "priv_key_path"])]    // /enterprise/priv_key_path

  /** A path key leaves the string at `a.b` alone when its path neither
      names `a.b` itself nor passes through it: it names another top-level
      key, or another key under `a`, or goes on past `b` (a string is not a
      dictionary to walk into). */
  predicate PassesBy(keys: seq<string>, a: string, b: string) {
    |keys| >= 2 && keys[1] != "*" &&
    (keys[1] == a ==> |keys| > 2 && keys[2] != "*" && (keys[2] == b ==> |keys| > 3))
  }

  lemma ProcessPathKeyKeepsString(d: map<string, Value>, keys: seq<string>, default: Option<string>, rel: string -> string, a: string, b: string)
    requires PassesBy(keys, a, b) && At(d, [a, b]).Some? && At(d, [a, b]).value.VStr?
    ensures At(ProcessPathKey(d, keys, 1, default, rel), [a, b]) == At(d, [a, b])
  {
    var r := ProcessPathKey(d, keys, 1, default, rel);
    ProcessPathKeyFrame(d, keys, 1, default, rel);
    assert [a, b][1..] == [b];
    if keys[1] == a {
      var inner := d[a].entries;
      ProcessPathKeyFrame(inner, keys, 2, default, rel);
      assert r[a] == VDict(ProcessPathKey(inner, keys, 2, default, rel));
    }
  }

  lemma {:induction false} ApplyPathKeysKeepString(yml: map<string, Value>, pks: seq<PathKey>, rel: string -> string, a: string, b: string)
    requires forall i :: 0 <= i < |pks| ==> PassesBy(pks[i].keys, a, b)
    requires At(yml, [a, b]).Some? && At(yml, [a, b]).value.VStr?
    ensures At(ApplyPathKeys(yml, pks, rel), [a, b]) == At(yml, [a, b])
    decreases |pks|
  {
    if pks != [] {
      var next := ApplyPathKey(yml, pks[0], rel);
      ProcessPathKeyKeepsString(yml, pks[0].keys, if pks[0].Path? then None else Some(pks[0].default), rel, a, b);
      forall i | 0 <= i < |pks[1..]| ensures PassesBy(pks[1..][i].keys, a, b) {
        assert pks[1..][i] == pks[i + 1];
      }
      ApplyPathKeysKeepString(next, pks[1..], rel, a, b);
    }
  }

  /** A root configuration that names no owning dashboard file gets the
      default one, made relative to the configuration's directory, and no
      later path key changes it. */
  lemma RootOwningDefault(yml: map<string, Value>, rel: string -> string)
    requires Missing(yml, ["dashboard", "owning"])
    ensures At(ApplyPathKeys(yml, RootConfigPathKeys, rel), ["dashboard", "owning"]) ==
      Some(VStr(rel("dashboard-owning-config.yml")))
  {
    var keys := RootConfigPathKeys[0].keys;
    assert keys[1..] == ["dashboard", "owning"];
    ProcessPathKeyRewrites(yml, keys, 1, Some("dashboard-owning-config.yml"), rel);
    var next := ApplyPathKey(yml, RootConfigPathKeys[0], rel);
    var rest := RootConfigPathKeys[1..];
    forall i | 0 <= i < |rest| ensures PassesBy(rest[i].keys, "dashboard", "owning") {
      assert rest[i] == RootConfigPathKeys[i + 1];
    }
    ApplyPathKeysKeepString(next, rest, rel, "dashboard", "owning");
  }

  /** In a sub-configuration file, the value at `enterprise.priv_key_path`
      is made relative to the file's directory. */
  lemma SubPrivKeyResolved(yml: map<string, Value>, rel: string -> string)
    requires At(yml, ["enterprise", "priv_key_path"]).Some?
    ensures At(ApplyPathKeys(yml, SubConfigPathKeys, rel), ["enterprise", "priv_key_path"]) ==
      Some(RewritePath(At(yml, ["enterprise", "priv_key_path"]).value, rel))
  {
    var keys := SubConfigPathKeys[0].keys;
    assert keys[1..] == ["enterprise", "priv_key_path"];
    ProcessPathKeyRewrites(yml, keys, 1, None, rel);
    assert ApplyPathKeys(yml, SubConfigPathKeys, rel) == ApplyPathKeys(ApplyPathKey(yml, SubConfigPathKeys[0], rel), [], rel);
  }

  /** A top-level key that no path key names keeps its value. */
  lemma {:induction false} ApplyPathKeysKeepsOtherTopLevel(yml: map<string, Value>, pks: seq<PathKey>, rel: string -> string, k: string)
    requires k in yml
    requires forall i :: 0 <= i < |pks| ==>
      var keys := pks[i].keys; |keys| > 1 && keys[1] != "*" && keys[1] != k
    ensures k in ApplyPathKeys(yml, pks, rel) && ApplyPathKeys(yml, pks, rel)[k] == yml[k]
    decreases |pks|
  {
    if pks != [] {
      var keys := pks[0].keys;
      var next := ApplyPathKey(yml, pks[0], rel);
      ProcessPathKeyFrame(yml, keys, 1, if pks[0].Path? then None else Some(pks[0].default), rel);
      assert k in next && next[k] == yml[k];
      forall i | 0 <= i < |pks[1..]|
        ensures var keys := pks[1..][i].keys; |keys| > 1 && keys[1] != "*" && keys[1] != k
      {
        assert pks[1..][i] == pks[i + 1];
      }
      ApplyPathKeysKeepsOtherTopLevel(next, pks[1..], rel, k);
    }
  }
}
