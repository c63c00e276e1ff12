/** The directory side of `LDAPDirectoryConnector` in
    user_sync/connector/directory_ldap.py: the two-step walk over group
    members, the building of users from directory entries into the
    `user_by_dn` cache, and the loading of users and their groups. */
module LdapConnector {
  import opened Wrappers
  import opened Strings
  import opened Helper
  import opened LdapValues
  import opened LdapFilters

  // ---------------------------------------------------------------------
  // The two-step walk over group members (`iter_group_member_dns`)

  /** The member DNs `get_attribute_value` gives for a group entry; a single
      string is iterated character by character, as Python iterates it. */
  function MemberValues(v: Option<AttrValue>): seq<string> {
    match v
    case None => []
    case Some(Single(s)) => seq(|s|, i requires 0 <= i < |s| => [s[i]])
    case Some(Multi(vals)) => vals
  }

  /** The members listed by the entry at `dn`; none when there is no entry. */
  function Members(lookup: map<string, Record>, dn: string, attr: string): seq<string> {
    if dn in lookup then MemberValues(GetAttributeValue(lookup[dn], attr, false)) else []
  }

  /** Every DN that some entry lists as a member: the walk can record no
      other. */
  function AllMembers(lookup: map<string, Record>, attr: string): set<string> {
    set dn, m | dn in lookup && m in Members(lookup, dn, attr) :: m
  }

  function Elems(s: seq<string>): set<string> {
    set x | x in s
  }

  predicate Distinct(s: seq<string>) {
    forall i, j :: 0 <= i < j < |s| ==> s[i] != s[j]
  }

  /** The members of `ms` not in `seen`, each once, in order of first
      appearance. */
  function NewMembers(ms: seq<string>, seen: seq<string>): seq<string>
    decreases |ms|
  {
    if ms == [] then []
    else
      var p := NewMembers(ms[..|ms| - 1], seen);
      var m := ms[|ms| - 1];
      if m in seen || m in p then p else p + [m]
  }

  /** Every yielded DN is a direct member of the group, or (when nested
      groups are followed) a member of a DN yielded after it: a sub-group's
      members come before the sub-group. */
  predicate MembersFirst(ys: seq<string>, lookup: map<string, Record>, groupDn: string, attr: string, nested: bool) {
    forall i :: 0 <= i < |ys| ==>
      ys[i] in Members(lookup, groupDn, attr) ||
      (nested && exists j :: i < j < |ys| && ys[i] in Members(lookup, ys[j], attr))
  }

  lemma MembersFirstAppend(ys: seq<string>, ns: seq<string>, m: string, lookup: map<string, Record>, groupDn: string, attr: string, nested: bool)
    requires MembersFirst(ys, lookup, groupDn, attr, nested)
    requires MembersFirst(ns, lookup, m, attr, nested)
    requires nested || ns == []
    requires m in Members(lookup, groupDn, attr)
    ensures MembersFirst(ys + ns + [m], lookup, groupDn, attr, nested)
  {
    var zs := ys + ns + [m];
    forall i | 0 <= i < |zs|
      ensures zs[i] in Members(lookup, groupDn, attr) ||
        (nested && exists j :: i < j < |zs| && zs[i] in Members(lookup, zs[j], attr))
    {
      if i < |ys| {
        MembersFirstKeepsPrefix(ys, ns + [m], lookup, groupDn, attr, nested, i);
        assert ys + (ns + [m]) == zs;
      } else if i < |zs| - 1 {
        MembersFirstInSubgroup(ys, ns, m, lookup, attr, nested, i - |ys|);
      }
    }
  }

  /** A DN placed before more DNs keeps the witness it had. */
  lemma MembersFirstKeepsPrefix(ys: seq<string>, more: seq<string>, lookup: map<string, Record>, groupDn: string, attr: string, nested: bool, i: nat)
    requires MembersFirst(ys, lookup, groupDn, attr, nested)
    requires i < |ys|
    ensures (ys + more)[i] in Members(lookup, groupDn, attr) ||
      (nested && exists j :: i < j < |ys + more| && (ys + more)[i] in Members(lookup, (ys + more)[j], attr))
  {
    var zs := ys + more;
    assert zs[i] == ys[i];
    if !(ys[i] in Members(lookup, groupDn, attr)) {
      var j :| i < j < |ys| && ys[i] in Members(lookup, ys[j], attr);
      assert zs[j] == ys[j];
    }
  }

  /** A member yielded for the sub-group `m` is a member of a DN after it:
      of `m` itself, or of the DN that witnessed it before. */
  lemma MembersFirstInSubgroup(ys: seq<string>, ns: seq<string>, m: string, lookup: map<string, Record>, attr: string, nested: bool, p: nat)
    requires MembersFirst(ns, lookup, m, attr, nested)
    requires nested && p < |ns|
    ensures exists j :: |ys| + p < j < |ys + ns + [m]| && (ys + ns + [m])[|ys| + p] in Members(lookup, (ys + ns + [m])[j], attr)
  {
    var zs := ys + ns + [m];
    assert zs[|ys| + p] == ns[p];
    if ns[p] in Members(lookup, m, attr) {
      assert zs[|zs| - 1] == m;
    } else {
      var j :| p < j < |ns| && ns[p] in Members(lookup, ns[j], attr);
      assert zs[|ys| + j] == ns[j];
    }
  }

  lemma CardShrinks(u: set<string>, a: set<string>, b: set<string>, m: string)
    requires a <= b && m in u && m in b && m !in a
    ensures |u - b| < |u - a|
  {
    var x := u - b;
    var y := u - a;
    assert x <= y - {m};
    assert m in y;
    SubsetCard(x, y - {m});
  }

  lemma {:induction false} SubsetCard(x: set<string>, y: set<string>)
    requires x <= y
    ensures |x| <= |y|
    decreases |y|
  {
    if x != {} {
      var e :| e in x;
      SubsetCard(x - {e}, y - {e});
    }
  }

  /** The bookkeeping of one recorded member: `m` is recorded, the DNs `ns`
      its walk yields are recorded after it, and `m` is yielded last. */
  lemma WalkStep(searched: seq<string>, before: seq<string>, after: seq<string>, yielded: seq<string>, ns: seq<string>, m: string)
    requires |searched| <= |before| && before[..|searched|] == searched
    requires Distinct(before) && Distinct(yielded) && m !in before
    requires Elems(yielded) == Elems(before) - Elems(searched)
    requires |before| + 1 <= |after| && after[..|before| + 1] == before + [m]
    requires Distinct(after) && Distinct(ns)
    requires Elems(ns) == Elems(after) - Elems(before + [m])
    ensures after[..|searched|] == searched
    ensures Distinct(yielded + ns + [m])
    ensures Elems(yielded + ns + [m]) == Elems(after) - Elems(searched)
  {
    assert after[..|searched|] == after[..|before| + 1][..|searched|];
    assert (before + [m])[..|searched|] == searched;
    assert Elems(before + [m]) == Elems(before) + {m};
    assert m in after by { assert after[|before|] == m; }
    assert Elems(before) <= Elems(after) by {
      forall x | x in before ensures x in after {
        var j :| 0 <= j < |before| && before[j] == x;
        assert after[j] == x;
      }
    }
    assert m !in searched by { assert Elems(searched) <= Elems(before); }
    var zs := yielded + ns + [m];
    assert Elems(zs) == Elems(yielded) + Elems(ns) + {m};
    forall i, j | 0 <= i < j < |zs| ensures zs[i] != zs[j] {
      if j < |yielded| {
      } else if j < |yielded| + |ns| {
        if i >= |yielded| {
          assert zs[i] == ns[i - |yielded|] && zs[j] == ns[j - |yielded|];
        } else {
          assert zs[i] in Elems(yielded) && zs[j] in Elems(ns);
        }
      } else {
        assert zs[j] == m;
        if i < |yielded| {
          assert zs[i] in Elems(yielded);
        } else {
          assert zs[i] in Elems(ns);
        }
      }
    }
  }

  lemma MemberInAll(lookup: map<string, Record>, dn: string, attr: string, i: nat)
    requires i < |Members(lookup, dn, attr)|
    ensures Members(lookup, dn, attr)[i] in AllMembers(lookup, attr)
  {
    var m := Members(lookup, dn, attr)[i];
    assert dn in lookup && m in Members(lookup, dn, attr);
  }

  /** What holds of the walk of `groupDn` at every step: `after` extends
      `searched` without repeats, the DNs yielded so far are exactly those
      recorded since, each once, all listed as members somewhere, and in
      members-first order. */
  predicate WalkState(lookup: map<string, Record>, groupDn: string, attr: string, nested: bool,
                      searched: seq<string>, after: seq<string>, yielded: seq<string>) {
    |searched| <= |after| && after[..|searched|] == searched &&
    Distinct(after) && Distinct(yielded) &&
    Elems(yielded) == Elems(after) - Elems(searched) &&
    Elems(yielded) <= AllMembers(lookup, attr) &&
    MembersFirst(yielded, lookup, groupDn, attr, nested)
  }

  lemma PrefixElems(searched: seq<string>, after: seq<string>)
    requires |searched| <= |after| && after[..|searched|] == searched
    ensures Elems(searched) <= Elems(after)
  {
    forall x | x in searched ensures x in after {
      var j :| 0 <= j < |searched| && searched[j] == x;
      assert after[j] == x;
    }
  }

  lemma NewMembersSnoc(ms: seq<string>, m: string, seen: seq<string>)
    ensures NewMembers(ms + [m], seen) ==
      if m in seen || m in NewMembers(ms, seen) then NewMembers(ms, seen) else NewMembers(ms, seen) + [m]
  {
    assert (ms + [m])[..|ms|] == ms;
  }

  /** Without nested groups the walk of `groupDn`, after its first `i`
      members, has yielded the new ones among them and recorded exactly
      those. */
  predicate DirectState(lookup: map<string, Record>, groupDn: string, attr: string, i: nat,
                        searched: seq<string>, after: seq<string>, yielded: seq<string>)
    requires i <= |Members(lookup, groupDn, attr)|
  {
    yielded == NewMembers(Members(lookup, groupDn, attr)[..i], searched) && after == searched + yielded
  }

  /** Every DN of `ms` has been recorded in `after`. */
  predicate Covered(ms: seq<string>, after: seq<string>) {
    forall k :: 0 <= k < |ms| ==> ms[k] in after
  }

  /** Every DN recorded after the first `|searched|` has had all its own
      members recorded too: a nested walk stops only at a closed set. */
  predicate Closed(lookup: map<string, Record>, attr: string, searched: seq<string>, after: seq<string>) {
    forall k :: |searched| <= k < |after| ==> Covered(Members(lookup, after[k], attr), after)
  }

  /** The completeness of the walk of `groupDn` after its first `i`
      members: those members are recorded, and, when nested groups are
      followed, so are the members of every DN recorded on the way. */
  predicate WalkDone(lookup: map<string, Record>, groupDn: string, attr: string, nested: bool, i: nat,
                     searched: seq<string>, after: seq<string>)
    requires i <= |Members(lookup, groupDn, attr)|
  {
    Covered(Members(lookup, groupDn, attr)[..i], after) &&
    (nested ==> Closed(lookup, attr, searched, after))
  }

  /** The walk `iter_group_member_dns` makes of `groupDn` from the
      `searched` list, as a function: the DNs it yields, in order, and the
      `searched` list it leaves. */
  function Walk(lookup: map<string, Record>, groupDn: string, attr: string, nested: bool, searched: seq<string>)
    : (res: (seq<string>, seq<string>))
    requires Distinct(searched)
    ensures Distinct(res.1) && |searched| <= |res.1| && res.1[..|searched|] == searched
    decreases |AllMembers(lookup, attr) - Elems(searched)|, 2
  {
    if groupDn !in lookup then
      assert searched[..|searched|] == searched;
      ([], searched)
    else WalkFrom(lookup, groupDn, attr, nested, 0, searched, [])
  }

  /** The walk of `groupDn` from its `i`-th member on, with `before`
      recorded and `yielded` yielded so far: a member already recorded is
      skipped; any other is recorded, walked itself when `nested`, and
      yielded after what that walk yields. */
  function WalkFrom(lookup: map<string, Record>, groupDn: string, attr: string, nested: bool, i: nat,
                    before: seq<string>, yielded: seq<string>)
    : (res: (seq<string>, seq<string>))
    requires groupDn in lookup && i <= |Members(lookup, groupDn, attr)| && Distinct(before)
    ensures Distinct(res.1) && |before| <= |res.1| && res.1[..|before|] == before
    decreases |AllMembers(lookup, attr) - Elems(before)|, 1, |Members(lookup, groupDn, attr)| - i
  {
    if i == |Members(lookup, groupDn, attr)| then
      assert before[..|before|] == before;
      (yielded, before)
    else
      var m := Members(lookup, groupDn, attr)[i];
      if m in before then WalkFrom(lookup, groupDn, attr, nested, i + 1, before, yielded)
      else
        MemberInAll(lookup, groupDn, attr, i);
        RecordStart(lookup, attr, nested, before, m);
        var start := before + [m];
        if !nested then
          var res := WalkFrom(lookup, groupDn, attr, nested, i + 1, start, yielded + [m]);
          PrefixTrans(before, start, res.1);
          res
        else
          var sub := Walk(lookup, m, attr, nested, start);
          PrefixElems(start, sub.1);
          SubsetCard(AllMembers(lookup, attr) - Elems(sub.1), AllMembers(lookup, attr) - Elems(start));
          var res := WalkFrom(lookup, groupDn, attr, nested, i + 1, sub.1, yielded + sub.0 + [m]);
          PrefixTrans(start, sub.1, res.1);
          PrefixTrans(before, start, res.1);
          res
  }

  lemma PrefixTrans(a: seq<string>, b: seq<string>, c: seq<string>)
    requires |a| <= |b| && b[..|a|] == a
    requires |b| <= |c| && c[..|b|] == b
    ensures c[..|a|] == a
  {
    assert c[..|a|] == c[..|b|][..|a|];
  }

  /** `iter_group_member_dns`: the members of `groupDn` not yet searched,
      each recorded in `searched` before its own members are walked (when
      `nested`) and yielded after them. An entry that cannot be read yields
      nothing. Returns the yielded DNs and the new `searched` list. */
  method IterGroupMemberDns(lookup: map<string, Record>, groupDn: string, attr: string, nested: bool, searched: seq<string>)
    returns (yielded: seq<string>, after: seq<string>)
    requires Distinct(searched)
    ensures WalkState(lookup, groupDn, attr, nested, searched, after, yielded)
    ensures groupDn !in lookup ==> yielded == [] && after == searched
    ensures !nested ==> yielded == NewMembers(Members(lookup, groupDn, attr), searched) && after == searched + yielded
    ensures Covered(Members(lookup, groupDn, attr), after)
    ensures nested ==> Closed(lookup, attr, searched, after)
    ensures (yielded, after) == Walk(lookup, groupDn, attr, nested, searched)
    decreases |AllMembers(lookup, attr) - Elems(searched)|, 2
  {
    yielded := [];
    after := searched;
    assert after[..|searched|] == searched;
    if groupDn !in lookup {
      return;
    }
    var members := Members(lookup, groupDn, attr);
    var i := 0;
    while i < |members|
      invariant 0 <= i <= |members|
      invariant WalkState(lookup, groupDn, attr, nested, searched, after, yielded)
      invariant !nested ==> DirectState(lookup, groupDn, attr, i, searched, after, yielded)
      invariant WalkDone(lookup, groupDn, attr, nested, i, searched, after)
      invariant WalkFrom(lookup, groupDn, attr, nested, i, after, yielded) == WalkFrom(lookup, groupDn, attr, nested, 0, searched, [])
    {
      PrefixElems(searched, after);
      SubsetCard(AllMembers(lookup, attr) - Elems(after), AllMembers(lookup, attr) - Elems(searched));
      yielded, after := VisitMember(lookup, groupDn, attr, nested, searched, after, yielded, i);
      i := i + 1;
    }
    assert members[..i] == members;
  }

  /** The loop body of `iter_group_member_dns` for the `i`-th member `m` of
      `groupDn`: nothing when `m` was already searched; otherwise `m` is
      recorded, walked when `nested`, and yielded after what that walk
      yields. */
  method VisitMember(lookup: map<string, Record>, groupDn: string, attr: string, nested: bool,
                     searched: seq<string>, before: seq<string>, yielded: seq<string>, i: nat)
    returns (next: seq<string>, after: seq<string>)
    requires groupDn in lookup && i < |Members(lookup, groupDn, attr)|
    requires WalkState(lookup, groupDn, attr, nested, searched, before, yielded)
    requires !nested ==> DirectState(lookup, groupDn, attr, i, searched, before, yielded)
    requires WalkDone(lookup, groupDn, attr, nested, i, searched, before)
    ensures WalkState(lookup, groupDn, attr, nested, searched, after, next)
    ensures !nested ==> DirectState(lookup, groupDn, attr, i + 1, searched, after, next)
    ensures WalkDone(lookup, groupDn, attr, nested, i + 1, searched, after)
    ensures WalkFrom(lookup, groupDn, attr, nested, i + 1, after, next) == WalkFrom(lookup, groupDn, attr, nested, i, before, yielded)
    decreases |AllMembers(lookup, attr) - Elems(before)|, 1
  {
    var m := Members(lookup, groupDn, attr)[i];
    if m in before {
      if !nested {
        DirectStep(lookup, groupDn, attr, i, searched, before, yielded, before, yielded);
      }
      SkipDone(lookup, groupDn, attr, nested, i, searched, before);
      return yielded, before;
    }
    next, after := VisitNewMember(lookup, groupDn, attr, nested, searched, before, yielded, i);
  }

  /** `VisitMember` for a member not recorded yet. */
  method VisitNewMember(lookup: map<string, Record>, groupDn: string, attr: string, nested: bool,
                        searched: seq<string>, before: seq<string>, yielded: seq<string>, i: nat)
    returns (next: seq<string>, after: seq<string>)
    requires groupDn in lookup && i < |Members(lookup, groupDn, attr)|
    requires Members(lookup, groupDn, attr)[i] !in before
    requires WalkState(lookup, groupDn, attr, nested, searched, before, yielded)
    requires !nested ==> DirectState(lookup, groupDn, attr, i, searched, before, yielded)
    requires WalkDone(lookup, groupDn, attr, nested, i, searched, before)
    ensures WalkState(lookup, groupDn, attr, nested, searched, after, next)
    ensures !nested ==> DirectState(lookup, groupDn, attr, i + 1, searched, after, next)
    ensures WalkDone(lookup, groupDn, attr, nested, i + 1, searched, after)
    ensures WalkFrom(lookup, groupDn, attr, nested, i + 1, after, next) == WalkFrom(lookup, groupDn, attr, nested, i, before, yielded)
    decreases |AllMembers(lookup, attr) - Elems(before)|, 0
  {
    var m := Members(lookup, groupDn, attr)[i];
    MemberInAll(lookup, groupDn, attr, i);
    var start := before + [m];
    RecordStart(lookup, attr, nested, before, m);
    if !nested {
      after := start;
      next := yielded + [m];
      DirectVisit(lookup, groupDn, attr, searched, before, yielded, i);
      RecordDone(lookup, groupDn, attr, nested, i, searched, before, after);
    } else {
      var nestedYielded;
      nestedYielded, after := IterGroupMemberDns(lookup, m, attr, nested, start);
      RecordMember(lookup, groupDn, attr, nested, searched, before, yielded, m, after, nestedYielded);
      RecordDone(lookup, groupDn, attr, nested, i, searched, before, after);
      next := yielded + nestedYielded + [m];
    }
  }

  /** A member recorded already keeps the walk complete up to it. */
  lemma SkipDone(lookup: map<string, Record>, groupDn: string, attr: string, nested: bool, i: nat,
                 searched: seq<string>, before: seq<string>)
    requires i < |Members(lookup, groupDn, attr)| && Members(lookup, groupDn, attr)[i] in before
    requires WalkDone(lookup, groupDn, attr, nested, i, searched, before)
    ensures WalkDone(lookup, groupDn, attr, nested, i + 1, searched, before)
  {
    var ms := Members(lookup, groupDn, attr);
    assert ms[..i + 1] == ms[..i] + [ms[i]];
  }

  /** Recording the `i`-th member `m`, and (when nested) walking it to a
      closed set, keeps the walk of `groupDn` complete up to `m`. */
  lemma RecordDone(lookup: map<string, Record>, groupDn: string, attr: string, nested: bool, i: nat,
                   searched: seq<string>, before: seq<string>, after: seq<string>)
    requires i < |Members(lookup, groupDn, attr)|
    requires |searched| <= |before|
    requires WalkDone(lookup, groupDn, attr, nested, i, searched, before)
    requires |before| + 1 <= |after| && after[..|before| + 1] == before + [Members(lookup, groupDn, attr)[i]]
    requires nested ==> Covered(Members(lookup, Members(lookup, groupDn, attr)[i], attr), after)
    requires nested ==> Closed(lookup, attr, before + [Members(lookup, groupDn, attr)[i]], after)
    ensures WalkDone(lookup, groupDn, attr, nested, i + 1, searched, after)
  {
    var ms := Members(lookup, groupDn, attr);
    var m := ms[i];
    assert after[|before|] == m;
    CoveredGrows(ms[..i], before, after);
    assert ms[..i + 1] == ms[..i] + [m];
    if nested {
      forall k | |searched| <= k < |after|
        ensures Covered(Members(lookup, after[k], attr), after)
      {
        if k < |before| {
          assert after[k] == before[k];
          CoveredGrows(Members(lookup, before[k], attr), before, after);
        } else if k == |before| {
        } else {
          assert |before + [m]| <= k;
        }
      }
    }
  }

  /** What is recorded stays recorded. */
  lemma CoveredGrows(ms: seq<string>, before: seq<string>, after: seq<string>)
    requires Covered(ms, before)
    requires |before| <= |after| && after[..|before|] == before
    ensures Covered(ms, after)
  {
    forall k | 0 <= k < |ms| ensures ms[k] in after {
      var j :| 0 <= j < |before| && before[j] == ms[k];
      assert after[j] == ms[k];
    }
  }

  /** Without nested groups, a member not recorded yet is recorded and
      yielded at once. */
  lemma DirectVisit(lookup: map<string, Record>, groupDn: string, attr: string,
                    searched: seq<string>, before: seq<string>, yielded: seq<string>, i: nat)
    requires groupDn in lookup && i < |Members(lookup, groupDn, attr)|
    requires Members(lookup, groupDn, attr)[i] !in before
    requires Members(lookup, groupDn, attr)[i] in AllMembers(lookup, attr)
    requires WalkState(lookup, groupDn, attr, false, searched, before, yielded)
    requires DirectState(lookup, groupDn, attr, i, searched, before, yielded)
    requires WalkState(lookup, Members(lookup, groupDn, attr)[i], attr, false, before + [Members(lookup, groupDn, attr)[i]],
                       before + [Members(lookup, groupDn, attr)[i]], [])
    ensures var m := Members(lookup, groupDn, attr)[i];
      WalkState(lookup, groupDn, attr, false, searched, before + [m], yielded + [m]) &&
      DirectState(lookup, groupDn, attr, i + 1, searched, before + [m], yielded + [m])
  {
    var m := Members(lookup, groupDn, attr)[i];
    RecordMember(lookup, groupDn, attr, false, searched, before, yielded, m, before + [m], []);
    assert yielded + [] + [m] == yielded + [m];
    DirectStep(lookup, groupDn, attr, i, searched, before, yielded, before + [m], yielded + [m]);
  }

  /** Recording `m` keeps the recorded DNs distinct, moves the walk closer
      to its end, and starts the walk of `m` in its initial state. */
  lemma RecordStart(lookup: map<string, Record>, attr: string, nested: bool, before: seq<string>, m: string)
    requires Distinct(before) && m !in before && m in AllMembers(lookup, attr)
    ensures Distinct(before + [m])
    ensures |AllMembers(lookup, attr) - Elems(before + [m])| < |AllMembers(lookup, attr) - Elems(before)|
    ensures WalkState(lookup, m, attr, nested, before + [m], before + [m], [])
  {
    var start := before + [m];
    DistinctSnoc(before, m);
    assert Elems(start) == Elems(before) + {m};
    CardShrinks(AllMembers(lookup, attr), Elems(before), Elems(start), m);
    WalkBegins(lookup, m, attr, nested, start);
  }

  /** A walk that has recorded nothing new and yielded nothing. */
  lemma WalkBegins(lookup: map<string, Record>, groupDn: string, attr: string, nested: bool, start: seq<string>)
    requires Distinct(start)
    ensures WalkState(lookup, groupDn, attr, nested, start, start, [])
  {
    assert start[..|start|] == start;
    assert Elems([]) == Elems(start) - Elems(start);
  }

  lemma DistinctSnoc(before: seq<string>, m: string)
    requires Distinct(before) && m !in before
    ensures Distinct(before + [m])
  {
    var start := before + [m];
    forall i, j | 0 <= i < j < |start| ensures start[i] != start[j] {
      if j == |before| {
        assert start[i] == before[i];
      }
    }
  }

  /** After the walk of `m` yielded `ns`, yielding `m` itself keeps the
      walk of `groupDn` in its invariant state. */
  lemma RecordMember(lookup: map<string, Record>, groupDn: string, attr: string, nested: bool,
                     searched: seq<string>, before: seq<string>, yielded: seq<string>, m: string,
                     after: seq<string>, ns: seq<string>)
    requires WalkState(lookup, groupDn, attr, nested, searched, before, yielded)
    requires m in Members(lookup, groupDn, attr) && m in AllMembers(lookup, attr) && m !in before
    requires WalkState(lookup, m, attr, nested, before + [m], after, ns)
    requires nested || ns == []
    ensures WalkState(lookup, groupDn, attr, nested, searched, after, yielded + ns + [m])
  {
    WalkStep(searched, before, after, yielded, ns, m);
    MembersFirstAppend(yielded, ns, m, lookup, groupDn, attr, nested);
  }

  /** Without nested groups, one step of the walk records and yields the
      `i`-th member unless it was recorded already. */
  lemma DirectStep(lookup: map<string, Record>, groupDn: string, attr: string, i: nat,
                   searched: seq<string>, before: seq<string>, yielded: seq<string>, after: seq<string>, next: seq<string>)
    requires i < |Members(lookup, groupDn, attr)|
    requires DirectState(lookup, groupDn, attr, i, searched, before, yielded)
    requires var m := Members(lookup, groupDn, attr)[i];
      if m in before then next == yielded && after == before else next == yielded + [m] && after == before + [m]
    ensures DirectState(lookup, groupDn, attr, i + 1, searched, after, next)
  {
    var members := Members(lookup, groupDn, attr);
    assert members[..i + 1] == members[..i] + [members[i]];
    NewMembersSnoc(members[..i], members[i], searched);
  }

  /** What a walk of `groupDn` that started from nothing searched has
      yielded: each DN once, only DNs listed as members, in members-first
      order; every member of the group, and (when nested groups are
      followed) every member of every yielded DN; without nested groups,
      exactly the group's distinct members in order. */
  predicate WalkedAll(lookup: map<string, Record>, groupDn: string, attr: string, nested: bool, walked: seq<string>) {
    Distinct(walked) && Elems(walked) <= AllMembers(lookup, attr) &&
    MembersFirst(walked, lookup, groupDn, attr, nested) &&
    Covered(Members(lookup, groupDn, attr), walked) &&
    (nested ==> forall k :: 0 <= k < |walked| ==> Covered(Members(lookup, walked[k], attr), walked)) &&
    (!nested ==> walked == NewMembers(Members(lookup, groupDn, attr), []))
  }

  /** The contract of `IterGroupMemberDns` called with nothing searched,
      stated on what it yields alone. */
  lemma WalkFromNothing(lookup: map<string, Record>, groupDn: string, attr: string, nested: bool,
                        after: seq<string>, walked: seq<string>)
    requires WalkState(lookup, groupDn, attr, nested, [], after, walked)
    requires !nested ==> walked == NewMembers(Members(lookup, groupDn, attr), []) && after == [] + walked
    requires Covered(Members(lookup, groupDn, attr), after)
    requires nested ==> Closed(lookup, attr, [], after)
    ensures WalkedAll(lookup, groupDn, attr, nested, walked)
  {
    assert Elems(walked) == Elems(after);
    CoveredSame(Members(lookup, groupDn, attr), after, walked);
    if nested {
      forall k | 0 <= k < |walked| ensures Covered(Members(lookup, walked[k], attr), walked) {
        assert walked[k] in Elems(after);
        var j :| 0 <= j < |after| && after[j] == walked[k];
        CoveredSame(Members(lookup, after[j], attr), after, walked);
      }
    }
  }

  lemma CoveredSame(ms: seq<string>, a: seq<string>, b: seq<string>)
    requires Covered(ms, a) && Elems(a) <= Elems(b)
    ensures Covered(ms, b)
  {
    forall k | 0 <= k < |ms| ensures ms[k] in b {
      assert ms[k] in Elems(a);
    }
  }

  // ---------------------------------------------------------------------
  // Building users (`iter_users`)

  /** A user as the connector builds it. */
  datatype User = User(
    identityType: string,
    username: string,
    domain: Option<string>,
    email: string,
    firstname: Option<string>,
    lastname: Option<string>,
    country: Option<string>,
    memberGroups: seq<string>,
    groups: seq<string>,
    sourceAttributes: map<string, Option<AttrValue>>)

  /** What the user building depends on besides the entry: the formatters,
      the configured identity type, the identity-type parser and the
      extended attributes asked for. */
  datatype UserSource = UserSource(
    formatters: Formatters,
    defaultIdentity: string,
    parseIdentity: string -> Option<string>,
    extended: seq<string>)

  /** What the formatters produce for one entry, in the order `iter_users`
      asks for them. */
  datatype Outputs = Outputs(
    email: Result<Generated, string>,
    identityType: Result<Generated, string>,
    username: Result<Generated, string>,
    domain: Result<Generated, string>,
    givenName: Result<Generated, string>,
    surname: Result<Generated, string>,
    countryCode: Result<Generated, string>)

  function OutputsOf(fm: Formatters, record: Record): Outputs {
    Outputs(Generate(fm.email, record), Generate(fm.identityType, record), Generate(fm.username, record),
            Generate(fm.domain, record), Generate(fm.givenName, record), Generate(fm.surname, record),
            Generate(fm.countryCode, record))
  }

  /** The text a formatter produced, `None` when it produced none or
      failed. */
  function TextOf(g: Result<Generated, string>): Option<string> {
    match g
    case Ok(v) => v.value
    case Err(_) => None
  }

  /** `v.strip() if v else None` */
  function StripIfTruthy(v: Option<string>): (r: Option<string>)
    ensures r.Some? ==> v.Some? && r.value == Strip(v.value)
    ensures r.None? <==> !NonEmpty(v)
  {
    if NonEmpty(v) then Some(Strip(v.value)) else None
  }

  /** `email[email.find('@') + 1:]`: the text after the first `@`, or the
      whole address without one. */
  function AfterAt(email: string): string {
    var k := Find(email, "@");
    email[k + 1..]
  }

  lemma AfterAtSplits(local: string, domain: string)
    requires '@' !in local
    ensures AfterAt(local + "@" + domain) == domain
  {
    var e := local + "@" + domain;
    assert e[|local|..|local| + 1] == "@";
    assert OccursAt(e, "@", |local|);
    FindIsFirst(e, "@");
    var k := Find(e, "@");
    assert forall j :: 0 <= j < |local| ==> e[j] != '@' by {
      forall j | 0 <= j < |local| ensures e[j] != '@' {
        assert e[j] == local[j];
        assert local[j] in local;
      }
    }
    assert e[k..k + 1] == "@";
    assert e[k] == '@';
    assert k == |local|;
    assert e[|local| + 1..] == domain;
  }

  function Wrap(v: Option<string>): Option<AttrValue> {
    if v.Some? then Some(Single(v.value)) else None
  }

  /** The attribute names the formatters use, then `memberOf`. */
  function FormatterAttributes(fm: Formatters): seq<string> {
    fm.givenName.attributeNames + fm.surname.attributeNames + fm.countryCode.attributeNames +
    fm.identityType.attributeNames + fm.email.attributeNames + fm.username.attributeNames +
    fm.domain.attributeNames + ["memberOf"]
  }

  /** The extended attributes recorded on a user: those asked for that the
      formatters do not already use. */
  function ExtraAttributes(src: UserSource): set<string> {
    Elems(src.extended) - Elems(FormatterAttributes(src.formatters))
  }

  /** The user the loop body of `iter_users` builds from one entry, or none
      when it skips the entry: no email, or an identity type that does not
      parse. A formatter that fails is an error. */
  function BuildUser(src: UserSource, record: Record): Result<Option<User>, string> {
    BuildFrom(src, record, OutputsOf(src.formatters, record))
  }

  /** `BuildUser` given what the formatters produced: a formatter's error
      counts only once the entry gets as far as asking for it. */
  function BuildFrom(src: UserSource, record: Record, o: Outputs): Result<Option<User>, string>
  {
    var e :- o.email;
    var email := StripIfTruthy(e.value);
    if !NonEmpty(email) then Ok(None)
    else
      var it :- o.identityType;
      var identity := IdentityOf(src, it.value);
      if identity.None? then Ok(None)
      else
        var un :- o.username;
        var dm :- o.domain;
        var gn :- o.givenName;
        var sn :- o.surname;
        var c :- o.countryCode;
        Ok(Some(MakeUser(src, record, email.value, it.value, identity.value, StripIfTruthy(un.value),
                         StripIfTruthy(dm.value), gn.value, sn.value, c.value)))
  }

  /** The identity type of an entry: the parse of the one it gives, or the
      configured one when it gives none. */
  function IdentityOf(src: UserSource, raw: Option<string>): Option<string> {
    if NonEmpty(raw) then src.parseIdentity(raw.value) else Some(src.defaultIdentity)
  }

  /** The user built from the stripped email, the identity type, the
      stripped username and domain, and the names and country. */
  function MakeUser(src: UserSource, record: Record, email: string, rawIdentity: Option<string>, identity: string,
                    username: Option<string>, domain: Option<string>,
                    givenName: Option<string>, surname: Option<string>, country: Option<string>): User {
    var sources := map[
      "email" := Wrap(Some(email)), "identity_type" := Wrap(rawIdentity), "username" := Wrap(username),
      "domain" := Wrap(domain), "givenName" := Wrap(givenName), "sn" := Wrap(surname), "c" := Wrap(country)];
    var extra := map a | a in ExtraAttributes(src) :: GetAttributeValue(record, a, false);
    User(
      identity,
      if NonEmpty(username) then username.value else email,
      if NonEmpty(domain) then domain else if username != Some(email) then Some(AfterAt(email)) else None,
      email,
      givenName,
      surname,
      if country.Some? then Some(Upper(country.value)) else None,
      [],
      [],
      sources + extra)
  }

  /** A user is built only when every formatter up to the country code
      produced its text; the user is the one made from those texts. */
  lemma BuildFromMakes(src: UserSource, record: Record, o: Outputs)
    requires BuildFrom(src, record, o).Ok? && BuildFrom(src, record, o).value.Some?
    ensures NonEmpty(StripIfTruthy(TextOf(o.email)))
    ensures IdentityOf(src, TextOf(o.identityType)).Some?
    ensures BuildFrom(src, record, o).value.value ==
      MakeUser(src, record, StripIfTruthy(TextOf(o.email)).value, TextOf(o.identityType),
               IdentityOf(src, TextOf(o.identityType)).value, StripIfTruthy(TextOf(o.username)),
               StripIfTruthy(TextOf(o.domain)), TextOf(o.givenName), TextOf(o.surname), TextOf(o.countryCode))
  {
  }

  /** An entry is skipped exactly when it has no email after stripping, or
      an identity type that does not parse. */
  lemma BuildUserSkips(src: UserSource, record: Record, o: Outputs)
    requires BuildFrom(src, record, o).Ok?
    ensures BuildFrom(src, record, o).value.None? <==>
      !NonEmpty(StripIfTruthy(TextOf(o.email))) ||
      (NonEmpty(TextOf(o.identityType)) &&
       src.parseIdentity(TextOf(o.identityType).value).None?)
  {
  }

  /** A built user has the stripped, non-empty email, and the parsed
      identity type, or the configured one when the entry gives none. */
  lemma BuildUserIdentity(src: UserSource, record: Record, o: Outputs)
    requires BuildFrom(src, record, o).Ok? && BuildFrom(src, record, o).value.Some?
    ensures var u := BuildFrom(src, record, o).value.value;
      var rawIdentity := TextOf(o.identityType);
      Some(u.email) == StripIfTruthy(TextOf(o.email)) &&
      u.email != "" && !IsSpace(u.email[0]) && !IsSpace(u.email[|u.email| - 1]) &&
      (!NonEmpty(rawIdentity) ==> u.identityType == src.defaultIdentity) &&
      (NonEmpty(rawIdentity) ==> Some(u.identityType) == src.parseIdentity(rawIdentity.value))
  {
    BuildFromMakes(src, record, o);
  }

  /** The username defaults to the email; the domain, when the entry gives
      none, is the part of the email after its `@`, unless the username is
      the email itself. */
  lemma BuildUserNames(src: UserSource, record: Record, o: Outputs)
    requires BuildFrom(src, record, o).Ok? && BuildFrom(src, record, o).value.Some?
    ensures var u := BuildFrom(src, record, o).value.value;
      var username := StripIfTruthy(TextOf(o.username));
      var domain := StripIfTruthy(TextOf(o.domain));
      u.username == (if NonEmpty(username) then username.value else u.email) &&
      u.username != "" &&
      (NonEmpty(domain) ==> u.domain == domain) &&
      (!NonEmpty(domain) && username != Some(u.email) ==> u.domain == Some(AfterAt(u.email))) &&
      (!NonEmpty(domain) && username == Some(u.email) ==> u.domain.None?)
  {
    BuildFromMakes(src, record, o);
  }

  /** The names come from their formatters unchanged, the country code is
      upper-cased, the user starts with no groups, and every extended
      attribute the formatters do not use is recorded as read. */
  lemma BuildUserAttributes(src: UserSource, record: Record, o: Outputs)
    requires BuildFrom(src, record, o).Ok? && BuildFrom(src, record, o).value.Some?
    ensures var u := BuildFrom(src, record, o).value.value;
      u.firstname == TextOf(o.givenName) &&
      u.lastname == TextOf(o.surname) &&
      (u.country.Some? ==> forall i :: 0 <= i < |u.country.value| ==> !IsLowerAscii(u.country.value[i])) &&
      u.memberGroups == [] && u.groups == [] &&
      (forall a :: a in ExtraAttributes(src) ==> a in u.sourceAttributes && u.sourceAttributes[a] == GetAttributeValue(record, a, false))
  {
    BuildFromMakes(src, record, o);
  }

  /** The loop of `iter_users` over the entries of a search: a DN already
      cached yields the cached user; an entry without a DN or one that is
      skipped yields nothing; a new user is cached and yielded. Returns the
      new cache and everything yielded, after `acc`. */
  function UsersStep(src: UserSource, cache: map<string, User>, entries: seq<SearchEntry>, acc: seq<(string, User)>): Result<(map<string, User>, seq<(string, User)>), string>
    decreases |entries|
  {
    if entries == [] then Ok((cache, acc))
    else
      match entries[0]
      case Reference => UsersStep(src, cache, entries[1..], acc)
      case Entry(dn, record) =>
        if dn.None? then UsersStep(src, cache, entries[1..], acc)
        else if dn.value in cache then UsersStep(src, cache, entries[1..], acc + [(dn.value, cache[dn.value])])
        else
          match BuildUser(src, record)
          case Err(e) => Err(e)
          case Ok(None) => UsersStep(src, cache, entries[1..], acc)
          case Ok(Some(u)) => UsersStep(src, cache[dn.value := u], entries[1..], acc + [(dn.value, u)])
  }

  /** Every yielded pair is the cached user for its DN. */
  predicate CachedPairs(cache: map<string, User>, ys: seq<(string, User)>) {
    forall k :: 0 <= k < |ys| ==> ys[k].0 in cache && cache[ys[k].0] == ys[k].1
  }

  /** The DNs carried by entries. */
  function EntryDns(entries: seq<SearchEntry>): set<string> {
    set i | 0 <= i < |entries| && entries[i].Entry? && entries[i].dn.Some? :: entries[i].dn.value
  }

  lemma EntryDnsTail(entries: seq<SearchEntry>)
    requires entries != []
    ensures EntryDns(entries[1..]) <= EntryDns(entries)
    ensures entries[0].Entry? && entries[0].dn.Some? ==> entries[0].dn.value in EntryDns(entries)
  {
    var rest := entries[1..];
    forall dn | dn in EntryDns(rest) ensures dn in EntryDns(entries) {
      var i :| 0 <= i < |rest| && rest[i].Entry? && rest[i].dn.Some? && rest[i].dn.value == dn;
      assert entries[i + 1] == rest[i];
    }
  }

  /** The cache only grows: a cached user is never rebuilt or replaced, and
      each new DN comes from an entry and holds a user with no groups yet. */
  lemma UsersStepCache(src: UserSource, cache: map<string, User>, entries: seq<SearchEntry>, acc: seq<(string, User)>)
    ensures var r := UsersStep(src, cache, entries, acc);
      r.Ok? ==>
        (forall dn :: dn in cache ==> dn in r.value.0 && r.value.0[dn] == cache[dn]) &&
        (forall dn :: dn in r.value.0 && dn !in cache ==> dn in EntryDns(entries) && r.value.0[dn].groups == [])
  {
    UsersStepKeepsCache(src, cache, entries, acc);
    UsersStepNewDns(src, cache, entries, acc);
  }

  lemma {:induction false} UsersStepKeepsCache(src: UserSource, cache: map<string, User>, entries: seq<SearchEntry>, acc: seq<(string, User)>)
    ensures var r := UsersStep(src, cache, entries, acc);
      r.Ok? ==> forall dn :: dn in cache ==> dn in r.value.0 && r.value.0[dn] == cache[dn]
    decreases |entries|
  {
    if entries != [] {
      var rest := entries[1..];
      match entries[0]
      case Reference => UsersStepKeepsCache(src, cache, rest, acc);
      case Entry(dn, record) =>
        if dn.None? {
          UsersStepKeepsCache(src, cache, rest, acc);
        } else if dn.value in cache {
          UsersStepKeepsCache(src, cache, rest, acc + [(dn.value, cache[dn.value])]);
        } else {
          match BuildUser(src, record)
          case Err(_) =>
          case Ok(None) => UsersStepKeepsCache(src, cache, rest, acc);
          case Ok(Some(u)) =>
            UsersStepKeepsCache(src, cache[dn.value := u], rest, acc + [(dn.value, u)]);
        }
    }
  }

  lemma {:induction false} UsersStepNewDns(src: UserSource, cache: map<string, User>, entries: seq<SearchEntry>, acc: seq<(string, User)>)
    ensures var r := UsersStep(src, cache, entries, acc);
      r.Ok? ==> forall dn :: dn in r.value.0 && dn !in cache ==> dn in EntryDns(entries) && r.value.0[dn].groups == []
    decreases |entries|
  {
    if entries != [] {
      var rest := entries[1..];
      EntryDnsTail(entries);
      match entries[0]
      case Reference => UsersStepNewDns(src, cache, rest, acc);
      case Entry(dn, record) =>
        if dn.None? {
          UsersStepNewDns(src, cache, rest, acc);
        } else if dn.value in cache {
          UsersStepNewDns(src, cache, rest, acc + [(dn.value, cache[dn.value])]);
        } else {
          match BuildUser(src, record)
          case Err(_) =>
          case Ok(None) => UsersStepNewDns(src, cache, rest, acc);
          case Ok(Some(u)) =>
            BuildUserAttributes(src, record, OutputsOf(src.formatters, record));
            UsersStepKeepsCache(src, cache[dn.value := u], rest, acc + [(dn.value, u)]);
            UsersStepNewDns(src, cache[dn.value := u], rest, acc + [(dn.value, u)]);
        }
    }
  }

  /** Every pair the loop yields beyond `acc` carries the DN of one of the
      entries. */
  lemma {:induction false} UsersStepDns(src: UserSource, cache: map<string, User>, entries: seq<SearchEntry>, acc: seq<(string, User)>)
    ensures var r := UsersStep(src, cache, entries, acc);
      r.Ok? ==> forall p :: p in r.value.1 ==> p in acc || p.0 in EntryDns(entries)
    decreases |entries|
  {
    if entries != [] {
      var rest := entries[1..];
      EntryDnsTail(entries);
      match entries[0]
      case Reference => UsersStepDns(src, cache, rest, acc);
      case Entry(dn, record) =>
        if dn.None? {
          UsersStepDns(src, cache, rest, acc);
        } else if dn.value in cache {
          UsersStepDns(src, cache, rest, acc + [(dn.value, cache[dn.value])]);
        } else {
          match BuildUser(src, record)
          case Err(_) =>
          case Ok(None) => UsersStepDns(src, cache, rest, acc);
          case Ok(Some(u)) => UsersStepDns(src, cache[dn.value := u], rest, acc + [(dn.value, u)]);
        }
    }
  }

  /** Caching a user for a DN not cached before, or re-yielding the cached
      one, keeps every yielded pair in step with the cache. */
  lemma CachedPairsSnoc(cache: map<string, User>, acc: seq<(string, User)>, dn: string, u: User)
    requires CachedPairs(cache, acc)
    requires dn in cache ==> cache[dn] == u
    ensures CachedPairs(cache[dn := u], acc + [(dn, u)])
  {
    var c' := cache[dn := u];
    var acc' := acc + [(dn, u)];
    forall k | 0 <= k < |acc'| ensures acc'[k].0 in c' && c'[acc'[k].0] == acc'[k].1 {
      if k < |acc| {
        assert acc'[k] == acc[k];
      }
    }
  }

  lemma PrefixOfSnoc<T>(ys: seq<T>, acc: seq<T>, x: T)
    requires |acc| + 1 <= |ys| && ys[..|acc| + 1] == acc + [x]
    ensures ys[..|acc|] == acc
  {
    assert ys[..|acc|] == ys[..|acc| + 1][..|acc|];
  }

  /** What the loop yields extends `acc` by at most one pair per entry, and
      every yielded pair is what the cache holds for its DN. */
  lemma UsersStepYields(src: UserSource, cache: map<string, User>, entries: seq<SearchEntry>, acc: seq<(string, User)>)
    requires CachedPairs(cache, acc)
    ensures var r := UsersStep(src, cache, entries, acc);
      r.Ok? ==>
        |acc| <= |r.value.1| <= |acc| + |entries| && r.value.1[..|acc|] == acc &&
        CachedPairs(r.value.0, r.value.1)
  {
    UsersStepGrows(src, cache, entries, acc);
    UsersStepPairs(src, cache, entries, acc);
  }

  /** `ys` is `acc` followed by at most `n` more pairs. */
  predicate ExtendsBy(ys: seq<(string, User)>, acc: seq<(string, User)>, n: nat) {
    |acc| <= |ys| <= |acc| + n && ys[..|acc|] == acc
  }

  lemma ExtendsSnoc(ys: seq<(string, User)>, acc: seq<(string, User)>, x: (string, User), n: nat)
    requires ExtendsBy(ys, acc + [x], n)
    ensures ExtendsBy(ys, acc, n + 1)
  {
    PrefixOfSnoc(ys, acc, x);
  }

  lemma {:induction false} UsersStepGrows(src: UserSource, cache: map<string, User>, entries: seq<SearchEntry>, acc: seq<(string, User)>)
    ensures var r := UsersStep(src, cache, entries, acc);
      r.Ok? ==> ExtendsBy(r.value.1, acc, |entries|)
    decreases |entries|
  {
    if entries != [] {
      var rest := entries[1..];
      var n := |rest|;
      match entries[0]
      case Reference => UsersStepGrows(src, cache, rest, acc);
      case Entry(dn, record) =>
        if dn.None? {
          UsersStepGrows(src, cache, rest, acc);
        } else if dn.value in cache {
          var acc' := acc + [(dn.value, cache[dn.value])];
          UsersStepGrows(src, cache, rest, acc');
          var ys := UsersStep(src, cache, rest, acc');
          if ys.Ok? {
            ExtendsSnoc(ys.value.1, acc, (dn.value, cache[dn.value]), n);
          }
        } else {
          match BuildUser(src, record)
          case Err(_) =>
          case Ok(None) => UsersStepGrows(src, cache, rest, acc);
          case Ok(Some(u)) =>
            var c' := cache[dn.value := u];
            var acc' := acc + [(dn.value, u)];
            UsersStepGrows(src, c', rest, acc');
            var ys := UsersStep(src, c', rest, acc');
            if ys.Ok? {
              ExtendsSnoc(ys.value.1, acc, (dn.value, u), n);
            }
        }
    }
  }

  lemma {:induction false} UsersStepPairs(src: UserSource, cache: map<string, User>, entries: seq<SearchEntry>, acc: seq<(string, User)>)
    requires CachedPairs(cache, acc)
    ensures var r := UsersStep(src, cache, entries, acc);
      r.Ok? ==> CachedPairs(r.value.0, r.value.1)
    decreases |entries|
  {
    if entries != [] {
      var rest := entries[1..];
      match entries[0]
      case Reference => UsersStepPairs(src, cache, rest, acc);
      case Entry(dn, record) =>
        if dn.None? {
          UsersStepPairs(src, cache, rest, acc);
        } else if dn.value in cache {
          CachedPairsSnoc(cache, acc, dn.value, cache[dn.value]);
          assert cache[dn.value := cache[dn.value]] == cache;
          UsersStepPairs(src, cache, rest, acc + [(dn.value, cache[dn.value])]);
        } else {
          match BuildUser(src, record)
          case Err(_) =>
          case Ok(None) => UsersStepPairs(src, cache, rest, acc);
          case Ok(Some(u)) =>
            CachedPairsSnoc(cache, acc, dn.value, u);
            UsersStepPairs(src, cache[dn.value := u], rest, acc + [(dn.value, u)]);
        }
    }
  }

  // ---------------------------------------------------------------------
  // The connector

  /** The directory the connector reads: a subtree search from a base DN
      with a filter (`None` when it fails), the entry at each DN for the
      two-step walk, and the DN parser. */
  datatype Directory = Directory(
    search: (string, string) -> Option<seq<SearchEntry>>,
    lookup: map<string, Record>,
    parseDn: string -> Option<seq<string>>)

  /** Users keep their fields and their earlier groups; every group added
      since is one of `names`. */
  predicate Extends(before: map<string, User>, after: map<string, User>, names: set<string>) {
    (forall dn :: dn in before ==> dn in after && Kept(before[dn], after[dn], names)) &&
    (forall dn :: dn in after && dn !in before ==> AllIn(after[dn].groups, names))
  }

  /** `after` is `before` with only groups among `names` appended. */
  predicate Kept(before: User, after: User, names: set<string>) {
    after.(groups := []) == before.(groups := []) &&
    |before.groups| <= |after.groups| &&
    after.groups[..|before.groups|] == before.groups &&
    AllIn(after.groups[|before.groups|..], names)
  }

  predicate AllIn(gs: seq<string>, names: set<string>) {
    forall k :: 0 <= k < |gs| ==> gs[k] in names
  }

  lemma KeptTrans(a: User, b: User, c: User, names: set<string>)
    requires Kept(a, b, names) && Kept(b, c, names)
    ensures Kept(a, c, names)
  {
    assert c.groups[..|a.groups|] == c.groups[..|b.groups|][..|a.groups|];
    var tail := c.groups[|a.groups|..];
    forall k | 0 <= k < |tail| ensures tail[k] in names {
      if |a.groups| + k < |b.groups| {
        assert tail[k] == b.groups[|a.groups|..][k];
      } else {
        assert tail[k] == c.groups[|b.groups|..][|a.groups| + k - |b.groups|];
      }
    }
  }

  lemma KeptAfterNew(b: User, c: User, names: set<string>)
    requires AllIn(b.groups, names) && Kept(b, c, names)
    ensures AllIn(c.groups, names)
  {
    forall k | 0 <= k < |c.groups| ensures c.groups[k] in names {
      if k < |b.groups| {
        assert c.groups[k] == c.groups[..|b.groups|][k];
      } else {
        assert c.groups[k] == c.groups[|b.groups|..][k - |b.groups|];
      }
    }
  }

  lemma ExtendsTrans(a: map<string, User>, b: map<string, User>, c: map<string, User>, names: set<string>)
    requires Extends(a, b, names) && Extends(b, c, names)
    ensures Extends(a, c, names)
  {
    forall dn | dn in a ensures dn in c && Kept(a[dn], c[dn], names) {
      KeptTrans(a[dn], b[dn], c[dn], names);
    }
    forall dn | dn in c && dn !in a ensures AllIn(c[dn].groups, names) {
      if dn in b {
        KeptAfterNew(b[dn], c[dn], names);
      }
    }
  }

  lemma ExtendsWiden(a: map<string, User>, b: map<string, User>, names: set<string>, wider: set<string>)
    requires Extends(a, b, names) && names <= wider
    ensures Extends(a, b, wider)
  {
  }

  lemma ExtendsRefl(a: map<string, User>, names: set<string>)
    ensures Extends(a, a, names)
  {
    forall dn | dn in a ensures Kept(a[dn], a[dn], names) {
      assert a[dn].groups[..|a[dn].groups|] == a[dn].groups;
    }
  }

  /** A search leaves every cached user as it was and adds users without
      groups, so it extends the cache by any groups whatever. */
  lemma UsersStepExtends(src: UserSource, cache: map<string, User>, entries: seq<SearchEntry>, names: set<string>)
    ensures UsersStep(src, cache, entries, []).Ok? ==> Extends(cache, UsersStep(src, cache, entries, []).value.0, names)
  {
    var r := UsersStep(src, cache, entries, []);
    if r.Ok? {
      UsersStepCache(src, cache, entries, []);
      var after := r.value.0;
      forall dn | dn in cache ensures dn in after && Kept(cache[dn], after[dn], names) {
        assert after[dn].groups[..|cache[dn].groups|] == cache[dn].groups;
      }
    }
  }

  /** A group a user already has survives an extension. */
  lemma KeepsGroup(before: map<string, User>, after: map<string, User>, ys: seq<(string, User)>, i: nat, group: string)
    requires i < |ys| && Extends(before, after, {group})
    requires forall k :: 0 <= k < |ys| ==> ys[k].0 in before
    requires forall k :: 0 <= k < i ==> group in before[ys[k].0].groups
    requires after[ys[i].0].groups == before[ys[i].0].groups + [group]
    ensures forall k :: 0 <= k <= i ==> group in after[ys[k].0].groups
  {
    forall k | 0 <= k <= i ensures group in after[ys[k].0].groups {
      var dn := ys[k].0;
      if k == i {
        assert after[dn].groups[|before[dn].groups|] == group;
      } else {
        var j :| 0 <= j < |before[dn].groups| && before[dn].groups[j] == group;
        assert Kept(before[dn], after[dn], {group});
        assert after[dn].groups[..|before[dn].groups|] == before[dn].groups;
        assert after[dn].groups[j] == group;
      }
    }
  }

  /** Every DN of `dns` is cached with `group` among its groups. */
  predicate HoldsGroup(cache: map<string, User>, dns: seq<string>, group: string) {
    forall j :: 0 <= j < |dns| ==> dns[j] in cache && group in cache[dns[j]].groups
  }

  /** The DNs of yielded pairs, in order. */
  function PairDns(ys: seq<(string, User)>): (r: seq<string>)
    ensures |r| == |ys| && forall k :: 0 <= k < |ys| ==> r[k] == ys[k].0
  {
    seq(|ys|, k requires 0 <= k < |ys| => ys[k].0)
  }

  /** `n` copies of `group`. */
  function Copies(group: string, n: nat): (r: seq<string>)
    ensures |r| == n && forall i :: 0 <= i < n ==> r[i] == group
  {
    seq(n, _ => group)
  }

  /** The cache after `user['groups'].append(group)` on the cached user of
      each DN of `dns` in turn; a DN listed twice gets the group twice, and
      a DN that is not cached is passed over. */
  function AppendAll(cache: map<string, User>, dns: seq<string>, group: string): map<string, User>
    decreases |dns|
  {
    if dns == [] then cache
    else
      var prev := AppendAll(cache, dns[..|dns| - 1], group);
      var dn := dns[|dns| - 1];
      if dn in prev then prev[dn := prev[dn].(groups := prev[dn].groups + [group])] else prev
  }

  lemma AppendAllSnoc(cache: map<string, User>, dns: seq<string>, dn: string, group: string)
    ensures AppendAll(cache, dns + [dn], group) ==
      var prev := AppendAll(cache, dns, group);
      if dn in prev then prev[dn := prev[dn].(groups := prev[dn].groups + [group])] else prev
  {
    assert (dns + [dn])[..|dns|] == dns;
  }

  lemma {:induction false} AppendAllKeys(cache: map<string, User>, dns: seq<string>, group: string)
    ensures AppendAll(cache, dns, group).Keys == cache.Keys
    decreases |dns|
  {
    if dns != [] {
      AppendAllKeys(cache, dns[..|dns| - 1], group);
    }
  }

  /** One more append, on a cached DN, is the list with that DN added. */
  lemma AppendOneMore(cache: map<string, User>, dns: seq<string>, dn: string, group: string, after: map<string, User>)
    requires dn in AppendAll(cache, dns, group)
    requires var prev := AppendAll(cache, dns, group);
      after == prev[dn := prev[dn].(groups := prev[dn].groups + [group])]
    ensures after == AppendAll(cache, dns + [dn], group)
  {
    AppendAllSnoc(cache, dns, dn, group);
  }

  /** Giving a group to a list of DNs keeps the cache's keys, and each
      cached user gains the group at the end of its groups once for every
      time its DN is listed, its other fields kept. */
  lemma {:induction false} AppendAllGroups(cache: map<string, User>, dns: seq<string>, group: string)
    ensures AppendAll(cache, dns, group).Keys == cache.Keys
    ensures forall dn :: dn in cache ==>
      AppendAll(cache, dns, group)[dn] == cache[dn].(groups := cache[dn].groups + Copies(group, multiset(dns)[dn]))
    decreases |dns|
  {
    if dns != [] {
      var init := dns[..|dns| - 1];
      var last := dns[|dns| - 1];
      AppendAllGroups(cache, init, group);
      assert dns == init + [last];
      assert multiset(dns) == multiset(init) + multiset{last};
      var prev := AppendAll(cache, init, group);
      forall dn | dn in cache
        ensures AppendAll(cache, dns, group)[dn] == cache[dn].(groups := cache[dn].groups + Copies(group, multiset(dns)[dn]))
      {
        if dn == last {
          var n := multiset(init)[dn];
          assert Copies(group, n + 1) == Copies(group, n) + [group];
          assert prev[dn].groups + [group] == cache[dn].groups + (Copies(group, n) + [group]);
        }
      }
    }
  }

  /** Giving a group to a list of DNs extends the cache by that group. */
  lemma AppendAllExtends(cache: map<string, User>, dns: seq<string>, group: string)
    ensures Extends(cache, AppendAll(cache, dns, group), {group})
  {
    var after := AppendAll(cache, dns, group);
    AppendAllGroups(cache, dns, group);
    forall dn | dn in cache ensures dn in after && Kept(cache[dn], after[dn], {group}) {
      var added := Copies(group, multiset(dns)[dn]);
      assert after[dn].groups == cache[dn].groups + added;
      assert after[dn].groups[..|cache[dn].groups|] == cache[dn].groups;
      assert after[dn].groups[|cache[dn].groups|..] == added;
    }
  }

  /** Every cached DN of the list holds the group afterwards. */
  lemma AppendAllHolds(cache: map<string, User>, dns: seq<string>, group: string)
    requires forall k :: 0 <= k < |dns| ==> dns[k] in cache
    ensures HoldsGroup(AppendAll(cache, dns, group), dns, group)
  {
    var after := AppendAll(cache, dns, group);
    AppendAllGroups(cache, dns, group);
    forall j | 0 <= j < |dns| ensures dns[j] in after && group in after[dns[j]].groups {
      var dn := dns[j];
      assert dn in multiset(dns);
      var added := Copies(group, multiset(dns)[dn]);
      assert after[dn].groups == cache[dn].groups + added;
      assert after[dn].groups[|cache[dn].groups|] == added[0];
    }
  }

  lemma HoldsGroupSnoc(cache: map<string, User>, dns: seq<string>, found: Option<string>, group: string)
    requires HoldsGroup(cache, dns, group)
    requires found.Some? ==> HoldsGroup(cache, [found.value], group)
    ensures HoldsGroup(cache, if found.Some? then dns + [found.value] else dns, group)
  {
    if found.Some? {
      assert [found.value][0] == found.value;
    }
  }

  /** A group once held is held after any extension. */
  lemma HoldsGroupExtends(before: map<string, User>, after: map<string, User>, names: set<string>, dns: seq<string>, group: string)
    requires HoldsGroup(before, dns, group) && Extends(before, after, names)
    ensures HoldsGroup(after, dns, group)
  {
    forall j | 0 <= j < |dns| ensures dns[j] in after && group in after[dns[j]].groups {
      var dn := dns[j];
      var i :| 0 <= i < |before[dn].groups| && before[dn].groups[i] == group;
      assert Kept(before[dn], after[dn], names);
      assert after[dn].groups[..|before[dn].groups|] == before[dn].groups;
      assert after[dn].groups[i] == group;
    }
  }

  /** After the group `groups[|members|]` is loaded into `after`, with its
      users `dns`, the loop of `load_users_and_groups` keeps its invariant. */
  lemma GroupLoaded(start: map<string, User>, before: map<string, User>, after: map<string, User>,
                    groups: seq<string>, members: seq<seq<string>>, dns: seq<string>)
    requires |members| < |groups|
    requires Extends(start, before, Elems(groups)) && GroupsHeld(before, members, groups)
    requires Extends(before, after, {groups[|members|]}) && HoldsGroup(after, dns, groups[|members|])
    ensures Extends(start, after, Elems(groups)) && GroupsHeld(after, members + [dns], groups)
  {
    var g := groups[|members|];
    assert g in Elems(groups);
    GroupsHeldStep(before, after, {g}, members, groups, dns);
    ExtendsWiden(before, after, {g}, Elems(groups));
    ExtendsTrans(start, before, after, Elems(groups));
  }

  /** Each user found for a group holds it: the DNs in `members[i]` hold
      `groups[i]`. */
  predicate GroupsHeld(cache: map<string, User>, members: seq<seq<string>>, groups: seq<string>)
    requires |members| <= |groups|
  {
    forall i :: 0 <= i < |members| ==> HoldsGroup(cache, members[i], groups[i])
  }

  lemma GroupsHeldStep(before: map<string, User>, after: map<string, User>, names: set<string>,
                       members: seq<seq<string>>, groups: seq<string>, dns: seq<string>)
    requires |members| < |groups| && GroupsHeld(before, members, groups)
    requires Extends(before, after, names) && HoldsGroup(after, dns, groups[|members|])
    ensures GroupsHeld(after, members + [dns], groups)
  {
    forall i | 0 <= i < |members| ensures HoldsGroup(after, members[i], groups[i]) {
      HoldsGroupExtends(before, after, names, members[i], groups[i]);
    }
  }

  /** A search that yields exactly one user: that user is cached, its DN
      is an entry's, and giving it the group extends the cache the search
      started from. */
  lemma OneUserFound(src: UserSource, before: map<string, User>, entries: seq<SearchEntry>, group: string)
    requires UsersStep(src, before, entries, []).Ok? && |UsersStep(src, before, entries, []).value.1| == 1
    ensures var (c, ys) := UsersStep(src, before, entries, []).value;
      ys[0].0 in c && ys[0].0 in EntryDns(entries) &&
      Extends(before, c[ys[0].0 := c[ys[0].0].(groups := c[ys[0].0].groups + [group])], {group})
  {
    var (c, ys) := UsersStep(src, before, entries, []).value;
    UsersStepExtends(src, before, entries, {group});
    UsersStepYields(src, before, entries, []);
    UsersStepDns(src, before, entries, []);
    assert ys[0] in ys;
    var dn := ys[0].0;
    var after := c[dn := c[dn].(groups := c[dn].groups + [group])];
    assert after[dn].groups[..|c[dn].groups|] == c[dn].groups;
    ExtendsRefl(c, {group});
    ExtendsTrans(before, c, after, {group});
  }

  /** `r` and the cache `after` are what `spec` gives: an error when it
      fails, otherwise its result and its cache. */
  predicate Yields<T(==)>(spec: Result<(map<string, User>, T), string>, r: Result<T, string>, after: map<string, User>) {
    (spec.Err? ==> r.Err?) && (spec.Ok? ==> r == Ok(spec.value.1) && after == spec.value.0)
  }

  const SearchFailed := "Unexpected LDAP failure"
  const NoGroupFound := "No group found for: "
  const MultipleObjects := "Unexpected multiple LDAP object found in two_steps_lookup mode for: "

  /** What the search at an in-scope member DN leads to, given what
      `iter_users` made of it (`spec`): its error; several users are an
      error; no user leaves the cache the search left; one user gets the
      group and its DN is the result. */
  function SearchOutcome(spec: Result<(map<string, User>, seq<(string, User)>), string>, userDn: string, group: string)
    : Result<(map<string, User>, Option<string>), string>
  {
    if spec.Err? then Err(spec.error)
    else if |spec.value.1| > 1 then Err(MultipleObjects + userDn)
    else if |spec.value.1| == 0 then Ok((spec.value.0, None))
    else Ok((AppendAll(spec.value.0, [spec.value.1[0].0], group), Some(spec.value.1[0].0)))
  }

  /** `r` and `after` are what the method gives for the search outcome
      `spec`, stated on the cache and the yield directly. */
  predicate Searched(spec: Result<(map<string, User>, seq<(string, User)>), string>, group: string,
                     after: map<string, User>, r: Result<Option<string>, string>) {
    (spec.Err? ==> r.Err?) &&
    (spec.Ok? && |spec.value.1| > 1 ==> r.Err?) &&
    (spec.Ok? && |spec.value.1| == 0 ==> r == Ok(None) && after == spec.value.0) &&
    (spec.Ok? && |spec.value.1| == 1 ==>
      var (c, ys) := spec.value;
      r == Ok(Some(ys[0].0)) && ys[0].0 in c &&
      after == c[ys[0].0 := c[ys[0].0].(groups := c[ys[0].0].groups + [group])])
  }

  lemma SearchOutcomeYields(spec: Result<(map<string, User>, seq<(string, User)>), string>, userDn: string, group: string,
                            after: map<string, User>, r: Result<Option<string>, string>)
    requires Searched(spec, group, after, r)
    ensures Yields(SearchOutcome(spec, userDn, group), r, after)
  {
    if spec.Ok? && |spec.value.1| == 1 {
      AppendAllSnoc(spec.value.0, [], spec.value.1[0].0, group);
      assert [] + [spec.value.1[0].0] == [spec.value.1[0].0];
    }
  }

  class LdapConnector {
    const options: LdapOptions
    const formatters: Formatters
    const defaultIdentity: string
    const parseIdentity: string -> Option<string>
    const directory: Directory
    var userByDn: map<string, User>

    /** The connector after `__init__`: validated options, their
        formatters, and an empty cache. */
    constructor(options: LdapOptions, formatters: Formatters, defaultIdentity: string, parseIdentity: string -> Option<string>, directory: Directory)
      ensures this.options == options && this.formatters == formatters && this.defaultIdentity == defaultIdentity
      ensures this.parseIdentity == parseIdentity && this.directory == directory
      ensures userByDn == map[]
    {
      this.options := options;
      this.formatters := formatters;
      this.defaultIdentity := defaultIdentity;
      this.parseIdentity := parseIdentity;
      this.directory := directory;
      userByDn := map[];
    }

    function Source(extended: seq<string>): UserSource {
      UserSource(formatters, defaultIdentity, parseIdentity, extended)
    }

    /** `iter_users`: the users of a search, through the cache. */
    method IterUsers(baseDn: string, filter: string, extended: seq<string>) returns (r: Result<seq<(string, User)>, string>)
      modifies this
      ensures directory.search(baseDn, filter).None? ==> r.Err? && userByDn == old(userByDn)
      ensures directory.search(baseDn, filter).Some? ==>
        var spec := UsersStep(Source(extended), old(userByDn), Entries(directory.search(baseDn, filter).value), []);
        (spec.Err? ==> r.Err?) &&
        (spec.Ok? ==> r == Ok(spec.value.1) && userByDn == spec.value.0)
    {
      var found := directory.search(baseDn, filter);
      if found.None? {
        return Err(SearchFailed);
      }
      var entries := IterSearchResult(found.value);
      var src := Source(extended);
      var yielded: seq<(string, User)> := [];
      var i := 0;
      while i < |entries|
        invariant 0 <= i <= |entries|
        invariant UsersStep(src, old(userByDn), entries, []) == UsersStep(src, userByDn, entries[i..], yielded)
      {
        var e := entries[i];
        assert entries[i..][0] == e && entries[i..][1..] == entries[i + 1..];
        if e.Entry? && e.dn.Some? {
          var dn := e.dn.value;
          if dn in userByDn {
            yielded := yielded + [(dn, userByDn[dn])];
          } else {
            var built := BuildUser(src, e.attributes);
            if built.Err? {
              return Err(built.error);
            }
            if built.value.Some? {
              userByDn := userByDn[dn := built.value.value];
              yielded := yielded + [(dn, built.value.value)];
            }
          }
        }
        i := i + 1;
      }
      r := Ok(yielded);
    }

    /** `user['groups'].append(group)` on the cached user. */
    method AppendGroup(dn: string, group: string)
      requires dn in userByDn
      modifies this
      ensures userByDn == old(userByDn)[dn := old(userByDn)[dn].(groups := old(userByDn)[dn].groups + [group])]
      ensures Extends(old(userByDn), userByDn, {group})
    {
      userByDn := userByDn[dn := userByDn[dn].(groups := userByDn[dn].groups + [group])];
      assert userByDn[dn].groups[..|old(userByDn)[dn].groups|] == old(userByDn)[dn].groups;
      ExtendsRefl(old(userByDn), {group});
    }

    /** The loop of the filter strategy: each yielded user gets the group. */
    method AppendGroupToAll(ys: seq<(string, User)>, group: string)
      requires forall k :: 0 <= k < |ys| ==> ys[k].0 in userByDn
      modifies this
      ensures userByDn == AppendAll(old(userByDn), PairDns(ys), group)
      ensures Extends(old(userByDn), userByDn, {group})
      ensures forall k :: 0 <= k < |ys| ==> ys[k].0 in userByDn && group in userByDn[ys[k].0].groups
    {
      var i := 0;
      assert PairDns(ys[..0]) == [];
      while i < |ys|
        invariant 0 <= i <= |ys|
        invariant userByDn == AppendAll(old(userByDn), PairDns(ys[..i]), group)
      {
        ghost var done := PairDns(ys[..i]);
        AppendAllKeys(old(userByDn), done, group);
        AppendGroup(ys[i].0, group);
        AppendOneMore(old(userByDn), done, ys[i].0, group, userByDn);
        assert PairDns(ys[..i + 1]) == done + [ys[i].0];
        i := i + 1;
      }
      assert ys[..i] == ys;
      AppendAllExtends(old(userByDn), PairDns(ys), group);
      AppendAllHolds(old(userByDn), PairDns(ys), group);
    }

    /** One member DN of the two-step lookup: outside the base DN it is
        ignored; inside, its search must give at most one user, who then
        gets the group. */
    method AddTwoStepMember(userDn: string, group: string, extended: seq<string>) returns (r: Result<Option<string>, string>)
      modifies this
      ensures IsDnWithinBaseDnScope(options.baseDn, userDn, directory.parseDn).Err? ==> r.Err? && userByDn == old(userByDn)
      ensures IsDnWithinBaseDnScope(options.baseDn, userDn, directory.parseDn) == Ok(false) ==> r == Ok(None) && userByDn == old(userByDn)
      ensures IsDnWithinBaseDnScope(options.baseDn, userDn, directory.parseDn) == Ok(true) ==>
        SearchedUser(userDn, group, extended, old(userByDn), userByDn, r)
      ensures r.Ok? ==> Extends(old(userByDn), userByDn, {group})
      ensures r.Ok? ==> InScopeSearched(userDn)
      ensures r.Ok? && r.value.Some? ==> FoundBy(userDn, r.value.value) && HoldsGroup(userByDn, [r.value.value], group)
      ensures Yields(TwoStepMember(old(userByDn), userDn, group, extended), r, userByDn)
    {
      var inScope := IsDnWithinBaseDnScope(options.baseDn, userDn, directory.parseDn);
      if inScope.Err? {
        return Err(inScope.error);
      }
      if !inScope.value {
        ExtendsRefl(userByDn, {group});
        return Ok(None);
      }
      r := AddSearchedUser(userDn, group, extended);
      SearchedUserStep(userDn, group, extended, old(userByDn), userByDn, r);
    }

    /** What one member DN of the two-step lookup does to the cache
        `before`: a DN outside the base DN leaves it; inside, the search at
        the DN must succeed and find at most one user, who gets the group
        and whose DN is the result. */
    function TwoStepMember(before: map<string, User>, userDn: string, group: string, extended: seq<string>): Result<(map<string, User>, Option<string>), string> {
      var inScope := IsDnWithinBaseDnScope(options.baseDn, userDn, directory.parseDn);
      if inScope.Err? then Err(inScope.error)
      else if !inScope.value then Ok((before, None))
      else
        var res := directory.search(userDn, options.allUsersFilter);
        if res.None? then Err(SearchFailed)
        else SearchOutcome(UsersStep(Source(extended), before, Entries(res.value), []), userDn, group)
    }

    lemma SearchedUserStep(userDn: string, group: string, extended: seq<string>,
                           before: map<string, User>, after: map<string, User>, r: Result<Option<string>, string>)
      requires IsDnWithinBaseDnScope(options.baseDn, userDn, directory.parseDn) == Ok(true)
      requires SearchedUser(userDn, group, extended, before, after, r)
      ensures Yields(TwoStepMember(before, userDn, group, extended), r, after)
    {
      var res := directory.search(userDn, options.allUsersFilter);
      if res.Some? {
        SearchOutcomeYields(UsersStep(Source(extended), before, Entries(res.value), []), userDn, group, after, r);
      }
    }

    /** The two-step lookup over the walked member DNs, in order, from the
        cache `before`: the cache after each DN's step and the DNs of the
        users found, or the first step's error. */
    function TwoStepsFold(before: map<string, User>, walked: seq<string>, group: string, extended: seq<string>): Result<(map<string, User>, seq<string>), string>
      decreases |walked|
    {
      if walked == [] then Ok((before, []))
      else
        var prev :- TwoStepsFold(before, walked[..|walked| - 1], group, extended);
        var step :- TwoStepMember(prev.0, walked[|walked| - 1], group, extended);
        Ok((step.0, if step.1.Some? then prev.1 + [step.1.value] else prev.1))
    }

    lemma TwoStepsFoldStep(before: map<string, User>, walked: seq<string>, i: nat, group: string, extended: seq<string>,
                           mid: map<string, User>, dns: seq<string>, r: Result<Option<string>, string>, after: map<string, User>)
      requires i < |walked| && TwoStepsFold(before, walked[..i], group, extended) == Ok((mid, dns))
      requires Yields(TwoStepMember(mid, walked[i], group, extended), r, after)
      ensures r.Err? ==> TwoStepsFold(before, walked[..i + 1], group, extended).Err?
      ensures r.Ok? ==>
        TwoStepsFold(before, walked[..i + 1], group, extended) == Ok((after, if r.value.Some? then dns + [r.value.value] else dns))
    {
      assert walked[..i + 1][..i] == walked[..i];
    }

    /** Once a step fails, the whole lookup fails. */
    lemma {:induction false} TwoStepsFoldErr(before: map<string, User>, walked: seq<string>, i: nat, group: string, extended: seq<string>)
      requires i <= |walked| && TwoStepsFold(before, walked[..i], group, extended).Err?
      ensures TwoStepsFold(before, walked, group, extended).Err?
      decreases |walked| - i
    {
      if i == |walked| {
        assert walked[..i] == walked;
      } else {
        assert walked[..i + 1][..i] == walked[..i];
        TwoStepsFoldErr(before, walked, i + 1, group, extended);
      }
    }

    /** The search at member DN `userDn` inside the base DN, from the cache
        `before`: it must succeed; no user leaves the cache as the search
        left it; one user is given the group and its DN is the result;
        several users are an error. */
    predicate SearchedUser(userDn: string, group: string, extended: seq<string>,
                           before: map<string, User>, after: map<string, User>, r: Result<Option<string>, string>) {
      var res := directory.search(userDn, options.allUsersFilter);
      (res.None? ==> r.Err?) &&
      (res.Some? ==> Searched(UsersStep(Source(extended), before, Entries(res.value), []), group, after, r))
    }

    /** The part of `AddTwoStepMember` for a DN inside the base DN. */
    method AddSearchedUser(userDn: string, group: string, extended: seq<string>) returns (r: Result<Option<string>, string>)
      requires IsDnWithinBaseDnScope(options.baseDn, userDn, directory.parseDn) == Ok(true)
      modifies this
      ensures SearchedUser(userDn, group, extended, old(userByDn), userByDn, r)
      ensures r.Ok? ==> Extends(old(userByDn), userByDn, {group})
      ensures r.Ok? ==> directory.search(userDn, options.allUsersFilter).Some?
      ensures r.Ok? && r.value.Some? ==> FoundBy(userDn, r.value.value) && HoldsGroup(userByDn, [r.value.value], group)
    {
      var result := IterUsers(userDn, options.allUsersFilter, extended);
      if result.Err? {
        return Err(result.error);
      }
      ghost var entries := Entries(directory.search(userDn, options.allUsersFilter).value);
      if |result.value| > 1 {
        return Err(MultipleObjects + userDn);
      }
      if |result.value| == 0 {
        UsersStepExtends(Source(extended), old(userByDn), entries, {group});
        return Ok(None);
      }
      OneUserFound(Source(extended), old(userByDn), entries, group);
      AppendGroup(result.value[0].0, group);
      r := Ok(Some(result.value[0].0));
    }

    /** The two-step strategy for one group: every member DN the walk
        yields goes through `AddTwoStepMember`. Returns the DNs of the users
        given the group (`group_users` counts them); `walked` is what the
        walk yielded. */
    method LoadGroupTwoSteps(groupDn: string, group: string, ts: TwoSteps, extended: seq<string>)
      returns (r: Result<seq<string>, string>, ghost walked: seq<string>)
      modifies this
      ensures walked == MemberWalk(groupDn, ts)
      ensures WalkedAll(directory.lookup, groupDn, ts.groupMemberAttributeName, ts.nestedGroup, walked)
      ensures r.Ok? ==> Extends(old(userByDn), userByDn, {group})
      ensures r.Ok? ==> HoldsGroup(userByDn, r.value, group) && |r.value| <= |walked|
      ensures r.Ok? ==> SearchedAll(walked, |walked|) && FoundAll(walked, |walked|, r.value)
      ensures Yields(TwoStepsFold(old(userByDn), walked, group, extended), r, userByDn)
    {
      var members := WalkGroup(groupDn, ts);
      walked := members;
      ExtendsRefl(userByDn, {group});
      var dns: seq<string> := [];
      var i := 0;
      assert members[..0] == [];
      while i < |members|
        invariant 0 <= i <= |members|
        invariant TwoStepsState(old(userByDn), members, i, group, extended, userByDn, dns)
      {
        var added := AddWalkedMember(old(userByDn), members, i, group, extended, dns);
        if added.Err? {
          return Err(added.error), walked;
        }
        dns := added.value;
        i := i + 1;
      }
      TwoStepsDone(old(userByDn), members, group, extended, userByDn, dns);
      r := Ok(dns);
    }

    /** The DNs the walk of `groupDn` yields from nothing searched. */
    function MemberWalk(groupDn: string, ts: TwoSteps): seq<string> {
      Walk(directory.lookup, groupDn, ts.groupMemberAttributeName, ts.nestedGroup, []).0
    }

    /** The walk of the group's members that the two-step lookup starts
        with, from nothing searched. */
    method WalkGroup(groupDn: string, ts: TwoSteps) returns (members: seq<string>)
      ensures members == MemberWalk(groupDn, ts)
      ensures WalkedAll(directory.lookup, groupDn, ts.groupMemberAttributeName, ts.nestedGroup, members)
    {
      var after;
      members, after := IterGroupMemberDns(directory.lookup, groupDn, ts.groupMemberAttributeName, ts.nestedGroup, []);
      WalkFromNothing(directory.lookup, groupDn, ts.groupMemberAttributeName, ts.nestedGroup, after, members);
    }

    /** The loop state after every walked DN, stated on the whole walk. */
    lemma TwoStepsDone(start: map<string, User>, members: seq<string>, group: string, extended: seq<string>,
                       cache: map<string, User>, dns: seq<string>)
      requires TwoStepsState(start, members, |members|, group, extended, cache, dns)
      ensures TwoStepsFold(start, members, group, extended) == Ok((cache, dns))
      ensures Extends(start, cache, {group}) && HoldsGroup(cache, dns, group) && |dns| <= |members|
      ensures SearchedAll(members, |members|) && FoundAll(members, |members|, dns)
    {
      assert members[..|members|] == members;
    }

    /** What the loop of the two-step lookup keeps after the first `i`
        walked DNs: the cache and the users found are what the lookup over
        those DNs gives from `start`, the cache changed only by the group,
        and each user found holds it, was found at one of those DNs, and
        every one of them was searched. */
    predicate TwoStepsState(start: map<string, User>, members: seq<string>, i: nat, group: string, extended: seq<string>,
                            cache: map<string, User>, dns: seq<string>)
      requires i <= |members|
    {
      TwoStepsFold(start, members[..i], group, extended) == Ok((cache, dns)) &&
      Extends(start, cache, {group}) &&
      HoldsGroup(cache, dns, group) && |dns| <= i &&
      SearchedAll(members, i) && FoundAll(members, i, dns)
    }

    /** The loop body of the two-step lookup for walked DN `i`. */
    method AddWalkedMember(ghost start: map<string, User>, members: seq<string>, i: nat, group: string, extended: seq<string>,
                           dns: seq<string>) returns (r: Result<seq<string>, string>)
      requires i < |members| && TwoStepsState(start, members, i, group, extended, userByDn, dns)
      modifies this
      ensures r.Err? ==> TwoStepsFold(start, members, group, extended).Err?
      ensures r.Ok? ==> TwoStepsState(start, members, i + 1, group, extended, userByDn, r.value)
    {
      var before := userByDn;
      var added := AddTwoStepMember(members[i], group, extended);
      TwoStepsFoldStep(start, members, i, group, extended, before, dns, added, userByDn);
      if added.Err? {
        TwoStepsFoldErr(start, members, i + 1, group, extended);
        return Err(added.error);
      }
      SearchedAllStep(members, i);
      ExtendsTrans(start, before, userByDn, {group});
      HoldsGroupExtends(before, userByDn, {group}, dns, group);
      FoundAllStep(members, i, dns, added.value);
      HoldsGroupSnoc(userByDn, dns, added.value, group);
      r := Ok(if added.value.Some? then dns + [added.value.value] else dns);
    }

    /** The member DN `m` is checked against the base DN without error and,
        when inside it, its search succeeds. */
    predicate InScopeSearched(m: string) {
      var inScope := IsDnWithinBaseDnScope(options.baseDn, m, directory.parseDn);
      inScope.Ok? && (inScope.value ==> directory.search(m, options.allUsersFilter).Some?)
    }

    /** `dn` is the DN of an entry the search at member DN `m`, inside the
        base DN, found. */
    predicate FoundBy(m: string, dn: string) {
      IsDnWithinBaseDnScope(options.baseDn, m, directory.parseDn) == Ok(true) &&
      directory.search(m, options.allUsersFilter).Some? &&
      dn in EntryDns(Entries(directory.search(m, options.allUsersFilter).value))
    }

    /** The first `i` member DNs were all checked and searched. */
    predicate SearchedAll(members: seq<string>, i: nat)
      requires i <= |members|
    {
      forall k :: 0 <= k < i ==> InScopeSearched(members[k])
    }

    lemma SearchedAllStep(members: seq<string>, i: nat)
      requires i < |members| && SearchedAll(members, i) && InScopeSearched(members[i])
      ensures SearchedAll(members, i + 1)
    {
    }

    /** `dn` was found by the search at one of the first `i` member DNs. */
    predicate FoundIn(members: seq<string>, i: nat, dn: string)
      requires i <= |members|
    {
      exists k :: 0 <= k < i && FoundBy(members[k], dn)
    }

    /** Each DN of `dns` was found by the search at one of the first `i`
        member DNs. */
    predicate FoundAll(members: seq<string>, i: nat, dns: seq<string>)
      requires i <= |members|
    {
      forall j :: 0 <= j < |dns| ==> FoundIn(members, i, dns[j])
    }

    lemma FoundInWiden(members: seq<string>, i: nat, dn: string)
      requires i < |members| && FoundIn(members, i, dn)
      ensures FoundIn(members, i + 1, dn)
    {
      var k :| 0 <= k < i && FoundBy(members[k], dn);
      assert 0 <= k < i + 1 && FoundBy(members[k], dn);
    }

    lemma FoundAllStep(members: seq<string>, i: nat, dns: seq<string>, found: Option<string>)
      requires i < |members| && FoundAll(members, i, dns)
      requires found.Some? ==> FoundBy(members[i], found.value)
      ensures FoundAll(members, i + 1, if found.Some? then dns + [found.value] else dns)
    {
      var dns' := if found.Some? then dns + [found.value] else dns;
      forall j | 0 <= j < |dns'| ensures FoundIn(members, i + 1, dns'[j]) {
        if j < |dns| {
          assert dns'[j] == dns[j];
          FoundInWiden(members, i, dns[j]);
        } else {
          assert 0 <= i < i + 1 && FoundBy(members[i], dns'[j]);
        }
      }
    }

    /** The member filter in use; `six.text_type(None)` when none is set. */
    function MemberFilterFormat(): string {
      if options.groupMemberFilterFormat.Some? then options.groupMemberFilterFormat.value else "None"
    }

    /** The filter strategy for group `group` at `groupDn`, from the cache
        `before`: the group-user filter must format and its search succeed;
        the users it finds are searched through the cache, and each is then
        given the group. Gives the cache after that and the users' DNs. */
    function FilterOutcome(before: map<string, User>, groupDn: string, group: string, extended: seq<string>)
      : Result<(map<string, User>, seq<string>), string>
    {
      var filter :- FormatGroupUserFilter(MemberFilterFormat(), options.allUsersFilter, groupDn);
      var res := directory.search(options.baseDn, filter);
      if res.None? then Err(SearchFailed)
      else
        var spec :- UsersStep(Source(extended), before, Entries(res.value), []);
        Ok((AppendAll(spec.0, PairDns(spec.1), group), PairDns(spec.1)))
    }

    /** The filter strategy for one group: every user the group-user filter
        finds gets the group. */
    method LoadGroupByFilter(groupDn: string, group: string, extended: seq<string>) returns (r: Result<seq<string>, string>)
      modifies this
      ensures Yields(FilterOutcome(old(userByDn), groupDn, group, extended), r, userByDn)
      ensures r.Ok? ==> Extends(old(userByDn), userByDn, {group})
      ensures r.Ok? ==>
        var filter := FormatGroupUserFilter(MemberFilterFormat(), options.allUsersFilter, groupDn);
        filter.Ok? && directory.search(options.baseDn, filter.value).Some? &&
        var spec := UsersStep(Source(extended), old(userByDn), Entries(directory.search(options.baseDn, filter.value).value), []);
        spec.Ok? && r.value == PairDns(spec.value.1) && userByDn == AppendAll(spec.value.0, r.value, group)
      ensures r.Ok? ==> HoldsGroup(userByDn, r.value, group)
    {
      var filter := FormatGroupUserFilter(MemberFilterFormat(), options.allUsersFilter, groupDn);
      if filter.Err? {
        return Err(filter.error);
      }
      var start := userByDn;
      var pairs := IterUsers(options.baseDn, filter.value, extended);
      if pairs.Err? {
        return Err(pairs.error);
      }
      var ys := pairs.value;
      UsersStepExtends(Source(extended), start, Entries(directory.search(options.baseDn, filter.value).value), {group});
      UsersStepYields(Source(extended), start, Entries(directory.search(options.baseDn, filter.value).value), []);
      var middle := userByDn;
      assert forall k :: 0 <= k < |ys| ==> ys[k].0 in userByDn;
      AppendGroupToAll(ys, group);
      ExtendsTrans(start, middle, userByDn, {group});
      r := Ok(PairDns(ys));
    }

    /** A group search that finds exactly one entry with a non-empty DN. */
    predicate GroupFound(group: string) {
      var found := FindLdapGroupDn(options.groupFilterFormat, group, options.baseDn, directory.search);
      found.Ok? && found.value.Some? && found.value.value != ""
    }

    /** With the filter strategy, `dns` are the DNs of the users the
        group-user filter of the group found, in order, searched from the
        cache `before`, and `after` is the cache that search left with
        each of them given the group. */
    predicate FilterLoaded(group: string, extended: seq<string>, before: map<string, User>, dns: seq<string>, after: map<string, User>)
      requires GroupFound(group)
    {
      var groupDn := FindLdapGroupDn(options.groupFilterFormat, group, options.baseDn, directory.search).value.value;
      var filter := FormatGroupUserFilter(MemberFilterFormat(), options.allUsersFilter, groupDn);
      filter.Ok? && directory.search(options.baseDn, filter.value).Some? &&
      var spec := UsersStep(Source(extended), before, Entries(directory.search(options.baseDn, filter.value).value), []);
      spec.Ok? && dns == PairDns(spec.value.1) && after == AppendAll(spec.value.0, dns, group)
    }

    /** With the two-step strategy, `walked` is the walk of the group's
        members, every walked DN was searched without error, each DN of
        `dns` was found by the search at one of them, and `dns` and `after`
        are what the lookup over the walk gives from the cache `before`. */
    predicate TwoStepsLoaded(group: string, extended: seq<string>, before: map<string, User>, walked: seq<string>, dns: seq<string>, after: map<string, User>)
      requires GroupFound(group) && options.twoStepsLookup.Some?
    {
      var ts := options.twoStepsLookup.value;
      var groupDn := FindLdapGroupDn(options.groupFilterFormat, group, options.baseDn, directory.search).value.value;
      WalkedAll(directory.lookup, groupDn, ts.groupMemberAttributeName, ts.nestedGroup, walked) &&
      SearchedAll(walked, |walked|) && FoundAll(walked, |walked|, dns) &&
      TwoStepsFold(before, walked, group, extended) == Ok((after, dns))
    }

    /** The group was found and loaded from the cache `before` into
        `after` by the configured strategy, giving the user DNs `dns`. */
    predicate GroupStep(group: string, extended: seq<string>, before: map<string, User>, walked: seq<string>, dns: seq<string>, after: map<string, User>) {
      GroupFound(group) &&
      (options.twoStepsLookup.None? ==> FilterLoaded(group, extended, before, dns, after)) &&
      (options.twoStepsLookup.Some? ==> TwoStepsLoaded(group, extended, before, walked, dns, after))
    }

    /** One group of `load_users_and_groups` from the cache `before`: its
        DN must be found, once and non-empty; then the two-step lookup over
        the walk of its members, or the filter strategy, gives the cache
        after it and the DNs of the users given the group. */
    function GroupOutcome(before: map<string, User>, group: string, extended: seq<string>)
      : Result<(map<string, User>, seq<string>), string>
    {
      var found :- FindLdapGroupDn(options.groupFilterFormat, group, options.baseDn, directory.search);
      if found.None? || found.value == "" then Err(NoGroupFound + group)
      else if options.twoStepsLookup.Some? then
        TwoStepsFold(before, MemberWalk(found.value, options.twoStepsLookup.value), group, extended)
      else FilterOutcome(before, found.value, group, extended)
    }

    /** One group of `load_users_and_groups`: its DN is looked up, then its
        members are loaded by the configured strategy. */
    method LoadGroup(group: string, extended: seq<string>) returns (r: Result<seq<string>, string>, ghost walked: seq<string>)
      modifies this
      ensures Yields(GroupOutcome(old(userByDn), group, extended), r, userByDn)
      ensures r.Ok? ==> GroupFound(group) && Extends(old(userByDn), userByDn, {group})
      ensures r.Ok? ==> HoldsGroup(userByDn, r.value, group)
      ensures r.Ok? ==> GroupStep(group, extended, old(userByDn), walked, r.value, userByDn)
    {
      walked := [];
      var found := FindLdapGroupDn(options.groupFilterFormat, group, options.baseDn, directory.search);
      if found.Err? {
        return Err(found.error), walked;
      }
      if found.value.None? || found.value.value == "" {
        return Err(NoGroupFound + group), walked;
      }
      var loaded: Result<seq<string>, string>;
      if options.twoStepsLookup.Some? {
        loaded, walked := LoadGroupTwoSteps(found.value.value, group, options.twoStepsLookup.value, extended);
      } else {
        loaded := LoadGroupByFilter(found.value.value, group, extended);
      }
      if loaded.Err? {
        return Err("Unexpected LDAP failure reading group members: " + loaded.error), walked;
      }
      r := Ok(loaded.value);
    }

    /** The search for all users that `load_users_and_groups` makes first
        when asked: it adds users without groups. */
    method LoadAllUsers(extended: seq<string>, ghost names: set<string>) returns (r: Result<(), string>)
      modifies this
      ensures directory.search(options.baseDn, options.allUsersFilter).None? ==> r.Err?
      ensures directory.search(options.baseDn, options.allUsersFilter).Some? ==>
        var spec := UsersStep(Source(extended), old(userByDn), Entries(directory.search(options.baseDn, options.allUsersFilter).value), []);
        (spec.Err? ==> r.Err?) && (spec.Ok? ==> r.Ok? && userByDn == spec.value.0)
      ensures r.Ok? ==> Extends(old(userByDn), userByDn, names)
    {
      var start := userByDn;
      var all := IterUsers(options.baseDn, options.allUsersFilter, extended);
      if all.Err? {
        return Err(all.error);
      }
      UsersStepExtends(Source(extended), start, Entries(directory.search(options.baseDn, options.allUsersFilter).value), names);
      r := Ok(());
    }

    /** `load_users_and_groups`: all users first when asked, then each group
        by the configured strategy. A group that is not found, or found more
        than once, is an error. Returns the cache, whose users keep their
        fields and gain only groups asked for. */
    method LoadUsersAndGroups(groups: seq<string>, extended: seq<string>, allUsers: bool)
      returns (r: Result<map<string, User>, string>, ghost members: seq<seq<string>>,
               ghost walks: seq<seq<string>>, ghost caches: seq<map<string, User>>)
      modifies this
      ensures UsersAndGroupsOutcome(old(userByDn), groups, extended, allUsers).Err? ==> r.Err?
      ensures var spec := UsersAndGroupsOutcome(old(userByDn), groups, extended, allUsers);
        spec.Ok? ==> r == Ok(userByDn) && userByDn == spec.value.0 && members == spec.value.1
      ensures r.Ok? ==> r.value == userByDn
      ensures r.Ok? ==> Extends(old(userByDn), userByDn, Elems(groups))
      ensures r.Ok? ==> forall g :: g in groups ==> GroupFound(g)
      ensures r.Ok? ==> |members| == |groups| && GroupsHeld(userByDn, members, groups)
      ensures r.Ok? ==>
        GroupsLoaded(groups, extended, caches, walks, members) && |members| == |groups| &&
        AllUsersLoaded(allUsers, extended, old(userByDn), caches[0]) && caches[|groups|] == userByDn
    {
      ExtendsRefl(userByDn, Elems(groups));
      if allUsers {
        var all := LoadAllUsers(extended, Elems(groups));
        if all.Err? {
          return Err("Unexpected LDAP failure reading all users: " + all.error), [], [], [];
        }
      }
      assert AllUsersLoaded(allUsers, extended, old(userByDn), userByDn);
      ghost var start := userByDn;
      var loaded;
      loaded, walks, caches := LoadGroups(groups, extended);
      if loaded.Err? {
        return Err(loaded.error), [], walks, caches;
      }
      members := loaded.value;
      ExtendsTrans(old(userByDn), start, userByDn, Elems(groups));
      r := Ok(userByDn);
    }

    /** The loop over the groups of `load_users_and_groups`: each group in
        turn, from the cache the previous one left. */
    method LoadGroups(groups: seq<string>, extended: seq<string>)
      returns (r: Result<seq<seq<string>>, string>,
               ghost walks: seq<seq<string>>, ghost caches: seq<map<string, User>>)
      modifies this
      ensures Yields(GroupsFold(old(userByDn), groups, extended), r, userByDn)
      ensures r.Ok? ==> Extends(old(userByDn), userByDn, Elems(groups))
      ensures r.Ok? ==> forall g :: g in groups ==> GroupFound(g)
      ensures r.Ok? ==> |r.value| == |groups| && GroupsHeld(userByDn, r.value, groups)
      ensures r.Ok? ==>
        GroupsLoaded(groups, extended, caches, walks, r.value) &&
        caches[0] == old(userByDn) && caches[|groups|] == userByDn
    {
      var members: seq<seq<string>> := [];
      walks, caches := [], [userByDn];
      ExtendsRefl(userByDn, Elems(groups));
      assert groups[..0] == [];
      var i := 0;
      while i < |groups|
        invariant 0 <= i <= |groups|
        invariant GroupsState(old(userByDn), groups, extended, i, userByDn, members, walks, caches)
      {
        var loaded;
        loaded, walks, caches := LoadNextGroup(old(userByDn), groups, extended, i, members, walks, caches);
        if loaded.Err? {
          return Err(loaded.error), walks, caches;
        }
        members := loaded.value;
        i := i + 1;
      }
      GroupsDone(old(userByDn), groups, extended, userByDn, members, walks, caches);
      r := Ok(members);
    }

    /** What the loop over the groups keeps after the first `i`: the cache
        and the users' DNs are what loading those groups gives from `start`,
        one after the other; each of them was found; the cache changed only
        by their names, and each group's users hold it. */
    predicate GroupsState(start: map<string, User>, groups: seq<string>, extended: seq<string>, i: nat,
                          cache: map<string, User>, members: seq<seq<string>>,
                          walks: seq<seq<string>>, caches: seq<map<string, User>>)
      requires i <= |groups|
    {
      GroupsFold(start, groups[..i], extended) == Ok((cache, members)) &&
      Extends(start, cache, Elems(groups)) && AllFound(groups, i) &&
      |members| == i && GroupsHeld(cache, members, groups) &&
      GroupsLoaded(groups, extended, caches, walks, members) &&
      caches[0] == start && caches[i] == cache
    }

    /** The loop body over the groups, for group `i`. */
    method LoadNextGroup(ghost start: map<string, User>, groups: seq<string>, extended: seq<string>, i: nat,
                         members: seq<seq<string>>, ghost walks: seq<seq<string>>, ghost caches: seq<map<string, User>>)
      returns (r: Result<seq<seq<string>>, string>, ghost walks': seq<seq<string>>, ghost caches': seq<map<string, User>>)
      requires i < |groups| && GroupsState(start, groups, extended, i, userByDn, members, walks, caches)
      modifies this
      ensures r.Err? ==> GroupsFold(start, groups, extended).Err?
      ensures r.Ok? ==> GroupsState(start, groups, extended, i + 1, userByDn, r.value, walks', caches')
    {
      walks', caches' := walks, caches;
      var before := userByDn;
      var loaded, walked := LoadGroup(groups[i], extended);
      GroupsFoldStep(start, groups, i, extended, before, members, loaded, userByDn);
      if loaded.Err? {
        GroupsFoldErr(start, groups, i + 1, extended);
        return Err(loaded.error), walks', caches';
      }
      GroupLoaded(start, before, userByDn, groups, members, loaded.value);
      AllFoundStep(groups, i);
      GroupsLoadedStep(groups, extended, caches, walks, members, walked, loaded.value, userByDn);
      walks', caches' := walks + [walked], caches + [userByDn];
      r := Ok(members + [loaded.value]);
    }

    /** The loop state after every group, stated on all of them. */
    lemma GroupsDone(start: map<string, User>, groups: seq<string>, extended: seq<string>,
                     cache: map<string, User>, members: seq<seq<string>>,
                     walks: seq<seq<string>>, caches: seq<map<string, User>>)
      requires GroupsState(start, groups, extended, |groups|, cache, members, walks, caches)
      ensures GroupsFold(start, groups, extended) == Ok((cache, members))
      ensures forall g :: g in groups ==> GroupFound(g)
    {
      assert groups[..|groups|] == groups;
      forall g | g in groups ensures GroupFound(g) {
        var k :| 0 <= k < |groups| && groups[k] == g;
        assert GroupFound(groups[k]);
      }
    }

    /** The groups of `load_users_and_groups` in order, each loaded from the
        cache the previous one left, starting from `before`: the final cache
        and the DNs of each group's users, or the first group's error. */
    function GroupsFold(before: map<string, User>, groups: seq<string>, extended: seq<string>)
      : Result<(map<string, User>, seq<seq<string>>), string>
      decreases |groups|
    {
      if groups == [] then Ok((before, []))
      else
        var prev :- GroupsFold(before, groups[..|groups| - 1], extended);
        var step :- GroupOutcome(prev.0, groups[|groups| - 1], extended);
        Ok((step.0, prev.1 + [step.1]))
    }

    /** All of `load_users_and_groups` from the cache `before`: when all
        users are asked for, their search must succeed and the groups start
        from the cache it leaves; otherwise from `before`. */
    function UsersAndGroupsOutcome(before: map<string, User>, groups: seq<string>, extended: seq<string>, allUsers: bool)
      : Result<(map<string, User>, seq<seq<string>>), string>
    {
      if !allUsers then GroupsFold(before, groups, extended)
      else
        var res := directory.search(options.baseDn, options.allUsersFilter);
        if res.None? then Err(SearchFailed)
        else
          var spec :- UsersStep(Source(extended), before, Entries(res.value), []);
          GroupsFold(spec.0, groups, extended)
    }

    lemma GroupsFoldStep(before: map<string, User>, groups: seq<string>, i: nat, extended: seq<string>,
                         mid: map<string, User>, members: seq<seq<string>>, r: Result<seq<string>, string>, after: map<string, User>)
      requires i < |groups| && GroupsFold(before, groups[..i], extended) == Ok((mid, members))
      requires Yields(GroupOutcome(mid, groups[i], extended), r, after)
      ensures r.Err? ==> GroupsFold(before, groups[..i + 1], extended).Err?
      ensures r.Ok? ==> GroupsFold(before, groups[..i + 1], extended) == Ok((after, members + [r.value]))
    {
      assert groups[..i + 1][..i] == groups[..i];
    }

    /** Once a group fails, loading the groups fails. */
    lemma {:induction false} GroupsFoldErr(before: map<string, User>, groups: seq<string>, i: nat, extended: seq<string>)
      requires i <= |groups| && GroupsFold(before, groups[..i], extended).Err?
      ensures GroupsFold(before, groups, extended).Err?
      decreases |groups| - i
    {
      if i == |groups| {
        assert groups[..i] == groups;
      } else {
        assert groups[..i + 1][..i] == groups[..i];
        GroupsFoldErr(before, groups, i + 1, extended);
      }
    }

    /** The first `i` groups were each found. */
    predicate AllFound(groups: seq<string>, i: nat)
      requires i <= |groups|
    {
      forall k :: 0 <= k < i ==> GroupFound(groups[k])
    }

    lemma AllFoundStep(groups: seq<string>, i: nat)
      requires i < |groups| && AllFound(groups, i) && GroupFound(groups[i])
      ensures AllFound(groups, i + 1)
    {
    }

    /** The cache `load_users_and_groups` starts the groups from: `before`
        itself, or, when all users are asked for, the cache the search for
        all users leaves. */
    predicate AllUsersLoaded(allUsers: bool, extended: seq<string>, before: map<string, User>, after: map<string, User>) {
      if allUsers then
        directory.search(options.baseDn, options.allUsersFilter).Some? &&
        var spec := UsersStep(Source(extended), before, Entries(directory.search(options.baseDn, options.allUsersFilter).value), []);
        spec.Ok? && after == spec.value.0
      else after == before
    }

    /** The first `|members|` groups were loaded one after the other: group
        `i` from `caches[i]` into `caches[i + 1]`, over the walk `walks[i]`
        in two-step mode, giving the user DNs `members[i]`. */
    predicate GroupsLoaded(groups: seq<string>, extended: seq<string>, caches: seq<map<string, User>>,
                           walks: seq<seq<string>>, members: seq<seq<string>>)
      decreases |members|
    {
      var n := |members|;
      n <= |groups| && |walks| == n && |caches| == n + 1 &&
      (n > 0 ==>
        GroupsLoaded(groups, extended, caches[..n], walks[..n - 1], members[..n - 1]) &&
        GroupStep(groups[n - 1], extended, caches[n - 1], walks[n - 1], members[n - 1], caches[n]))
    }

    lemma GroupsLoadedStep(groups: seq<string>, extended: seq<string>, caches: seq<map<string, User>>,
                           walks: seq<seq<string>>, members: seq<seq<string>>,
                           walked: seq<string>, dns: seq<string>, after: map<string, User>)
      requires GroupsLoaded(groups, extended, caches, walks, members) && |members| < |groups|
      requires GroupStep(groups[|members|], extended, caches[|members|], walked, dns, after)
      ensures GroupsLoaded(groups, extended, caches + [after], walks + [walked], members + [dns])
    {
      var n := |members|;
      assert (caches + [after])[..n + 1] == caches;
      assert (walks + [walked])[..n] == walks;
      assert (members + [dns])[..n] == members;
    }
  }
}
