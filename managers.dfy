/** `VoteManager.delete_from_ip_address`: delete every vote cast from one IP
    address, then recompute the rating fields of every object those votes were
    on, from the votes that remain. */
module Managers {

  import opened Wrappers
  import opened Models
  import opened Fields

  /** The rating fields each content type declares (its `_djangoratings`). */
  type Registry = map<int, seq<RatingField>>

  function FieldsOf(registry: Registry, contentType: int): seq<RatingField> {
    if contentType in registry then registry[contentType] else []
  }

  /** No model declares two rating fields under one name. */
  predicate NamesUnique(fields: seq<RatingField>) {
    forall a, b :: 0 <= a < b < |fields| ==> fields[a].name != fields[b].name
  }

  predicate RegistryNamesUnique(registry: Registry) {
    forall ct :: ct in registry ==> NamesUnique(registry[ct])
  }

  predicate NoDuplicates(s: seq<ObjRef>) {
    forall a, b :: 0 <= a < b < |s| ==> s[a] != s[b]
  }

  // ---------------------------------------------------------------------
  // The query: distinct (content_type, object_id) of the IP's votes,
  // ordered by content type
  // ---------------------------------------------------------------------

  /** The objects the IP's votes are on. */
  ghost function Affected(votes: seq<Vote>, ip: string): set<ObjRef> {
    set v | v in votes && v.ipAddress == ip :: v.obj
  }

  /** `values_list('content_type', 'object_id')` of the IP's votes, in table order. */
  function RefsFrom(votes: seq<Vote>, ip: string): (refs: seq<ObjRef>)
    ensures forall r :: r in refs <==> r in Affected(votes, ip)
  {
    if |votes| == 0 then []
    else
      var n := |votes| - 1;
      assert votes == votes[..n] + [votes[n]];
      RefsFrom(votes[..n], ip) + (if votes[n].ipAddress == ip then [votes[n].obj] else [])
  }

  /** `.distinct()`: the first occurrence of each reference, in order. */
  function Distinct(s: seq<ObjRef>): (r: seq<ObjRef>)
    ensures forall x :: x in r <==> x in s
    ensures NoDuplicates(r)
  {
    if |s| == 0 then []
    else
      var n := |s| - 1;
      assert s == s[..n] + [s[n]];
      var d := Distinct(s[..n]);
      if s[n] in d then d else d + [s[n]]
  }

  predicate SortedByType(s: seq<ObjRef>) {
    forall i :: 0 < i < |s| ==> s[i - 1].contentType <= s[i].contentType
  }

  function InsertByType(x: ObjRef, s: seq<ObjRef>): seq<ObjRef> {
    if |s| == 0 then [x]
    else if x.contentType <= s[0].contentType then [x] + s
    else [s[0]] + InsertByType(x, s[1..])
  }

  /** Prepending an element no greater than the head keeps a list ordered. */
  lemma ConsSorted(a: ObjRef, t: seq<ObjRef>)
    requires SortedByType(t)
    requires |t| == 0 || a.contentType <= t[0].contentType
    ensures SortedByType([a] + t)
  {
    var r := [a] + t;
    forall i | 0 < i < |r| ensures r[i - 1].contentType <= r[i].contentType {
      if i > 1 {
        assert r[i - 1] == t[i - 2] && r[i] == t[i - 1];
      }
    }
  }

  lemma {:induction false} InsertByTypeOrdered(x: ObjRef, s: seq<ObjRef>)
    requires SortedByType(s)
    ensures SortedByType(InsertByType(x, s))
    ensures InsertByType(x, s)[0] == x || InsertByType(x, s)[0] == s[0]
  {
    if |s| > 0 && x.contentType > s[0].contentType {
      assert SortedByType(s[1..]);
      InsertByTypeOrdered(x, s[1..]);
      if |s| > 1 {
        assert s[0].contentType <= s[1].contentType;
      }
      ConsSorted(s[0], InsertByType(x, s[1..]));
    } else if |s| > 0 {
      ConsSorted(x, s);
    }
  }

  lemma {:induction false} InsertByTypeCount(x: ObjRef, s: seq<ObjRef>)
    ensures multiset(InsertByType(x, s)) == multiset(s) + multiset{x}
  {
    if |s| > 0 {
      assert s == [s[0]] + s[1..];
      if x.contentType > s[0].contentType {
        InsertByTypeCount(x, s[1..]);
      }
    }
  }

  /** Inserting into an ordered list keeps it ordered and adds exactly `x`. */
  lemma InsertByTypeSorts(x: ObjRef, s: seq<ObjRef>)
    requires SortedByType(s)
    ensures SortedByType(InsertByType(x, s))
    ensures multiset(InsertByType(x, s)) == multiset(s) + multiset{x}
  {
    InsertByTypeOrdered(x, s);
    InsertByTypeCount(x, s);
  }

  /** `.order_by('content_type')`: insertion sort by content type. */
  function SortByType(s: seq<ObjRef>): seq<ObjRef> {
    if |s| == 0 then [] else InsertByType(s[0], SortByType(s[1..]))
  }

  lemma {:induction false} SortByTypeSorts(s: seq<ObjRef>)
    ensures SortedByType(SortByType(s))
    ensures multiset(SortByType(s)) == multiset(s)
  {
    if |s| > 0 {
      assert s == [s[0]] + s[1..];
      SortByTypeSorts(s[1..]);
      InsertByTypeSorts(s[0], SortByType(s[1..]));
    }
  }

  /** A reordering of a sequence without duplicates has none. */
  lemma PermutationKeepsNoDuplicates(s: seq<ObjRef>, r: seq<ObjRef>)
    requires NoDuplicates(s) && multiset(r) == multiset(s)
    ensures NoDuplicates(r)
  {
    forall a, b | 0 <= a < b < |r| ensures r[a] != r[b] {
      if r[a] == r[b] {
        var x := r[a];
        assert multiset(r)[x] >= 2 by {
          assert r == r[..b] + [r[b]] + r[b + 1..];
          assert x in r[..b];
        }
        OccursAtMostOnce(s, x);
        assert false;
      }
    }
  }

  lemma {:induction false} OccursAtMostOnce(s: seq<ObjRef>, x: ObjRef)
    requires NoDuplicates(s)
    ensures multiset(s)[x] <= 1
  {
    if |s| > 0 {
      var n := |s| - 1;
      assert s == s[..n] + [s[n]];
      OccursAtMostOnce(s[..n], x);
      if s[n] == x {
        assert x !in s[..n];
      }
    }
  }

  // ---------------------------------------------------------------------
  // itertools.groupby(..., key=content type)
  // ---------------------------------------------------------------------

  datatype Group = Group(contentType: int, objects: seq<ObjRef>)

  /** The references of the groups, in order. */
  function Members(gs: seq<Group>): seq<ObjRef> {
    if |gs| == 0 then [] else Members(gs[..|gs| - 1]) + gs[|gs| - 1].objects
  }

  predicate WellGrouped(gs: seq<Group>) {
    forall k :: 0 <= k < |gs| ==>
      |gs[k].objects| > 0 && forall o :: o in gs[k].objects ==> o.contentType == gs[k].contentType
  }

  /** One step of grouping: `x` joins the last group if it has the same
      content type, and opens a new group otherwise. */
  function Push(gs: seq<Group>, x: ObjRef): seq<Group> {
    if |gs| > 0 && gs[|gs| - 1].contentType == x.contentType
    then gs[..|gs| - 1] + [Group(x.contentType, gs[|gs| - 1].objects + [x])]
    else gs + [Group(x.contentType, [x])]
  }

  /** Runs of consecutive references with the same content type. */
  function GroupByType(s: seq<ObjRef>): seq<Group> {
    if |s| == 0 then [] else Push(GroupByType(s[..|s| - 1]), s[|s| - 1])
  }

  predicate Ordered(gs: seq<Group>) {
    forall a, b :: 0 <= a < b < |gs| ==> gs[a].contentType < gs[b].contentType
  }

  lemma PushMembers(gs: seq<Group>, x: ObjRef)
    ensures Members(Push(gs, x)) == Members(gs) + [x]
    ensures |Push(gs, x)| > 0 && Push(gs, x)[|Push(gs, x)| - 1].contentType == x.contentType
    ensures WellGrouped(gs) ==> WellGrouped(Push(gs, x))
    ensures forall k :: 0 <= k < |gs| - 1 ==> Push(gs, x)[k] == gs[k]
  {
    if |gs| > 0 && gs[|gs| - 1].contentType == x.contentType {
      var m := |gs| - 1;
      var p := Push(gs, x);
      assert p[..m] == gs[..m];
      assert Members(gs) == Members(gs[..m]) + gs[m].objects;
    } else {
      assert Push(gs, x)[..|gs|] == gs;
    }
  }

  /** `groupby` loses nothing and reorders nothing: the groups, concatenated,
      are the input; each group is non-empty and of one content type. */
  lemma {:induction false} GroupByTypePartitions(s: seq<ObjRef>)
    ensures Members(GroupByType(s)) == s
    ensures WellGrouped(GroupByType(s))
    ensures |s| > 0 ==> |GroupByType(s)| > 0 && GroupByType(s)[|GroupByType(s)| - 1].contentType == s[|s| - 1].contentType
  {
    if |s| > 0 {
      var n := |s| - 1;
      GroupByTypePartitions(s[..n]);
      PushMembers(GroupByType(s[..n]), s[n]);
      assert s == s[..n] + [s[n]];
    }
  }

  /** Pushing a reference whose content type is at least the last group's
      keeps the group types strictly increasing. */
  lemma PushKeepsOrdered(gs: seq<Group>, x: ObjRef)
    requires Ordered(gs)
    requires |gs| > 0 ==> gs[|gs| - 1].contentType <= x.contentType
    ensures Ordered(Push(gs, x))
  {
    var p := Push(gs, x);
    if |gs| > 0 && gs[|gs| - 1].contentType == x.contentType {
      var m := |gs| - 1;
      assert |p| == |gs|;
      assert forall k :: 0 <= k < |p| ==> p[k].contentType == gs[k].contentType;
    } else {
      assert p == gs + [Group(x.contentType, [x])];
    }
  }

  /** Over a list ordered by content type, the groups' types strictly
      increase, so each content type forms exactly one group. */
  lemma {:induction false} GroupsOfSortedAreOrdered(s: seq<ObjRef>)
    requires SortedByType(s)
    ensures Ordered(GroupByType(s))
  {
    if |s| > 0 {
      var n := |s| - 1;
      var init := GroupByType(s[..n]);
      assert SortedByType(s[..n]);
      GroupsOfSortedAreOrdered(s[..n]);
      GroupByTypePartitions(s[..n]);
      if n > 0 {
        assert init[|init| - 1].contentType == s[n - 1].contentType;
      }
      PushKeepsOrdered(init, s[n]);
    }
  }

  // ---------------------------------------------------------------------
  // Loading the affected objects
  // ---------------------------------------------------------------------

  /** The references whose host object exists, in order. */
  function Present(refs: seq<ObjRef>, hosts: map<ObjRef, map<string, Tally>>): (r: seq<ObjRef>)
    ensures forall x :: x in r <==> x in refs && x in hosts
  {
    if |refs| == 0 then []
    else
      var n := |refs| - 1;
      assert refs == refs[..n] + [refs[n]];
      Present(refs[..n], hosts) + (if refs[n] in hosts then [refs[n]] else [])
  }

  lemma {:induction false} PresentAppend(a: seq<ObjRef>, b: seq<ObjRef>, hosts: map<ObjRef, map<string, Tally>>)
    ensures Present(a + b, hosts) == Present(a, hosts) + Present(b, hosts)
  {
    if |b| == 0 {
      assert a + b == a;
    } else {
      var n := |b| - 1;
      var ab := a + b;
      var tail := if b[n] in hosts then [b[n]] else [];
      assert ab[..|ab| - 1] == a + b[..n];
      assert ab[|ab| - 1] == b[n];
      assert Present(ab, hosts) == Present(a + b[..n], hosts) + tail;
      assert Present(b, hosts) == Present(b[..n], hosts) + tail;
      PresentAppend(a, b[..n], hosts);
    }
  }

  lemma {:induction false} PresentKeepsNoDuplicates(refs: seq<ObjRef>, hosts: map<ObjRef, map<string, Tally>>)
    requires NoDuplicates(refs)
    ensures NoDuplicates(Present(refs, hosts))
  {
    if |refs| > 0 {
      var n := |refs| - 1;
      PresentKeepsNoDuplicates(refs[..n], hosts);
      assert refs[n] !in refs[..n];
    }
  }

  /** The objects of one group, as the evident intent of line 15 has it:
      `filter(pk__in=<the group's object ids>)` on the group's model. */
  function LoadGroup(hosts: map<ObjRef, map<string, Tally>>, g: Group): (r: seq<ObjRef>)
    ensures forall x :: x in r <==> x in g.objects && x in hosts
    ensures (forall o :: o in g.objects ==> o.contentType == g.contentType) ==>
      forall x :: x in r ==> x.contentType == g.contentType
  {
    Present(g.objects, hosts)
  }

  /** Line 15 as written: `list(objects)[0]` is the group's first
      (content_type, object_id) tuple, so `pk__in` gets those two numbers. */
  function LoadGroupAsWritten(hosts: map<ObjRef, map<string, Tally>>, g: Group): (r: set<ObjRef>)
    requires |g.objects| > 0
    ensures forall x :: x in r <==>
      && x in hosts && x.contentType == g.contentType
      && (x.objectId == g.objects[0].contentType || x.objectId == g.objects[0].objectId)
  {
    var first := g.objects[0];
    set pk | pk in {first.contentType, first.objectId} && ObjRef(g.contentType, pk) in hosts :: ObjRef(g.contentType, pk)
  }

  /** Two votes from one IP on objects 1 and 2 of content type 7: as written,
      object 2 is never recomputed and object 7, which the IP never voted on,
      is; the intended load is exactly objects 1 and 2. */
  lemma AsWrittenLoadsWrongObjects()
    ensures var hosts := map[ObjRef(7, 1) := map[], ObjRef(7, 2) := map[], ObjRef(7, 7) := map[]];
      var g := Group(7, [ObjRef(7, 1), ObjRef(7, 2)]);
      && LoadGroupAsWritten(hosts, g) == {ObjRef(7, 1), ObjRef(7, 7)}
      && LoadGroup(hosts, g) == [ObjRef(7, 1), ObjRef(7, 2)]
  {
    var hosts: map<ObjRef, map<string, Tally>> := map[ObjRef(7, 1) := map[], ObjRef(7, 2) := map[], ObjRef(7, 7) := map[]];
    var g := Group(7, [ObjRef(7, 1), ObjRef(7, 2)]);
    var w := LoadGroupAsWritten(hosts, g);
    assert ObjRef(7, 1) in w && ObjRef(7, 7) in w;
    assert forall x :: x in w ==> x == ObjRef(7, 1) || x == ObjRef(7, 7);
    assert [ObjRef(7, 1), ObjRef(7, 2)][..1] == [ObjRef(7, 1)];
    assert [ObjRef(7, 1)][..0] == [];
  }

  /** The groups' loads, concatenated: the `to_update` list. */
  function LoadAll(hosts: map<ObjRef, map<string, Tally>>, gs: seq<Group>): seq<ObjRef> {
    if |gs| == 0 then [] else LoadAll(hosts, gs[..|gs| - 1]) + LoadGroup(hosts, gs[|gs| - 1])
  }

  lemma {:induction false} LoadAllIsPresent(hosts: map<ObjRef, map<string, Tally>>, gs: seq<Group>)
    ensures LoadAll(hosts, gs) == Present(Members(gs), hosts)
  {
    if |gs| > 0 {
      var n := |gs| - 1;
      LoadAllIsPresent(hosts, gs[..n]);
      PresentAppend(Members(gs[..n]), gs[n].objects, hosts);
    }
  }

  /** The objects the purge recomputes, in the order it saves them. */
  function AffectedObjects(votes: seq<Vote>, ip: string, hosts: map<ObjRef, map<string, Tally>>): seq<ObjRef> {
    LoadAll(hosts, GroupByType(SortByType(Distinct(RefsFrom(votes, ip)))))
  }

  /** Every existing object the IP voted on is recomputed, exactly once, and no other. */
  lemma AffectedObjectsExactlyOnce(votes: seq<Vote>, ip: string, hosts: map<ObjRef, map<string, Tally>>)
    ensures forall r :: r in AffectedObjects(votes, ip, hosts) <==> r in hosts && r in Affected(votes, ip)
    ensures NoDuplicates(AffectedObjects(votes, ip, hosts))
  {
    var d := Distinct(RefsFrom(votes, ip));
    var sorted := SortByType(d);
    SortByTypeSorts(d);
    GroupByTypePartitions(sorted);
    LoadAllIsPresent(hosts, GroupByType(sorted));
    assert forall x :: x in sorted <==> x in multiset(d);
    PermutationKeepsNoDuplicates(d, sorted);
    PresentKeepsNoDuplicates(sorted, hosts);
  }

  // ---------------------------------------------------------------------
  // Recomputing
  // ---------------------------------------------------------------------

  /** The columns `_update` writes for each field, in declaration order. */
  function FieldTallies(fields: seq<RatingField>, ref: ObjRef, votes: seq<Vote>): map<string, Tally> {
    if |fields| == 0 then map[]
    else
      var f := fields[|fields| - 1];
      FieldTallies(fields[..|fields| - 1], ref, votes)[f.name := TallyOf(votes, ref, f.key)]
  }

  /** With distinct names, each field's column holds its own key's aggregate. */
  lemma {:induction false} FieldTalliesAt(fields: seq<RatingField>, ref: ObjRef, votes: seq<Vote>, a: nat)
    requires NamesUnique(fields) && a < |fields|
    ensures fields[a].name in FieldTallies(fields, ref, votes)
    ensures FieldTallies(fields, ref, votes)[fields[a].name] == TallyOf(votes, ref, fields[a].key)
  {
    var n := |fields| - 1;
    if a < n {
      FieldTalliesAt(fields[..n], ref, votes, a);
    }
  }

  lemma MergeThenUpdate<K, V>(c: map<K, V>, m: map<K, V>, k: K, v: V)
    ensures (c + m)[k := v] == c + m[k := v]
  {
  }

  function KeysOf(fields: seq<RatingField>): set<string> {
    set f | f in fields :: f.key
  }

  /** The Score rows `_update` writes for each field of one object. */
  function ScoreTallies(ref: ObjRef, fields: seq<RatingField>, votes: seq<Vote>): (m: map<ScoreKey, Tally>)
    ensures forall k :: k in m <==> k.0 == ref && k.1 in KeysOf(fields)
    ensures forall k :: k in m ==> m[k] == TallyOf(votes, k.0, k.1)
  {
    if |fields| == 0 then map[]
    else
      var n := |fields| - 1;
      assert fields == fields[..n] + [fields[n]];
      ScoreTallies(ref, fields[..n], votes)[(ref, fields[n].key) := TallyOf(votes, ref, fields[n].key)]
  }

  /** Score row `k` is one the purge rewrites, given the objects recomputed. */
  predicate Resynced(k: ScoreKey, refs: seq<ObjRef>, registry: Registry) {
    k.0 in refs && k.1 in KeysOf(FieldsOf(registry, k.0.contentType))
  }

  /** The host rows after recomputing `refs`, one after the other. */
  function RecomputedHosts(hosts: map<ObjRef, map<string, Tally>>, refs: seq<ObjRef>, registry: Registry, votes: seq<Vote>)
    : (h: map<ObjRef, map<string, Tally>>)
    requires forall r :: r in refs ==> r in hosts
    ensures h.Keys == hosts.Keys
  {
    if |refs| == 0 then hosts
    else
      var n := |refs| - 1;
      var r := refs[n];
      var h := RecomputedHosts(hosts, refs[..n], registry, votes);
      h[r := h[r] + FieldTallies(FieldsOf(registry, r.contentType), r, votes)]
  }

  /** A recomputed object holds its old columns overwritten by the fresh
      aggregate of every field it declares; every other object is untouched.
      Recomputing an object twice is the same as once. */
  lemma {:induction false} RecomputedHostsAt(hosts: map<ObjRef, map<string, Tally>>, refs: seq<ObjRef>, registry: Registry,
                                             votes: seq<Vote>, r: ObjRef)
    requires forall x :: x in refs ==> x in hosts
    requires r in hosts
    ensures RecomputedHosts(hosts, refs, registry, votes)[r] ==
      if r in refs then hosts[r] + FieldTallies(FieldsOf(registry, r.contentType), r, votes) else hosts[r]
  {
    if |refs| > 0 {
      var n := |refs| - 1;
      assert refs == refs[..n] + [refs[n]];
      RecomputedHostsAt(hosts, refs[..n], registry, votes, r);
    }
  }

  /** The Score rows after recomputing `refs`, one after the other. */
  function ResyncedScores(scores: map<ScoreKey, Tally>, refs: seq<ObjRef>, registry: Registry, votes: seq<Vote>)
    : map<ScoreKey, Tally>
  {
    if |refs| == 0 then scores
    else
      var n := |refs| - 1;
      var r := refs[n];
      ResyncedScores(scores, refs[..n], registry, votes) + ScoreTallies(r, FieldsOf(registry, r.contentType), votes)
  }

  /** The Score rows of every declared field of every recomputed object are
      created or overwritten with the fresh aggregate; no other row changes. */
  lemma {:induction false} ResyncedScoresAt(scores: map<ScoreKey, Tally>, refs: seq<ObjRef>, registry: Registry,
                                            votes: seq<Vote>, k: ScoreKey)
    ensures k in ResyncedScores(scores, refs, registry, votes) <==> k in scores || Resynced(k, refs, registry)
    ensures k in ResyncedScores(scores, refs, registry, votes) ==>
      ResyncedScores(scores, refs, registry, votes)[k] == if Resynced(k, refs, registry) then TallyOf(votes, k.0, k.1) else scores[k]
  {
    if |refs| > 0 {
      var n := |refs| - 1;
      assert refs == refs[..n] + [refs[n]];
      ResyncedScoresAt(scores, refs[..n], registry, votes, k);
    }
  }

  /** Recomputing one more object extends both tables' specifications by one step. */
  lemma RecomputeStep(hosts: map<ObjRef, map<string, Tally>>, scores: map<ScoreKey, Tally>, refs: seq<ObjRef>, r: ObjRef,
                      registry: Registry, votes: seq<Vote>,
                      h: map<ObjRef, map<string, Tally>>, sc: map<ScoreKey, Tally>,
                      h1: map<ObjRef, map<string, Tally>>, sc1: map<ScoreKey, Tally>)
    requires forall x :: x in refs ==> x in hosts
    requires r in hosts
    requires h == RecomputedHosts(hosts, refs, registry, votes) && sc == ResyncedScores(scores, refs, registry, votes)
    requires h1 == h[r := h[r] + FieldTallies(FieldsOf(registry, r.contentType), r, votes)]
    requires sc1 == sc + ScoreTallies(r, FieldsOf(registry, r.contentType), votes)
    ensures h1 == RecomputedHosts(hosts, refs + [r], registry, votes)
    ensures sc1 == ResyncedScores(scores, refs + [r], registry, votes)
  {
    assert (refs + [r])[..|refs|] == refs;
  }

  /** Columns are in sync: every declared rating field of every existing object
      holds the sum and count of its votes. */
  ghost predicate HostsInSync(hosts: map<ObjRef, map<string, Tally>>, votes: seq<Vote>, registry: Registry) {
    forall r, a :: r in hosts && 0 <= a < |FieldsOf(registry, r.contentType)| ==>
      ColumnOf(hosts[r], FieldsOf(registry, r.contentType)[a].name) == TallyOf(votes, r, FieldsOf(registry, r.contentType)[a].key)
  }

  /** After the purge every object's columns are in sync again, provided they
      were before: recomputed objects by construction, and the others because
      none of their votes was deleted. */
  lemma PurgeRestoresSync(hosts: map<ObjRef, map<string, Tally>>, votes: seq<Vote>, ip: string, registry: Registry)
    requires HostsInSync(hosts, votes, registry)
    requires RegistryNamesUnique(registry)
    ensures AffectedObjectsExist(votes, ip, hosts)
    ensures HostsInSync(
      RecomputedHosts(hosts, AffectedObjects(votes, ip, hosts), registry, WithoutIp(votes, ip)),
      WithoutIp(votes, ip), registry)
  {
    AffectedObjectsExactlyOnce(votes, ip, hosts);
    var refs := AffectedObjects(votes, ip, hosts);
    var rest := WithoutIp(votes, ip);
    var h := RecomputedHosts(hosts, refs, registry, rest);
    forall r, a | r in h && 0 <= a < |FieldsOf(registry, r.contentType)|
      ensures ColumnOf(h[r], FieldsOf(registry, r.contentType)[a].name) == TallyOf(rest, r, FieldsOf(registry, r.contentType)[a].key)
    {
      var fields := FieldsOf(registry, r.contentType);
      RecomputedHostsAt(hosts, refs, registry, rest, r);
      if r in refs {
        FieldTalliesAt(fields, r, rest, a);
      } else {
        TallyWithoutIp(votes, ip, r, fields[a].key);
      }
    }
  }

  predicate AffectedObjectsExist(votes: seq<Vote>, ip: string, hosts: map<ObjRef, map<string, Tally>>) {
    forall r :: r in AffectedObjects(votes, ip, hosts) ==> r in hosts
  }

  /** Reload one object, run `_update(commit=False)` for each of its rating
      fields in declaration order, and save it. */
  method RecomputeObject(db: Database, ref: ObjRef, fields: seq<RatingField>)
    requires ref in db.hosts
    modifies db
    ensures db.votes == old(db.votes)
    ensures db.hosts == old(db.hosts)[ref := old(db.hosts)[ref] + FieldTallies(fields, ref, db.votes)]
    ensures db.scores == old(db.scores) + ScoreTallies(ref, fields, db.votes)
    ensures db.saveLog == old(db.saveLog) + [ref]
  {
    var obj := new Instance.Load(db, ref);
    var j := 0;
    while j < |fields|
      invariant 0 <= j <= |fields|
      invariant obj.ref == ref
      invariant db.votes == old(db.votes) && db.hosts == old(db.hosts) && db.saveLog == old(db.saveLog)
      invariant obj.columns == old(db.hosts)[ref] + FieldTallies(fields[..j], ref, db.votes)
      invariant db.scores == old(db.scores) + ScoreTallies(ref, fields[..j], db.votes)
    {
      assert fields[..j + 1][..j] == fields[..j];
      MergeThenUpdate(old(db.hosts)[ref], FieldTallies(fields[..j], ref, db.votes), fields[j].name, TallyOf(db.votes, ref, fields[j].key));
      MergeThenUpdate(old(db.scores), ScoreTallies(ref, fields[..j], db.votes), (ref, fields[j].key), TallyOf(db.votes, ref, fields[j].key));
      var manager := new RatingManager(obj, fields[j]);
      manager.Update(db, false);
      j := j + 1;
    }
    assert fields[..j] == fields;
    obj.Save(db);
  }

  /** The query and the grouped load, run before anything is deleted: the
      `to_update` list. */
  method GatherAffected(db: Database, ip: string) returns (toUpdate: seq<ObjRef>)
    ensures toUpdate == AffectedObjects(db.votes, ip, db.hosts)
  {
    var groups := GroupByType(SortByType(Distinct(RefsFrom(db.votes, ip))));
    toUpdate := [];
    var g := 0;
    while g < |groups|
      invariant 0 <= g <= |groups|
      invariant toUpdate == LoadAll(db.hosts, groups[..g])
    {
      assert groups[..g + 1][..g] == groups[..g];
      toUpdate := toUpdate + LoadGroup(db.hosts, groups[g]);
      g := g + 1;
    }
    assert groups[..g] == groups;
  }

  /** The update loop: recompute and save each gathered object in turn. */
  method RecomputeAll(db: Database, toUpdate: seq<ObjRef>, registry: Registry)
    requires forall r :: r in toUpdate ==> r in db.hosts
    modifies db
    ensures db.votes == old(db.votes)
    ensures db.hosts == RecomputedHosts(old(db.hosts), toUpdate, registry, db.votes)
    ensures db.scores == ResyncedScores(old(db.scores), toUpdate, registry, db.votes)
    ensures db.saveLog == old(db.saveLog) + toUpdate
  {
    var i := 0;
    while i < |toUpdate|
      invariant 0 <= i <= |toUpdate|
      invariant db.votes == old(db.votes)
      invariant db.hosts.Keys == old(db.hosts).Keys
      invariant db.hosts == RecomputedHosts(old(db.hosts), toUpdate[..i], registry, db.votes)
      invariant db.scores == ResyncedScores(old(db.scores), toUpdate[..i], registry, db.votes)
      invariant db.saveLog == old(db.saveLog) + toUpdate[..i]
    {
      var ref := toUpdate[i];
      ghost var h, sc := db.hosts, db.scores;
      RecomputeObject(db, ref, FieldsOf(registry, ref.contentType));
      RecomputeStep(old(db.hosts), old(db.scores), toUpdate[..i], ref, registry, db.votes, h, sc, db.hosts, db.scores);
      assert toUpdate[..i + 1] == toUpdate[..i] + [ref];
      i := i + 1;
    }
    assert toUpdate[..i] == toUpdate;
  }

  /** `delete_from_ip_address(ip)`. Affected objects are gathered, content-type
      group by group, before the deletion; each is then reloaded, every rating
      field it declares is recomputed with `_update`, and it is saved once. */
  method DeleteFromIpAddress(db: Database, ip: string, registry: Registry)
    modifies db
    ensures db.votes == WithoutIp(old(db.votes), ip)
    ensures AffectedObjectsExist(old(db.votes), ip, old(db.hosts))
    ensures db.hosts == RecomputedHosts(old(db.hosts), AffectedObjects(old(db.votes), ip, old(db.hosts)), registry, db.votes)
    ensures db.scores == ResyncedScores(old(db.scores), AffectedObjects(old(db.votes), ip, old(db.hosts)), registry, db.votes)
    ensures db.saveLog == old(db.saveLog) + AffectedObjects(old(db.votes), ip, old(db.hosts))
    ensures HostsInSync(old(db.hosts), old(db.votes), registry) && RegistryNamesUnique(registry) ==>
      HostsInSync(db.hosts, db.votes, registry)
  {
    ghost var v0, h0 := db.votes, db.hosts;
    var toUpdate := GatherAffected(db, ip);
    AffectedObjectsExactlyOnce(v0, ip, h0);
    db.DeleteVotesFrom(ip);
    RecomputeAll(db, toUpdate, registry);
    if HostsInSync(h0, v0, registry) && RegistryNamesUnique(registry) {
      PurgeRestoresSync(h0, v0, ip, registry);
    }
  }
}
