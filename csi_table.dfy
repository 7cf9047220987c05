/** The CSI manager's instance tracking table as a value: plugin type -> plugin name ->
    ordered list of instance managers, front first (client/pluginmanager/csimanager/manager.go).
    This module holds the list and map operations the manager performs and what they mean. */
module CsiTable {
  import opened Wrappers

  /** An instance manager is opaque here: it is known by an identity. */
  type WorkerId = nat

  const ControllerType: string := "csi-controller"
  const NodeType: string := "csi-node"

  /** A plugin descriptor as the dynamic plugin registry reports it; `details` stands for
      the descriptor's other fields (version, connection information), which only the
      instance manager's own replacement test looks at. */
  datatype PluginInfo = PluginInfo(name: string, ptype: string, allocID: string, details: string)

  /** One element of a list: the instance manager `worker`, built from and running `info`. */
  datatype Entry = Entry(worker: WorkerId, info: PluginInfo)

  type Group = seq<Entry>
  type ByName = map<string, Group>
  type Table = map<string, ByName>

  /** The instance manager's replacement test, seen from outside. */
  type NeedsReplacement = (Entry, PluginInfo) -> bool

  // ---------------------------------------------------------------------------
  // Well-formedness

  /** Every entry of the list under `ptype`/`name` was built from a descriptor of that
      type and name. */
  ghost predicate Placed(g: Group, ptype: string, name: string)
  {
    forall i :: 0 <= i < |g| ==> g[i].info.ptype == ptype && g[i].info.name == name
  }

  /** At most one entry per allocation in a list. */
  ghost predicate UniqueAllocs(g: Group)
  {
    forall i, j :: 0 <= i < j < |g| ==> g[i].info.allocID != g[j].info.allocID
  }

  ghost predicate WfGroup(g: Group, ptype: string, name: string)
  {
    Placed(g, ptype, name) && UniqueAllocs(g)
  }

  ghost predicate Wf(t: Table)
  {
    forall ptype, name :: ptype in t && name in t[ptype] ==> WfGroup(t[ptype][name], ptype, name)
  }

  /** True when no type holds any name: nothing is tracked at all. */
  ghost predicate NoGroups(t: Table)
  {
    forall ptype :: ptype in t ==> t[ptype] == map[]
  }

  // ---------------------------------------------------------------------------
  // List operations (container/list as used by the manager)

  /** Position of the first entry of `g` whose allocation is `allocID`, or |g| if there is
      none: where a walk from the front of the list, element by element, stops. */
  function FindAlloc(g: Group, allocID: string): (i: nat)
    ensures i <= |g|
    ensures i < |g| ==> g[i].info.allocID == allocID
    ensures forall j :: 0 <= j < i ==> g[j].info.allocID != allocID
  {
    if g == [] then 0
    else if g[0].info.allocID == allocID then 0
    else 1 + FindAlloc(g[1..], allocID)
  }

  /** A position before which no entry has the allocation, and which is the end or holds
      it, is the first one. */
  lemma {:induction false} FindAllocIs(g: Group, allocID: string, i: nat)
    requires i <= |g| && (i < |g| ==> g[i].info.allocID == allocID)
    requires forall j :: 0 <= j < i ==> g[j].info.allocID != allocID
    ensures FindAlloc(g, allocID) == i
    decreases |g|
  {
    if g != [] && i > 0 {
      FindAllocIs(g[1..], allocID, i - 1);
    }
  }

  /** `MoveToFront` of the element at position `i`. */
  function MoveToFront(g: Group, i: nat): (r: Group)
    requires i < |g|
    ensures |r| == |g| && r[0] == g[i]
    ensures forall j :: 0 <= j < i ==> r[j + 1] == g[j]
    ensures forall j :: i < j < |g| ==> r[j] == g[j]
    ensures multiset(r) == multiset(g)
  {
    assert g == g[..i] + [g[i]] + g[i + 1..];
    [g[i]] + g[..i] + g[i + 1..]
  }

  /** `Remove` of the element at position `i`. */
  function RemoveAt(g: Group, i: nat): (r: Group)
    requires i < |g|
    ensures |r| == |g| - 1
    ensures forall j :: 0 <= j < i ==> r[j] == g[j]
    ensures forall j :: i <= j < |r| ==> r[j] == g[j + 1]
    ensures multiset(r) == multiset(g) - multiset{g[i]}
  {
    assert g == g[..i] + [g[i]] + g[i + 1..];
    g[..i] + g[i + 1..]
  }

  // ---------------------------------------------------------------------------
  // ensureInstance on one list

  /** Does ensureInstance start a new instance manager for `plugin` against list `g`? */
  function StartsWorker(g: Group, plugin: PluginInfo, needs: NeedsReplacement): bool
  {
    var i := FindAlloc(g, plugin.allocID);
    i == |g| || needs(g[i], plugin)
  }

  /** The list after ensureInstance, `w` being the instance manager it would start. */
  function EnsureInGroup(g: Group, plugin: PluginInfo, needs: NeedsReplacement, w: WorkerId): (r: Group)
    ensures |r| > 0 && r[0].info.allocID == plugin.allocID
  {
    var i := FindAlloc(g, plugin.allocID);
    if i == |g| then [Entry(w, plugin)] + g
    else if needs(g[i], plugin) then MoveToFront(g[i := Entry(w, plugin)], i)
    else MoveToFront(g, i)
  }

  /** ensureNoInstance on one list: drop the first entry of the allocation, if any. */
  function RemoveInGroup(g: Group, allocID: string): (r: Group)
  {
    var i := FindAlloc(g, allocID);
    if i == |g| then g else RemoveAt(g, i)
  }

  /** The instance manager ensureNoInstance shuts down in list `g`. */
  function StoppedInGroup(g: Group, allocID: string): multiset<WorkerId>
  {
    var i := FindAlloc(g, allocID);
    if i == |g| then multiset{} else multiset{g[i].worker}
  }

  // ---------------------------------------------------------------------------
  // Table operations

  /** instancesForType: the table once `ptype` has an inner map. */
  function WithType(t: Table, ptype: string): (r: Table)
    ensures ptype in r && r.Keys == t.Keys + {ptype}
    ensures forall p :: p in t ==> r[p] == t[p]
    ensures ptype !in t ==> r[ptype] == map[]
  {
    if ptype in t then t else t[ptype := map[]]
  }

  /** The table after ensureInstance(plugin). A list that is not yet in the table is built,
      grown and dropped: only a list that was found is written back. */
  function EnsureTable(t: Table, plugin: PluginInfo, needs: NeedsReplacement, w: WorkerId): Table
  {
    var t' := WithType(t, plugin.ptype);
    var byName := t'[plugin.ptype];
    if plugin.name in byName then
      t'[plugin.ptype := byName[plugin.name := EnsureInGroup(byName[plugin.name], plugin, needs, w)]]
    else t'
  }

  /** Does ensureInstance(plugin) start an instance manager? It does whenever there is no
      list for the name, even though that manager is then tracked nowhere. */
  function StartsWorkerIn(t: Table, plugin: PluginInfo, needs: NeedsReplacement): bool
  {
    plugin.ptype !in t || plugin.name !in t[plugin.ptype]
    || StartsWorker(t[plugin.ptype][plugin.name], plugin, needs)
  }

  /** The table after ensureNoInstance(plugin). */
  function RemoveTable(t: Table, plugin: PluginInfo): Table
  {
    var t' := WithType(t, plugin.ptype);
    var byName := t'[plugin.ptype];
    if plugin.name in byName then
      t'[plugin.ptype := byName[plugin.name := RemoveInGroup(byName[plugin.name], plugin.allocID)]]
    else t'
  }

  /** The instance managers ensureNoInstance(plugin) shuts down. */
  function StoppedIn(t: Table, plugin: PluginInfo): multiset<WorkerId>
  {
    if plugin.ptype in t && plugin.name in t[plugin.ptype]
    then StoppedInGroup(t[plugin.ptype][plugin.name], plugin.allocID)
    else multiset{}
  }

  /** The names a registry listing mentions. */
  function Names(plugins: seq<PluginInfo>): (s: set<string>)
    ensures forall i :: 0 <= i < |plugins| ==> plugins[i].name in s
    ensures forall n :: n in s ==> exists i :: 0 <= i < |plugins| && plugins[i].name == n
  {
    set i | 0 <= i < |plugins| :: plugins[i].name
  }

  /** Listing one more descriptor adds its name. */
  lemma NamesSnoc(plugins: seq<PluginInfo>, k: nat)
    requires k < |plugins|
    ensures Names(plugins[..k + 1]) == Names(plugins[..k]) + {plugins[k].name}
  {
    assert plugins[..k + 1][k] == plugins[k];
    forall n | n in Names(plugins[..k + 1]) ensures n in Names(plugins[..k]) + {plugins[k].name} {
      var j :| 0 <= j < k + 1 && plugins[..k + 1][j].name == n;
      if j < k { assert plugins[..k][j].name == n; }
    }
  }

  /** The removal phase of a resync over the lists of one type: every list whose name is not
      in `seen` loses its front entry (and only that one); the other lists are kept. */
  function Prune(m: ByName, seen: set<string>): (r: ByName)
    ensures r.Keys == m.Keys
    ensures forall n :: n in m && n in seen ==> r[n] == m[n]
    ensures forall n :: n in m && n !in seen && m[n] != [] ==> r[n] == m[n][1..]
    ensures forall n :: n in m && m[n] == [] ==> r[n] == []
  {
    map n | n in m :: if n !in seen && m[n] != [] then m[n][1..] else m[n]
  }

  /** The lists of `m` whose names are not in `seen`. */
  function Orphans(m: ByName, seen: set<string>): (r: ByName)
    ensures r.Keys == m.Keys - seen
    ensures forall n :: n in r ==> r[n] == m[n]
  {
    map n | n in m && n !in seen :: m[n]
  }

  /** The front entry of the list under `ptype`/`name`, if there is one. */
  function FrontOf(t: Table, ptype: string, name: string): (r: Option<Entry>)
    ensures r.Some? <==> ptype in t && name in t[ptype] && t[ptype][name] != []
    ensures r.Some? ==> r.value == t[ptype][name][0]
  {
    if ptype in t && name in t[ptype] && t[ptype][name] != [] then Some(t[ptype][name][0]) else None
  }

  // ---------------------------------------------------------------------------
  // Counting instance managers

  /** The instance managers of a list, in order. */
  function Workers(g: Group): (ws: seq<WorkerId>)
    ensures |ws| == |g|
    ensures forall i :: 0 <= i < |g| ==> ws[i] == g[i].worker
  {
    seq(|g|, i requires 0 <= i < |g| => g[i].worker)
  }

  function GroupWorkers(g: Group): multiset<WorkerId>
  {
    multiset(Workers(g))
  }

  /** The instance manager at the front of a list, if any. */
  function FrontWorker(g: Group): multiset<WorkerId>
  {
    if g == [] then multiset{} else multiset{g[0].worker}
  }

  /** The sum of `f` over the values of `m`, in no particular order. */
  ghost function SumValues<V>(m: map<string, V>, f: V -> multiset<WorkerId>): multiset<WorkerId>
    decreases |m|
  {
    if |m| == 0 then multiset{}
    else
      var k :| k in m;
      MapMinusOne(m, k);
      f(m[k]) + SumValues(m - {k}, f)
  }

  /** Every instance manager tracked under one type. */
  ghost function TypeWorkers(m: ByName): multiset<WorkerId>
  {
    SumValues(m, GroupWorkers)
  }

  /** Every instance manager tracked in the table. */
  ghost function AllWorkers(t: Table): multiset<WorkerId>
  {
    SumValues(t, TypeWorkers)
  }

  lemma MapMinusOne<V>(m: map<string, V>, k: string)
    requires k in m
    ensures (m - {k}).Keys == m.Keys - {k}
    ensures |m - {k}| == |m| - 1
  {
    assert (m - {k}).Keys == m.Keys - {k};
    assert |m.Keys - {k}| == |m.Keys| - 1;
  }

  /** The sum does not depend on which key is taken first. */
  lemma {:induction false} SumValuesPick<V>(m: map<string, V>, f: V -> multiset<WorkerId>, k: string)
    requires k in m
    ensures SumValues(m, f) == f(m[k]) + SumValues(m - {k}, f)
    decreases |m|
  {
    var j :| j in m && SumValues(m, f) == f(m[j]) + SumValues(m - {j}, f);
    if j != k {
      MapMinusOne(m, j);
      MapMinusOne(m, k);
      var rest := m - {j} - {k};
      SumValuesPick(m - {j}, f, k);
      SumValuesPick(m - {k}, f, j);
      MapMinusSwap(m, j, k);
      MultisetSwap(f(m[j]), f(m[k]), SumValues(rest, f));
    }
  }

  lemma SumValuesEmpty<V>(m: map<string, V>, f: V -> multiset<WorkerId>)
    requires |m| == 0
    ensures SumValues(m, f) == multiset{}
  {
  }

  /** Taking one more key out of the part still to be summed adds that key's value. */
  lemma SumValuesRemaining<V>(m: map<string, V>, rest: set<string>, k: string, f: V -> multiset<WorkerId>)
    requires k in rest && rest <= m.Keys
    ensures SumValues(m - (rest - {k}), f) == f(m[k]) + SumValues(m - rest, f)
  {
    var big := m - (rest - {k});
    assert k in big;
    SumValuesPick(big, f, k);
    assert big - {k} == m - rest;
  }

  /** A walk over the keys of `m` that adds each key's value to an accumulator starts with
      nothing summed ... */
  lemma SumWalkStart<V>(m: map<string, V>, f: V -> multiset<WorkerId>)
    ensures SumValues(m - m.Keys, f) == multiset{}
  {
    assert |m - m.Keys| == 0 by { assert (m - m.Keys).Keys == {}; }
    SumValuesEmpty(m - m.Keys, f);
  }

  /** ... adds one key's value per step ... */
  lemma SumWalkStep<V>(m: map<string, V>, rest: set<string>, k: string, f: V -> multiset<WorkerId>,
                       base: multiset<WorkerId>, acc: multiset<WorkerId>)
    requires k in rest && rest <= m.Keys
    requires acc == base + SumValues(m - rest, f)
    ensures acc + f(m[k]) == base + SumValues(m - (rest - {k}), f)
  {
    SumValuesRemaining(m, rest, k, f);
    MultisetShuffle(base, SumValues(m - rest, f), f(m[k]));
  }

  /** ... and ends with every value summed. */
  lemma SumWalkEnd<V>(m: map<string, V>)
    ensures m - {} == m
  {
  }

  // ---------------------------------------------------------------------------
  // What ensureInstance and ensureNoInstance do to one list

  /** An entry for the allocation exists and needs no replacement: no instance manager is
      started, the length is unchanged and that entry becomes the front. */
  lemma EnsureReconfirms(g: Group, plugin: PluginInfo, needs: NeedsReplacement, w: WorkerId)
    requires FindAlloc(g, plugin.allocID) < |g|
    requires !needs(g[FindAlloc(g, plugin.allocID)], plugin)
    ensures !StartsWorker(g, plugin, needs)
    ensures var r := EnsureInGroup(g, plugin, needs, w);
      |r| == |g| && r[0] == g[FindAlloc(g, plugin.allocID)] && multiset(r) == multiset(g)
  {
  }

  /** Overwriting the element at `i` and moving it to the front. */
  lemma ReplaceAndFront(g: Group, i: nat, e: Entry)
    requires i < |g|
    ensures var r := MoveToFront(g[i := e], i);
      |r| == |g| && r[0] == e && r[1..] == RemoveAt(g, i)
      && multiset(r) == multiset(g) - multiset{g[i]} + multiset{e}
  {
    var g' := g[i := e];
    var r := MoveToFront(g', i);
    assert g' == g[..i] + [e] + g[i + 1..];
    assert g == g[..i] + [g[i]] + g[i + 1..];
    assert r[1..] == RemoveAt(g, i);
  }

  /** An entry for the allocation exists and needs replacement: a new instance manager takes
      its slot and moves to the front; the length is unchanged, the other entries keep their
      order, and the replaced entry is gone from the list. */
  lemma EnsureReplaces(g: Group, plugin: PluginInfo, needs: NeedsReplacement, w: WorkerId)
    requires FindAlloc(g, plugin.allocID) < |g|
    requires needs(g[FindAlloc(g, plugin.allocID)], plugin)
    ensures StartsWorker(g, plugin, needs)
    ensures var i := FindAlloc(g, plugin.allocID); var r := EnsureInGroup(g, plugin, needs, w);
      |r| == |g| && r[0] == Entry(w, plugin) && r[1..] == RemoveAt(g, i)
      && multiset(r) == multiset(g) - multiset{g[i]} + multiset{Entry(w, plugin)}
  {
    ReplaceAndFront(g, FindAlloc(g, plugin.allocID), Entry(w, plugin));
  }

  /** No entry for the allocation: a new instance manager is pushed to the front. */
  lemma EnsureAdds(g: Group, plugin: PluginInfo, needs: NeedsReplacement, w: WorkerId)
    requires forall j :: 0 <= j < |g| ==> g[j].info.allocID != plugin.allocID
    ensures StartsWorker(g, plugin, needs)
    ensures var r := EnsureInGroup(g, plugin, needs, w);
      |r| == |g| + 1 && r[0] == Entry(w, plugin) && r[1..] == g
  {
  }

  /** ensureInstance touches only the entry of its own allocation: every entry of another
      allocation is still in the list afterwards. */
  lemma EnsureKeepsOtherEntry(g: Group, plugin: PluginInfo, needs: NeedsReplacement, w: WorkerId, e: Entry)
    requires e in g && e.info.allocID != plugin.allocID
    ensures e in EnsureInGroup(g, plugin, needs, w)
  {
    var i := FindAlloc(g, plugin.allocID);
    if i < |g| {
      assert e in multiset(g);
      if needs(g[i], plugin) {
        var g' := g[i := Entry(w, plugin)];
        var k :| 0 <= k < |g| && g[k] == e;
        assert g'[k] == e;
        assert e in multiset(g');
      }
    }
  }

  /** ensureInstance never gives an allocation a second entry, and only stores entries built
      from descriptors of the list's own type and name. */
  lemma {:induction false} EnsureKeepsWf(g: Group, plugin: PluginInfo, needs: NeedsReplacement, w: WorkerId)
    requires WfGroup(g, plugin.ptype, plugin.name)
    ensures WfGroup(EnsureInGroup(g, plugin, needs, w), plugin.ptype, plugin.name)
  {
    var i := FindAlloc(g, plugin.allocID);
    if i < |g| {
      if needs(g[i], plugin) {
        ReplaceKeepsWf(g, i, Entry(w, plugin), plugin.ptype, plugin.name);
        MoveToFrontKeepsWf(g[i := Entry(w, plugin)], i, plugin.ptype, plugin.name);
      } else {
        MoveToFrontKeepsWf(g, i, plugin.ptype, plugin.name);
      }
    }
  }

  /** Overwriting an entry with one of the same allocation, type and name keeps a list
      well formed. */
  lemma ReplaceKeepsWf(g: Group, i: nat, e: Entry, ptype: string, name: string)
    requires WfGroup(g, ptype, name) && i < |g|
    requires e.info.allocID == g[i].info.allocID && e.info.ptype == ptype && e.info.name == name
    ensures WfGroup(g[i := e], ptype, name)
  {
    var g' := g[i := e];
    forall a, b | 0 <= a < b < |g'| ensures g'[a].info.allocID != g'[b].info.allocID {
      assert g'[a].info.allocID == g[a].info.allocID;
      assert g'[b].info.allocID == g[b].info.allocID;
    }
  }

  /** Moving an entry to the front keeps a list well formed. */
  lemma MoveToFrontKeepsWf(g: Group, i: nat, ptype: string, name: string)
    requires WfGroup(g, ptype, name) && i < |g|
    ensures WfGroup(MoveToFront(g, i), ptype, name)
  {
    var r := MoveToFront(g, i);
    forall a, b | 0 <= a < b < |r| ensures r[a].info.allocID != r[b].info.allocID {
      var a' := if a == 0 then i else if a <= i then a - 1 else a;
      var b' := if b == 0 then i else if b <= i then b - 1 else b;
      assert r[a] == g[a'] && r[b] == g[b'] && a' != b';
    }
    forall j | 0 <= j < |r| ensures r[j].info.ptype == ptype && r[j].info.name == name {
      var j' := if j == 0 then i else if j <= i then j - 1 else j;
      assert r[j] == g[j'];
    }
  }

  /** ensureNoInstance shuts down the first entry of the allocation and removes only that
      one; the other entries keep their order. */
  lemma RemoveFirstMatch(g: Group, allocID: string)
    requires FindAlloc(g, allocID) < |g|
    ensures var i := FindAlloc(g, allocID); var r := RemoveInGroup(g, allocID);
      |r| == |g| - 1 && StoppedInGroup(g, allocID) == multiset{g[i].worker}
      && r == g[..i] + g[i + 1..]
  {
  }

  /** With one entry per allocation (the manager's invariant), nothing of that allocation
      is left after ensureNoInstance. */
  lemma RemoveLeavesNoMatch(g: Group, allocID: string)
    requires UniqueAllocs(g)
    ensures forall j :: 0 <= j < |RemoveInGroup(g, allocID)| ==> RemoveInGroup(g, allocID)[j].info.allocID != allocID
  {
    var i := FindAlloc(g, allocID);
    if i < |g| {
      var r := RemoveInGroup(g, allocID);
      forall j | 0 <= j < |r| ensures r[j].info.allocID != allocID {
        if j >= i { assert r[j] == g[j + 1]; }
      }
    }
  }

  /** ensureNoInstance stops after the first removal: of two entries for the same allocation,
      the second is left in the list and its instance manager is not shut down. */
  lemma RemoveKeepsLaterDuplicate(e1: Entry, e2: Entry)
    requires e1.info.allocID == e2.info.allocID
    ensures RemoveInGroup([e1, e2], e1.info.allocID) == [e2]
    ensures StoppedInGroup([e1, e2], e1.info.allocID) == multiset{e1.worker}
  {
  }

  /** Removing keeps a list well formed. */
  lemma RemoveKeepsWf(g: Group, ptype: string, name: string, allocID: string)
    requires WfGroup(g, ptype, name)
    ensures WfGroup(RemoveInGroup(g, allocID), ptype, name)
  {
    var i := FindAlloc(g, allocID);
    if i < |g| {
      var r := RemoveInGroup(g, allocID);
      forall a, b | 0 <= a < b < |r| ensures r[a].info.allocID != r[b].info.allocID {
        var a' := if a < i then a else a + 1;
        var b' := if b < i then b else b + 1;
        assert r[a] == g[a'] && r[b] == g[b'] && a' < b';
      }
    }
  }

  lemma MapMinusSwap<V>(m: map<string, V>, j: string, k: string)
    ensures m - {k} - {j} == m - {j} - {k}
  {
    assert m - {k} - {j} == m - {j, k};
  }

  lemma MultisetSwap(a: multiset<WorkerId>, b: multiset<WorkerId>, c: multiset<WorkerId>)
    ensures a + (b + c) == b + (a + c)
  {
  }

  lemma MultisetShuffle(a: multiset<WorkerId>, b: multiset<WorkerId>, c: multiset<WorkerId>)
    ensures a + b + c == a + (c + b)
  {
  }
}
