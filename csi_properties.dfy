/** What the CSI manager's operations guarantee, and the consequences of the code as
    written: a list is only ever stored under a name that already had one, and each
    removal walk stops after its first removal. */
module CsiProperties {
  import opened Wrappers
  import opened CsiTable
  import opened CsiSpec

  // ---------------------------------------------------------------------------
  // The table stays well formed

  lemma WithTypeWf(t: Table, ptype: string)
    requires Wf(t)
    ensures Wf(WithType(t, ptype))
  {
  }

  lemma {:induction false} EnsureSpecWf(s: State, plugin: PluginInfo, needs: NeedsReplacement)
    requires Wf(s.table)
    ensures Wf(EnsureSpec(s, plugin, needs).table)
  {
    var t' := WithType(s.table, plugin.ptype);
    WithTypeWf(s.table, plugin.ptype);
    if plugin.name in t'[plugin.ptype] {
      EnsureKeepsWf(t'[plugin.ptype][plugin.name], plugin, needs, s.next);
    }
  }

  lemma {:induction false} EnsureNoSpecWf(s: State, plugin: PluginInfo)
    requires Wf(s.table)
    ensures Wf(EnsureNoSpec(s, plugin).table)
  {
    var t' := WithType(s.table, plugin.ptype);
    WithTypeWf(s.table, plugin.ptype);
    if plugin.name in t'[plugin.ptype] {
      RemoveKeepsWf(t'[plugin.ptype][plugin.name], plugin.ptype, plugin.name, plugin.allocID);
    }
  }

  lemma {:induction false} EnsureAllSpecWf(s: State, plugins: seq<PluginInfo>, needs: NeedsReplacement)
    requires Wf(s.table)
    ensures Wf(EnsureAllSpec(s, plugins, needs).table)
    decreases |plugins|
  {
    if plugins != [] {
      var k := |plugins| - 1;
      EnsureAllSpecWf(s, plugins[..k], needs);
      EnsureSpecWf(EnsureAllSpec(s, plugins[..k], needs), plugins[k], needs);
    }
  }

  lemma PruneWf(t: Table, ptype: string, seen: set<string>)
    requires Wf(t) && ptype in t
    ensures Wf(t[ptype := Prune(t[ptype], seen)])
  {
    var p := Prune(t[ptype], seen);
    forall n | n in p ensures WfGroup(p[n], ptype, n) {
      var g := t[ptype][n];
      assert WfGroup(g, ptype, n);
    }
  }

  lemma ResyncSpecWf(s: State, ptype: string, plugins: seq<PluginInfo>, needs: NeedsReplacement)
    requires Wf(s.table)
    ensures Wf(ResyncSpec(s, ptype, plugins, needs).table)
  {
    var mid := EnsureAllSpec(s, plugins, needs);
    EnsureAllSpecWf(s, plugins, needs);
    WithTypeWf(mid.table, ptype);
    PruneWf(WithType(mid.table, ptype), ptype, Names(plugins));
  }

  lemma StepSpecWf(s: State, input: Input, needs: NeedsReplacement)
    requires Wf(s.table)
    ensures Wf(StepSpec(s, input, needs).table)
  {
    match input
    case Tick(controllers, nodes) =>
      ResyncSpecWf(s, ControllerType, controllers, needs);
      ResyncSpecWf(ResyncSpec(s, ControllerType, controllers, needs), NodeType, nodes, needs);
    case ControllerEvent(e) =>
      if e.Some? && e.value.eventType.Registered? { EnsureSpecWf(s, e.value.info, needs); }
      if e.Some? && e.value.eventType.Deregistered? { EnsureNoSpecWf(s, e.value.info); }
    case NodeEvent(e) =>
      if e.Some? && e.value.eventType.Registered? { EnsureSpecWf(s, e.value.info, needs); }
      if e.Some? && e.value.eventType.Deregistered? { EnsureNoSpecWf(s, e.value.info); }
    case Shutdown =>
  }

  /** Whatever the inputs, the run loop keeps at most one entry per allocation in every
      list, and every entry under the list of the type and name it was built for. */
  lemma {:induction false} RunSpecWf(s: State, inputs: seq<Input>, needs: NeedsReplacement)
    requires Wf(s.table)
    ensures Wf(RunSpec(s, inputs, needs).table)
    decreases |inputs|
  {
    if inputs != [] && !inputs[0].Shutdown? {
      StepSpecWf(s, inputs[0], needs);
      RunSpecWf(StepSpec(s, inputs[0], needs), inputs[1..], needs);
    }
  }

  /** One more pass of the run loop: the rest of the run after input k is the run from k
      once that input has been handled. */
  lemma RunSpecAdvance(s: State, inputs: seq<Input>, k: nat, needs: NeedsReplacement)
    requires k < |inputs| && !inputs[k].Shutdown?
    ensures RunSpec(StepSpec(s, inputs[k], needs), inputs[k + 1..], needs)
         == RunSpec(s, inputs[k..], needs)
  {
    assert inputs[k..][1..] == inputs[k + 1..];
  }

  /** The run loop returns at a Shutdown input, leaving the state as it is. */
  lemma RunSpecStops(s: State, inputs: seq<Input>, k: nat, needs: NeedsReplacement)
    requires k < |inputs| && inputs[k].Shutdown?
    ensures RunSpec(s, inputs[k..], needs) == s
  {
  }

  // ---------------------------------------------------------------------------
  // ensureInstance on the whole state

  /** On one list: once ensured, ensuring the same descriptor again is a no-op. */
  lemma EnsureTwiceInGroup(g: Group, plugin: PluginInfo, needs: NeedsReplacement, w: WorkerId, w2: WorkerId)
    requires StartsWorker(g, plugin, needs) ==> !needs(Entry(w, plugin), plugin)
    ensures var g1 := EnsureInGroup(g, plugin, needs, w);
      !StartsWorker(g1, plugin, needs) && EnsureInGroup(g1, plugin, needs, w2) == g1
  {
    var g1 := EnsureInGroup(g, plugin, needs, w);
    var i := FindAlloc(g, plugin.allocID);
    assert FindAlloc(g1, plugin.allocID) == 0;
    assert !needs(g1[0], plugin) by {
      if i < |g| && !needs(g[i], plugin) { EnsureReconfirms(g, plugin, needs, w); }
      else if i < |g| { EnsureReplaces(g, plugin, needs, w); }
      else { EnsureAdds(g, plugin, needs, w); }
    }
    assert MoveToFront(g1, 0) == g1;
  }

  /** Registering twice with the same descriptor, for a name that has a list: the second
      call starts no instance manager and changes nothing, and the allocation has exactly
      one entry, at the front. */
  lemma {:induction false} RegistrationIdempotent(s: State, plugin: PluginInfo, needs: NeedsReplacement)
    requires plugin.ptype in s.table && plugin.name in s.table[plugin.ptype]
    requires WfGroup(s.table[plugin.ptype][plugin.name], plugin.ptype, plugin.name)
    requires StartsWorker(s.table[plugin.ptype][plugin.name], plugin, needs) ==> !needs(Entry(s.next, plugin), plugin)
    ensures var s1 := EnsureSpec(s, plugin, needs);
      EnsureSpec(s1, plugin, needs) == s1
      && s1.table[plugin.ptype][plugin.name][0].info.allocID == plugin.allocID
      && forall j :: 1 <= j < |s1.table[plugin.ptype][plugin.name]| ==>
           s1.table[plugin.ptype][plugin.name][j].info.allocID != plugin.allocID
  {
    var g := s.table[plugin.ptype][plugin.name];
    var s1 := EnsureSpec(s, plugin, needs);
    var g1 := EnsureInGroup(g, plugin, needs, s.next);
    EnsureOnList(s, plugin, needs);
    EnsureTwiceInGroup(g, plugin, needs, s.next, s1.next);
    EnsureFixed(s1, plugin, needs);
    assert forall j :: 1 <= j < |g1| ==> g1[j].info.allocID != plugin.allocID by {
      EnsureKeepsWf(g, plugin, needs, s.next);
    }
  }

  /** ensureInstance changes nothing when the list it finds is already as it would leave it. */
  lemma EnsureFixed(s: State, plugin: PluginInfo, needs: NeedsReplacement)
    requires plugin.ptype in s.table && plugin.name in s.table[plugin.ptype]
    requires var g := s.table[plugin.ptype][plugin.name];
      !StartsWorker(g, plugin, needs) && EnsureInGroup(g, plugin, needs, s.next) == g
    ensures EnsureSpec(s, plugin, needs) == s
  {
    var byName := s.table[plugin.ptype];
    assert byName[plugin.name := byName[plugin.name]] == byName;
    assert s.table[plugin.ptype := byName] == s.table;
  }

  /** ensureInstance first adds the plugin's type, so adding it beforehand changes nothing. */
  lemma EnsureSpecWithType(s: State, plugin: PluginInfo, needs: NeedsReplacement)
    ensures EnsureSpec(s.(table := WithType(s.table, plugin.ptype)), plugin, needs)
         == EnsureSpec(s, plugin, needs)
  {
  }

  /** ensureInstance for a name that has a list rewrites that list and nothing else. */
  lemma EnsureOnList(s: State, plugin: PluginInfo, needs: NeedsReplacement)
    requires plugin.ptype in s.table && plugin.name in s.table[plugin.ptype]
    ensures var g := s.table[plugin.ptype][plugin.name];
      var r := EnsureSpec(s, plugin, needs);
      var starts := StartsWorker(g, plugin, needs);
      r.table == s.table[plugin.ptype := s.table[plugin.ptype][plugin.name := EnsureInGroup(g, plugin, needs, s.next)]]
      && r.next == (if starts then s.next + 1 else s.next)
      && r.started == (if starts then s.started + [s.next] else s.started)
      && r.stopped == s.stopped
  {
  }

  /** A descriptor whose name has no list: an instance manager is started, but the list
      holding it is never stored, so the table only gains the (empty) inner map for the
      type. Registering again starts yet another instance manager. */
  lemma UntrackedRegistrationLeaks(s: State, plugin: PluginInfo, needs: NeedsReplacement)
    requires plugin.ptype !in s.table || plugin.name !in s.table[plugin.ptype]
    ensures var s1 := EnsureSpec(s, plugin, needs);
      s1.table == WithType(s.table, plugin.ptype)
      && s1.started == s.started + [s.next] && s1.next == s.next + 1
      && plugin.name !in s1.table[plugin.ptype]
      && EnsureSpec(s1, plugin, needs).started == s.started + [s.next, s.next + 1]
  {
  }

  /** Two allocations of one plugin name coexist in its list, newest first; removing the
      first leaves exactly the second's entry (in front of what was there before) and shuts
      down the first's instance manager. */
  lemma {:induction false} OwnersCoexist(s: State, a: PluginInfo, b: PluginInfo, needs: NeedsReplacement)
    requires a.ptype == b.ptype && a.name == b.name && a.allocID != b.allocID
    requires a.ptype in s.table && a.name in s.table[a.ptype]
    requires forall j :: 0 <= j < |s.table[a.ptype][a.name]| ==>
      s.table[a.ptype][a.name][j].info.allocID != a.allocID
      && s.table[a.ptype][a.name][j].info.allocID != b.allocID
    ensures var g := s.table[a.ptype][a.name];
      var s2 := EnsureSpec(EnsureSpec(s, a, needs), b, needs);
      var s3 := EnsureNoSpec(s2, a);
      s2.table[a.ptype][a.name] == [Entry(s.next + 1, b), Entry(s.next, a)] + g
      && s2.started == s.started + [s.next, s.next + 1]
      && s3.table[a.ptype][a.name] == [Entry(s.next + 1, b)] + g
      && s3.stopped == s.stopped + multiset{s.next}
  {
    var g := s.table[a.ptype][a.name];
    var s1 := EnsureSpec(s, a, needs);
    EnsureAdds(g, a, needs, s.next);
    var g1 := [Entry(s.next, a)] + g;
    assert s1.table[a.ptype][a.name] == g1;
    assert forall j :: 0 <= j < |g1| ==> g1[j].info.allocID != b.allocID;
    EnsureAdds(g1, b, needs, s.next + 1);
    var s2 := EnsureSpec(s1, b, needs);
    var g2 := [Entry(s.next + 1, b)] + g1;
    assert s2.table[a.ptype][a.name] == g2;
    assert FindAlloc(g2, a.allocID) == 1;
    assert RemoveInGroup(g2, a.allocID) == [Entry(s.next + 1, b)] + g;
  }

  // ---------------------------------------------------------------------------
  // Resync

  /** ensureInstance on a listing leaves the lists of names the listing does not mention as
      they were, and shuts nothing down. */
  lemma {:induction false} EnsureAllKeepsUnlisted(s: State, plugins: seq<PluginInfo>, needs: NeedsReplacement, ptype: string, name: string)
    requires name !in Names(plugins)
    requires ptype in s.table && name in s.table[ptype]
    ensures var r := EnsureAllSpec(s, plugins, needs);
      ptype in r.table && name in r.table[ptype] && r.table[ptype][name] == s.table[ptype][name]
      && r.stopped == s.stopped
    decreases |plugins|
  {
    if plugins != [] {
      var k := |plugins| - 1;
      NamesSnoc(plugins, k);
      assert plugins[..k + 1] == plugins;
      EnsureAllKeepsUnlisted(s, plugins[..k], needs, ptype, name);
      EnsureOtherName(EnsureAllSpec(s, plugins[..k], needs), plugins[k], needs, ptype, name);
    }
  }

  /** ensureInstance leaves the lists of other names alone and shuts nothing down. */
  lemma EnsureOtherName(s: State, plugin: PluginInfo, needs: NeedsReplacement, ptype: string, name: string)
    requires plugin.name != name && ptype in s.table && name in s.table[ptype]
    ensures var r := EnsureSpec(s, plugin, needs);
      ptype in r.table && name in r.table[ptype] && r.table[ptype][name] == s.table[ptype][name]
      && r.stopped == s.stopped
  {
  }

  /** ensureInstance keeps an entry of any list unless the descriptor is for that very list
      and that entry's allocation. */
  lemma EnsureKeepsEntry(s: State, plugin: PluginInfo, needs: NeedsReplacement, ptype: string, name: string, e: Entry)
    requires ptype in s.table && name in s.table[ptype] && e in s.table[ptype][name]
    requires plugin.ptype == ptype && plugin.name == name ==> plugin.allocID != e.info.allocID
    ensures var r := EnsureSpec(s, plugin, needs);
      ptype in r.table && name in r.table[ptype] && e in r.table[ptype][name]
  {
    if plugin.ptype == ptype && plugin.name == name {
      EnsureOnList(s, plugin, needs);
      EnsureKeepsOtherEntry(s.table[ptype][name], plugin, needs, s.next, e);
    }
  }

  /** Ensuring a listing keeps every entry whose allocation the listing does not mention
      under that type and name: the ensure phase of a resync never drops a stale owner. */
  lemma {:induction false} EnsureAllKeepsStaleEntry(s: State, plugins: seq<PluginInfo>, needs: NeedsReplacement,
                                                    ptype: string, name: string, e: Entry)
    requires ptype in s.table && name in s.table[ptype] && e in s.table[ptype][name]
    requires forall k :: 0 <= k < |plugins| && plugins[k].ptype == ptype && plugins[k].name == name ==>
      plugins[k].allocID != e.info.allocID
    ensures var r := EnsureAllSpec(s, plugins, needs);
      ptype in r.table && name in r.table[ptype] && e in r.table[ptype][name]
    decreases |plugins|
  {
    if plugins != [] {
      var k := |plugins| - 1;
      EnsureAllKeepsStaleEntry(s, plugins[..k], needs, ptype, name, e);
      EnsureKeepsEntry(EnsureAllSpec(s, plugins[..k], needs), plugins[k], needs, ptype, name, e);
    }
  }

  /** Resync alone never removes a stale owner of a listed name: an entry whose allocation
      is no longer listed stays as long as some descriptor of its name is listed; only a
      deregistration event removes it. */
  lemma ResyncKeepsStaleOwner(s: State, ptype: string, plugins: seq<PluginInfo>, needs: NeedsReplacement,
                              name: string, e: Entry)
    requires name in Names(plugins)
    requires ptype in s.table && name in s.table[ptype] && e in s.table[ptype][name]
    requires forall k :: 0 <= k < |plugins| && plugins[k].ptype == ptype && plugins[k].name == name ==>
      plugins[k].allocID != e.info.allocID
    ensures var r := ResyncSpec(s, ptype, plugins, needs);
      ptype in r.table && name in r.table[ptype] && e in r.table[ptype][name]
  {
    EnsureAllKeepsStaleEntry(s, plugins, needs, ptype, name, e);
    ResyncKeepsListedNames(s, ptype, plugins, needs, name);
  }

  /** Resync removes by name, not by allocation: a list whose name is listed loses nothing
      in the removal phase, even if one of its allocations is no longer registered. */
  lemma ResyncKeepsListedNames(s: State, ptype: string, plugins: seq<PluginInfo>, needs: NeedsReplacement, name: string)
    requires name in Names(plugins)
    ensures var t := WithType(EnsureAllSpec(s, plugins, needs).table, ptype);
      name in t[ptype] ==> ResyncSpec(s, ptype, plugins, needs).table[ptype][name] == t[ptype][name]
  {
  }

  /** A tracked name the listing no longer mentions loses only its front entry in one
      resync, and that entry's instance manager is shut down: a list holding two
      allocations keeps the second until the next resync. */
  lemma {:induction false} ResyncDropsOneFrontEntry(s: State, ptype: string, plugins: seq<PluginInfo>, needs: NeedsReplacement, name: string)
    requires name !in Names(plugins)
    requires ptype in s.table && name in s.table[ptype] && s.table[ptype][name] != []
    ensures var r := ResyncSpec(s, ptype, plugins, needs);
      ptype in r.table && name in r.table[ptype]
      && r.table[ptype][name] == s.table[ptype][name][1..]
      && s.table[ptype][name][0].worker in r.stopped
  {
    var g := s.table[ptype][name];
    var mid := EnsureAllSpec(s, plugins, needs);
    EnsureAllKeepsUnlisted(s, plugins, needs, ptype, name);
    var t := WithType(mid.table, ptype);
    assert t[ptype][name] == g;
    var o := Orphans(t[ptype], Names(plugins));
    assert name in o;
    SumValuesPick(o, FrontWorker, name);
    assert g[0].worker in FrontWorker(o[name]);
  }

  // ---------------------------------------------------------------------------
  // The run loop from New: nothing is ever tracked

  lemma {:induction false} EnsureAllNoGroups(s: State, plugins: seq<PluginInfo>, needs: NeedsReplacement)
    requires NoGroups(s.table)
    ensures NoGroups(EnsureAllSpec(s, plugins, needs).table)
    ensures EnsureAllSpec(s, plugins, needs).stopped == s.stopped
    decreases |plugins|
  {
    if plugins != [] {
      EnsureAllNoGroups(s, plugins[..|plugins| - 1], needs);
    }
  }

  lemma ResyncNoGroups(s: State, ptype: string, plugins: seq<PluginInfo>, needs: NeedsReplacement)
    requires NoGroups(s.table)
    ensures NoGroups(ResyncSpec(s, ptype, plugins, needs).table)
    ensures ResyncSpec(s, ptype, plugins, needs).stopped == s.stopped
  {
    EnsureAllNoGroups(s, plugins, needs);
    var t := WithType(EnsureAllSpec(s, plugins, needs).table, ptype);
    assert t[ptype] == map[];
    SumValuesEmpty(Orphans(t[ptype], Names(plugins)), FrontWorker);
  }

  lemma StepNoGroups(s: State, input: Input, needs: NeedsReplacement)
    requires NoGroups(s.table)
    ensures NoGroups(StepSpec(s, input, needs).table)
    ensures StepSpec(s, input, needs).stopped == s.stopped
  {
    if input.Tick? {
      ResyncNoGroups(s, ControllerType, input.controllerPlugins, needs);
      ResyncNoGroups(ResyncSpec(s, ControllerType, input.controllerPlugins, needs), NodeType, input.nodePlugins, needs);
    }
  }

  lemma {:induction false} RunNoGroups(s: State, inputs: seq<Input>, needs: NeedsReplacement)
    requires NoGroups(s.table)
    ensures NoGroups(RunSpec(s, inputs, needs).table)
    ensures RunSpec(s, inputs, needs).stopped == s.stopped
    decreases |inputs|
  {
    if inputs != [] && !inputs[0].Shutdown? {
      StepNoGroups(s, inputs[0], needs);
      RunNoGroups(StepSpec(s, inputs[0], needs), inputs[1..], needs);
    }
  }

  lemma {:induction false} AllWorkersNoGroups(t: Table)
    requires NoGroups(t)
    ensures AllWorkers(t) == multiset{}
    decreases |t|
  {
    if |t| != 0 {
      var k :| k in t;
      SumValuesPick(t, TypeWorkers, k);
      SumValuesEmpty(t[k], GroupWorkers);
      MapMinusOne(t, k);
      AllWorkersNoGroups(t - {k});
    }
  }

  /** Starting from New, whatever registrations, deregistrations and resyncs happen, no
      list is ever stored: MounterForPlugin fails for every plugin, no instance manager is
      ever shut down, and the final Shutdown stops none of the ones that were started. */
  lemma NothingEverTracked<M>(inputs: seq<Input>, needs: NeedsReplacement, pluginID: string, volumeMounter: WorkerId -> Result<M, string>)
    ensures var s := RunSpec(Initial(), inputs, needs);
      NoGroups(s.table)
      && MounterSpec(s.table, pluginID, volumeMounter) == Failure(PluginNotFound)
      && ShutdownSpec(s).stopped == multiset{}
  {
    var s := RunSpec(Initial(), inputs, needs);
    RunNoGroups(Initial(), inputs, needs);
    AllWorkersNoGroups(s.table);
  }

  // ---------------------------------------------------------------------------
  // Steps of the resync removal walk

  /** ensureNoInstance on the descriptor of a list's own front entry removes exactly that
      entry and shuts its instance manager down. */
  lemma RemoveFrontEntry(s: State, ptype: string, name: string)
    requires Wf(s.table) && ptype in s.table && name in s.table[ptype] && s.table[ptype][name] != []
    ensures var g := s.table[ptype][name];
      EnsureNoSpec(s, g[0].info)
        == State(s.table[ptype := s.table[ptype][name := g[1..]]], s.next, s.started, s.stopped + multiset{g[0].worker})
  {
    var g := s.table[ptype][name];
    assert WfGroup(g, ptype, name);
    assert FindAlloc(g, g[0].info.allocID) == 0;
    assert RemoveAt(g, 0) == g[1..];
  }

  /** Walking one more name: pruning with that name no longer counted as listed. */
  lemma PruneStep(m: ByName, seen: set<string>, names: set<string>, name: string)
    requires name in names && name !in seen && name in m
    ensures Prune(m, seen + (names - {name}))
      == Prune(m, seen + names)[name := if m[name] == [] then [] else m[name][1..]]
  {
  }

  /** Walking one more name: its front entry joins those shut down. */
  lemma OrphansStep(m: ByName, seen: set<string>, names: set<string>, name: string)
    requires name in names && name !in seen && name in m
    ensures SumValues(Orphans(m, seen + (names - {name})), FrontWorker)
      == FrontWorker(m[name]) + SumValues(Orphans(m, seen + names), FrontWorker)
  {
    var o := Orphans(m, seen + (names - {name}));
    assert name in o;
    SumValuesPick(o, FrontWorker, name);
    assert o - {name} == Orphans(m, seen + names);
  }

  /** The state after the resync walk has visited `name`: unchanged for a listed name or an
      empty list, otherwise the list's front entry is removed and its instance manager shut
      down. */
  function VisitSpec(s: State, byName: ByName, seen: set<string>, name: string): State
    requires name in byName
  {
    if name in seen || byName[name] == [] then s else EnsureNoSpec(s, byName[name][0].info)
  }

  /** The invariant of the resync walk over `byName` (the lists of `ptype` in table `t`):
      the names still to visit are untouched, the visited unlisted ones have lost their front
      entry, and those entries' instance managers have been shut down. */
  ghost predicate Walked(s: State, t: Table, ptype: string, byName: ByName, seen: set<string>,
                         names: set<string>, base: multiset<WorkerId>)
  {
    names <= byName.Keys && ptype in t && t[ptype] == byName && Wf(s.table)
    && s.table == t[ptype := Prune(byName, seen + names)]
    && s.stopped == base + SumValues(Orphans(byName, seen + names), FrontWorker)
  }

  /** Before the resync walk every name is still to visit: nothing is pruned or stopped. */
  lemma WalkStart(s: State, ptype: string, seen: set<string>)
    requires Wf(s.table) && ptype in s.table
    ensures Walked(s, s.table, ptype, s.table[ptype], seen, s.table[ptype].Keys, s.stopped)
  {
    var byName := s.table[ptype];
    assert Prune(byName, seen + byName.Keys) == byName;
    assert Orphans(byName, seen + byName.Keys) == map[];
    SumValuesEmpty(Orphans(byName, seen + byName.Keys), FrontWorker);
    assert s.table[ptype := byName] == s.table;
  }

  /** After the resync walk every unlisted list has lost its front entry. */
  lemma WalkEnd(s: State, t: Table, ptype: string, byName: ByName, seen: set<string>,
                base: multiset<WorkerId>)
    requires Walked(s, t, ptype, byName, seen, {}, base)
    ensures Wf(s.table) && s.table == t[ptype := Prune(t[ptype], seen)]
    ensures s.stopped == base + SumValues(Orphans(t[ptype], seen), FrontWorker)
  {
    assert seen + {} == seen;
  }

  lemma VisitStep(s: State, t: Table, ptype: string, byName: ByName, seen: set<string>,
                  names: set<string>, name: string, base: multiset<WorkerId>)
    requires name in names && Walked(s, t, ptype, byName, seen, names, base)
    ensures var s' := VisitSpec(s, byName, seen, name);
      Walked(s', t, ptype, byName, seen, names - {name}, base)
      && s'.next == s.next && s'.started == s.started
  {
    var names' := names - {name};
    if name in seen {
      assert seen + names' == seen + names;
    } else {
      var group := byName[name];
      VisitTable(s.table, t, ptype, byName, seen, names, name);
      VisitStopped(byName, seen, names, name, base, s.stopped);
      if group != [] {
        RemoveFrontEntry(s, ptype, name);
        EnsureNoSpecWf(s, group[0].info);
      }
    }
  }

  lemma VisitTable(st: Table, t: Table, ptype: string, byName: ByName, seen: set<string>,
                   names: set<string>, name: string)
    requires name in names && name !in seen && name in byName && ptype in t
    requires st == t[ptype := Prune(byName, seen + names)]
    ensures st[ptype][name] == byName[name]
    ensures var g := byName[name];
      (if g == [] then st else st[ptype := st[ptype][name := g[1..]]])
        == t[ptype := Prune(byName, seen + (names - {name}))]
  {
    var pruned := Prune(byName, seen + names);
    var group := byName[name];
    PruneStep(byName, seen, names, name);
    if group != [] {
      assert t[ptype := pruned][ptype := pruned[name := group[1..]]] == t[ptype := pruned[name := group[1..]]];
    } else {
      assert pruned[name := []] == pruned;
    }
  }

  lemma VisitStopped(byName: ByName, seen: set<string>, names: set<string>, name: string,
                     base: multiset<WorkerId>, stopped: multiset<WorkerId>)
    requires name in names && name !in seen && name in byName
    requires stopped == base + SumValues(Orphans(byName, seen + names), FrontWorker)
    ensures stopped + FrontWorker(byName[name])
      == base + SumValues(Orphans(byName, seen + (names - {name})), FrontWorker)
  {
    var sum := SumValues(Orphans(byName, seen + names), FrontWorker);
    OrphansStep(byName, seen, names, name);
    MultisetShuffle(base, sum, FrontWorker(byName[name]));
  }
}
