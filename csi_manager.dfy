/** The CSI plugin manager (client/pluginmanager/csimanager/manager.go) as a class whose
    tracking table the methods update in place, each proved to follow its function in
    CsiSpec. Only the sequential work of the run loop is modelled: each input stands for one
    pass of its select. */
module CsiManager {
  import opened Wrappers
  import opened CsiTable
  import opened CsiSpec
  import opened CsiProperties

  /** The part of the manager's construction-time configuration the core reads. */
  class Config {
    var pluginResyncPeriod: int

    constructor (pluginResyncPeriod: int)
      ensures this.pluginResyncPeriod == pluginResyncPeriod
    {
      this.pluginResyncPeriod := pluginResyncPeriod;
    }
  }

  class Manager {
    /** plugin type -> plugin name -> instance managers, front first */
    var instances: Table
    /** the identity the next instance manager gets */
    var nextWorker: WorkerId
    /** instance managers started, in order */
    ghost var started: seq<WorkerId>
    /** instance managers shut down */
    ghost var stopped: multiset<WorkerId>
    const pluginResyncPeriod: int

    ghost function Snapshot(): State
      reads this
    {
      State(instances, nextWorker, started, stopped)
    }

    ghost predicate Valid()
      reads this
    {
      Wf(instances)
    }

    /** New: a zero resync period in `config` is replaced by the default, in `config` too. */
    constructor (config: Config)
      modifies config
      ensures config.pluginResyncPeriod == ResyncPeriod(old(config.pluginResyncPeriod))
      ensures pluginResyncPeriod == config.pluginResyncPeriod
      ensures Valid() && Snapshot() == Initial()
    {
      if config.pluginResyncPeriod == 0 {
        config.pluginResyncPeriod := DefaultPluginResyncPeriod;
      }
      instances := map[];
      nextWorker := 0;
      started := [];
      stopped := multiset{};
      pluginResyncPeriod := config.pluginResyncPeriod;
    }

    /** The kind of plugin this manager manages: the tag both registry types it resyncs
        carry as their prefix. */
    function PluginType(): (r: string)
      ensures r + "-controller" == ControllerType && r + "-node" == NodeType
    {
      "csi"
    }

    /** instancesForType: the inner map for `ptype`, created empty when missing. */
    method InstancesForType(ptype: string) returns (byName: ByName)
      modifies this`instances
      ensures instances == WithType(old(instances), ptype)
      ensures byName == instances[ptype]
    {
      if ptype !in instances {
        instances := instances[ptype := map[]];
      }
      byName := instances[ptype];
    }

    /** newInstanceManager followed by run. */
    method Launch(plugin: PluginInfo) returns (e: Entry)
      modifies this`nextWorker, this`started
      ensures e == Entry(old(nextWorker), plugin)
      ensures nextWorker == old(nextWorker) + 1 && started == old(started) + [old(nextWorker)]
    {
      e := Entry(nextWorker, plugin);
      nextWorker := nextWorker + 1;
      started := started + [e.worker];
    }

    /** The walk of ensureInstance from the front of a list: the position of the first entry
        of the allocation, or the list's length when there is none. */
    method FindInList(group: Group, allocID: string) returns (i: nat)
      ensures i == FindAlloc(group, allocID)
    {
      i := 0;
      while i < |group| && group[i].info.allocID != allocID
        invariant 0 <= i <= |group|
        invariant forall j :: 0 <= j < i ==> group[j].info.allocID != allocID
      {
        i := i + 1;
      }
      FindAllocIs(group, allocID, i);
    }

    /** ensureInstance: reconfirm, replace or add the instance manager for `plugin`. */
    method EnsureInstance(plugin: PluginInfo, needs: NeedsReplacement)
      requires Valid()
      modifies this`instances, this`nextWorker, this`started
      ensures Valid()
      ensures Snapshot() == EnsureSpec(old(Snapshot()), plugin, needs)
    {
      ghost var s0 := Snapshot();
      EnsureSpecWf(s0, plugin, needs);
      var byName := InstancesForType(plugin.ptype);
      EnsureSpecWithType(s0, plugin, needs);
      if plugin.name in byName {
        var group := byName[plugin.name];
        var i := FindInList(group, plugin.allocID);
        EnsureInList(plugin, needs, byName, i);
      } else {
        // The walk over the fresh, empty list finds nothing; the new instance manager is
        // pushed onto that list, which nothing stores.
        var e := Launch(plugin);
      }
    }

    /** ensureInstance on a list the table holds, `i` being where the walk stopped. */
    method EnsureInList(plugin: PluginInfo, needs: NeedsReplacement, byName: ByName, i: nat)
      requires plugin.ptype in instances && instances[plugin.ptype] == byName
      requires plugin.name in byName && i == FindAlloc(byName[plugin.name], plugin.allocID)
      modifies this`instances, this`nextWorker, this`started
      ensures Snapshot() == EnsureSpec(old(Snapshot()), plugin, needs)
    {
      ghost var s0 := Snapshot();
      var group := byName[plugin.name];
      if i < |group| {
        if needs(group[i], plugin) {
          var e := Launch(plugin);
          group := group[i := e];
        }
        group := MoveToFront(group, i);
      } else {
        var e := Launch(plugin);
        group := [e] + group;
      }
      instances := instances[plugin.ptype := byName[plugin.name := group]];
      EnsureOnList(s0, plugin, needs);
    }

    /** ensureNoInstance: shut down and remove the instance manager of `plugin`'s allocation. */
    method EnsureNoInstance(plugin: PluginInfo)
      requires Valid()
      modifies this`instances, this`stopped
      ensures Valid()
      ensures Snapshot() == EnsureNoSpec(old(Snapshot()), plugin)
    {
      ghost var s0 := Snapshot();
      EnsureNoSpecWf(s0, plugin);
      var byName := InstancesForType(plugin.ptype);
      if plugin.name !in byName {
        return;
      }
      var group := byName[plugin.name];
      var i := 0;
      while i < |group|
        invariant 0 <= i <= |group|
        invariant forall j :: 0 <= j < i ==> group[j].info.allocID != plugin.allocID
        invariant instances == WithType(s0.table, plugin.ptype) && stopped == s0.stopped
      {
        if group[i].info.allocID == plugin.allocID {
          assert i == FindAlloc(group, plugin.allocID);
          assert StoppedIn(s0.table, plugin) == multiset{group[i].worker};
          stopped := stopped + multiset{group[i].worker};
          instances := instances[plugin.ptype := byName[plugin.name := RemoveAt(group, i)]];
          // Remove detaches the element, so its Next() is nil and the walk ends here.
          return;
        }
        i := i + 1;
      }
      assert FindAlloc(group, plugin.allocID) == |group|;
      assert byName[plugin.name := group] == byName;
    }

    /** resyncPluginsFromRegistry(ptype), `plugins` being what the registry lists for it. */
    method ResyncPluginsFromRegistry(ptype: string, plugins: seq<PluginInfo>, needs: NeedsReplacement)
      requires Valid()
      modifies this`instances, this`nextWorker, this`started, this`stopped
      ensures Valid()
      ensures Snapshot() == ResyncSpec(old(Snapshot()), ptype, plugins, needs)
    {
      var seen := EnsureListed(plugins, needs);
      RemoveUnlisted(ptype, seen);
    }

    /** The first half of a resync: ensureInstance on every listed plugin, in order, while
        collecting the listed names. */
    method EnsureListed(plugins: seq<PluginInfo>, needs: NeedsReplacement) returns (seen: set<string>)
      requires Valid()
      modifies this`instances, this`nextWorker, this`started
      ensures Valid()
      ensures seen == Names(plugins)
      ensures Snapshot() == EnsureAllSpec(old(Snapshot()), plugins, needs)
    {
      seen := {};
      var k := 0;
      while k < |plugins|
        invariant 0 <= k <= |plugins|
        invariant Valid()
        invariant Snapshot() == EnsureAllSpec(old(Snapshot()), plugins[..k], needs)
        invariant seen == Names(plugins[..k])
      {
        assert plugins[..k + 1][..k] == plugins[..k];
        NamesSnoc(plugins, k);
        seen := seen + {plugins[k].name};
        EnsureInstance(plugins[k], needs);
        k := k + 1;
      }
      assert plugins[..k] == plugins;
    }

    /** The second half of a resync: the walk over the lists of `ptype`. Each list whose
        name was not seen hands its front element to ensureNoInstance, which removes it;
        the removed element's Next() is nil, so the walk over that list ends there. */
    method RemoveUnlisted(ptype: string, seen: set<string>)
      requires Valid()
      modifies this`instances, this`stopped
      ensures Valid()
      ensures var t := WithType(old(instances), ptype);
        instances == t[ptype := Prune(t[ptype], seen)]
        && stopped == old(stopped) + SumValues(Orphans(t[ptype], seen), FrontWorker)
    {
      var byName := InstancesForType(ptype);
      ghost var t := instances;
      WalkStart(Snapshot(), ptype, seen);
      Walk(t, ptype, byName, seen);
      WalkEnd(Snapshot(), t, ptype, byName, seen, old(stopped));
    }

    /** The walk of resync over every name of `byName`. */
    method Walk(ghost t: Table, ptype: string, byName: ByName, seen: set<string>)
      requires Walked(Snapshot(), t, ptype, byName, seen, byName.Keys, stopped)
      modifies this`instances, this`stopped
      ensures Walked(Snapshot(), t, ptype, byName, seen, {}, old(stopped))
    {
      var names := byName.Keys;
      while names != {}
        invariant Walked(Snapshot(), t, ptype, byName, seen, names, old(stopped))
        decreases names
      {
        var name :| name in names;
        VisitStep(Snapshot(), t, ptype, byName, seen, names, name, old(stopped));
        VisitName(ptype, byName, seen, name);
        names := names - {name};
      }
    }

    /** Visits one name of the resync walk: an unlisted name loses its front entry. */
    method VisitName(ptype: string, byName: ByName, seen: set<string>, name: string)
      requires Valid() && name in byName
      requires name !in seen ==>
        ptype in instances && name in instances[ptype] && instances[ptype][name] == byName[name]
      modifies this`instances, this`stopped
      ensures Snapshot() == VisitSpec(old(Snapshot()), byName, seen, name)
    {
      if name !in seen {
        var group := instances[ptype][name];
        if group != [] {
          EnsureNoInstance(group[0].info);
        }
      }
    }

    /** handlePluginEvent: nil events and unknown event types change nothing. */
    method HandlePluginEvent(event: Option<PluginUpdateEvent>, needs: NeedsReplacement)
      requires Valid()
      modifies this`instances, this`nextWorker, this`started, this`stopped
      ensures Valid()
      ensures Snapshot() == HandleSpec(old(Snapshot()), event, needs)
    {
      if event.None? {
        return;
      }
      match event.value.eventType {
        case Registered => EnsureInstance(event.value.info, needs);
        case Deregistered => EnsureNoInstance(event.value.info);
        case UnknownEvent(_) =>
      }
    }

    /** One pass of runLoop; `exit` says the loop returns (the shutdown context is done). */
    method Step(input: Input, needs: NeedsReplacement) returns (exit: bool)
      requires Valid()
      modifies this`instances, this`nextWorker, this`started, this`stopped
      ensures Valid()
      ensures exit == input.Shutdown?
      ensures Snapshot() == StepSpec(old(Snapshot()), input, needs)
    {
      exit := false;
      match input {
        case Tick(controllers, nodes) =>
          ResyncPluginsFromRegistry(ControllerType, controllers, needs);
          ResyncPluginsFromRegistry(NodeType, nodes, needs);
        case ControllerEvent(e) => HandlePluginEvent(e, needs);
        case NodeEvent(e) => HandlePluginEvent(e, needs);
        case Shutdown => exit := true;
      }
    }

    /** runLoop over `inputs`: it handles them in order and returns at the first Shutdown;
        `handled` is the number of inputs before it. */
    method RunLoop(inputs: seq<Input>, needs: NeedsReplacement) returns (handled: nat)
      requires Valid()
      modifies this`instances, this`nextWorker, this`started, this`stopped
      ensures Valid()
      ensures handled <= |inputs|
      ensures handled < |inputs| ==> inputs[handled].Shutdown?
      ensures forall j :: 0 <= j < handled ==> !inputs[j].Shutdown?
      ensures Snapshot() == RunSpec(old(Snapshot()), inputs, needs)
    {
      ghost var goal := RunSpec(Snapshot(), inputs, needs);
      handled := 0;
      while handled < |inputs|
        invariant 0 <= handled <= |inputs|
        invariant Valid()
        invariant forall j :: 0 <= j < handled ==> !inputs[j].Shutdown?
        invariant RunSpec(Snapshot(), inputs[handled..], needs) == goal
      {
        ghost var before := Snapshot();
        var exit := Step(inputs[handled], needs);
        if exit {
          RunSpecStops(Snapshot(), inputs, handled, needs);
          break;
        }
        RunSpecAdvance(before, inputs, handled, needs);
        handled := handled + 1;
      }
    }

    /** Shut down every instance manager of one list (each in its own goroutine). */
    method ShutdownGroup(group: Group)
      modifies this`stopped
      ensures stopped == old(stopped) + GroupWorkers(group)
    {
      var i := 0;
      while i < |group|
        invariant 0 <= i <= |group|
        invariant stopped == old(stopped) + multiset(Workers(group[..i]))
      {
        assert Workers(group[..i + 1]) == Workers(group[..i]) + [group[i].worker];
        stopped := stopped + multiset{group[i].worker};
        i := i + 1;
      }
      assert group[..i] == group;
    }

    /** Shut down every instance manager of every list of one type. */
    method ShutdownType(byName: ByName)
      modifies this`stopped
      ensures stopped == old(stopped) + TypeWorkers(byName)
    {
      var names := byName.Keys;
      SumWalkStart(byName, GroupWorkers);
      while names != {}
        invariant names <= byName.Keys
        invariant stopped == old(stopped) + SumValues(byName - names, GroupWorkers)
        decreases names
      {
        var name :| name in names;
        SumWalkStep(byName, names, name, GroupWorkers, old(stopped), stopped);
        ShutdownGroup(byName[name]);
        names := names - {name};
      }
      SumWalkEnd(byName);
    }

    /** Shutdown's sweep after the run loop has exited: every instance manager of every list
        is shut down once. The table is left as it is. */
    method Shutdown()
      modifies this`stopped
      ensures Snapshot() == ShutdownSpec(old(Snapshot()))
    {
      var types := instances.Keys;
      SumWalkStart(instances, TypeWorkers);
      while types != {}
        invariant types <= instances.Keys
        invariant stopped == old(stopped) + SumValues(instances - types, TypeWorkers)
        decreases types
      {
        var ptype :| ptype in types;
        SumWalkStep(instances, types, ptype, TypeWorkers, old(stopped), stopped);
        ShutdownType(instances[ptype]);
        types := types - {ptype};
      }
      SumWalkEnd(instances);
    }

    /** MounterForPlugin: the volume mounter of the front "csi-node" instance manager for
        `pluginID`, obtained through `volumeMounter`. */
    method MounterForPlugin<M>(pluginID: string, volumeMounter: WorkerId -> Result<M, string>) returns (r: Result<M, string>)
      requires Valid()
      modifies this`instances
      ensures Valid()
      ensures instances == WithType(old(instances), NodeType)
      ensures r == MounterSpec(old(instances), pluginID, volumeMounter)
    {
      WithTypeWf(instances, NodeType);
      var byName := InstancesForType(NodeType);
      if pluginID !in byName {
        return Failure(PluginNotFound);
      }
      var group := byName[pluginID];
      if group == [] {
        return Failure(PluginNotFound);
      }
      r := volumeMounter(group[0].worker);
    }
  }
}
