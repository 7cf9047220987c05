/** The CSI manager's state and the effect of each of its operations on it, as functions
    (client/pluginmanager/csimanager/manager.go). The class in CsiManager is proved to
    follow these; the lemmas here state what the operations mean. */
module CsiSpec {
  import opened Wrappers
  import opened CsiTable

  /** The default resync period: 30 seconds, counted in nanoseconds as Go's time.Duration. */
  const DefaultPluginResyncPeriod: int := 30_000_000_000

  /** The error text MounterForPlugin returns for an unknown or empty plugin. */
  const PluginNotFound: string := "TODO"

  /** The resync period New settings: a zero period is replaced by the default, any other
      value (negative ones included) is kept. */
  function ResyncPeriod(configured: int): (p: int)
    ensures p != 0
    ensures configured != 0 ==> p == configured
    ensures configured == 0 ==> p == DefaultPluginResyncPeriod
  {
    if configured == 0 then DefaultPluginResyncPeriod else configured
  }

  /** The tracking table, the identity the next instance manager will get, and the logs of
      instance managers started (in order) and shut down (Shutdown stops them in parallel,
      so only how often each one is shut down is recorded). */
  datatype State = State(table: Table, next: WorkerId, started: seq<WorkerId>, stopped: multiset<WorkerId>)

  /** The state New leaves: an empty table and nothing started. */
  function Initial(): State
  {
    State(map[], 0, [], multiset{})
  }

  /** ensureInstance(plugin). */
  function EnsureSpec(s: State, plugin: PluginInfo, needs: NeedsReplacement): State
  {
    var starts := StartsWorkerIn(s.table, plugin, needs);
    State(EnsureTable(s.table, plugin, needs, s.next),
          if starts then s.next + 1 else s.next,
          if starts then s.started + [s.next] else s.started,
          s.stopped)
  }

  /** ensureNoInstance(plugin). */
  function EnsureNoSpec(s: State, plugin: PluginInfo): State
  {
    State(RemoveTable(s.table, plugin), s.next, s.started, s.stopped + StoppedIn(s.table, plugin))
  }

  /** ensureInstance on every plugin of a listing, in listing order. */
  function EnsureAllSpec(s: State, plugins: seq<PluginInfo>, needs: NeedsReplacement): State
    decreases |plugins|
  {
    if plugins == [] then s
    else
      var k := |plugins| - 1;
      EnsureSpec(EnsureAllSpec(s, plugins[..k], needs), plugins[k], needs)
  }

  /** resyncPluginsFromRegistry(ptype) against the registry listing `plugins`: ensure every
      listed plugin, then take the front entry off every list of `ptype` whose name the
      listing does not mention, shutting its instance manager down. */
  ghost function ResyncSpec(s: State, ptype: string, plugins: seq<PluginInfo>, needs: NeedsReplacement): State
  {
    var mid := EnsureAllSpec(s, plugins, needs);
    var t := WithType(mid.table, ptype);
    var seen := Names(plugins);
    State(t[ptype := Prune(t[ptype], seen)], mid.next, mid.started,
          mid.stopped + SumValues(Orphans(t[ptype], seen), FrontWorker))
  }

  datatype EventType = Registered | Deregistered | UnknownEvent(kind: string)

  datatype PluginUpdateEvent = PluginUpdateEvent(eventType: EventType, info: PluginInfo)

  /** handlePluginEvent; `None` is a nil event. */
  function HandleSpec(s: State, event: Option<PluginUpdateEvent>, needs: NeedsReplacement): State
  {
    match event
    case None => s
    case Some(e) =>
      match e.eventType
      case Registered => EnsureSpec(s, e.info, needs)
      case Deregistered => EnsureNoSpec(s, e.info)
      case UnknownEvent(_) => s
  }

  /** What one pass of the run loop's select receives: the timer firing (with what the
      registry lists for each type at that moment), an update from either type's
      subscription, or the shutdown context being done. */
  datatype Input =
    | Tick(controllerPlugins: seq<PluginInfo>, nodePlugins: seq<PluginInfo>)
    | ControllerEvent(event: Option<PluginUpdateEvent>)
    | NodeEvent(event: Option<PluginUpdateEvent>)
    | Shutdown

  /** One pass of runLoop; Shutdown makes the loop return and changes nothing. */
  ghost function StepSpec(s: State, input: Input, needs: NeedsReplacement): State
  {
    match input
    case Tick(controllers, nodes) =>
      ResyncSpec(ResyncSpec(s, ControllerType, controllers, needs), NodeType, nodes, needs)
    case ControllerEvent(e) => HandleSpec(s, e, needs)
    case NodeEvent(e) => HandleSpec(s, e, needs)
    case Shutdown => s
  }

  /** runLoop over a sequence of inputs, up to the first Shutdown. */
  ghost function RunSpec(s: State, inputs: seq<Input>, needs: NeedsReplacement): State
    decreases |inputs|
  {
    if inputs == [] || inputs[0].Shutdown? then s
    else RunSpec(StepSpec(s, inputs[0], needs), inputs[1..], needs)
  }

  /** Shutdown's sweep once the loop has exited: every tracked instance manager is shut
      down once; the table itself is left as it is. */
  ghost function ShutdownSpec(s: State): State
  {
    s.(stopped := s.stopped + AllWorkers(s.table))
  }

  /** MounterForPlugin: only the "csi-node" lists are consulted; the front entry's instance
      manager is asked for its volume mounter. */
  function MounterSpec<M>(t: Table, pluginID: string, volumeMounter: WorkerId -> Result<M, string>): Result<M, string>
  {
    match FrontOf(t, NodeType, pluginID)
    case None => Failure(PluginNotFound)
    case Some(e) => volumeMounter(e.worker)
  }
}
