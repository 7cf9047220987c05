# CSI plugin manager and energy configuration, modelled in Dafny

This project models two parts of a cluster-node agent's client.

**The CSI plugin manager** (`client/pluginmanager/csimanager/manager.go`). It keeps a
tracking table: plugin type (`csi-controller` or `csi-node`) → plugin name → a list of
instance managers, with the front of each list being the one that answers mount requests.
The table is changed in three ways:

- by registry events (register and deregister);
- by a periodic resync against the registry's listing, whose first pass is immediate;
- by the final shutdown, which stops every tracked instance manager.

The model has four modules:

- `CsiTable` has the table as a value (`map<string, map<string, seq<Entry>>>`) and the
  operations on one list and on the whole table. It also has the list lemmas.
- `CsiSpec` has the state (table, next worker identity, ghost logs of instance managers
  started and stopped). It has one specification function per manager operation:
  `EnsureSpec`, `EnsureNoSpec`, `ResyncSpec`, `HandleSpec`, `StepSpec`, `RunSpec`,
  `ShutdownSpec` and `MounterSpec`.
- `CsiProperties` has lemmas about those functions.
- `CsiManager.Manager` is a class with the table as a field. Its methods update the table in
  place with the loops the source has, and each method is proved to follow its
  specification function. `PluginType` returns `"csi"`.

Starting an instance manager is modelled as taking the next worker identity and logging it
in `started`. Shutting one down adds its identity to the multiset `stopped`. Whether a
running instance manager needs replacing is a parameter (`NeedsReplacement`). So is the
volume mounter an instance manager hands out.

**The energy score configuration** (`client/config/energy.go`). An `EnergyConfig` selects a
carbon-intensity provider by key: `aws`, `gcp`, `azure`, `carbon-intensity` or
`electricity-map`. It holds one optional sub-configuration per provider.

- Validation of the selected sub-configuration is a function. Its errors are the list of
  messages the source would join.
- `Finalize` and `Copy` are methods on the heap objects. `Finalize` installs a score
  provider on success; `Copy` makes a deep copy that it finalizes.

Creating the carbon-intensity client can fail. It is a parameter (`GridClientFactory`).

### Code and design

The source's own comments say that ensureInstance adds the instance manager "to the CSI
manager's tracking table" (manager.go:170-171) and that resync shuts every unlisted instance
manager down and removes it from the table (lines 136-137). The code does less, and the
model follows the code. Four differences matter:

- `ensureInstance` for a plugin name with no list yet (manager.go:176-179) builds a fresh
  list and pushes the new instance manager onto it (line 200). It never stores that list in
  the table: only the reconfirm/replace path writes back (line 192). So a first
  registration starts an instance manager that nothing tracks. See
  `UntrackedRegistrationLeaks`.
- `ensureNoInstance` (lines 215-222) removes the first matching element. `list.Remove`
  clears that element's `next`, so the walk stops there. A later duplicate would survive
  (`RemoveKeepsLaterDuplicate`).
- Resync removes unlisted names (lines 141-144) with the same kind of walk. After the
  front entry is removed, `e.Next()` is nil, so one pass removes only the front entry of
  each unlisted name, not every instance manager of it (`ResyncDropsOneFrontEntry`).
  Resync compares names only: a listed name keeps the entry of an owner that is no
  longer registered (`ResyncKeepsStaleOwner`).
- Because of the first point, from a freshly created manager no list is ever stored,
  whatever the inputs. Mount requests then always fail with the source's `"TODO"` error,
  and shutdown stops nothing (`NothingEverTracked`). The lemmas about populated tables
  (`RegistrationIdempotent`, `OwnersCoexist`, `EnsureReplaces`, …) state what the code does
  to a list that is already present.

In the source of `AWSConfig.Validate`, the secret key message is spelled
`secret_acces_key`. The model keeps that spelling.

## Model

| member | source | states |
|---|---|---|
| CsiManager.Manager.constructor | client/pluginmanager/csimanager/manager.go:35-55 | The manager starts with an empty table and no instance managers. A zero configured resync period becomes the default, both in the manager and in the configuration. |
| CsiSpec.ResyncPeriod | client/pluginmanager/csimanager/manager.go:38-40 | The effective period is never zero. A non-zero configured period is kept, and zero becomes 30 seconds. |
| CsiTable.WithType | client/pluginmanager/csimanager/manager.go:227-234 | instancesForType adds the type with an empty inner map when missing. Existing types are untouched. |
| CsiManager.Manager.InstancesForType | client/pluginmanager/csimanager/manager.go:227-234 | The table after the call is the table with the type added. The result is that type's inner map. |
| CsiTable.FindAlloc | client/pluginmanager/csimanager/manager.go:181-183 | The walk stops at the first entry of the allocation, or at the end when there is none. |
| CsiTable.EnsureInGroup | client/pluginmanager/csimanager/manager.go:181-200 | After ensureInstance on a list, the front entry belongs to the plugin's allocation. |
| CsiTable.EnsureReconfirms | client/pluginmanager/csimanager/manager.go:183-193 | A tracked allocation that needs no replacement starts no instance manager: its entry moves to the front and the list keeps the same entries. |
| CsiTable.EnsureReplaces | client/pluginmanager/csimanager/manager.go:183-193 | A tracked allocation that needs replacement starts a new instance manager, which takes the front. The old entry leaves the list and the other entries keep their order. |
| CsiTable.EnsureAdds | client/pluginmanager/csimanager/manager.go:197-200 | An untracked allocation is pushed to the front of the list with a new instance manager. |
| CsiTable.EnsureKeepsWf | client/pluginmanager/csimanager/manager.go:181-200 | ensureInstance keeps at most one entry per allocation in a list, each filed under its own type and name. |
| CsiManager.Manager.EnsureInstance | client/pluginmanager/csimanager/manager.go:172-201 | The new state is EnsureSpec of the old one: reconfirm, replace or add, and a missing list is never stored. Well-formedness is kept. |
| CsiManager.Manager.FindInList | client/pluginmanager/csimanager/manager.go:181-183 | The walk from the front of a list stops at the first entry of the allocation, or at the end. |
| CsiManager.Manager.EnsureInList | client/pluginmanager/csimanager/manager.go:181-200 | On a list the table holds, the new state is EnsureSpec of the old one: the list found is rewritten in place and written back. |
| CsiProperties.RegistrationIdempotent | client/pluginmanager/csimanager/manager.go:181-194 | Registering a descriptor twice equals registering it once, provided that, when the first registration starts an instance manager, that new one would not itself need replacing. The allocation is then at the front exactly once. |
| CsiProperties.UntrackedRegistrationLeaks | client/pluginmanager/csimanager/manager.go:172-201 | For a name without a list, an instance manager is started but the table gains at most the empty inner map for the type. The name stays untracked, so registering again starts yet another instance manager. |
| CsiProperties.OwnersCoexist | client/pluginmanager/csimanager/manager.go:172-223 | Two new allocations of one plugin name are tracked side by side in an existing list, newest first, each with its own instance manager. Deregistering the older one removes exactly its entry and shuts down exactly its instance manager. |
| CsiTable.MoveToFront | client/pluginmanager/csimanager/manager.go:191 | The chosen entry comes first, the entries before it shift by one and keep their order, the ones after it stay in place, and the list holds the same entries. |
| CsiTable.RemoveAt | client/pluginmanager/csimanager/manager.go:220 | The chosen entry leaves the list; the entries before and after it keep their order and no other entry is lost. |
| CsiManager.Manager.Launch | client/pluginmanager/csimanager/manager.go:198-199 | Starting an instance manager (also at lines 187-188) takes the next identity, logs it as started, and builds the entry from that identity and the descriptor. |
| CsiTable.EnsureKeepsOtherEntry | client/pluginmanager/csimanager/manager.go:181-200 | ensureInstance on a list keeps every entry of another allocation. |
| CsiProperties.EnsureKeepsEntry | client/pluginmanager/csimanager/manager.go:172-201 | ensureInstance keeps every entry of every list, except the entry of its own allocation in its own list. |
| CsiProperties.EnsureAllKeepsStaleEntry | client/pluginmanager/csimanager/manager.go:131-134 | Ensuring a listing keeps every entry whose allocation the listing does not mention under that type and name. |
| CsiProperties.ResyncKeepsStaleOwner | client/pluginmanager/csimanager/manager.go:123-147 | A whole resync keeps the entry of an owner that is no longer listed, as long as its name is still listed. Only a deregistration event removes it. |
| CsiTable.RemoveFirstMatch | client/pluginmanager/csimanager/manager.go:215-222 | ensureNoInstance removes exactly the first entry of the allocation and shuts down its instance manager. |
| CsiTable.RemoveLeavesNoMatch | client/pluginmanager/csimanager/manager.go:215-222 | In a well-formed list, no entry of the allocation remains after removal. |
| CsiTable.RemoveKeepsLaterDuplicate | client/pluginmanager/csimanager/manager.go:215-222 | The walk ends after the first removal, so a second entry of the same allocation stays. |
| CsiTable.RemoveKeepsWf | client/pluginmanager/csimanager/manager.go:215-222 | Removal keeps the list well formed. |
| CsiManager.Manager.EnsureNoInstance | client/pluginmanager/csimanager/manager.go:205-223 | The new state is EnsureNoSpec of the old one: the first matching entry is removed and its instance manager is shut down. An unknown name changes only the type's inner map. |
| CsiManager.Manager.ResyncPluginsFromRegistry | client/pluginmanager/csimanager/manager.go:123-147 | The new state is ResyncSpec: ensure every listed plugin, then drop the front entry of every unlisted name. Well-formedness is kept. |
| CsiManager.Manager.EnsureListed | client/pluginmanager/csimanager/manager.go:131-134 | Every listed plugin is ensured in order. The returned set is exactly the listed names. |
| CsiManager.Manager.RemoveUnlisted | client/pluginmanager/csimanager/manager.go:138-146 | Unlisted names lose their front entry and those instance managers are stopped. Listed names are untouched. |
| CsiManager.Manager.Walk | client/pluginmanager/csimanager/manager.go:139-146 | Visiting the names of a type in any order yields the same pruned table and the same stopped instance managers. |
| CsiManager.Manager.VisitName | client/pluginmanager/csimanager/manager.go:140-144 | One name of the walk: if it is unlisted and has entries, its front entry is removed and stopped. Otherwise nothing changes. |
| CsiProperties.EnsureAllKeepsUnlisted | client/pluginmanager/csimanager/manager.go:131-134 | Ensuring the listed plugins leaves the lists of names not listed as they were. |
| CsiProperties.ResyncKeepsListedNames | client/pluginmanager/csimanager/manager.go:138-146 | A listed name's list after resync is the list after the ensure phase. Resync removes by name, never by allocation. |
| CsiProperties.ResyncDropsOneFrontEntry | client/pluginmanager/csimanager/manager.go:138-146 | An unlisted name loses exactly its front entry and keeps the rest of its list. That entry's instance manager is among those shut down. |
| CsiManager.Manager.HandlePluginEvent | client/pluginmanager/csimanager/manager.go:150-168 | A nil event and an unknown event type change nothing. Registered means ensureInstance and Deregistered means ensureNoInstance. |
| CsiManager.Manager.Step | client/pluginmanager/csimanager/manager.go:103-117 | A timer tick resyncs controllers then nodes, and events go to handlePluginEvent. The loop exits exactly on shutdown. |
| CsiManager.Manager.RunLoop | client/pluginmanager/csimanager/manager.go:99-118 | The inputs are handled in order up to the first shutdown, which ends the loop. The final state is RunSpec of the initial one. |
| CsiProperties.RunSpecWf | client/pluginmanager/csimanager/manager.go:99-118 | Whatever the inputs, every list keeps at most one entry per allocation, filed under its type and name. |
| CsiProperties.EnsureSpecWf | client/pluginmanager/csimanager/manager.go:172-201 | ensureInstance keeps the whole table well formed. |
| CsiProperties.EnsureNoSpecWf | client/pluginmanager/csimanager/manager.go:205-223 | ensureNoInstance keeps the whole table well formed. |
| CsiProperties.ResyncSpecWf | client/pluginmanager/csimanager/manager.go:123-147 | Resync keeps the whole table well formed. |
| CsiProperties.StepSpecWf | client/pluginmanager/csimanager/manager.go:103-117 | One loop pass keeps the whole table well formed. |
| CsiManager.Manager.ShutdownGroup | client/pluginmanager/csimanager/manager.go:251-258 | Every instance manager of the list is shut down once. |
| CsiManager.Manager.ShutdownType | client/pluginmanager/csimanager/manager.go:250-259 | Every instance manager under the type is shut down once, whatever the map's iteration order. |
| CsiManager.Manager.Shutdown | client/pluginmanager/csimanager/manager.go:238-262 | Every tracked instance manager is shut down exactly once and the table is left as it is (ShutdownSpec). |
| CsiTable.SumValuesPick | client/pluginmanager/csimanager/manager.go:249-251 | The instance managers collected over a map do not depend on which key is visited first. |
| CsiManager.Manager.PluginType | client/pluginmanager/csimanager/manager.go:264-267 | The manager's tag, "csi", is the prefix of both registry types it resyncs, csi-controller and csi-node. |
| CsiManager.Manager.MounterForPlugin | client/pluginmanager/csimanager/manager.go:78-92 | The answer is the volume mounter of the front instance manager in the csi-node list of the name. A missing name or an empty list gives the "TODO" error. As a side effect the table gains the csi-node inner map, and nothing else changes. |
| CsiProperties.NothingEverTracked | client/pluginmanager/csimanager/manager.go:172-201 | From a new manager, any run leaves every list absent. Mount requests then fail and shutdown stops nothing. |
| EnergyConfigs.ValidateAWS | client/config/energy.go:152-172 | Nil gives "AWS specified but not configured". Otherwise each empty field's message appears exactly when that field is empty, in field order, and there is no error iff all fields are set. |
| EnergyConfigs.ValidateGCP | client/config/energy.go:207-217 | Nil gives the not-configured message. An empty key gives exactly "service_account_key required", and otherwise there is no error. |
| EnergyConfigs.ValidateAzure | client/config/energy.go:250-270 | Nil gives the not-configured message. Otherwise client_id, client_secret and tenant_id messages appear exactly for the empty fields, in order. |
| EnergyConfigs.ValidateCI | client/config/energy.go:302-312 | Nil gives the not-configured message. An empty URL gives exactly "api_url required", and otherwise there is no error. |
| EnergyConfigs.ValidateEM | client/config/energy.go:350-366 | Nil gives the not-configured message. Otherwise api_key and api_url messages appear exactly for the empty fields, in order. |
| EnergyConfigs.Validate | client/config/energy.go:74-95 | A nil config or unknown key has its own error. A known key yields exactly the selected sub-configuration's errors, and there are no errors iff the config is complete. |
| EnergyConfigs.ValidateIgnoresOthers | client/config/energy.go:79-92 | Validation reads only the selected sub-configuration. Configs agreeing on key and that one part validate alike. |
| EnergyConfigs.CopyAWS | client/config/energy.go:141-150 | A nil copies to nil. Otherwise the result is a fresh object with equal fields. |
| EnergyConfigs.CopyGCP | client/config/energy.go:196-205 | A nil copies to nil. Otherwise the result is a fresh object with equal fields. |
| EnergyConfigs.CopyAzure | client/config/energy.go:239-248 | A nil copies to nil. Otherwise the result is a fresh object with equal fields. |
| EnergyConfigs.CopyCI | client/config/energy.go:291-300 | A nil copies to nil. Otherwise the result is a fresh object with equal fields. |
| EnergyConfigs.CopyEM | client/config/energy.go:339-348 | A nil copies to nil. Otherwise the result is a fresh object with equal fields. |
| EnergyConfigs.ProviderFor | client/config/energy.go:107-129 | A valid config gets the provider of its key, built on its own configuration. Only the carbon-intensity factory can fail, and it fails exactly when the client cannot be created. |
| EnergyConfigs.FinalizeOutcome | client/config/energy.go:98-133 | An invalid config fails with its validation errors. Success happens iff the config is complete and the provider can be built, and the provider matches the key. |
| EnergyConfigs.Finalize | client/config/energy.go:98-133 | Nil returns no error. On success the provider is installed and no error is returned. On failure the errors are returned and the provider and every other field stay as they were. |
| EnergyConfigs.CopyParts | client/config/energy.go:48-66 | Each sub-configuration of the copy is a fresh deep copy of the original's, or nil where the original's is nil. |
| EnergyConfigs.Copy | client/config/energy.go:38-72 | Nil copies to nil. Otherwise the copy is fresh, with equal region, key and deep-copied sub-configurations. Its provider is what finalizing the copy yields, or none when that fails. |

## Left out

- Concurrency is not modelled. This covers the run-loop goroutine, `select`, the timer and
  its reset, the shutdown context, the `shutdownCh` handshake and the goroutines plus
  `WaitGroup` of `Shutdown`. The loop is a sequence of inputs, each one pass of the
  `select`, ending at the first shutdown input. Parallel shutdowns are a multiset of stopped
  instance managers, so their order is not captured.
- The resync period is a number of nanoseconds (`time.Duration`). It is stored, but the
  timer that uses it is not modelled.
- The dynamic plugin registry is not part of this model. Its listings and events are inputs
  to the loop.
- The instance manager's internals are not part of this model: `newInstanceManager`,
  `run`, `shutdown`, `needsReplacement` and `VolumeMounter`. Starting and stopping are
  logged identities, and `needsReplacement` and the volume mounter are parameters.
- Logging, the event callback and the node-info update callback are not modelled: they do
  not affect the table.
- Any non-nil event whose `Info` is nil, whatever its type, makes the source dereference nil
  in the trace log call (manager.go:156-157). The model's events always carry a descriptor.
- `PluginManager()` returns the manager itself and is not modelled.
- The list's element handles are not modelled (`container/list` is a sequence).
  `MoveToFront` and `Remove` are sequence operations.
- `GetCarbonIntensity` and the provider structs' network calls are not modelled. A score
  provider is a value holding the configuration it was built from.
- The carbon-intensity client constructor is a parameter (`GridClientFactory`). Its
  internals are not modelled.
- Errors are lists of message strings. The formatting of `go-multierror` into one error
  string is not modelled.
- `Finalize`'s `factoryFn == nil` branch cannot be reached after a successful validation.
  `ProviderFor` requires a valid configuration instead.
- EnergyConfigs.Copy: its contract does not state that the copy validates like the
  original. That follows from its `SameAWS` … `SameEM` clauses and
  `ValidateIgnoresOthers`.
- HCL decoding of the configuration is not modelled.
