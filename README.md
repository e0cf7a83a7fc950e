# dropwizard-guice: a Dafny model of the bundle, its builder and AutoConfig

This project models the core of dropwizard-guice, a Dropwizard bundle that
builds a Guice injector while the application bootstraps and hands it the
live configuration and environment when the application runs. It also proves
properties of that model. The model covers three source files:

- `GuiceBundle` and its `Builder` (module `BundleLifecycle`). The builder
  collects Guice modules, an optional configuration class and an optional
  `AutoConfig`; `build` checks the module list and the stage. `initialize` creates the servlet
  container and the environment module, appends the two internal modules and
  builds the injector; a failure there calls `System.exit(1)`. It then runs
  bootstrap discovery. `run` hands Jersey's resource config to the container,
  puts the container in place of Jersey's servlet container, maps the Guice
  filter, passes the configuration and environment to the environment
  module, and runs runtime discovery.
- `DropwizardEnvironmentModule` (module `EnvironmentHolder`). This module
  binds the configuration class (and `Configuration`) to a provider. The
  provider, like `providesEnvironment`, throws a `ProvisionException` until
  `setEnvironmentData` stores a non-null value.
- `AutoConfig` (module `Discovery`). It scans a set of packages once, then
  walks fixed categories, handing each match to one registry.
  - `run` walks health checks, `@Provider` classes, injectable providers,
    `@Path` resources, tasks and managed objects.
  - `initialize` walks `Bundle` and `ConfiguredBundle` subtypes.
  - The three Jersey categories register the class itself. Every other
    category registers an instance built by the injector.

## How the model works

- **Host.** Dropwizard's bootstrap, its environment registries, Guice's
  `createInjector` and the process are one object, `Runtime.Host`. Each call
  that changes them is appended to `Host.trace` as one event, and
  `System.exit` sets `Host.exitStatus`. Reads (`getResourceConfig`,
  `getContextPath`, `getName`) are not events: their results are fields of
  the values the model passes in. "## Left out" lists the calls that are
  merged or not recorded.
- **Specification functions.** Each state-changing method is proved to add
  exactly the events of a function of its inputs:
  - `Discovery.Dispatch` is one `add*` loop;
  - `Discovery.Pipeline` is a walk of several loops; an exception in one
    loop ends the walk;
  - `BundleLifecycle.InitializeEvents` and `BundleLifecycle.RunPrologue`
    cover the calls the bundle makes itself.
- **Properties.** The lemmas in `DiscoveryProperties` and
  `BundleLifecycleProperties` state what the source promises about these
  functions:
  - registration counts per registry and per class;
  - the order of the categories and of the matches;
  - what a failure stops;
  - that the injector exists before any discovery;
  - that the environment is handed over before any runtime discovery.
- **Phases.** `GuiceBundle.phase` is a ghost field, `Unbuilt`,
  `Bootstrapped`, `Running` or `Exited`. `GuiceBundle.Valid` ties the fields
  to this phase.
- **Helper methods.** `AutoConfig.AddBundles` runs its two loops as two
  helper methods, each with the source's loop. `GuiceBundle`'s `initialize`
  and `run` are split the same way, along the steps of the source.
- **Null and exceptions.** Java's `null` arguments are `Option.None` and
  nullable references are `?` types. Exceptions become a `Result` failure or
  an `Option<Error>` result.

### Behaviour at the edges

- **A second `initialize` or `run`.** The code does not reject either. A
  second `initialize` appends both internal modules again and requests a new
  injector over the longer list, which now holds two environment modules
  binding the same keys; whether Guice accepts that is up to the
  `createInjector` parameter. The model only requires that the process has
  not exited.
- **The empty module list.** The check is in the `GuiceBundle` constructor,
  so `build()` is where it fails (`GuiceBundle.Create`, `Builder.Build`).
- **A match the injector cannot build.** The code throws, and the exception
  leaves `initialize` or `run`. The walk stops there and no later category is
  scanned. Nothing calls `System.exit` on this path. The model returns the
  failure to the caller.
- **The first check of `enableAutoConfig`.** `checkNotNull(basePackages.length > 0)`
  checks a boxed boolean, which is never null, so it does nothing. The
  `AutoConfig` constructor rejects an empty package list with an
  `IllegalArgumentException` without a message. `Builder.EnableAutoConfig`
  therefore returns `IllegalArgument(None)` for an empty list, leaves
  auto-config off, and makes the "already enabled" check first.

## Model

Source paths are relative to the repository root.

| member | source | states |
|---|---|---|
| EnvironmentHolder.DropwizardEnvironmentModule.constructor | src/main/java/io/github/nicksen/guice/DropwizardEnvironmentModule.java:17-19 | the module keeps the configuration class it is given; both data slots start unset |
| EnvironmentHolder.DropwizardEnvironmentModule.Configure | src/main/java/io/github/nicksen/guice/DropwizardEnvironmentModule.java:22-28 | the chosen class is bound first; `Configuration` is also bound exactly when it is not the chosen class; a key is bound only if it is one of these two, and no key twice |
| EnvironmentHolder.DropwizardEnvironmentModule.SetEnvironmentData | src/main/java/io/github/nicksen/guice/DropwizardEnvironmentModule.java:30-33 | both slots are overwritten with the given values, null included |
| EnvironmentHolder.DropwizardEnvironmentModule.ProvidesEnvironment | src/main/java/io/github/nicksen/guice/DropwizardEnvironmentModule.java:35-42 | it returns the stored environment exactly when one is set; otherwise it fails with a ProvisionException carrying the fixed bootstrap-phase message |
| EnvironmentHolder.DropwizardEnvironmentModule.ProvideConfiguration | src/main/java/io/github/nicksen/guice/DropwizardEnvironmentModule.java:44-53 | the configuration provider returns the stored configuration exactly when one is set; otherwise it fails with the same ProvisionException |
| EnvironmentHolder.SetThenRead | src/main/java/io/github/nicksen/guice/DropwizardEnvironmentModule.java:30-53 | after setEnvironmentData, each read returns what was stored; a stored null still reads as the provision failure |
| Discovery.Registration | src/main/java/io/github/nicksen/guice/AutoConfig.java:58-123 | one match fails exactly when its category builds instances and the injector cannot build the class, and then with that class's instantiation failure; otherwise the call goes to the category's registry, about that class, with the instance the injector built |
| Discovery.DispatchFailureIsFinal | src/main/java/io/github/nicksen/guice/AutoConfig.java:58-64 | once a match of a loop has thrown, the later matches change nothing: the loop's outcome is that of the prefix ending there |
| Discovery.AutoConfig.New | src/main/java/io/github/nicksen/guice/AutoConfig.java:31-43 | the constructor fails with IllegalArgumentException exactly when no base package is given; otherwise it is fresh and keeps the packages and their scan |
| Discovery.AutoConfig.constructor | src/main/java/io/github/nicksen/guice/AutoConfig.java:31-43 | with a non-empty package list, the object keeps the packages and the scan of them |
| Discovery.AutoConfig.Run | src/main/java/io/github/nicksen/guice/AutoConfig.java:45-52 | it appends exactly the walk of health checks, providers, injectable providers, resources, tasks and managed objects, in that order, and throws the walk's failure; the exit status is unchanged |
| Discovery.AutoConfig.Initialize | src/main/java/io/github/nicksen/guice/AutoConfig.java:54-56 | it appends exactly the walk of the Bundle and then the ConfiguredBundle categories, and throws the walk's failure |
| Discovery.AutoConfig.AddManaged | src/main/java/io/github/nicksen/guice/AutoConfig.java:58-64 | the trace grows by the managed-object loop's events exactly, and the loop's failure is returned |
| Discovery.AutoConfig.AddTasks | src/main/java/io/github/nicksen/guice/AutoConfig.java:66-72 | the trace grows by the task loop's events exactly, and the loop's failure is returned |
| Discovery.AutoConfig.AddHealthChecks | src/main/java/io/github/nicksen/guice/AutoConfig.java:74-82 | the trace grows by the health-check loop's events exactly, and the loop's failure is returned |
| Discovery.AutoConfig.AddInjectableProviders | src/main/java/io/github/nicksen/guice/AutoConfig.java:84-91 | the trace grows by the injectable-provider loop's events exactly, and the loop's failure is returned |
| Discovery.AutoConfig.AddProviders | src/main/java/io/github/nicksen/guice/AutoConfig.java:93-99 | the trace grows by the `@Provider` loop's events exactly, and the loop's failure is returned |
| Discovery.AutoConfig.AddResources | src/main/java/io/github/nicksen/guice/AutoConfig.java:101-107 | the trace grows by the `@Path` loop's events exactly, and the loop's failure is returned |
| Discovery.AutoConfig.AddBundles | src/main/java/io/github/nicksen/guice/AutoConfig.java:109-123 | the Bundle loop, then (unless it threw) the ConfiguredBundle loop: the trace and failure are those of the two in sequence |
| Discovery.AutoConfig.AddBundleClasses | src/main/java/io/github/nicksen/guice/AutoConfig.java:110-114 | the trace grows by the Bundle loop's events exactly, and the loop's failure is returned |
| Discovery.AutoConfig.AddConfiguredBundleClasses | src/main/java/io/github/nicksen/guice/AutoConfig.java:116-121 | the trace grows by the ConfiguredBundle loop's events exactly, and the loop's failure is returned |
| Discovery.RunPipelineUnfolds | src/main/java/io/github/nicksen/guice/AutoConfig.java:45-52 | the runtime walk is the six loops chained in their fixed order |
| Discovery.InitializePipelineUnfolds | src/main/java/io/github/nicksen/guice/AutoConfig.java:54-56 | the bootstrap walk is the Bundle loop chained with the ConfiguredBundle loop |
| DiscoveryProperties.ClassRegistrations | src/main/java/io/github/nicksen/guice/AutoConfig.java:84-107 | one Jersey class registration per class, in the given order |
| DiscoveryProperties.DispatchShape | src/main/java/io/github/nicksen/guice/AutoConfig.java:58-123 | a loop emits one event per match in scan order, up to the first match that fails; what it throws is that match's failure; it emits nothing for that match or any after it; it completes exactly when it emitted one event per match |
| DiscoveryProperties.DispatchSucceedsIff | src/main/java/io/github/nicksen/guice/AutoConfig.java:58-123 | a loop completes if and only if its category registers classes, or the injector can build every match |
| DiscoveryProperties.DispatchSinks | src/main/java/io/github/nicksen/guice/AutoConfig.java:58-123 | the i-th event goes to the category's registry and is about the i-th match; instance categories hand over what the injector built; a health check is registered under the name its instance reports; a bundle goes through the overload of its category |
| DiscoveryProperties.ClassCategoriesBypassInjector | src/main/java/io/github/nicksen/guice/AutoConfig.java:84-107 | provider, injectable-provider and resource loops never consult the injector: the same events under any injector, never a failure, one class registration per match in order |
| DiscoveryProperties.DispatchCounts | src/main/java/io/github/nicksen/guice/AutoConfig.java:58-123 | a completed loop addresses its registry about a class once per occurrence of that class among the matches, and no other registry |
| DiscoveryProperties.PipelineCounts | src/main/java/io/github/nicksen/guice/AutoConfig.java:45-56 | a completed walk addresses each registry about a class as often as the walked categories of that registry found it |
| DiscoveryProperties.FoundOnce | src/main/java/io/github/nicksen/guice/AutoConfig.java:59 | the scanner returns sets, so every class occurs at most once among one category's matches |
| DiscoveryProperties.RunRegistersEveryMatchOnce | src/main/java/io/github/nicksen/guice/AutoConfig.java:45-107 | after a completed run, each Managed match is managed once, each Task added once, each health check registered once; Jersey registers a class once per Jersey category that found it; nothing is added as a bundle |
| DiscoveryProperties.RunCount | src/main/java/io/github/nicksen/guice/AutoConfig.java:45-52 | a completed run's calls on one registry about one class, category by category, in terms of the matches |
| DiscoveryProperties.InitializeAddsEveryBundleMatch | src/main/java/io/github/nicksen/guice/AutoConfig.java:109-123 | after a completed initialize, a class is added as a bundle once per bundle category that found it (twice when it is both kinds) and no other registry is addressed |
| DiscoveryProperties.InitializeOnlyAddsBuiltBundles | src/main/java/io/github/nicksen/guice/AutoConfig.java:109-123 | every call initialize makes, completed or not, adds a bundle that the injector built |
| DiscoveryProperties.BundleLoopsAddBuiltBundles | src/main/java/io/github/nicksen/guice/AutoConfig.java:109-123 | the two bundle loops in sequence, over any matches, only add bundles the injector built |
| DiscoveryProperties.InitializeBundlesBeforeConfiguredBundles | src/main/java/io/github/nicksen/guice/AutoConfig.java:109-123 | after a completed initialize, the Bundle matches come first in scan order, each through the Bundle overload of addBundle, then the ConfiguredBundle matches in scan order through the ConfiguredBundle overload, one call each |
| DiscoveryProperties.BundleLoopsInOrder | src/main/java/io/github/nicksen/guice/AutoConfig.java:109-123 | the two completed bundle loops emit one Bundle-overload call per Bundle match, then one ConfiguredBundle-overload call per ConfiguredBundle match, in order |
| DiscoveryProperties.InitializeKeepsBundleOrder | src/main/java/io/github/nicksen/guice/AutoConfig.java:54-56 | whether or not initialize completes, no bundle goes through the Bundle overload after one went through the ConfiguredBundle overload |
| DiscoveryProperties.BundleDispatch | src/main/java/io/github/nicksen/guice/AutoConfig.java:109-123 | a completed bundle loop adds one bundle per match, the i-th about the i-th match, through the addBundle overload of its category |
| DiscoveryProperties.DispatchSubjects | src/main/java/io/github/nicksen/guice/AutoConfig.java:58-123 | a completed loop emits exactly one event per match, the i-th about the i-th match |
| DiscoveryProperties.PipelineRespectsRank | src/main/java/io/github/nicksen/guice/AutoConfig.java:45-52 | walking categories ordered by registry visits the registries in that order, whether or not the walk completes |
| DiscoveryProperties.DispatchSingleSink | src/main/java/io/github/nicksen/guice/AutoConfig.java:58-123 | every event of one loop goes to one registry |
| DiscoveryProperties.RunAddressesRegistriesInOrder | src/main/java/io/github/nicksen/guice/AutoConfig.java:45-52 | run calls the health-check registry first, then Jersey, then the admin tasks, then the lifecycle, never going back, even when it stops early |
| DiscoveryProperties.RunTraceConcatenation | src/main/java/io/github/nicksen/guice/AutoConfig.java:45-52 | a completed run is the six loops' events one after the other, each of them completed |
| DiscoveryProperties.RunTraceInFixedOrder | src/main/java/io/github/nicksen/guice/AutoConfig.java:45-107 | a completed run is one registration per health check, then the `@Provider`, injectable-provider and `@Path` classes in scan order, then one call per task and per managed object |
| DiscoveryProperties.PipelineOnlyRegisters | src/main/java/io/github/nicksen/guice/AutoConfig.java:45-56 | every call a walk makes, completed or not, registers a class that the scan found for one of the walked categories |
| DiscoveryProperties.DispatchRegisters | src/main/java/io/github/nicksen/guice/AutoConfig.java:58-123 | every call a loop makes registers a class that is one of the loop's matches |
| DiscoveryProperties.PipelineStopsAtFailure | src/main/java/io/github/nicksen/guice/AutoConfig.java:45-52 | when a loop throws after the earlier ones completed, the walk ends there with that failure and no later category is scanned |
| BundleLifecycle.UrlPattern | src/main/java/io/github/nicksen/guice/GuiceBundle.java:82-83 | the Guice filter's pattern is the context path followed by a single `*` |
| BundleLifecycle.WithInternalModules | src/main/java/io/github/nicksen/guice/GuiceBundle.java:55-63 | initialize keeps the caller's modules in place and order and appends exactly the Jersey container module and then the environment module for the chosen class |
| BundleLifecycle.ModuleList.constructor | src/main/java/io/github/nicksen/guice/GuiceBundle.java:111 | the builder's module list starts empty |
| BundleLifecycle.ModuleList.Add | src/main/java/io/github/nicksen/guice/GuiceBundle.java:116 | add appends one module at the end of the shared list |
| BundleLifecycle.GuiceBundle.constructor | src/main/java/io/github/nicksen/guice/GuiceBundle.java:43-46 | the bundle keeps stage, auto-config, the same module list and the configuration class; nothing is initialized yet |
| BundleLifecycle.GuiceBundle.Create | src/main/java/io/github/nicksen/guice/GuiceBundle.java:38-47 | a null module list fails with NPE, then an empty one with IllegalArgumentException, then a null stage with NPE; it succeeds exactly when none applies, with a fresh unbuilt bundle |
| BundleLifecycle.GuiceBundle.Initialize | src/main/java/io/github/nicksen/guice/GuiceBundle.java:53-70 | fresh container and environment module for the chosen class; the two internal modules appended; the injector requested over the whole list; on failure exit status 1 and no discovery; otherwise the injector kept and bootstrap discovery run with it |
| BundleLifecycle.GuiceBundle.PrepareModules | src/main/java/io/github/nicksen/guice/GuiceBundle.java:55-63 | container created, environment module created for the given class or `Configuration`, the two modules appended |
| BundleLifecycle.GuiceBundle.Bootstrap | src/main/java/io/github/nicksen/guice/GuiceBundle.java:65-69 | the injector request, then either exit status 1 or bootstrap discovery with the injector just built |
| BundleLifecycle.GuiceBundle.InitInjector | src/main/java/io/github/nicksen/guice/GuiceBundle.java:91-98 | createInjector over the stage and the current module list; an exception exits the process with status 1 and leaves the injector as it was |
| BundleLifecycle.GuiceBundle.DiscoverBundles | src/main/java/io/github/nicksen/guice/GuiceBundle.java:67-69 | bootstrap discovery runs only when auto-config is enabled |
| BundleLifecycle.GuiceBundle.Run | src/main/java/io/github/nicksen/guice/GuiceBundle.java:72-89 | before initialize it throws NPE and changes nothing; otherwise the container gets the resource config, replaces Jersey's servlet container, the filter is mapped, both values reach the environment module, then runtime discovery runs |
| BundleLifecycle.GuiceBundle.ReplaceServletContainer | src/main/java/io/github/nicksen/guice/GuiceBundle.java:74-83 | the container takes Jersey's resource config and replaces Jersey's servlet container, then the Guice filter is mapped |
| BundleLifecycle.GuiceBundle.SetEnvironment | src/main/java/io/github/nicksen/guice/GuiceBundle.java:100-103 | the environment module now holds this configuration and environment |
| BundleLifecycle.GuiceBundle.DiscoverComponents | src/main/java/io/github/nicksen/guice/GuiceBundle.java:86-88 | runtime discovery runs only when auto-config is enabled |
| BundleLifecycle.Builder.constructor | src/main/java/io/github/nicksen/guice/GuiceBundle.java:49-51 | newBuilder: no auto-config, a fresh empty module list, no configuration class |
| BundleLifecycle.Builder.AddModule | src/main/java/io/github/nicksen/guice/GuiceBundle.java:114-118 | a null module fails with NPE and leaves the list alone; otherwise the module is appended |
| BundleLifecycle.Builder.SetConfigClass | src/main/java/io/github/nicksen/guice/GuiceBundle.java:120-123 | a null class fails with NPE before anything changes; otherwise it replaces any earlier class |
| BundleLifecycle.Builder.EnableAutoConfig | src/main/java/io/github/nicksen/guice/GuiceBundle.java:125-130 | a second call fails with "autoConfig already enabled!"; an empty package list fails with IllegalArgumentException and leaves auto-config off; otherwise a fresh AutoConfig over the packages |
| BundleLifecycle.Builder.Build | src/main/java/io/github/nicksen/guice/GuiceBundle.java:132-134 | build uses the production stage; it fails exactly when no module was added |
| BundleLifecycle.Builder.BuildWith | src/main/java/io/github/nicksen/guice/GuiceBundle.java:136-138 | the bundle gets the builder's auto-config, module list and configuration class; the constructor's checks decide failure |
| BundleLifecycleProperties.InjectorBuiltBeforeDiscovery | src/main/java/io/github/nicksen/guice/GuiceBundle.java:65-69 | initialize's first call requests the injector; if that fails the only other call is the exit with status 1; otherwise every later call adds a bundle the new injector built |
| BundleLifecycleProperties.EnvironmentSetBeforeRuntimeDiscovery | src/main/java/io/github/nicksen/guice/GuiceBundle.java:74-88 | run's first three calls are the container swap, the filter on the context path plus `*`, and the hand-over; no call before them registers anything, and every later call registers a class that the scan found for one of the runtime categories (so there are none without auto-config) |
| BundleLifecycleProperties.NoDiscoveryWithoutAutoConfig | src/main/java/io/github/nicksen/guice/GuiceBundle.java:53-89 | without auto-config neither phase registers anything: initialize makes one call (two on exit), run its three |
| BundleLifecycleProperties.RunDiscoversWithAutoConfig | src/main/java/io/github/nicksen/guice/GuiceBundle.java:86-88 | with auto-config, what run does after its prologue is AutoConfig's runtime walk; no bundle is added then, and each Managed match is managed once |
| BundleLifecycleProperties.EnvironmentModuleBindings | src/main/java/io/github/nicksen/guice/GuiceBundle.java:57-61 | the environment module's `configure()` binds the class given to setConfigClass first when there is one, only `Configuration` when there is none, always `Configuration`, and no key twice |

## Left out

- The classpath scan is an oracle. The Reflections library, package URLs
  and prefix filters (`AutoConfig.java:34-42`) are not modelled:
  `Discovery.Reflections` gives, per category, the classes found, in the
  order the returned set iterates. `YieldsSets` states that sets hold no
  duplicates.
- Guice is an oracle. `createInjector` is a function parameter, and `None`
  stands for its exception. The built injector is a map from the classes it
  can build to the name their instances report. How Guice resolves bindings
  is not modelled, including the environment module's providers.
- Logging is not modelled: every `log.info` and the `log.error` before the
  exit.
- Jersey, the servlet container and the filter registration are trace
  events that keep only some of the arguments. `ServletContainerReplaced`
  does not keep the replacement function. `FilterAdded` keeps the filter
  name and URL pattern. It merges `addFilter` and `addMappingForUrlPatterns`
  (`GuiceBundle.java:82-83`) into one event and drops `GuiceFilter.class`,
  the `null` dispatcher types and `false`.
- `setResourceConfig` (`GuiceBundle.java:74`) is a field of the container
  (`GuiceBundle.container`), not an event. The `GuiceContainer` object, its
  identity, and the reference `JerseyContainerModule` keeps to it are not
  modelled: the container only stores the resource config it is given.
- The two `bootstrap.addBundle` overloads (`AutoConfig.java:112` for
  `Bundle`, `:119` for `ConfiguredBundle`) are one event, `BundleAdded`. Its
  `configured` flag says which overload was called.
- The host's calls and the scanned instances' `getName()` are assumed not
  to throw: `manage` (`AutoConfig.java:61`), `addTask` (`:69`), each
  registry's `register` (`:79`, `:88`, `:96`, `:104`), `getName()` (`:79`)
  and `bootstrap.addBundle` (`:113`, `:120`). The only failure a loop models
  is `injector.getInstance`'s, so `DispatchSucceedsIff` and
  `ClassCategoriesBypassInjector` hold under this assumption.
- `System.exit(1)` becomes `Host.Exit`: the status is recorded and the ghost
  phase becomes `Exited`. Methods require a process that has not exited.
- `GuiceBundle.Run` takes a non-null environment. A null environment would
  throw at its first use, which is not modelled. A null configuration is
  modelled.
- A null varargs array passed to `enableAutoConfig` or to the `AutoConfig`
  constructor is not modelled. Neither is the no-op
  `checkNotNull(basePackages.length > 0)`.
- The builder's fluent `return this` is not modelled: the methods return only
  their failure.
- `getInjector` (`GuiceBundle.java:105-107`) only reads a field. It is the
  `injector` field of `GuiceBundle`.
- Generic type parameters (`T extends Configuration`) are not modelled, so
  nothing checks the configuration's class against the environment module's
  class. Classes are compared by name.
