/** GuiceBundle: the Dropwizard bundle that builds a Guice injector while the
    application bootstraps, hands the environment to it when the application
    runs, and drives AutoConfig in both phases; and its Builder. */
module BundleLifecycle {
  import opened Wrappers
  import opened Runtime
  import opened EnvironmentHolder
  import opened Discovery

  /** The name the Guice servlet filter is registered under. */
  const GUICE_FILTER_NAME: string := "Guice Filter"

  /** The message of the second enableAutoConfig. */
  const AUTO_CONFIG_ALREADY_ENABLED: string := "autoConfig already enabled!"

  /** The status the process exits with when the injector cannot be built. */
  const INJECTOR_FAILURE_STATUS: int := 1

  /** The java.util.List of Guice modules. The builder creates it, the bundle
      receives the same list, and both append to it in place. */
  class ModuleList {
    var items: seq<ModuleId>

    constructor ()
      ensures items == []
    {
      items := [];
    }

    method Add(m: ModuleId)
      modifies this
      ensures items == old(items) + [m]
    {
      items := items + [m];
    }
  }

  /** The Jersey servlet container the bundle creates in initialize and hands
      to Jersey in run; only the resource config it is given is kept. */
  datatype GuiceContainer = GuiceContainer(resourceConfig: Option<nat>)

  /** Where the bundle is in its life: built, bootstrapped (injector made),
      running (environment handed over), or the process has exited. */
  datatype Phase = Unbuilt | Bootstrapped | Running | Exited

  /** The URL pattern the Guice filter is mapped to: the application's
      context path followed by a star. */
  function UrlPattern(contextPath: string): (pattern: string)
    ensures |pattern| == |contextPath| + 1
    ensures pattern[..|contextPath|] == contextPath
    ensures pattern[|contextPath|] == '*'
  {
    contextPath + "*"
  }

  /** The class the environment module binds: the one given to
      setConfigClass, or Configuration when none was given. */
  function ChosenConfigurationClass(configurationClass: Option<TypeId>): TypeId {
    if configurationClass.Some? then configurationClass.value else CONFIGURATION_TYPE
  }

  /** initialize appends exactly two modules at the end, the Jersey container
      module and then the environment module; the caller's modules keep their
      place and order. */
  function WithInternalModules(user: seq<ModuleId>, configurationClass: Option<TypeId>): (all: seq<ModuleId>)
    ensures |all| == |user| + 2
    ensures all[..|user|] == user
    ensures all[|user|] == JerseyContainerModule
    ensures all[|user| + 1] == EnvironmentModule(ChosenConfigurationClass(configurationClass))
  {
    user + [JerseyContainerModule, EnvironmentModule(ChosenConfigurationClass(configurationClass))]
  }

  /** What autoConfig.initialize does, or nothing when auto-config is off. */
  function BootstrapDiscovery(autoConfig: AutoConfig?, injector: Injector): Outcome {
    if autoConfig == null then Outcome([], None)
    else Pipeline(INITIALIZE_CATEGORIES, autoConfig.reflections, injector)
  }

  /** What autoConfig.run does, or nothing when auto-config is off. */
  function RuntimeDiscovery(autoConfig: AutoConfig?, injector: Injector): Outcome {
    if autoConfig == null then Outcome([], None)
    else Pipeline(RUN_CATEGORIES, autoConfig.reflections, injector)
  }

  /** The calls initialize makes: the injector is requested over the full
      module list; then either the process exits, or bootstrap discovery runs
      with the injector built. */
  function InitializeEvents(stage: Stage, modules: seq<ModuleId>, built: Option<Injector>, autoConfig: AutoConfig?): seq<Event> {
    [InjectorRequested(stage, modules)] +
      if built.None? then [ProcessExited(INJECTOR_FAILURE_STATUS)]
      else BootstrapDiscovery(autoConfig, built.value).events
  }

  /** The calls run makes before runtime discovery. */
  function RunPrologue(configuration: Option<ConfigurationValue>, environment: EnvironmentValue): seq<Event> {
    [ ServletContainerReplaced,
      FilterAdded(GUICE_FILTER_NAME, UrlPattern(environment.contextPath)),
      EnvironmentDataSet(configuration, Some(environment)) ]
  }

  class GuiceBundle {
    const stage: Stage
    const autoConfig: AutoConfig?
    const modules: ModuleList
    const configurationClass: Option<TypeId>
    var injector: Option<Injector>
    var environmentModule: DropwizardEnvironmentModule?
    var container: Option<GuiceContainer>
    ghost var phase: Phase

    /** The fields initialize and run set, phase by phase. */
    ghost predicate Valid()
      reads this, environmentModule
    {
      && (phase == Unbuilt <==> container.None?)
      && (phase == Unbuilt ==> injector.None? && environmentModule == null)
      && (phase != Unbuilt ==>
            environmentModule != null && environmentModule.configurationClass == ChosenConfigurationClass(configurationClass))
      && (phase == Bootstrapped || phase == Running ==> injector.Some?)
      && (phase == Running ==>
            environmentModule.environment.Some? && container.value.resourceConfig.Some?)
    }

    /** The private constructor once its checks have passed; Create makes
        the checks. */
    constructor (stage: Stage, autoConfig: AutoConfig?, modules: ModuleList, configurationClass: Option<TypeId>)
      requires 0 < |modules.items|
      ensures this.stage == stage && this.autoConfig == autoConfig
      ensures this.modules == modules && this.configurationClass == configurationClass
      ensures injector.None? && environmentModule == null && container.None?
      ensures phase == Unbuilt && Valid()
    {
      this.stage := stage;
      this.autoConfig := autoConfig;
      this.modules := modules;
      this.configurationClass := configurationClass;
      injector := None;
      environmentModule := null;
      container := None;
      phase := Unbuilt;
    }

    /** new GuiceBundle(stage, autoConfig, modules, configurationClass): the
        module list must be present and non-empty, then the stage present,
        checked in that order. */
    static method Create(stage: Option<Stage>, autoConfig: AutoConfig?, modules: ModuleList?, configurationClass: Option<TypeId>)
      returns (r: Result<GuiceBundle, Error>)
      ensures modules == null ==> r == Failure(NullPointer)
      ensures modules != null && |modules.items| == 0 ==> r == Failure(IllegalArgument(None))
      ensures modules != null && 0 < |modules.items| && stage.None? ==> r == Failure(NullPointer)
      ensures r.Success? <==> modules != null && 0 < |modules.items| && stage.Some?
      ensures r.Success? ==>
        && fresh(r.value)
        && r.value.stage == stage.value && r.value.autoConfig == autoConfig
        && r.value.modules == modules && r.value.configurationClass == configurationClass
        && r.value.injector.None? && r.value.environmentModule == null && r.value.container.None?
        && r.value.phase == Unbuilt && r.value.Valid()
    {
      if modules == null {
        return Failure(NullPointer);
      }
      if |modules.items| == 0 {
        return Failure(IllegalArgument(None));
      }
      if stage.None? {
        return Failure(NullPointer);
      }
      var bundle := new GuiceBundle(stage.value, autoConfig, modules, configurationClass);
      return Success(bundle);
    }

    /** initialize(bootstrap): a fresh container and environment module, the
        two internal modules appended, the injector built over the whole list
        (createInjector stands for Guice.createInjector, None for the
        exception), and, once it is built, bootstrap discovery. A failure to
        build ends the process with status 1 before any discovery. */
    method Initialize(host: Host, createInjector: (Stage, seq<ModuleId>) -> Option<Injector>) returns (failure: Option<Error>)
      requires Valid() && phase != Exited && host.exitStatus.None?
      modifies this, modules, host
      ensures Valid()
      ensures modules.items == WithInternalModules(old(modules.items), configurationClass)
      ensures container == Some(GuiceContainer(None))
      ensures fresh(environmentModule)
      ensures environmentModule.configurationClass == ChosenConfigurationClass(configurationClass)
      ensures environmentModule.configuration.None? && environmentModule.environment.None?
      ensures host.trace == old(host.trace) + InitializeEvents(stage, modules.items, createInjector(stage, modules.items), autoConfig)
      ensures createInjector(stage, modules.items).None? ==>
        && phase == Exited && host.exitStatus == Some(INJECTOR_FAILURE_STATUS)
        && injector == old(injector) && failure.None?
      ensures createInjector(stage, modules.items).Some? ==>
        && phase == Bootstrapped && host.exitStatus.None?
        && injector == createInjector(stage, modules.items)
        && failure == BootstrapDiscovery(autoConfig, injector.value).failure
    {
      PrepareModules();
      failure := Bootstrap(host, createInjector);
    }

    /** The second half of initialize: the injector, then, once it is
        built, bootstrap discovery. */
    method Bootstrap(host: Host, createInjector: (Stage, seq<ModuleId>) -> Option<Injector>) returns (failure: Option<Error>)
      requires host.exitStatus.None?
      requires container.Some? && environmentModule != null
      requires environmentModule.configurationClass == ChosenConfigurationClass(configurationClass)
      modifies this, host
      ensures container == old(container) && environmentModule == old(environmentModule)
      ensures Valid()
      ensures host.trace == old(host.trace) + InitializeEvents(stage, modules.items, createInjector(stage, modules.items), autoConfig)
      ensures createInjector(stage, modules.items).None? ==>
        && phase == Exited && host.exitStatus == Some(INJECTOR_FAILURE_STATUS)
        && injector == old(injector) && failure.None?
      ensures createInjector(stage, modules.items).Some? ==>
        && phase == Bootstrapped && host.exitStatus.None?
        && injector == createInjector(stage, modules.items)
        && failure == BootstrapDiscovery(autoConfig, injector.value).failure
    {
      InitInjector(host, createInjector);
      if host.exitStatus.Some? {
        return None;
      }
      failure := DiscoverBundles(host, injector.value);
    }

    /** The first half of initialize: a fresh container, a fresh environment
        module for the chosen configuration class, and the two internal
        modules appended to the shared list. */
    method PrepareModules()
      modifies this, modules
      ensures modules.items == WithInternalModules(old(modules.items), configurationClass)
      ensures container == Some(GuiceContainer(None)) && injector == old(injector) && phase == old(phase)
      ensures fresh(environmentModule)
      ensures environmentModule.configurationClass == ChosenConfigurationClass(configurationClass)
      ensures environmentModule.configuration.None? && environmentModule.environment.None?
    {
      container := Some(GuiceContainer(None));
      var chosen := if configurationClass.Some? then configurationClass.value else CONFIGURATION_TYPE;
      environmentModule := new DropwizardEnvironmentModule(chosen);
      modules.Add(JerseyContainerModule);
      modules.Add(EnvironmentModule(chosen));
    }

    /** The guarded call of autoConfig.initialize. */
    method DiscoverBundles(host: Host, built: Injector) returns (failure: Option<Error>)
      modifies host
      ensures host.exitStatus == old(host.exitStatus)
      ensures host.trace == old(host.trace) + BootstrapDiscovery(autoConfig, built).events
      ensures failure == BootstrapDiscovery(autoConfig, built).failure
    {
      failure := None;
      if autoConfig != null {
        failure := autoConfig.Initialize(host, built);
      }
    }

    /** initInjector(): Guice.createInjector over the stage and the module
        list as it now stands; an exception ends the process with status 1. */
    method InitInjector(host: Host, createInjector: (Stage, seq<ModuleId>) -> Option<Injector>)
      requires host.exitStatus.None?
      requires container.Some? && environmentModule != null
      requires environmentModule.configurationClass == ChosenConfigurationClass(configurationClass)
      modifies this, host
      ensures container == old(container) && environmentModule == old(environmentModule)
      ensures Valid()
      ensures createInjector(stage, modules.items).None? ==>
        && phase == Exited && injector == old(injector)
        && host.exitStatus == Some(INJECTOR_FAILURE_STATUS)
        && host.trace == old(host.trace) + [InjectorRequested(stage, modules.items), ProcessExited(INJECTOR_FAILURE_STATUS)]
      ensures createInjector(stage, modules.items).Some? ==>
        && phase == Bootstrapped && injector == createInjector(stage, modules.items)
        && host.exitStatus.None?
        && host.trace == old(host.trace) + [InjectorRequested(stage, modules.items)]
    {
      var built := createInjector(stage, modules.items);
      host.Record(InjectorRequested(stage, modules.items));
      if built.None? {
        host.Exit(INJECTOR_FAILURE_STATUS);
        phase := Exited;
        return;
      }
      injector := built;
      phase := Bootstrapped;
    }

    /** run(configuration, environment): before initialize the container is
        null and the call throws without effect. Otherwise the container gets
        Jersey's resource config and replaces Jersey's servlet container, the
        Guice filter is mapped to the context path followed by "*", the
        environment module receives both values, and only then does runtime
        discovery run. */
    method Run(host: Host, configuration: Option<ConfigurationValue>, environment: EnvironmentValue) returns (failure: Option<Error>)
      requires Valid() && phase != Exited && host.exitStatus.None?
      modifies this, host, environmentModule
      ensures Valid()
      ensures host.exitStatus == old(host.exitStatus)
      ensures old(phase) == Unbuilt ==>
        && failure == Some(NullPointer) && phase == Unbuilt
        && host.trace == old(host.trace) && unchanged(this)
      ensures old(phase) != Unbuilt ==>
        && phase == Running
        && injector == old(injector) && environmentModule == old(environmentModule)
        && container == Some(GuiceContainer(Some(environment.resourceConfig)))
        && environmentModule.configuration == configuration
        && environmentModule.environment == Some(environment)
        && host.trace == old(host.trace) + RunPrologue(configuration, environment) + RuntimeDiscovery(autoConfig, injector.value).events
        && failure == RuntimeDiscovery(autoConfig, injector.value).failure
    {
      if container.None? {
        return Some(NullPointer);
      }
      ghost var start := host.trace;
      ReplaceServletContainer(host, environment);
      SetEnvironment(host, configuration, environment);
      phase := Running;
      ghost var prologue := host.trace;
      assert prologue == start + RunPrologue(configuration, environment);
      failure := DiscoverComponents(host, injector.value);
      assert host.trace == prologue + RuntimeDiscovery(autoConfig, injector.value).events;
    }

    /** The first part of run: the container takes Jersey's resource config
        and replaces Jersey's servlet container, and the Guice filter is
        mapped to the context path followed by "*". */
    method ReplaceServletContainer(host: Host, environment: EnvironmentValue)
      modifies this`container, host
      ensures container == Some(GuiceContainer(Some(environment.resourceConfig)))
      ensures host.exitStatus == old(host.exitStatus)
      ensures host.trace == old(host.trace) + [ServletContainerReplaced, FilterAdded(GUICE_FILTER_NAME, UrlPattern(environment.contextPath))]
    {
      container := Some(GuiceContainer(Some(environment.resourceConfig)));
      host.Record(ServletContainerReplaced);
      host.Record(FilterAdded(GUICE_FILTER_NAME, environment.contextPath + "*"));
    }

    /** setEnvironment(configuration, environment): both values handed to
        the environment module; the hand-over is recorded in the trace. */
    method SetEnvironment(host: Host, configuration: Option<ConfigurationValue>, environment: EnvironmentValue)
      requires environmentModule != null
      modifies environmentModule, host
      ensures environmentModule.configuration == configuration
      ensures environmentModule.environment == Some(environment)
      ensures host.exitStatus == old(host.exitStatus)
      ensures host.trace == old(host.trace) + [EnvironmentDataSet(configuration, Some(environment))]
    {
      environmentModule.SetEnvironmentData(configuration, Some(environment));
      host.Record(EnvironmentDataSet(configuration, Some(environment)));
    }

    /** The guarded call of autoConfig.run. */
    method DiscoverComponents(host: Host, built: Injector) returns (failure: Option<Error>)
      modifies host
      ensures host.exitStatus == old(host.exitStatus)
      ensures host.trace == old(host.trace) + RuntimeDiscovery(autoConfig, built).events
      ensures failure == RuntimeDiscovery(autoConfig, built).failure
    {
      failure := None;
      if autoConfig != null {
        failure := autoConfig.Run(host, built);
      }
    }
  }

  class Builder {
    var autoConfig: AutoConfig?
    const modules: ModuleList
    var configurationClass: Option<TypeId>

    /** GuiceBundle.newBuilder(): no auto-config, an empty module list, no
        configuration class. */
    constructor ()
      ensures autoConfig == null && fresh(modules) && modules.items == [] && configurationClass.None?
    {
      autoConfig := null;
      modules := new ModuleList();
      configurationClass := None;
    }

    /** addModule(module): a null module is rejected; otherwise it is
        appended to the shared list. */
    method AddModule(m: Option<ModuleId>) returns (failure: Option<Error>)
      modifies modules
      ensures m.None? ==> failure == Some(NullPointer) && modules.items == old(modules.items)
      ensures m.Some? ==> failure.None? && modules.items == old(modules.items) + [m.value]
    {
      if m.None? {
        return Some(NullPointer);
      }
      modules.Add(m.value);
      return None;
    }

    /** setConfigClass(clazz): Optional.of rejects null before anything is
        assigned; a later call replaces an earlier one. */
    method SetConfigClass(clazz: Option<TypeId>) returns (failure: Option<Error>)
      modifies this
      ensures autoConfig == old(autoConfig)
      ensures clazz.None? ==> failure == Some(NullPointer) && configurationClass == old(configurationClass)
      ensures clazz.Some? ==> failure.None? && configurationClass == clazz
    {
      if clazz.None? {
        return Some(NullPointer);
      }
      configurationClass := clazz;
      return None;
    }

    /** enableAutoConfig(basePackages...): a second call is rejected with
        "autoConfig already enabled!"; an empty package list is rejected by
        the AutoConfig constructor, leaving auto-config off. */
    method EnableAutoConfig(basePackages: seq<string>, reflections: Reflections) returns (failure: Option<Error>)
      modifies this
      ensures configurationClass == old(configurationClass)
      ensures old(autoConfig) != null ==>
        failure == Some(IllegalArgument(Some(AUTO_CONFIG_ALREADY_ENABLED))) && autoConfig == old(autoConfig)
      ensures old(autoConfig) == null && |basePackages| == 0 ==>
        failure == Some(IllegalArgument(None)) && autoConfig == null
      ensures old(autoConfig) == null && 0 < |basePackages| ==>
        && failure.None? && autoConfig != null && fresh(autoConfig)
        && autoConfig.basePackages == basePackages && autoConfig.reflections == reflections
    {
      if autoConfig != null {
        return Some(IllegalArgument(Some(AUTO_CONFIG_ALREADY_ENABLED)));
      }
      var created := AutoConfig.New(basePackages, reflections);
      if created.Failure? {
        return Some(created.error);
      }
      autoConfig := created.value;
      return None;
    }

    /** build(): build(Stage.PRODUCTION). */
    method Build() returns (r: Result<GuiceBundle, Error>)
      ensures r.Success? <==> 0 < |modules.items|
      ensures r.Failure? ==> r.error == IllegalArgument(None)
      ensures r.Success? ==>
        && fresh(r.value)
        && r.value.stage == Production && r.value.autoConfig == autoConfig
        && r.value.modules == modules && r.value.configurationClass == configurationClass
        && r.value.phase == Unbuilt && r.value.Valid()
    {
      r := BuildWith(Some(Production));
    }

    /** build(stage): the bundle shares this builder's module list, so
        modules added to the builder afterwards reach the bundle too. */
    method BuildWith(stage: Option<Stage>) returns (r: Result<GuiceBundle, Error>)
      ensures |modules.items| == 0 ==> r == Failure(IllegalArgument(None))
      ensures 0 < |modules.items| && stage.None? ==> r == Failure(NullPointer)
      ensures r.Success? <==> 0 < |modules.items| && stage.Some?
      ensures r.Success? ==>
        && fresh(r.value)
        && r.value.stage == stage.value && r.value.autoConfig == autoConfig
        && r.value.modules == modules && r.value.configurationClass == configurationClass
        && r.value.phase == Unbuilt && r.value.Valid()
    {
      r := GuiceBundle.Create(stage, autoConfig, modules, configurationClass);
    }
  }
}
