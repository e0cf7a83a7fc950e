/** What the two phases of GuiceBundle do, stated over the functions that
    specify initialize and run. */
module BundleLifecycleProperties {
  import opened Wrappers
  import opened Runtime
  import opened EnvironmentHolder
  import opened Discovery
  import opened DiscoveryProperties
  import opened BundleLifecycle

  /** initialize asks Guice for the injector before anything else. If Guice
      fails, the process exits with status 1 and no discovery happens;
      otherwise every later call adds a bundle that the new injector built. */
  lemma InjectorBuiltBeforeDiscovery(stage: Stage, modules: seq<ModuleId>, built: Option<Injector>, autoConfig: AutoConfig?)
    ensures var ev := InitializeEvents(stage, modules, built, autoConfig);
      && 0 < |ev| && ev[0] == InjectorRequested(stage, modules)
      && (built.None? ==>
            |ev| == 2 && ev[1] == ProcessExited(INJECTOR_FAILURE_STATUS) && forall e :: e in ev ==> !IsRegistration(e))
      && (built.Some? ==>
            forall i :: 1 <= i < |ev| ==> ev[i].BundleAdded? && IsBuiltBy(ev[i], built.value))
  {
    var ev := InitializeEvents(stage, modules, built, autoConfig);
    if built.Some? && autoConfig != null {
      var discovered := Pipeline(INITIALIZE_CATEGORIES, autoConfig.reflections, built.value).events;
      InitializeOnlyAddsBuiltBundles(autoConfig.reflections, built.value);
      assert ev == [InjectorRequested(stage, modules)] + discovered;
      forall i | 1 <= i < |ev|
        ensures ev[i].BundleAdded? && IsBuiltBy(ev[i], built.value)
      {
        assert ev[i] == discovered[i - 1];
        assert ev[i] in discovered;
      }
    }
  }

  /** run hands the environment to the environment module before runtime
      discovery starts: the first three calls are the container swap, the
      Guice filter mapped to the context path followed by "*", and the
      hand-over; every call after them registers a class that the scan found
      for one of the runtime categories, and none comes before them. */
  lemma EnvironmentSetBeforeRuntimeDiscovery(configuration: Option<ConfigurationValue>, environment: EnvironmentValue,
                                              autoConfig: AutoConfig?, injector: Injector)
    ensures var ev := RunPrologue(configuration, environment) + RuntimeDiscovery(autoConfig, injector).events;
      && 3 <= |ev|
      && ev[0] == ServletContainerReplaced
      && ev[1] == FilterAdded(GUICE_FILTER_NAME, environment.contextPath + "*")
      && ev[2] == EnvironmentDataSet(configuration, Some(environment))
      && (forall i :: 0 <= i < |ev| ==> (IsRegistration(ev[i]) <==> 3 <= i))
      && (forall i :: 3 <= i < |ev| ==>
            && autoConfig != null && IsRegistration(ev[i])
            && exists c :: c in RUN_CATEGORIES && Subject(ev[i]).value in autoConfig.reflections.Found(c))
  {
    var prologue := RunPrologue(configuration, environment);
    var discovered := RuntimeDiscovery(autoConfig, injector).events;
    var ev := prologue + discovered;
    if autoConfig != null {
      PipelineOnlyRegisters(RUN_CATEGORIES, autoConfig.reflections, injector);
    }
    forall i | 0 <= i < |ev|
      ensures IsRegistration(ev[i]) <==> 3 <= i
      ensures 3 <= i ==>
        && autoConfig != null
        && exists c :: c in RUN_CATEGORIES && Subject(ev[i]).value in autoConfig.reflections.Found(c)
    {
      if 3 <= i {
        assert ev[i] == discovered[i - 3];
        assert ev[i] in discovered;
      }
    }
  }

  /** Without enableAutoConfig neither phase discovers anything: initialize
      makes only the injector request (and the exit, if Guice fails), and run
      makes only its three fixed calls. */
  lemma NoDiscoveryWithoutAutoConfig(stage: Stage, modules: seq<ModuleId>, built: Option<Injector>,
                                     configuration: Option<ConfigurationValue>, environment: EnvironmentValue, injector: Injector)
    ensures var ev := InitializeEvents(stage, modules, built, null);
      && |ev| == (if built.None? then 2 else 1)
      && forall e :: e in ev ==> !IsRegistration(e)
    ensures var ev := RunPrologue(configuration, environment) + RuntimeDiscovery(null, injector).events;
      && |ev| == 3
      && forall e :: e in ev ==> !IsRegistration(e)
  {
    var ev := RunPrologue(configuration, environment) + RuntimeDiscovery(null, injector).events;
    assert ev == RunPrologue(configuration, environment);
  }

  /** With auto-config enabled, the calls run makes after its prologue are
      exactly AutoConfig's walk of the six runtime categories; in particular
      no bundle is added at run time. */
  lemma RunDiscoversWithAutoConfig(configuration: Option<ConfigurationValue>, environment: EnvironmentValue,
                                   autoConfig: AutoConfig, injector: Injector, cls: TypeId)
    requires autoConfig.reflections.YieldsSets()
    requires RuntimeDiscovery(autoConfig, injector).failure.None?
    ensures var ev := RunPrologue(configuration, environment) + RuntimeDiscovery(autoConfig, injector).events;
      && ev[3..] == Pipeline(RUN_CATEGORIES, autoConfig.reflections, injector).events
      && CountFor(ev[3..], BootstrapBundles, cls) == 0
      && CountFor(ev[3..], Lifecycle, cls) == Indicator(cls in autoConfig.reflections.Found(ManagedObjects))
  {
    RunRegistersEveryMatchOnce(autoConfig.reflections, injector, cls);
    var ev := RunPrologue(configuration, environment) + RuntimeDiscovery(autoConfig, injector).events;
    assert ev[3..] == RuntimeDiscovery(autoConfig, injector).events;
  }

  /** The environment module built by initialize binds the configuration
      class given to setConfigClass when there is one, and always binds
      Configuration itself, each exactly once. */
  lemma EnvironmentModuleBindings(m: DropwizardEnvironmentModule, configurationClass: Option<TypeId>)
    requires m.configurationClass == ChosenConfigurationClass(configurationClass)
    ensures CONFIGURATION_TYPE in m.Configure()
    ensures configurationClass.Some? ==> m.Configure()[0] == configurationClass.value
    ensures configurationClass.None? ==> m.Configure() == [CONFIGURATION_TYPE]
    ensures forall i, j :: 0 <= i < j < |m.Configure()| ==> m.Configure()[i] != m.Configure()[j]
  {
    var keys := m.Configure();
    if configurationClass.None? {
      assert |keys| == 1 && keys[0] == CONFIGURATION_TYPE;
    }
  }
}
