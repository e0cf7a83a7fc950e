/** AutoConfig: the classes found in the configured packages, sorted into
    eight fixed categories, each category handed class by class to one
    registry of the host. */
module Discovery {
  import opened Wrappers
  import opened Runtime

  /** The categories: what the scanner is asked for, and where a match goes. */
  datatype Category =
    | HealthChecks         // subtypes of InjectableHealthCheck -> healthChecks().register(name, instance)
    | Providers            // annotated with @Provider          -> jersey().register(class)
    | InjectableProviders  // subtypes of InjectableProvider    -> jersey().register(class)
    | Resources            // annotated with @Path              -> jersey().register(class)
    | Tasks                // subtypes of Task                  -> admin().addTask(instance)
    | ManagedObjects       // subtypes of Managed               -> lifecycle().manage(instance)
    | Bundles              // subtypes of Bundle                -> bootstrap.addBundle(instance)
    | ConfiguredBundles    // subtypes of ConfiguredBundle      -> bootstrap.addBundle(instance)

  /** The order in which run and initialize walk the categories. */
  const RUN_CATEGORIES: seq<Category> := [HealthChecks, Providers, InjectableProviders, Resources, Tasks, ManagedObjects]
  const INITIALIZE_CATEGORIES: seq<Category> := [Bundles, ConfiguredBundles]

  /** The categories whose matches are built by the injector; the other
      three hand the class itself to Jersey. */
  predicate BuiltByInjector(c: Category) {
    !(c == Providers || c == InjectableProviders || c == Resources)
  }

  function CategorySink(c: Category): Sink {
    match c
    case HealthChecks => HealthCheckRegistry
    case Providers => Jersey
    case InjectableProviders => Jersey
    case Resources => Jersey
    case Tasks => Admin
    case ManagedObjects => Lifecycle
    case Bundles => BootstrapBundles
    case ConfiguredBundles => BootstrapBundles
  }

  predicate NoDuplicates<T(==)>(s: seq<T>) {
    forall i, j :: 0 <= i < j < |s| ==> s[i] != s[j]
  }

  /** The classpath scan over the base packages, as an oracle: for each
      category, the classes found, in the order the returned set iterates. */
  datatype Reflections = Reflections(matches: map<Category, seq<TypeId>>) {
    function Found(c: Category): seq<TypeId> {
      if c in matches then matches[c] else []
    }

    /** getSubTypesOf and getTypesAnnotatedWith return sets. */
    predicate YieldsSets() {
      forall c :: c in matches ==> NoDuplicates(matches[c])
    }
  }

  /** The sink call one match of category c leads to, or the failure of
      building it. */
  function Registration(c: Category, cls: TypeId, injector: Injector): (r: Result<Event, Error>)
    ensures r.Failure? <==> BuiltByInjector(c) && cls !in injector.buildable
    ensures r.Failure? ==> r.error == InstantiationFailed(cls)
    ensures r.Success? ==> SinkOf(r.value) == CategorySink(c) && Subject(r.value) == Some(cls)
    ensures r.Success? && BuiltByInjector(c) ==> IsBuiltBy(r.value, injector)
    ensures r.Success? && r.value.BundleAdded? ==> r.value.configured == (c == ConfiguredBundles)
  {
    if !BuiltByInjector(c) then Success(ClassRegistered(cls))
    else match injector.GetInstance(cls)
      case Failure(e) => Failure(e)
      case Success(instance) =>
        Success(match c
          case HealthChecks => HealthCheckRegistered(instance.name, instance)
          case Tasks => TaskAdded(instance)
          case ManagedObjects => ObjectManaged(instance)
          case ConfiguredBundles => BundleAdded(instance, true)
          case _ => BundleAdded(instance, false))
  }

  /** The event hands over an instance that getInstance returns for its class. */
  predicate IsBuiltBy(e: Event, injector: Injector) {
    match e
    case BundleAdded(i, _) => injector.GetInstance(i.cls) == Success(i)
    case HealthCheckRegistered(_, i) => injector.GetInstance(i.cls) == Success(i)
    case TaskAdded(i) => injector.GetInstance(i.cls) == Success(i)
    case ObjectManaged(i) => injector.GetInstance(i.cls) == Success(i)
    case _ => false
  }

  /** What a sequence of sink calls did: the events emitted, and the
      exception that stopped it, if any. */
  datatype Outcome = Outcome(events: seq<Event>, failure: Option<Error>)

  /** Runs first, then next unless first threw. */
  function Then(first: Outcome, next: Outcome): Outcome {
    if first.failure.Some? then first else Outcome(first.events + next.events, next.failure)
  }

  function Step(c: Category, cls: TypeId, injector: Injector): Outcome {
    match Registration(c, cls, injector)
    case Success(e) => Outcome([e], None)
    case Failure(err) => Outcome([], Some(err))
  }

  /** One add* loop: the matches of category c, one after the other. */
  function Dispatch(c: Category, classes: seq<TypeId>, injector: Injector): Outcome
    decreases |classes|
  {
    if classes == [] then Outcome([], None)
    else Then(Dispatch(c, classes[..|classes| - 1], injector), Step(c, classes[|classes| - 1], injector))
  }

  /** Several add* loops in the given order; an exception ends the walk. */
  function Pipeline(cs: seq<Category>, reflections: Reflections, injector: Injector): Outcome
    decreases |cs|
  {
    if cs == [] then Outcome([], None)
    else Then(Dispatch(cs[0], reflections.Found(cs[0]), injector), Pipeline(cs[1..], reflections, injector))
  }

  lemma DispatchExtend(c: Category, classes: seq<TypeId>, i: nat, injector: Injector)
    requires i < |classes|
    ensures Dispatch(c, classes[..i + 1], injector) == Then(Dispatch(c, classes[..i], injector), Step(c, classes[i], injector))
  {
    assert classes[..i + 1][..i] == classes[..i];
  }

  /** Once a match fails, the rest of the loop does not run. */
  lemma {:induction false} DispatchFailureIsFinal(c: Category, classes: seq<TypeId>, k: nat, injector: Injector)
    requires k <= |classes|
    requires Dispatch(c, classes[..k], injector).failure.Some?
    ensures Dispatch(c, classes, injector) == Dispatch(c, classes[..k], injector)
    decreases |classes| - k
  {
    if k == |classes| {
      assert classes[..k] == classes;
    } else {
      var prefix := classes[..|classes| - 1];
      assert prefix[..k] == classes[..k];
      DispatchFailureIsFinal(c, prefix, k, injector);
    }
  }

  class AutoConfig {
    const basePackages: seq<string>
    const reflections: Reflections

    /** The constructor proper; its argument check is modelled by New. */
    constructor (basePackages: seq<string>, reflections: Reflections)
      requires 0 < |basePackages|
      ensures this.basePackages == basePackages && this.reflections == reflections
    {
      this.basePackages := basePackages;
      this.reflections := reflections;
    }

    /** new AutoConfig(basePackages...): rejects an empty package list with
        IllegalArgumentException; the scan of the packages is the oracle
        reflections. */
    static method New(basePackages: seq<string>, reflections: Reflections) returns (r: Result<AutoConfig, Error>)
      ensures r.Failure? <==> |basePackages| == 0
      ensures r.Failure? ==> r.error == IllegalArgument(None)
      ensures r.Success? ==> fresh(r.value) && r.value.basePackages == basePackages && r.value.reflections == reflections
    {
      if |basePackages| == 0 {
        return Failure(IllegalArgument(None));
      }
      var autoConfig := new AutoConfig(basePackages, reflections);
      return Success(autoConfig);
    }

    /** run(environment, injector): the six runtime categories in their fixed order. */
    method Run(host: Host, injector: Injector) returns (failure: Option<Error>)
      modifies host
      ensures host.exitStatus == old(host.exitStatus)
      ensures host.trace == old(host.trace) + Pipeline(RUN_CATEGORIES, reflections, injector).events
      ensures failure == Pipeline(RUN_CATEGORIES, reflections, injector).failure
    {
      RunPipelineUnfolds(reflections, injector);
      ghost var d1 := Dispatch(HealthChecks, reflections.Found(HealthChecks), injector);
      ghost var d2 := Dispatch(Providers, reflections.Found(Providers), injector);
      ghost var d3 := Dispatch(InjectableProviders, reflections.Found(InjectableProviders), injector);
      ghost var d4 := Dispatch(Resources, reflections.Found(Resources), injector);
      ghost var d5 := Dispatch(Tasks, reflections.Found(Tasks), injector);
      ghost var d6 := Dispatch(ManagedObjects, reflections.Found(ManagedObjects), injector);
      ThenChain(host.trace, d1, d2, d3, d4, d5, d6);
      failure := AddHealthChecks(host, injector);
      if failure.Some? { return; }
      failure := AddProviders(host, injector);
      if failure.Some? { return; }
      failure := AddInjectableProviders(host, injector);
      if failure.Some? { return; }
      failure := AddResources(host, injector);
      if failure.Some? { return; }
      failure := AddTasks(host, injector);
      if failure.Some? { return; }
      failure := AddManaged(host, injector);
    }

    /** initialize(bootstrap, injector): the two bundle categories. */
    method Initialize(host: Host, injector: Injector) returns (failure: Option<Error>)
      modifies host
      ensures host.exitStatus == old(host.exitStatus)
      ensures host.trace == old(host.trace) + Pipeline(INITIALIZE_CATEGORIES, reflections, injector).events
      ensures failure == Pipeline(INITIALIZE_CATEGORIES, reflections, injector).failure
    {
      InitializePipelineUnfolds(reflections, injector);
      failure := AddBundles(host, injector);
    }

    method AddManaged(host: Host, injector: Injector) returns (failure: Option<Error>)
      modifies host
      ensures host.exitStatus == old(host.exitStatus)
      ensures host.trace == old(host.trace) + Dispatch(ManagedObjects, reflections.Found(ManagedObjects), injector).events
      ensures failure == Dispatch(ManagedObjects, reflections.Found(ManagedObjects), injector).failure
    {
      var managedClasses := reflections.Found(ManagedObjects);
      for i := 0 to |managedClasses|
        invariant host.exitStatus == old(host.exitStatus)
        invariant host.trace == old(host.trace) + Dispatch(ManagedObjects, managedClasses[..i], injector).events
        invariant Dispatch(ManagedObjects, managedClasses[..i], injector).failure.None?
      {
        DispatchExtend(ManagedObjects, managedClasses, i, injector);
        var instance := injector.GetInstance(managedClasses[i]);
        if instance.Failure? {
          DispatchFailureIsFinal(ManagedObjects, managedClasses, i + 1, injector);
          return Some(instance.error);
        }
        host.Manage(instance.value);
      }
      assert managedClasses[..|managedClasses|] == managedClasses;
      return None;
    }

    method AddTasks(host: Host, injector: Injector) returns (failure: Option<Error>)
      modifies host
      ensures host.exitStatus == old(host.exitStatus)
      ensures host.trace == old(host.trace) + Dispatch(Tasks, reflections.Found(Tasks), injector).events
      ensures failure == Dispatch(Tasks, reflections.Found(Tasks), injector).failure
    {
      var taskClasses := reflections.Found(Tasks);
      for i := 0 to |taskClasses|
        invariant host.exitStatus == old(host.exitStatus)
        invariant host.trace == old(host.trace) + Dispatch(Tasks, taskClasses[..i], injector).events
        invariant Dispatch(Tasks, taskClasses[..i], injector).failure.None?
      {
        DispatchExtend(Tasks, taskClasses, i, injector);
        var instance := injector.GetInstance(taskClasses[i]);
        if instance.Failure? {
          DispatchFailureIsFinal(Tasks, taskClasses, i + 1, injector);
          return Some(instance.error);
        }
        host.AddTask(instance.value);
      }
      assert taskClasses[..|taskClasses|] == taskClasses;
      return None;
    }

    method AddHealthChecks(host: Host, injector: Injector) returns (failure: Option<Error>)
      modifies host
      ensures host.exitStatus == old(host.exitStatus)
      ensures host.trace == old(host.trace) + Dispatch(HealthChecks, reflections.Found(HealthChecks), injector).events
      ensures failure == Dispatch(HealthChecks, reflections.Found(HealthChecks), injector).failure
    {
      var healthCheckClasses := reflections.Found(HealthChecks);
      for i := 0 to |healthCheckClasses|
        invariant host.exitStatus == old(host.exitStatus)
        invariant host.trace == old(host.trace) + Dispatch(HealthChecks, healthCheckClasses[..i], injector).events
        invariant Dispatch(HealthChecks, healthCheckClasses[..i], injector).failure.None?
      {
        DispatchExtend(HealthChecks, healthCheckClasses, i, injector);
        var instance := injector.GetInstance(healthCheckClasses[i]);
        if instance.Failure? {
          DispatchFailureIsFinal(HealthChecks, healthCheckClasses, i + 1, injector);
          return Some(instance.error);
        }
        host.RegisterHealthCheck(instance.value.name, instance.value);
      }
      assert healthCheckClasses[..|healthCheckClasses|] == healthCheckClasses;
      return None;
    }

    method AddInjectableProviders(host: Host, injector: Injector) returns (failure: Option<Error>)
      modifies host
      ensures host.exitStatus == old(host.exitStatus)
      ensures host.trace == old(host.trace) + Dispatch(InjectableProviders, reflections.Found(InjectableProviders), injector).events
      ensures failure == Dispatch(InjectableProviders, reflections.Found(InjectableProviders), injector).failure
    {
      var injectableProviderClasses := reflections.Found(InjectableProviders);
      for i := 0 to |injectableProviderClasses|
        invariant host.exitStatus == old(host.exitStatus)
        invariant host.trace == old(host.trace) + Dispatch(InjectableProviders, injectableProviderClasses[..i], injector).events
        invariant Dispatch(InjectableProviders, injectableProviderClasses[..i], injector).failure.None?
      {
        DispatchExtend(InjectableProviders, injectableProviderClasses, i, injector);
        host.RegisterClass(injectableProviderClasses[i]);
      }
      assert injectableProviderClasses[..|injectableProviderClasses|] == injectableProviderClasses;
      return None;
    }

    method AddProviders(host: Host, injector: Injector) returns (failure: Option<Error>)
      modifies host
      ensures host.exitStatus == old(host.exitStatus)
      ensures host.trace == old(host.trace) + Dispatch(Providers, reflections.Found(Providers), injector).events
      ensures failure == Dispatch(Providers, reflections.Found(Providers), injector).failure
    {
      var providerClasses := reflections.Found(Providers);
      for i := 0 to |providerClasses|
        invariant host.exitStatus == old(host.exitStatus)
        invariant host.trace == old(host.trace) + Dispatch(Providers, providerClasses[..i], injector).events
        invariant Dispatch(Providers, providerClasses[..i], injector).failure.None?
      {
        DispatchExtend(Providers, providerClasses, i, injector);
        host.RegisterClass(providerClasses[i]);
      }
      assert providerClasses[..|providerClasses|] == providerClasses;
      return None;
    }

    method AddResources(host: Host, injector: Injector) returns (failure: Option<Error>)
      modifies host
      ensures host.exitStatus == old(host.exitStatus)
      ensures host.trace == old(host.trace) + Dispatch(Resources, reflections.Found(Resources), injector).events
      ensures failure == Dispatch(Resources, reflections.Found(Resources), injector).failure
    {
      var resourceClasses := reflections.Found(Resources);
      for i := 0 to |resourceClasses|
        invariant host.exitStatus == old(host.exitStatus)
        invariant host.trace == old(host.trace) + Dispatch(Resources, resourceClasses[..i], injector).events
        invariant Dispatch(Resources, resourceClasses[..i], injector).failure.None?
      {
        DispatchExtend(Resources, resourceClasses, i, injector);
        host.RegisterClass(resourceClasses[i]);
      }
      assert resourceClasses[..|resourceClasses|] == resourceClasses;
      return None;
    }

    /** addBundles: every Bundle subtype, then every ConfiguredBundle subtype. */
    method AddBundles(host: Host, injector: Injector) returns (failure: Option<Error>)
      modifies host
      ensures host.exitStatus == old(host.exitStatus)
      ensures host.trace == old(host.trace) + Then(Dispatch(Bundles, reflections.Found(Bundles), injector),
                                                   Dispatch(ConfiguredBundles, reflections.Found(ConfiguredBundles), injector)).events
      ensures failure == Then(Dispatch(Bundles, reflections.Found(Bundles), injector),
                              Dispatch(ConfiguredBundles, reflections.Found(ConfiguredBundles), injector)).failure
    {
      failure := AddBundleClasses(host, injector);
      if failure.Some? { return; }
      failure := AddConfiguredBundleClasses(host, injector);
      assert host.trace == old(host.trace) + (Dispatch(Bundles, reflections.Found(Bundles), injector).events +
        Dispatch(ConfiguredBundles, reflections.Found(ConfiguredBundles), injector).events);
    }

    /** The first loop of addBundles: each Bundle subtype is built by the
        injector and added to the bootstrap. */
    method AddBundleClasses(host: Host, injector: Injector) returns (failure: Option<Error>)
      modifies host
      ensures host.exitStatus == old(host.exitStatus)
      ensures host.trace == old(host.trace) + Dispatch(Bundles, reflections.Found(Bundles), injector).events
      ensures failure == Dispatch(Bundles, reflections.Found(Bundles), injector).failure
    {
      var bundleClasses := reflections.Found(Bundles);
      for i := 0 to |bundleClasses|
        invariant host.exitStatus == old(host.exitStatus)
        invariant host.trace == old(host.trace) + Dispatch(Bundles, bundleClasses[..i], injector).events
        invariant Dispatch(Bundles, bundleClasses[..i], injector).failure.None?
      {
        DispatchExtend(Bundles, bundleClasses, i, injector);
        var instance := injector.GetInstance(bundleClasses[i]);
        if instance.Failure? {
          DispatchFailureIsFinal(Bundles, bundleClasses, i + 1, injector);
          return Some(instance.error);
        }
        assert Step(Bundles, bundleClasses[i], injector) == Outcome([BundleAdded(instance.value, false)], None);
        host.AddBundle(instance.value, false);
        assert host.trace == old(host.trace) + (Dispatch(Bundles, bundleClasses[..i], injector).events + [BundleAdded(instance.value, false)]);
      }
      assert bundleClasses[..|bundleClasses|] == bundleClasses;
      return None;
    }

    /** The second loop of addBundles, over the ConfiguredBundle subtypes. */
    method AddConfiguredBundleClasses(host: Host, injector: Injector) returns (failure: Option<Error>)
      modifies host
      ensures host.exitStatus == old(host.exitStatus)
      ensures host.trace == old(host.trace) + Dispatch(ConfiguredBundles, reflections.Found(ConfiguredBundles), injector).events
      ensures failure == Dispatch(ConfiguredBundles, reflections.Found(ConfiguredBundles), injector).failure
    {
      var configuredBundleClasses := reflections.Found(ConfiguredBundles);
      for i := 0 to |configuredBundleClasses|
        invariant host.exitStatus == old(host.exitStatus)
        invariant host.trace == old(host.trace) + Dispatch(ConfiguredBundles, configuredBundleClasses[..i], injector).events
        invariant Dispatch(ConfiguredBundles, configuredBundleClasses[..i], injector).failure.None?
      {
        DispatchExtend(ConfiguredBundles, configuredBundleClasses, i, injector);
        var instance := injector.GetInstance(configuredBundleClasses[i]);
        if instance.Failure? {
          DispatchFailureIsFinal(ConfiguredBundles, configuredBundleClasses, i + 1, injector);
          return Some(instance.error);
        }
        assert Step(ConfiguredBundles, configuredBundleClasses[i], injector) == Outcome([BundleAdded(instance.value, true)], None);
        host.AddBundle(instance.value, true);
        assert host.trace == old(host.trace) + (Dispatch(ConfiguredBundles, configuredBundleClasses[..i], injector).events + [BundleAdded(instance.value, true)]);
      }
      assert configuredBundleClasses[..|configuredBundleClasses|] == configuredBundleClasses;
      return None;
    }
  }

  /** The runtime walk is the six loops chained in their fixed order. The
      slice steps spell out the recursion one category at a time; without
      them the solver runs out of resource on this unfolding. */
  lemma RunPipelineUnfolds(r: Reflections, injector: Injector)
    ensures Pipeline(RUN_CATEGORIES, r, injector) ==
      Then(Dispatch(HealthChecks, r.Found(HealthChecks), injector),
      Then(Dispatch(Providers, r.Found(Providers), injector),
      Then(Dispatch(InjectableProviders, r.Found(InjectableProviders), injector),
      Then(Dispatch(Resources, r.Found(Resources), injector),
      Then(Dispatch(Tasks, r.Found(Tasks), injector),
      Dispatch(ManagedObjects, r.Found(ManagedObjects), injector))))))
  {
    assert RUN_CATEGORIES[1..] == [Providers, InjectableProviders, Resources, Tasks, ManagedObjects];
    assert RUN_CATEGORIES[1..][1..] == [InjectableProviders, Resources, Tasks, ManagedObjects];
    assert RUN_CATEGORIES[1..][1..][1..] == [Resources, Tasks, ManagedObjects];
    assert RUN_CATEGORIES[1..][1..][1..][1..] == [Tasks, ManagedObjects];
    assert RUN_CATEGORIES[1..][1..][1..][1..][1..] == [ManagedObjects];
    assert RUN_CATEGORIES[1..][1..][1..][1..][1..][1..] == [];
    var d := Dispatch(ManagedObjects, r.Found(ManagedObjects), injector);
    assert d.events + [] == d.events;
  }

  /** Six loops run one after the other, appending to a trace that held
      start: what the trace holds afterwards, case by case. The body only
      regroups the concatenations; it is kept because it makes the proof
      markedly cheaper for the solver. */
  lemma ThenChain(start: seq<Event>, d1: Outcome, d2: Outcome, d3: Outcome, d4: Outcome, d5: Outcome, d6: Outcome)
    ensures var all := Then(d1, Then(d2, Then(d3, Then(d4, Then(d5, d6)))));
      && (d1.failure.Some? ==> all == d1)
      && (d1.failure.None? && d2.failure.Some? ==>
            all.failure == d2.failure && start + all.events == start + d1.events + d2.events)
      && (d1.failure.None? && d2.failure.None? && d3.failure.Some? ==>
            all.failure == d3.failure && start + all.events == start + d1.events + d2.events + d3.events)
      && (d1.failure.None? && d2.failure.None? && d3.failure.None? && d4.failure.Some? ==>
            all.failure == d4.failure &&
            start + all.events == start + d1.events + d2.events + d3.events + d4.events)
      && (d1.failure.None? && d2.failure.None? && d3.failure.None? && d4.failure.None? && d5.failure.Some? ==>
            all.failure == d5.failure &&
            start + all.events == start + d1.events + d2.events + d3.events + d4.events + d5.events)
      && (d1.failure.None? && d2.failure.None? && d3.failure.None? && d4.failure.None? && d5.failure.None? ==>
            all.failure == d6.failure &&
            start + all.events == start + d1.events + d2.events + d3.events + d4.events + d5.events + d6.events)
  {
    assert start + (d1.events + (d2.events + (d3.events + (d4.events + (d5.events + d6.events)))))
        == start + d1.events + d2.events + d3.events + d4.events + d5.events + d6.events;
    assert start + (d1.events + (d2.events + (d3.events + (d4.events + d5.events))))
        == start + d1.events + d2.events + d3.events + d4.events + d5.events;
    assert start + (d1.events + (d2.events + (d3.events + d4.events)))
        == start + d1.events + d2.events + d3.events + d4.events;
    assert start + (d1.events + (d2.events + d3.events)) == start + d1.events + d2.events + d3.events;
    assert start + (d1.events + d2.events) == start + d1.events + d2.events;
  }

  /** The bootstrap walk is the Bundle loop chained with the ConfiguredBundle
      loop; the slice steps are kept to make the unfolding cheaper. */
  lemma InitializePipelineUnfolds(r: Reflections, injector: Injector)
    ensures Pipeline(INITIALIZE_CATEGORIES, r, injector) ==
      Then(Dispatch(Bundles, r.Found(Bundles), injector),
      Dispatch(ConfiguredBundles, r.Found(ConfiguredBundles), injector))
  {
    assert INITIALIZE_CATEGORIES[1..] == [ConfiguredBundles];
    assert INITIALIZE_CATEGORIES[1..][1..] == [];
    var d := Dispatch(ConfiguredBundles, r.Found(ConfiguredBundles), injector);
    assert d.events + [] == d.events;
  }
}
