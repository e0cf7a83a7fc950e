/** What AutoConfig's loops do, stated over the functions that specify
    them: one call per match in scan order, up to the first match the
    injector cannot build; which registry receives what; and the order in
    which run and initialize address the host's registries. */
module DiscoveryProperties {
  import opened Wrappers
  import opened Runtime
  import opened Discovery

  /** How many times x occurs in s. */
  function Occurrences<T(==)>(s: seq<T>, x: T): nat
    decreases |s|
  {
    if s == [] then 0 else Occurrences(s[..|s| - 1], x) + (if s[|s| - 1] == x then 1 else 0)
  }

  /** How many events of the trace address sink about class cls. */
  function CountFor(events: seq<Event>, sink: Sink, cls: TypeId): nat
    decreases |events|
  {
    if events == [] then 0
    else
      var last := events[|events| - 1];
      CountFor(events[..|events| - 1], sink, cls) + (if SinkOf(last) == sink && Subject(last) == Some(cls) then 1 else 0)
  }

  function Indicator(b: bool): nat {
    if b then 1 else 0
  }

  /** One Jersey class registration per class, in order. */
  function ClassRegistrations(classes: seq<TypeId>): (ev: seq<Event>)
    ensures |ev| == |classes|
    ensures forall i :: 0 <= i < |classes| ==> ev[i] == ClassRegistered(classes[i])
  {
    seq(|classes|, i requires 0 <= i < |classes| => ClassRegistered(classes[i]))
  }

  /** The events address registries of non-decreasing rank. */
  predicate RanksAscend(ev: seq<Event>) {
    forall i, j :: 0 <= i < j < |ev| ==> RunRank(SinkOf(ev[i])) <= RunRank(SinkOf(ev[j]))
  }

  /** The registries in the order run addresses them. */
  function RunRank(s: Sink): nat {
    match s
    case HealthCheckRegistry => 0
    case Jersey => 1
    case Admin => 2
    case Lifecycle => 3
    case _ => 4
  }

  /** One add* loop emits one event per match, in scan order, until the
      first match the injector cannot build; the failure of that match is
      what the loop throws, and nothing is emitted for it or after it. No
      match is skipped, and a category without matches emits nothing. */
  lemma {:induction false} DispatchShape(c: Category, classes: seq<TypeId>, injector: Injector)
    ensures var d := Dispatch(c, classes, injector);
      && |d.events| <= |classes|
      && (forall i :: 0 <= i < |d.events| ==> Registration(c, classes[i], injector) == Success(d.events[i]))
      && (d.failure.None? <==> |d.events| == |classes|)
      && (d.failure.Some? ==> Registration(c, classes[|d.events|], injector) == Failure(d.failure.value))
  {
    if classes != [] {
      var prefix := classes[..|classes| - 1];
      DispatchShape(c, prefix, injector);
      assert forall i :: 0 <= i < |prefix| ==> prefix[i] == classes[i];
    }
  }

  /** A loop completes exactly when the injector can build every match, or
      when the category hands over classes rather than instances. */
  lemma DispatchSucceedsIff(c: Category, classes: seq<TypeId>, injector: Injector)
    ensures Dispatch(c, classes, injector).failure.None? <==>
      (BuiltByInjector(c) ==> forall i :: 0 <= i < |classes| ==> classes[i] in injector.buildable)
  {
    DispatchShape(c, classes, injector);
    var d := Dispatch(c, classes, injector);
    if d.failure.Some? {
      assert Registration(c, classes[|d.events|], injector).Failure?;
    } else {
      forall i | 0 <= i < |classes|
        ensures BuiltByInjector(c) ==> classes[i] in injector.buildable
      {
        assert Registration(c, classes[i], injector).Success?;
      }
    }
  }

  /** Every event a loop emits goes to its category's registry and is a
      registration; the instance-based categories hand over what the
      injector built, and a health check is registered under the name its
      own instance reports. */
  lemma DispatchSinks(c: Category, classes: seq<TypeId>, injector: Injector)
    ensures var ev := Dispatch(c, classes, injector).events;
      |ev| <= |classes| &&
      forall i :: 0 <= i < |ev| ==>
        && SinkOf(ev[i]) == CategorySink(c)
        && Subject(ev[i]) == Some(classes[i])
        && (BuiltByInjector(c) ==> IsBuiltBy(ev[i], injector))
        && (c == HealthChecks ==> ev[i].HealthCheckRegistered? && ev[i].checkName == ev[i].check.name)
        && (ev[i].BundleAdded? ==> ev[i].configured == (c == ConfiguredBundles))
  {
    DispatchShape(c, classes, injector);
  }

  /** Providers, injectable providers and resources are registered as
      classes: the injector is never asked, so the loop never fails. */
  lemma {:induction false} ClassCategoriesBypassInjector(c: Category, classes: seq<TypeId>, injector: Injector, other: Injector)
    requires !BuiltByInjector(c)
    ensures var d := Dispatch(c, classes, injector);
      && d == Dispatch(c, classes, other)
      && d.failure.None?
      && d.events == ClassRegistrations(classes)
  {
    if classes != [] {
      ClassCategoriesBypassInjector(c, classes[..|classes| - 1], injector, other);
    }
  }

  lemma {:induction false} CountForConcat(a: seq<Event>, b: seq<Event>, sink: Sink, cls: TypeId)
    ensures CountFor(a + b, sink, cls) == CountFor(a, sink, cls) + CountFor(b, sink, cls)
    decreases |b|
  {
    if b != [] {
      assert (a + b)[..|a + b| - 1] == a + b[..|b| - 1];
      CountForConcat(a, b[..|b| - 1], sink, cls);
    } else {
      assert a + b == a;
    }
  }

  /** A completed loop addresses its own registry once per occurrence of a
      class among the matches, and no other registry at all. */
  lemma {:induction false} DispatchCounts(c: Category, classes: seq<TypeId>, injector: Injector, sink: Sink, cls: TypeId)
    requires Dispatch(c, classes, injector).failure.None?
    ensures CountFor(Dispatch(c, classes, injector).events, sink, cls) ==
      if sink == CategorySink(c) then Occurrences(classes, cls) else 0
  {
    if classes != [] {
      var prefix := classes[..|classes| - 1];
      var last := classes[|classes| - 1];
      var e := DispatchSnoc(c, classes, injector);
      DispatchCounts(c, prefix, injector, sink, cls);
      CountForSnoc(Dispatch(c, prefix, injector).events, e, sink, cls);
      assert classes == prefix + [last];
    }
  }

  /** The last match of a completed loop adds one event, about that match,
      to what the loop did for the other matches. */
  lemma DispatchSnoc(c: Category, classes: seq<TypeId>, injector: Injector) returns (e: Event)
    requires classes != []
    requires Dispatch(c, classes, injector).failure.None?
    ensures Dispatch(c, classes[..|classes| - 1], injector).failure.None?
    ensures Dispatch(c, classes, injector).events == Dispatch(c, classes[..|classes| - 1], injector).events + [e]
    ensures SinkOf(e) == CategorySink(c) && Subject(e) == Some(classes[|classes| - 1])
  {
    e := Registration(c, classes[|classes| - 1], injector).value;
  }

  lemma CountForSnoc(prior: seq<Event>, e: Event, sink: Sink, cls: TypeId)
    ensures CountFor(prior + [e], sink, cls) == CountFor(prior, sink, cls) + Indicator(SinkOf(e) == sink && Subject(e) == Some(cls))
  {
    assert (prior + [e])[..|prior|] == prior;
  }

  /** The number of calls a completed walk of cs makes on sink about cls. */
  function Expected(cs: seq<Category>, r: Reflections, sink: Sink, cls: TypeId): nat
    decreases |cs|
  {
    if cs == [] then 0
    else (if CategorySink(cs[0]) == sink then Occurrences(r.Found(cs[0]), cls) else 0) + Expected(cs[1..], r, sink, cls)
  }

  lemma {:induction false} PipelineCounts(cs: seq<Category>, r: Reflections, injector: Injector, sink: Sink, cls: TypeId)
    requires Pipeline(cs, r, injector).failure.None?
    ensures CountFor(Pipeline(cs, r, injector).events, sink, cls) == Expected(cs, r, sink, cls)
    decreases |cs|
  {
    if cs != [] {
      var d := Dispatch(cs[0], r.Found(cs[0]), injector);
      assert d.failure.None?;
      DispatchCounts(cs[0], r.Found(cs[0]), injector, sink, cls);
      PipelineCounts(cs[1..], r, injector, sink, cls);
      CountForConcat(d.events, Pipeline(cs[1..], r, injector).events, sink, cls);
    }
  }

  /** A class occurs at most once in what the scanner returns. */
  lemma {:induction false} OccurrencesInSet<T>(s: seq<T>, x: T)
    requires NoDuplicates(s)
    ensures Occurrences(s, x) == Indicator(x in s)
    decreases |s|
  {
    if s != [] {
      var prefix := s[..|s| - 1];
      assert NoDuplicates(prefix);
      OccurrencesInSet(prefix, x);
      assert s == prefix + [s[|s| - 1]];
      if s[|s| - 1] == x {
        assert x !in prefix;
      }
    }
  }

  lemma FoundOnce(r: Reflections, c: Category, cls: TypeId)
    requires r.YieldsSets()
    ensures Occurrences(r.Found(c), cls) == Indicator(cls in r.Found(c))
  {
    OccurrencesInSet(r.Found(c), cls);
  }

  /** After a run that completes: each Managed subtype found is managed
      exactly once, each Task subtype added exactly once, each health check
      registered exactly once; Jersey registers a class once for each of the
      three class categories that found it; and no bundle is added. */
  lemma RunRegistersEveryMatchOnce(r: Reflections, injector: Injector, cls: TypeId)
    requires r.YieldsSets()
    requires Pipeline(RUN_CATEGORIES, r, injector).failure.None?
    ensures var ev := Pipeline(RUN_CATEGORIES, r, injector).events;
      && CountFor(ev, Lifecycle, cls) == Indicator(cls in r.Found(ManagedObjects))
      && CountFor(ev, Admin, cls) == Indicator(cls in r.Found(Tasks))
      && CountFor(ev, HealthCheckRegistry, cls) == Indicator(cls in r.Found(HealthChecks))
      && CountFor(ev, Jersey, cls) ==
           Indicator(cls in r.Found(Providers)) + Indicator(cls in r.Found(InjectableProviders)) + Indicator(cls in r.Found(Resources))
      && CountFor(ev, BootstrapBundles, cls) == 0
  {
    RunCount(r, injector, Lifecycle, cls);
    RunCount(r, injector, Admin, cls);
    RunCount(r, injector, HealthCheckRegistry, cls);
    RunCount(r, injector, Jersey, cls);
    RunCount(r, injector, BootstrapBundles, cls);
    FoundOnce(r, HealthChecks, cls);
    FoundOnce(r, Providers, cls);
    FoundOnce(r, InjectableProviders, cls);
    FoundOnce(r, Resources, cls);
    FoundOnce(r, Tasks, cls);
    FoundOnce(r, ManagedObjects, cls);
  }

  /** The calls a completed run makes on one registry, category by category. */
  lemma RunCount(r: Reflections, injector: Injector, sink: Sink, cls: TypeId)
    requires Pipeline(RUN_CATEGORIES, r, injector).failure.None?
    ensures CountFor(Pipeline(RUN_CATEGORIES, r, injector).events, sink, cls) ==
      (if sink == HealthCheckRegistry then Occurrences(r.Found(HealthChecks), cls) else 0) +
      (if sink == Jersey then Occurrences(r.Found(Providers), cls) else 0) +
      (if sink == Jersey then Occurrences(r.Found(InjectableProviders), cls) else 0) +
      (if sink == Jersey then Occurrences(r.Found(Resources), cls) else 0) +
      (if sink == Admin then Occurrences(r.Found(Tasks), cls) else 0) +
      (if sink == Lifecycle then Occurrences(r.Found(ManagedObjects), cls) else 0)
  {
    PipelineCounts(RUN_CATEGORIES, r, injector, sink, cls);
    RunExpected(r, sink, cls);
  }

  /** The six runtime categories each count towards their own registry only. */
  lemma RunExpected(r: Reflections, sink: Sink, cls: TypeId)
    ensures Expected(RUN_CATEGORIES, r, sink, cls) ==
      (if sink == HealthCheckRegistry then Occurrences(r.Found(HealthChecks), cls) else 0) +
      (if sink == Jersey then Occurrences(r.Found(Providers), cls) else 0) +
      (if sink == Jersey then Occurrences(r.Found(InjectableProviders), cls) else 0) +
      (if sink == Jersey then Occurrences(r.Found(Resources), cls) else 0) +
      (if sink == Admin then Occurrences(r.Found(Tasks), cls) else 0) +
      (if sink == Lifecycle then Occurrences(r.Found(ManagedObjects), cls) else 0)
  {
  }

  /** After an initialize that completes: a class is added as a bundle once
      for each of the two bundle categories that found it (twice when it is
      both a Bundle and a ConfiguredBundle), and no other registry is
      addressed. */
  lemma InitializeAddsEveryBundleMatch(r: Reflections, injector: Injector, cls: TypeId, sink: Sink)
    requires r.YieldsSets()
    requires Pipeline(INITIALIZE_CATEGORIES, r, injector).failure.None?
    ensures CountFor(Pipeline(INITIALIZE_CATEGORIES, r, injector).events, sink, cls) ==
      if sink == BootstrapBundles
      then Indicator(cls in r.Found(Bundles)) + Indicator(cls in r.Found(ConfiguredBundles))
      else 0
  {
    assert INITIALIZE_CATEGORIES[1..] == [ConfiguredBundles];
    assert INITIALIZE_CATEGORIES[1..][1..] == [];
    PipelineCounts(INITIALIZE_CATEGORIES, r, injector, sink, cls);
    FoundOnce(r, Bundles, cls);
    FoundOnce(r, ConfiguredBundles, cls);
  }

  /** initialize only adds bundles, each built by the injector. */
  lemma InitializeOnlyAddsBuiltBundles(r: Reflections, injector: Injector)
    ensures forall e :: e in Pipeline(INITIALIZE_CATEGORIES, r, injector).events ==> e.BundleAdded? && IsBuiltBy(e, injector)
  {
    InitializePipelineUnfolds(r, injector);
    BundleLoopsAddBuiltBundles(r.Found(Bundles), r.Found(ConfiguredBundles), injector);
  }

  lemma BundleLoopsAddBuiltBundles(b: seq<TypeId>, cb: seq<TypeId>, injector: Injector)
    ensures forall e :: e in Then(Dispatch(Bundles, b, injector), Dispatch(ConfiguredBundles, cb, injector)).events ==>
      e.BundleAdded? && IsBuiltBy(e, injector)
  {
    DispatchSinks(Bundles, b, injector);
    DispatchSinks(ConfiguredBundles, cb, injector);
  }

  /** When initialize completes, the Bundle subtypes come first, in scan
      order, through the Bundle overload of addBundle, and the
      ConfiguredBundle subtypes after them, through the ConfiguredBundle
      overload. */
  lemma InitializeBundlesBeforeConfiguredBundles(r: Reflections, injector: Injector)
    requires Pipeline(INITIALIZE_CATEGORIES, r, injector).failure.None?
    ensures var ev := Pipeline(INITIALIZE_CATEGORIES, r, injector).events;
      var b := r.Found(Bundles);
      var cb := r.Found(ConfiguredBundles);
      && |ev| == |b| + |cb|
      && (forall i :: 0 <= i < |b| ==> ev[i].BundleAdded? && !ev[i].configured && Subject(ev[i]) == Some(b[i]))
      && (forall j :: 0 <= j < |cb| ==> ev[|b| + j].BundleAdded? && ev[|b| + j].configured && Subject(ev[|b| + j]) == Some(cb[j]))
  {
    InitializePipelineUnfolds(r, injector);
    BundleLoopsInOrder(r.Found(Bundles), r.Found(ConfiguredBundles), injector);
  }

  lemma BundleLoopsInOrder(b: seq<TypeId>, cb: seq<TypeId>, injector: Injector)
    requires Then(Dispatch(Bundles, b, injector), Dispatch(ConfiguredBundles, cb, injector)).failure.None?
    ensures var ev := Then(Dispatch(Bundles, b, injector), Dispatch(ConfiguredBundles, cb, injector)).events;
      && |ev| == |b| + |cb|
      && (forall i :: 0 <= i < |b| ==> ev[i].BundleAdded? && !ev[i].configured && Subject(ev[i]) == Some(b[i]))
      && (forall j :: 0 <= j < |cb| ==> ev[|b| + j].BundleAdded? && ev[|b| + j].configured && Subject(ev[|b| + j]) == Some(cb[j]))
  {
    var d1 := Dispatch(Bundles, b, injector).events;
    var d2 := Dispatch(ConfiguredBundles, cb, injector).events;
    BundleDispatch(Bundles, b, injector);
    BundleDispatch(ConfiguredBundles, cb, injector);
    var ev := d1 + d2;
    forall i | 0 <= i < |b|
      ensures ev[i].BundleAdded? && !ev[i].configured && Subject(ev[i]) == Some(b[i])
    {
      assert ev[i] == d1[i];
    }
    forall j | 0 <= j < |cb|
      ensures ev[|b| + j].BundleAdded? && ev[|b| + j].configured && Subject(ev[|b| + j]) == Some(cb[j])
    {
      assert ev[|b| + j] == d2[j];
    }
  }

  /** Even when initialize stops early, no bundle is added through the Bundle
      overload after one was added through the ConfiguredBundle overload. */
  lemma InitializeKeepsBundleOrder(r: Reflections, injector: Injector)
    ensures var ev := Pipeline(INITIALIZE_CATEGORIES, r, injector).events;
      forall i, j :: 0 <= i < j < |ev| && ev[i].BundleAdded? && ev[j].BundleAdded? && ev[i].configured ==> ev[j].configured
  {
    InitializePipelineUnfolds(r, injector);
    var first := Dispatch(Bundles, r.Found(Bundles), injector);
    var next := Dispatch(ConfiguredBundles, r.Found(ConfiguredBundles), injector);
    DispatchSinks(Bundles, r.Found(Bundles), injector);
    DispatchSinks(ConfiguredBundles, r.Found(ConfiguredBundles), injector);
    var ev := Then(first, next).events;
    forall i, j | 0 <= i < j < |ev| && ev[i].BundleAdded? && ev[j].BundleAdded? && ev[i].configured
      ensures ev[j].configured
    {
      assert i >= |first.events|;
      assert first.failure.None?;
      assert ev[j] == next.events[j - |first.events|];
    }
  }

  /** A completed bundle loop adds one bundle per match, about that match,
      through the overload of its category. */
  lemma BundleDispatch(c: Category, classes: seq<TypeId>, injector: Injector)
    requires c == Bundles || c == ConfiguredBundles
    requires Dispatch(c, classes, injector).failure.None?
    ensures var ev := Dispatch(c, classes, injector).events;
      && |ev| == |classes|
      && forall i :: 0 <= i < |ev| ==>
           ev[i].BundleAdded? && ev[i].configured == (c == ConfiguredBundles) && Subject(ev[i]) == Some(classes[i])
  {
    DispatchShape(c, classes, injector);
    DispatchSinks(c, classes, injector);
  }

  /** A completed loop emits one event per match, about that match. */
  lemma DispatchSubjects(c: Category, classes: seq<TypeId>, injector: Injector)
    requires Dispatch(c, classes, injector).failure.None?
    ensures var ev := Dispatch(c, classes, injector).events;
      |ev| == |classes| && forall i :: 0 <= i < |ev| ==> Subject(ev[i]) == Some(classes[i])
  {
    DispatchShape(c, classes, injector);
    DispatchSinks(c, classes, injector);
  }

  /** Walking categories sorted by registry rank addresses the registries
      in that order, whether or not the walk completes. */
  lemma {:induction false} PipelineRespectsRank(cs: seq<Category>, r: Reflections, injector: Injector)
    requires CategoriesAscend(cs)
    ensures RanksAscend(Pipeline(cs, r, injector).events)
    ensures cs != [] ==> forall e :: e in Pipeline(cs, r, injector).events ==> RunRank(CategorySink(cs[0])) <= RunRank(SinkOf(e))
    decreases |cs|
  {
    if cs != [] {
      var d := Dispatch(cs[0], r.Found(cs[0]), injector);
      DispatchSingleSink(cs[0], r.Found(cs[0]), injector);
      var rest := cs[1..];
      PipelineRespectsRank(rest, r, injector);
      if d.failure.None? {
        RanksAscendConcat(d.events, Pipeline(rest, r, injector).events, RunRank(CategorySink(cs[0])));
      }
    }
  }

  /** Each category's registry ranks no lower than the one before. */
  predicate CategoriesAscend(cs: seq<Category>)
    decreases |cs|
  {
    |cs| <= 1 || (RunRank(CategorySink(cs[0])) <= RunRank(CategorySink(cs[1])) && CategoriesAscend(cs[1..]))
  }

  /** Every event of one loop goes to one registry. */
  lemma DispatchSingleSink(c: Category, classes: seq<TypeId>, injector: Injector)
    ensures RanksAscend(Dispatch(c, classes, injector).events)
    ensures forall e :: e in Dispatch(c, classes, injector).events ==> SinkOf(e) == CategorySink(c)
  {
    DispatchSinks(c, classes, injector);
  }

  /** Events of one rank followed by events of that rank or higher. */
  lemma RanksAscendConcat(a: seq<Event>, b: seq<Event>, rank: nat)
    requires forall e :: e in a ==> RunRank(SinkOf(e)) == rank
    requires forall e :: e in b ==> rank <= RunRank(SinkOf(e))
    requires RanksAscend(b)
    ensures RanksAscend(a + b)
  {
    var ev := a + b;
    forall i, j | 0 <= i < j < |ev|
      ensures RunRank(SinkOf(ev[i])) <= RunRank(SinkOf(ev[j]))
    {
      if j < |a| {
        assert ev[i] in a && ev[j] in a;
      } else if i < |a| {
        assert ev[i] in a && ev[j] == b[j - |a|];
      } else {
        assert ev[i] == b[i - |a|] && ev[j] == b[j - |a|];
      }
    }
  }

  /** run addresses the health-check registry first, then Jersey, then the
      admin task registry, then the lifecycle, even when it stops early. */
  lemma RunAddressesRegistriesInOrder(r: Reflections, injector: Injector)
    ensures RanksAscend(Pipeline(RUN_CATEGORIES, r, injector).events)
  {
    PipelineRespectsRank(RUN_CATEGORIES, r, injector);
  }

  /** When run completes, its trace is the six loops' events, one
      category after the other in the fixed order. */
  lemma RunTraceConcatenation(r: Reflections, injector: Injector)
    requires Pipeline(RUN_CATEGORIES, r, injector).failure.None?
    ensures Pipeline(RUN_CATEGORIES, r, injector).events ==
      Dispatch(HealthChecks, r.Found(HealthChecks), injector).events +
      Dispatch(Providers, r.Found(Providers), injector).events +
      Dispatch(InjectableProviders, r.Found(InjectableProviders), injector).events +
      Dispatch(Resources, r.Found(Resources), injector).events +
      Dispatch(Tasks, r.Found(Tasks), injector).events +
      Dispatch(ManagedObjects, r.Found(ManagedObjects), injector).events
    ensures forall c :: c in RUN_CATEGORIES ==> Dispatch(c, r.Found(c), injector).failure.None?
  {
    RunPipelineUnfolds(r, injector);
    var d1 := Dispatch(HealthChecks, r.Found(HealthChecks), injector);
    var d2 := Dispatch(Providers, r.Found(Providers), injector);
    var d3 := Dispatch(InjectableProviders, r.Found(InjectableProviders), injector);
    var d4 := Dispatch(Resources, r.Found(Resources), injector);
    var d5 := Dispatch(Tasks, r.Found(Tasks), injector);
    var d6 := Dispatch(ManagedObjects, r.Found(ManagedObjects), injector);
    ThenChain([], d1, d2, d3, d4, d5, d6);
    assert [] + Pipeline(RUN_CATEGORIES, r, injector).events == Pipeline(RUN_CATEGORIES, r, injector).events;
    assert [] + d1.events == d1.events;
  }

  /** When run completes, the classes Jersey registers are the @Provider
      matches, then the InjectableProvider matches, then the @Path matches,
      each in scan order, right after one registration per health check and
      before one call per task and per managed object. */
  lemma RunTraceInFixedOrder(r: Reflections, injector: Injector)
    requires Pipeline(RUN_CATEGORIES, r, injector).failure.None?
    ensures var hc := Dispatch(HealthChecks, r.Found(HealthChecks), injector).events;
      var tasks := Dispatch(Tasks, r.Found(Tasks), injector).events;
      var managed := Dispatch(ManagedObjects, r.Found(ManagedObjects), injector).events;
      && |hc| == |r.Found(HealthChecks)|
      && |tasks| == |r.Found(Tasks)|
      && |managed| == |r.Found(ManagedObjects)|
      && Pipeline(RUN_CATEGORIES, r, injector).events ==
         hc + ClassRegistrations(r.Found(Providers) + r.Found(InjectableProviders) + r.Found(Resources)) + tasks + managed
  {
    RunTraceConcatenation(r, injector);
    assert HealthChecks in RUN_CATEGORIES && Tasks in RUN_CATEGORIES && ManagedObjects in RUN_CATEGORIES;
    DispatchShape(HealthChecks, r.Found(HealthChecks), injector);
    DispatchShape(Tasks, r.Found(Tasks), injector);
    DispatchShape(ManagedObjects, r.Found(ManagedObjects), injector);
    var p := r.Found(Providers);
    var ip := r.Found(InjectableProviders);
    var rs := r.Found(Resources);
    ClassCategoriesBypassInjector(Providers, p, injector, injector);
    ClassCategoriesBypassInjector(InjectableProviders, ip, injector, injector);
    ClassCategoriesBypassInjector(Resources, rs, injector, injector);
    ClassRegistrationsConcat(p, ip);
    ClassRegistrationsConcat(p + ip, rs);
    Regroup(Dispatch(HealthChecks, r.Found(HealthChecks), injector).events,
      ClassRegistrations(p), ClassRegistrations(ip), ClassRegistrations(rs),
      Dispatch(Tasks, r.Found(Tasks), injector).events,
      Dispatch(ManagedObjects, r.Found(ManagedObjects), injector).events);
  }

  lemma Regroup<T>(a: seq<T>, b: seq<T>, c: seq<T>, d: seq<T>, e: seq<T>, f: seq<T>)
    ensures a + b + c + d + e + f == a + (b + c + d) + e + f
  {
  }

  lemma ClassRegistrationsConcat(a: seq<TypeId>, b: seq<TypeId>)
    ensures ClassRegistrations(a + b) == ClassRegistrations(a) + ClassRegistrations(b)
  {
  }

  /** Every call a walk makes registers a class that the scan found for one
      of the walked categories. */
  lemma {:induction false} PipelineOnlyRegisters(cs: seq<Category>, r: Reflections, injector: Injector)
    ensures forall e :: e in Pipeline(cs, r, injector).events ==>
      IsRegistration(e) && exists c :: c in cs && Subject(e).value in r.Found(c)
    decreases |cs|
  {
    if cs != [] {
      var d := Dispatch(cs[0], r.Found(cs[0]), injector);
      var rest := Pipeline(cs[1..], r, injector);
      DispatchRegisters(cs[0], r.Found(cs[0]), injector);
      PipelineOnlyRegisters(cs[1..], r, injector);
      forall e | e in Pipeline(cs, r, injector).events
        ensures IsRegistration(e) && exists c :: c in cs && Subject(e).value in r.Found(c)
      {
        if e in d.events {
          assert cs[0] in cs;
        } else {
          assert e in rest.events;
          var c :| c in cs[1..] && Subject(e).value in r.Found(c);
          assert c in cs;
        }
      }
    }
  }

  /** Every call a loop makes registers one of its matches. */
  lemma DispatchRegisters(c: Category, classes: seq<TypeId>, injector: Injector)
    ensures forall e :: e in Dispatch(c, classes, injector).events ==> IsRegistration(e) && Subject(e).value in classes
  {
    var ev := Dispatch(c, classes, injector).events;
    DispatchSinks(c, classes, injector);
    forall e | e in ev
      ensures IsRegistration(e) && Subject(e).value in classes
    {
      var i :| 0 <= i < |ev| && ev[i] == e;
      assert Subject(e) == Some(classes[i]);
    }
  }

  /** An exception in one category ends the walk: no later category is
      scanned or registered. */
  lemma {:induction false} PipelineStopsAtFailure(cs: seq<Category>, r: Reflections, injector: Injector, k: nat)
    requires k < |cs|
    requires forall j :: 0 <= j < k ==> Dispatch(cs[j], r.Found(cs[j]), injector).failure.None?
    requires Dispatch(cs[k], r.Found(cs[k]), injector).failure.Some?
    ensures Pipeline(cs, r, injector) == Pipeline(cs[..k + 1], r, injector)
    ensures Pipeline(cs, r, injector).failure == Dispatch(cs[k], r.Found(cs[k]), injector).failure
    decreases k
  {
    if k > 0 {
      assert cs[1..][..k] == cs[..k + 1][1..];
      PipelineStopsAtFailure(cs[1..], r, injector, k - 1);
    }
  }
}
