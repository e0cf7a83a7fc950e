/** The values the bundle exchanges with its surroundings (the Guice
    container, the Dropwizard host and the process), and the host itself,
    observed as one ordered trace of the calls that change them. */
module Runtime {
  import opened Wrappers

  /** A Java class, by its fully qualified name. */
  datatype TypeId = TypeId(name: string)

  /** io.dropwizard.Configuration, the class every configuration extends. */
  const CONFIGURATION_TYPE: TypeId := TypeId("io.dropwizard.Configuration")

  /** An object the injector built: its class, and the name it reports
      through getName() (used for health checks). */
  datatype Instance = Instance(cls: TypeId, name: string)

  /** A resolved configuration object and the live Dropwizard environment,
      with the two things the bundle reads from the environment: the
      application context path and the identity of Jersey's ResourceConfig. */
  datatype ConfigurationValue = ConfigurationValue(cls: TypeId, id: nat)
  datatype EnvironmentValue = EnvironmentValue(contextPath: string, resourceConfig: nat)

  /** com.google.inject.Stage. */
  datatype Stage = Tool | Development | Production

  /** A Guice module handed to the injector: one of the caller's, or one of
      the two the bundle adds itself. */
  datatype ModuleId =
    | UserModule(id: nat)
    | JerseyContainerModule
    | EnvironmentModule(configurationClass: TypeId)

  /** The exceptions the modelled code throws or lets through. */
  datatype Error =
    | IllegalArgument(message: Option<string>)  // Guava checkArgument
    | NullPointer                               // Guava checkNotNull, Optional.of(null), a null receiver
    | Provision(reason: string)                 // ProvisionException thrown by the environment module
    | InstantiationFailed(cls: TypeId)          // injector.getInstance could not build the class

  /** The built injector, seen only through getInstance: the classes it can
      build, each mapped to the name its instances report. Asking for any
      other class fails. */
  datatype Injector = Injector(buildable: map<TypeId, string>) {
    function GetInstance(cls: TypeId): Result<Instance, Error> {
      if cls in buildable then Success(Instance(cls, buildable[cls]))
      else Failure(InstantiationFailed(cls))
    }
  }

  /** One call made on the surroundings, in the order it was made. */
  datatype Event =
    | InjectorRequested(stage: Stage, modules: seq<ModuleId>)  // Guice.createInjector(stage, modules)
    | ProcessExited(status: int)                              // System.exit(status)
    | BundleAdded(bundle: Instance, configured: bool)         // bootstrap.addBundle(Bundle), or the ConfiguredBundle overload
    | ServletContainerReplaced                                // environment.jersey().replace(...)
    | FilterAdded(filterName: string, urlPattern: string)     // environment.servlets().addFilter(...)
    | EnvironmentDataSet(configuration: Option<ConfigurationValue>, environment: Option<EnvironmentValue>)
    | HealthCheckRegistered(checkName: string, check: Instance) // environment.healthChecks().register(...)
    | ClassRegistered(cls: TypeId)                            // environment.jersey().register(Class)
    | TaskAdded(task: Instance)                               // environment.admin().addTask(...)
    | ObjectManaged(managed: Instance)                        // environment.lifecycle().manage(...)

  /** The subsystem an event is addressed to. */
  datatype Sink = Guice | Process | BootstrapBundles | Jersey | Servlets | Holder | HealthCheckRegistry | Admin | Lifecycle

  function SinkOf(e: Event): Sink {
    match e
    case InjectorRequested(_, _) => Guice
    case ProcessExited(_) => Process
    case BundleAdded(_, _) => BootstrapBundles
    case ServletContainerReplaced => Jersey
    case FilterAdded(_, _) => Servlets
    case EnvironmentDataSet(_, _) => Holder
    case HealthCheckRegistered(_, _) => HealthCheckRegistry
    case ClassRegistered(_) => Jersey
    case TaskAdded(_) => Admin
    case ObjectManaged(_) => Lifecycle
  }

  /** The discovered class a registration event is about; None for the
      events that are not registrations of a discovered class. */
  function Subject(e: Event): Option<TypeId> {
    match e
    case BundleAdded(i, _) => Some(i.cls)
    case HealthCheckRegistered(_, i) => Some(i.cls)
    case ClassRegistered(c) => Some(c)
    case TaskAdded(i) => Some(i.cls)
    case ObjectManaged(i) => Some(i.cls)
    case _ => None
  }

  predicate IsRegistration(e: Event) {
    Subject(e).Some?
  }

  /** The Dropwizard host (bootstrap, environment and its registries), the
      Guice runtime and the process, as one object. Each call that changes
      them is appended to trace as one event (addFilter and its
      addMappingForUrlPatterns together make one); reads are not recorded.
      The trace also holds EnvironmentDataSet, the bundle's hand-over to its
      own environment module, so that its place among the host's calls can
      be stated. System.exit records its status. */
  class Host {
    var trace: seq<Event>
    var exitStatus: Option<int>

    constructor ()
      ensures trace == [] && exitStatus == None
    {
      trace := [];
      exitStatus := None;
    }

    /** Records a call that has no effect on the host beyond being made. */
    method Record(e: Event)
      modifies this
      ensures trace == old(trace) + [e] && exitStatus == old(exitStatus)
    {
      trace := trace + [e];
    }

    /** bootstrap.addBundle: configured tells the ConfiguredBundle overload
        from the Bundle one. */
    method AddBundle(bundle: Instance, configured: bool)
      modifies this
      ensures trace == old(trace) + [BundleAdded(bundle, configured)] && exitStatus == old(exitStatus)
    {
      Record(BundleAdded(bundle, configured));
    }

    method RegisterHealthCheck(name: string, check: Instance)
      modifies this
      ensures trace == old(trace) + [HealthCheckRegistered(name, check)] && exitStatus == old(exitStatus)
    {
      Record(HealthCheckRegistered(name, check));
    }

    method RegisterClass(cls: TypeId)
      modifies this
      ensures trace == old(trace) + [ClassRegistered(cls)] && exitStatus == old(exitStatus)
    {
      Record(ClassRegistered(cls));
    }

    method AddTask(task: Instance)
      modifies this
      ensures trace == old(trace) + [TaskAdded(task)] && exitStatus == old(exitStatus)
    {
      Record(TaskAdded(task));
    }

    method Manage(managed: Instance)
      modifies this
      ensures trace == old(trace) + [ObjectManaged(managed)] && exitStatus == old(exitStatus)
    {
      Record(ObjectManaged(managed));
    }

    /** System.exit: the process ends with the given status. */
    method Exit(status: int)
      modifies this
      ensures trace == old(trace) + [ProcessExited(status)] && exitStatus == Some(status)
    {
      trace := trace + [ProcessExited(status)];
      exitStatus := Some(status);
    }
  }
}
