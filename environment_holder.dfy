/** The Guice module that exposes Dropwizard's configuration and environment
    to the injector before they exist: it is bound while the application
    bootstraps and filled in only when the application runs. */
module EnvironmentHolder {
  import opened Wrappers
  import opened Runtime

  /** The message of every read made before the data is set. */
  const ILLEGAL_DROPWIZARD_MODULE_STATE: string :=
    "The dropwizard environment has not yet been set. This is likely caused by trying to access the dropwizard environment during the bootstrap phase."

  class DropwizardEnvironmentModule {
    /** The two nullable slots; None stands for Java's null. */
    var configuration: Option<ConfigurationValue>
    var environment: Option<EnvironmentValue>
    const configurationClass: TypeId

    constructor (configurationClass: TypeId)
      ensures this.configurationClass == configurationClass
      ensures configuration.None? && environment.None?
    {
      this.configurationClass := configurationClass;
      configuration := None;
      environment := None;
    }

    /** configure(): the keys bound to the configuration provider, in the
        order they are bound. The chosen class is always bound, and
        Configuration is bound as well unless it is the chosen class, so no
        key is bound twice. */
    function Configure(): (keys: seq<TypeId>)
      ensures |keys| > 0 && keys[0] == configurationClass
      ensures forall k :: k in keys <==> k == configurationClass || k == CONFIGURATION_TYPE
      ensures forall i, j :: 0 <= i < j < |keys| ==> keys[i] != keys[j]
      ensures |keys| == if configurationClass == CONFIGURATION_TYPE then 1 else 2
    {
      [configurationClass] + if configurationClass != CONFIGURATION_TYPE then [CONFIGURATION_TYPE] else []
    }

    /** setEnvironmentData overwrites both slots, null included. */
    method SetEnvironmentData(configuration: Option<ConfigurationValue>, environment: Option<EnvironmentValue>)
      modifies this
      ensures this.configuration == configuration && this.environment == environment
    {
      this.configuration := configuration;
      this.environment := environment;
    }

    /** providesEnvironment(): the stored environment, or a
        ProvisionException with the fixed message while the slot is null. */
    method ProvidesEnvironment() returns (r: Result<EnvironmentValue, Error>)
      ensures r.Success? <==> environment.Some?
      ensures r.Success? ==> r.value == environment.value
      ensures r.Failure? ==> r.error == Provision(ILLEGAL_DROPWIZARD_MODULE_STATE)
    {
      if environment.None? {
        return Failure(Provision(ILLEGAL_DROPWIZARD_MODULE_STATE));
      }
      return Success(environment.value);
    }

    /** CustomConfigurationProvider.get(): the provider is an inner class
        that only reads this module's configuration slot, so it is modelled
        as a method of the module. */
    method ProvideConfiguration() returns (r: Result<ConfigurationValue, Error>)
      ensures r.Success? <==> configuration.Some?
      ensures r.Success? ==> r.value == configuration.value
      ensures r.Failure? ==> r.error == Provision(ILLEGAL_DROPWIZARD_MODULE_STATE)
    {
      if configuration.None? {
        return Failure(Provision(ILLEGAL_DROPWIZARD_MODULE_STATE));
      }
      return Success(configuration.value);
    }
  }

  /** After setEnvironmentData, both reads return exactly what was stored,
      and a stored null still reads as the provision failure. */
  method SetThenRead(m: DropwizardEnvironmentModule, c: Option<ConfigurationValue>, e: Option<EnvironmentValue>)
    returns (env: Result<EnvironmentValue, Error>, conf: Result<ConfigurationValue, Error>)
    modifies m
    ensures env == if e.Some? then Success(e.value) else Failure(Provision(ILLEGAL_DROPWIZARD_MODULE_STATE))
    ensures conf == if c.Some? then Success(c.value) else Failure(Provision(ILLEGAL_DROPWIZARD_MODULE_STATE))
  {
    m.SetEnvironmentData(c, e);
    env := m.ProvidesEnvironment();
    conf := m.ProvideConfiguration();
  }
}
