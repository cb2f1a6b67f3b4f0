/**
 * The JMS endpoint object: its destination fields, the listener container
 * set-up it performs for consumers, and the objects it creates lazily on
 * first use (message binding, header filter strategy, requestor).
 */
module JmsEndpoint {
  import opened Wrappers
  import opened JmsDestinations
  import opened JmsPrecedence

  /** The part of the endpoint's JMS configuration this model reads. */
  datatype Configuration = Configuration(destinationResolver: Option<Resolver>)

  /** A freshly made configuration has no destination resolver. */
  const NewConfiguration := Configuration(None)

  /** The executor service the base endpoint class supplies to the requestor. */
  datatype Executor = Executor(id: nat)

  /** The processor a consumer hands received messages to. */
  datatype Processor = Processor(id: nat)

  /** The converter between Camel and JMS messages; it belongs to one endpoint. */
  class Binding {
    const endpoint: Endpoint

    constructor (endpoint: Endpoint)
      ensures this.endpoint == endpoint
    {
      this.endpoint := endpoint;
    }
  }

  /** The strategy deciding which headers cross between Camel and JMS. */
  class HeaderFilterStrategy {
    constructor ()
    {
    }
  }

  /**
   * The request/reply correlation engine, seen from the endpoint: it is
   * built from the configuration and an executor, and it is started.
   * `startCalls` counts how often `start()` has been called on it.
   */
  class Requestor {
    const configuration: Configuration
    const executor: Executor
    ghost var startCalls: nat

    constructor (configuration: Configuration, executor: Executor)
      ensures this.configuration == configuration && this.executor == executor
      ensures startCalls == 0
    {
      this.configuration := configuration;
      this.executor := executor;
      startCalls := 0;
    }

    /**
     * `start()`, which may throw; `failure` is what the requestor's own start-up
     * (not part of this model) throws, if anything.
     */
    method Start(failure: Option<JmsError>) returns (r: Result<(), JmsError>)
      modifies this
      ensures startCalls == old(startCalls) + 1
      ensures r == if failure.Some? then Err(failure.value) else Ok(())
    {
      startCalls := startCalls + 1;
      r := if failure.Some? then Err(failure.value) else Ok(());
    }
  }

  /** A Spring message listener container, recorded as the setter calls made on it. */
  class ListenerContainer {
    var applied: seq<Setting>

    constructor ()
      ensures applied == []
    {
      applied := [];
    }

    method Apply(s: Setting)
      modifies this
      ensures applied == old(applied) + [s]
    {
      applied := applied + [s];
    }
  }

  /** A consumer: the processor and the listener container configured for it. */
  datatype Consumer = Consumer(endpoint: Endpoint, processor: Processor, listener: ListenerContainer)

  class Endpoint {
    var endpointUri: Option<string>
    var pubSubDomain: bool
    var destinationName: Option<string>
    var destination: Option<Destination>
    var configuration: Configuration
    var binding: Binding?
    var headerFilterStrategy: HeaderFilterStrategy?
    var requestor: Requestor?

    /** The endpoint with no URI and no destination name: the two-argument form with two nulls. */
    constructor ()
      ensures endpointUri.None? && destinationName.None? && destination.None? && pubSubDomain
      ensures configuration == NewConfiguration
      ensures binding != null && fresh(binding) && binding.endpoint == this
      ensures headerFilterStrategy == null && requestor == null
    {
      endpointUri, pubSubDomain := None, true;
      destinationName, destination := None, None;
      configuration := NewConfiguration;
      headerFilterStrategy, requestor := null, null;
      new;
      binding := new Binding(this);
    }

    /** The endpoint for a topic: URI `jms:topic:<name>`, the topic as its destination, pub-sub. */
    constructor ForTopic(topic: Destination)
      requires InstanceOf(topic, TopicType)
      ensures endpointUri == Some("jms:topic:" + topic.topicName)
      ensures destination == Some(topic) && destinationName.None? && pubSubDomain
      ensures configuration == NewConfiguration
      ensures binding != null && fresh(binding) && binding.endpoint == this
      ensures headerFilterStrategy == null && requestor == null
    {
      endpointUri, pubSubDomain := Some("jms:topic:" + topic.topicName), true;
      destinationName, destination := None, Some(topic);
      configuration := NewConfiguration;
      headerFilterStrategy, requestor := null, null;
      new;
      binding := new Binding(this);
    }

    /** The endpoint a component creates, with the component's configuration; no binding yet. */
    constructor ForComponent(uri: Option<string>, destinationName: Option<string>, pubSubDomain: bool,
                             configuration: Configuration)
      ensures endpointUri == uri && this.destinationName == destinationName
      ensures this.pubSubDomain == pubSubDomain && this.configuration == configuration
      ensures destination.None? && binding == null
      ensures headerFilterStrategy == null && requestor == null
    {
      endpointUri, this.pubSubDomain := uri, pubSubDomain;
      this.destinationName, destination := destinationName, None;
      this.configuration := configuration;
      binding, headerFilterStrategy, requestor := null, null, null;
    }

    /** The endpoint with a given (possibly absent) binding and configuration. */
    constructor WithBinding(uri: Option<string>, binding: Binding?, configuration: Configuration,
                            destinationName: Option<string>, pubSubDomain: bool)
      ensures endpointUri == uri && this.binding == binding && this.configuration == configuration
      ensures this.destinationName == destinationName && this.pubSubDomain == pubSubDomain
      ensures destination.None? && headerFilterStrategy == null && requestor == null
    {
      endpointUri, this.binding, this.configuration := uri, binding, configuration;
      this.destinationName, this.pubSubDomain := destinationName, pubSubDomain;
      destination, headerFilterStrategy, requestor := None, null, null;
    }

    /** The endpoint with a new configuration and a binding of its own. */
    constructor WithDestinationName(uri: Option<string>, destinationName: Option<string>, pubSubDomain: bool)
      ensures endpointUri == uri && this.destinationName == destinationName
      ensures this.pubSubDomain == pubSubDomain && configuration == NewConfiguration
      ensures destination.None? && binding != null && fresh(binding) && binding.endpoint == this
      ensures headerFilterStrategy == null && requestor == null
    {
      endpointUri, this.destinationName, this.pubSubDomain := uri, destinationName, pubSubDomain;
      configuration, destination := NewConfiguration, None;
      headerFilterStrategy, requestor := null, null;
      new;
      binding := new Binding(this);
    }

    /** The two-argument form: a pub-sub endpoint with a new configuration and its own binding. */
    constructor ForDestinationName(uri: Option<string>, destinationName: Option<string>)
      ensures endpointUri == uri && this.destinationName == destinationName && pubSubDomain
      ensures configuration == NewConfiguration
      ensures destination.None? && binding != null && fresh(binding) && binding.endpoint == this
      ensures headerFilterStrategy == null && requestor == null
    {
      endpointUri, this.destinationName, pubSubDomain := uri, destinationName, true;
      configuration, destination := NewConfiguration, None;
      headerFilterStrategy, requestor := null, null;
      new;
      binding := new Binding(this);
    }

    method SetDestinationName(name: Option<string>)
      modifies this`destinationName
      ensures destinationName == name
    {
      destinationName := name;
    }

    method SetDestination(d: Option<Destination>)
      modifies this`destination
      ensures destination == d
    {
      destination := d;
    }

    /** The resolver is kept in the configuration. */
    method SetDestinationResolver(resolver: Option<Resolver>)
      modifies this`configuration
      ensures configuration == old(configuration).(destinationResolver := resolver)
    {
      configuration := configuration.(destinationResolver := resolver);
    }

    method SetBinding(b: Binding?)
      modifies this`binding
      ensures binding == b
    {
      binding := b;
    }

    method SetHeaderFilterStrategy(strategy: HeaderFilterStrategy?)
      modifies this`headerFilterStrategy
      ensures headerFilterStrategy == strategy
    {
      headerFilterStrategy := strategy;
    }

    method SetRequestor(r: Requestor?)
      modifies this`requestor
      ensures requestor == r
    {
      requestor := r;
    }

    /**
     * Hands the listener container the first configured destination source
     * (name, then object, then resolver) and then the pub-sub flag; with no
     * source, fails and leaves the container untouched.
     */
    method ConfigureListenerContainer(listener: ListenerContainer) returns (r: Result<(), JmsError>)
      modifies listener
      ensures match ListenerSettings(destinationName, destination, configuration.destinationResolver, pubSubDomain)
              case Ok(settings) => r == Ok(()) && listener.applied == old(listener.applied) + settings
              case Err(e) => r == Err(e) && listener.applied == old(listener.applied)
    {
      var resolver := configuration.destinationResolver;
      if destinationName.Some? {
        listener.Apply(Setting.SetDestinationName(destinationName.value));
      } else if destination.Some? {
        listener.Apply(Setting.SetDestination(destination.value));
      } else if resolver.Some? {
        listener.Apply(Setting.SetDestinationResolver(resolver.value));
      } else {
        return Err(IllegalArgument(NoDestinationMessage));
      }
      listener.Apply(SetPubSubDomain(pubSubDomain));
      r := Ok(());
    }

    /** Configures the listener container and wraps it in a consumer; no consumer if that fails. */
    method CreateConsumer(processor: Processor, listener: ListenerContainer) returns (r: Result<Consumer, JmsError>)
      modifies listener
      ensures match ListenerSettings(destinationName, destination, configuration.destinationResolver, pubSubDomain)
              case Ok(settings) =>
                r == Ok(Consumer(this, processor, listener)) && listener.applied == old(listener.applied) + settings
              case Err(e) => r == Err(e) && listener.applied == old(listener.applied)
    {
      var outcome := ConfigureListenerContainer(listener);
      if outcome.Err? {
        return Err(outcome.error);
      }
      r := Ok(Consumer(this, processor, listener));
    }

    /**
     * The URI this endpoint derives for itself from its own fields; `inherited`
     * is the base class's URI.
     */
    function CreateEndpointUri(inherited: string): (r: string)
      reads this
      ensures destination.Some? ==> r == Scheme + ":" + destination.value.text
      ensures destination.None? && destinationName.Some? ==> r == Scheme + ":" + destinationName.value
      ensures destination.None? && destinationName.None? && configuration.destinationResolver.Some? ==>
                r == Scheme + ":" + configuration.destinationResolver.value.text
      ensures destination.None? && destinationName.None? && configuration.destinationResolver.None? ==>
                r == inherited
    {
      UriPrecedence(destinationName, destination, configuration.destinationResolver, inherited);
      EndpointUri(destinationName, destination, configuration.destinationResolver, inherited)
    }

    /** Creates the header filter strategy on the first call; returns the same one afterwards. */
    method GetHeaderFilterStrategy() returns (s: HeaderFilterStrategy)
      modifies this`headerFilterStrategy
      ensures old(headerFilterStrategy) == null ==> fresh(s)
      ensures old(headerFilterStrategy) != null ==> s == old(headerFilterStrategy)
      ensures headerFilterStrategy == s
    {
      if headerFilterStrategy == null {
        headerFilterStrategy := new HeaderFilterStrategy();
      }
      s := headerFilterStrategy;
    }

    /** Creates this endpoint's binding on the first call; returns the same one afterwards. */
    method GetBinding() returns (b: Binding)
      modifies this`binding
      ensures old(binding) == null ==> fresh(b) && b.endpoint == this
      ensures old(binding) != null ==> b == old(binding)
      ensures binding == b
    {
      if binding == null {
        binding := new Binding(this);
      }
      b := binding;
    }

    /**
     * On the first call, creates the requestor, stores it and then starts it;
     * if starting throws (`startFailure`), the error is returned but the
     * requestor stays stored. Later calls return the stored requestor without
     * starting it again.
     */
    method GetRequestor(executor: Executor, startFailure: Option<JmsError>) returns (r: Result<Requestor, JmsError>)
      modifies this`requestor
      ensures requestor != null
      ensures old(requestor) == null ==>
                fresh(requestor) && requestor.startCalls == 1 &&
                requestor.configuration == configuration && requestor.executor == executor &&
                r == (if startFailure.Some? then Err(startFailure.value) else Ok(requestor))
      ensures old(requestor) != null ==>
                requestor == old(requestor) && r == Ok(requestor) && requestor.startCalls == old(requestor.startCalls)
    {
      if requestor == null {
        requestor := new Requestor(configuration, executor);
        var started := requestor.Start(startFailure);
        if started.Err? {
          return Err(started.error);
        }
      }
      r := Ok(requestor);
    }
  }

  /**
   * Two calls of `GetRequestor` on an endpoint that has none yet create one
   * requestor and start it exactly once, whether or not that start threw:
   * the second call returns the stored requestor.
   */
  method RequestorCreatedOnce(e: Endpoint, executor: Executor, startFailure: Option<JmsError>)
    returns (first: Result<Requestor, JmsError>, second: Result<Requestor, JmsError>)
    requires e.requestor == null
    modifies e`requestor
    ensures e.requestor != null && fresh(e.requestor) && e.requestor.startCalls == 1
    ensures second == Ok(e.requestor)
    ensures first == if startFailure.Some? then Err(startFailure.value) else second
  {
    first := e.GetRequestor(executor, startFailure);
    second := e.GetRequestor(executor, None);
  }

  /**
   * `newInstance` for a topic: the endpoint the topic constructor builds,
   * for a destination `NewInstance` sends to the topic endpoint class.
   */
  method NewTopicEndpoint(d: Destination) returns (e: Endpoint)
    requires NewInstance(d) == Ok(TopicEndpoint(d))
    ensures fresh(e) && e.endpointUri == Some("jms:topic:" + d.topicName)
    ensures e.destination == Some(d) && e.destinationName.None? && e.pubSubDomain
  {
    e := new Endpoint.ForTopic(d);
  }

  /**
   * On one endpoint with both a destination name and a destination object,
   * consumers are given the name while the endpoint's URI shows the object.
   */
  method NameAndObjectConfigured(e: Endpoint, listener: ListenerContainer, inherited: string)
    returns (r: Result<(), JmsError>, uri: string)
    requires e.destinationName.Some? && e.destination.Some?
    modifies listener
    ensures r == Ok(())
    ensures listener.applied == old(listener.applied) +
              [Setting.SetDestinationName(e.destinationName.value), SetPubSubDomain(e.pubSubDomain)]
    ensures uri == Scheme + ":" + e.destination.value.text
  {
    r := e.ConfigureListenerContainer(listener);
    uri := e.CreateEndpointUri(inherited);
  }
}
