# JMS endpoint: destination selection, URI derivation and lazy collaborators

This project models the decision and lifecycle logic of Apache Camel's JMS
endpoint (`JmsEndpoint`), the object that ties a Camel route to a JMS queue or
topic and creates consumers, producers and the request/reply requestor for it.
The model covers:

- how the endpoint tells a Spring message listener container which destination
  to consume from: a destination name wins over a destination object, which
  wins over a destination resolver; with none of them configuration fails with
  an `IllegalArgumentException`; on success the pub-sub flag is applied last;
- how the endpoint derives its own URI: `jms:` followed by the destination
  object, else the name, else the resolver, else the base class's URI (note
  the different order from the listener set-up);
- how `newInstance(Destination)` picks the endpoint class for a destination:
  temporary queue and temporary topic before queue, everything else cast to a
  topic;
- the endpoint's constructors, including the topic constructor's
  `jms:topic:<name>` URI;
- the lazily created message binding, header filter strategy and requestor,
  each made on first use and shared afterwards, the requestor started once.

Both precedences are proved against one reference definition, `FirstPresent`
(the first configured candidate in a fixed order).

Modules: `Wrappers` (Option, Result), `JmsDestinations` (destination kinds, the
JMS interface hierarchy, `NewInstance`), `JmsPrecedence` (listener set-up, URI
derivation, metadata template check and their lemmas), `JmsEndpoint` (the
`Endpoint` class and the collaborator objects it creates).

External objects are opaque values: a JMS destination carries its interface
type, its queue or topic name and the text its `toString()` renders; a
destination resolver carries that text; the listener container is recorded as
the sequence of setter calls made on it. The base endpoint class's own URI
(`super.createEndpointUri()`) and its scheduled executor service are
parameters. What the configuration object's `getMetadataJmsOperations` returns
is a parameter of `MetadataJmsOperations`.

## Model

| member | source | states |
|---|---|---|
| JmsDestinations.NewInstance | components/camel-jms/src/main/java/org/apache/camel/component/jms/JmsEndpoint.java:117-129 | the chosen endpoint class holds the destination and takes the most specific JMS type the destination implements (temporary queue/topic before queue, then topic); a destination that is neither a queue nor a topic fails the cast |
| JmsPrecedence.FirstPresent | components/camel-jms/src/main/java/org/apache/camel/component/jms/JmsEndpoint.java:144-156 | reference definition of a precedence: the result is absent exactly when every candidate is, and otherwise is the candidate at the first configured position |
| JmsPrecedence.FirstOfThree | components/camel-jms/src/main/java/org/apache/camel/component/jms/JmsEndpoint.java:145-152 | over three candidates the first configured one is found by testing them in order, as the source's if/else chains do |
| JmsPrecedence.ListenerSettings | components/camel-jms/src/main/java/org/apache/camel/component/jms/JmsEndpoint.java:144-158 | set-up succeeds exactly when some source is configured; it then makes the destination setter call for the first source in name, object, resolver order followed by `setPubSubDomain(pubSubDomain)`; otherwise it fails with the source's IllegalArgumentException message |
| JmsPrecedence.ListenerNameShadows | components/camel-jms/src/main/java/org/apache/camel/component/jms/JmsEndpoint.java:145-146 | with a destination name, the destination object and the resolver make no difference, and the only destination setter applied is `setDestinationName(name)` |
| JmsPrecedence.ListenerObjectShadowsResolver | components/camel-jms/src/main/java/org/apache/camel/component/jms/JmsEndpoint.java:147-152 | with no name and a destination object, the resolver makes no difference, and the only destination setter applied is `setDestination(destination)` |
| JmsPrecedence.ListenerSettingsShape | components/camel-jms/src/main/java/org/apache/camel/component/jms/JmsEndpoint.java:144-158 | set-up fails exactly when name, object and resolver are all absent; a success applies one destination setter for a configured source and then the endpoint's pub-sub flag; a failure applies nothing, not even the flag |
| JmsPrecedence.EndpointUri | components/camel-jms/src/main/java/org/apache/camel/component/jms/JmsEndpoint.java:870-883 | the URI is `jms:` followed by the text of the first configured source in object, name, resolver order, or the base class's URI when none is configured |
| JmsPrecedence.UriPrecedence | components/camel-jms/src/main/java/org/apache/camel/component/jms/JmsEndpoint.java:873-882 | case by case: a destination object gives `jms:<object>`, else a name gives `jms:<name>`, else a resolver gives `jms:<resolver>`, else the base class's URI |
| JmsPrecedence.UriHasScheme | components/camel-jms/src/main/java/org/apache/camel/component/jms/JmsEndpoint.java:872-881 | whenever some source is configured the URI starts with `jms:` and the rest is the text of a configured source |
| JmsPrecedence.PrecedencesDisagree | components/camel-jms/src/main/java/org/apache/camel/component/jms/JmsEndpoint.java:144-148 | an endpoint with both a name and a destination object gives consumers the name while its URI (lines 873-876) shows the object |
| JmsPrecedence.MetadataJmsOperations | components/camel-jms/src/main/java/org/apache/camel/component/jms/JmsEndpoint.java:334-340 | the supplied template is returned when there is one; otherwise an IllegalArgumentException with the source's message |
| JmsEndpoint.Endpoint.constructor | components/camel-jms/src/main/java/org/apache/camel/component/jms/JmsEndpoint.java:66-68 | no URI, no destination, pub-sub, a new configuration and a fresh binding for this endpoint |
| JmsEndpoint.Endpoint.ForTopic | components/camel-jms/src/main/java/org/apache/camel/component/jms/JmsEndpoint.java:70-73 | URI `jms:topic:` plus the topic name, the topic as destination, no destination name, pub-sub, a fresh binding |
| JmsEndpoint.Endpoint.ForComponent | components/camel-jms/src/main/java/org/apache/camel/component/jms/JmsEndpoint.java:75-80 | URI, destination name, pub-sub flag and configuration as given; no destination object and no binding yet |
| JmsEndpoint.Endpoint.WithBinding | components/camel-jms/src/main/java/org/apache/camel/component/jms/JmsEndpoint.java:82-88 | URI, binding, configuration, destination name and pub-sub flag as given |
| JmsEndpoint.Endpoint.WithDestinationName | components/camel-jms/src/main/java/org/apache/camel/component/jms/JmsEndpoint.java:90-93 | URI, name and flag as given, a new configuration and a fresh binding for this endpoint |
| JmsEndpoint.Endpoint.ForDestinationName | components/camel-jms/src/main/java/org/apache/camel/component/jms/JmsEndpoint.java:98-100 | URI and name as given, pub-sub, a new configuration and a fresh binding for this endpoint |
| JmsEndpoint.Endpoint.SetDestinationName | components/camel-jms/src/main/java/org/apache/camel/component/jms/JmsEndpoint.java:244-246 | only the destination name changes |
| JmsEndpoint.Endpoint.SetDestination | components/camel-jms/src/main/java/org/apache/camel/component/jms/JmsEndpoint.java:255-257 | only the destination object changes |
| JmsEndpoint.Endpoint.SetDestinationResolver | components/camel-jms/src/main/java/org/apache/camel/component/jms/JmsEndpoint.java:638-640 | only the configuration's resolver changes |
| JmsEndpoint.Endpoint.SetBinding | components/camel-jms/src/main/java/org/apache/camel/component/jms/JmsEndpoint.java:236-238 | only the binding changes |
| JmsEndpoint.Endpoint.SetHeaderFilterStrategy | components/camel-jms/src/main/java/org/apache/camel/component/jms/JmsEndpoint.java:219-221 | only the header filter strategy changes |
| JmsEndpoint.Endpoint.SetRequestor | components/camel-jms/src/main/java/org/apache/camel/component/jms/JmsEndpoint.java:291-293 | only the requestor changes |
| JmsEndpoint.Endpoint.ConfigureListenerContainer | components/camel-jms/src/main/java/org/apache/camel/component/jms/JmsEndpoint.java:144-158 | the container receives exactly the setter calls `ListenerSettings` prescribes for the endpoint's current name, object, resolver and flag; on failure it is left untouched and the IllegalArgumentException is returned |
| JmsEndpoint.Endpoint.CreateEndpointUri | components/camel-jms/src/main/java/org/apache/camel/component/jms/JmsEndpoint.java:870-883 | on the endpoint's own fields: `jms:` and the destination object's text if it has one, else `jms:` and its name, else `jms:` and its configuration's resolver's text, else the base class's URI |
| JmsEndpoint.Endpoint.CreateConsumer | components/camel-jms/src/main/java/org/apache/camel/component/jms/JmsEndpoint.java:168-171 | a consumer over the processor and the configured container exactly when set-up succeeds; the set-up error otherwise |
| JmsEndpoint.Endpoint.GetHeaderFilterStrategy | components/camel-jms/src/main/java/org/apache/camel/component/jms/JmsEndpoint.java:212-217 | the first call stores and returns a new strategy; later calls return the stored one |
| JmsEndpoint.Endpoint.GetBinding | components/camel-jms/src/main/java/org/apache/camel/component/jms/JmsEndpoint.java:223-228 | the first call stores and returns a new binding for this endpoint; later calls return the stored one |
| JmsEndpoint.Endpoint.GetRequestor | components/camel-jms/src/main/java/org/apache/camel/component/jms/JmsEndpoint.java:283-289 | the first call creates a requestor from the endpoint's configuration and the executor, stores it and then starts it once; if that start throws, the error is returned and the requestor stays stored; later calls return the stored requestor without starting it again |
| JmsEndpoint.RequestorCreatedOnce | components/camel-jms/src/main/java/org/apache/camel/component/jms/JmsEndpoint.java:283-289 | two calls on an endpoint without a requestor create one new requestor and start it exactly once; the second call returns it even when the first call's start threw |
| JmsEndpoint.NewTopicEndpoint | components/camel-jms/src/main/java/org/apache/camel/component/jms/JmsEndpoint.java:126-128 | a destination that `NewInstance` sends to the topic endpoint class gets a new endpoint with URI `jms:topic:` plus the topic name, the topic as destination, and pub-sub |
| JmsEndpoint.NameAndObjectConfigured | components/camel-jms/src/main/java/org/apache/camel/component/jms/JmsEndpoint.java:144-158 | on one endpoint with both a name and a destination object, the listener container receives `setDestinationName` and the pub-sub flag, while `CreateEndpointUri` (lines 873-874) gives `jms:` and the object's text |

## Left out

- The delegated getters and setters (lines 342-854) other than `setDestinationResolver`: they only forward to the configuration object, which is not part of this model.
- `createProducer`, `createPollingConsumer`, `createInOnlyTemplate`, `createInOutTemplate`, `createMessageListenerContainer` and `createConsumer(Processor)`: thin wrappers over the configuration object and Spring JMS, which are not part of this model. `CreateConsumer` takes the listener container the configuration would create as a parameter.
- The requestor itself (pending requests, correlation, timeouts, purging): its class is not part of this model. `Start` counts how often it is called, and whether it throws is a parameter.
- The `synchronized` on `getRequestor`: the lazy initialisation is modelled sequentially; mutual exclusion between threads is not.
- `getTemporaryQueueType`, `getTemporaryTopicType`, `getProviderMetadata`: reflection over provider classes.
- `newInstance(Destination, JmsComponent)`, `createExchange`, `getCamelId`, `getManagedObject`, `isSingleton` and the JMX annotations: configuration copying, foreign object construction and management concerns.
- The subclasses for temporary queues, temporary topics and queues are not part of this model: `NewInstance` names the class it would construct, and only the topic case is followed into a constructor (`NewTopicEndpoint` calls `ForTopic`).
- `Destination` gives each destination exactly one JMS interface chain: a provider object implementing several of Queue, Topic, TemporaryQueue and TemporaryTopic cannot be represented; for such an object the source's test order (lines 118-128) alone decides the class.
- The endpoint's `JmsComponent` reference kept by the base class and the selector field: stored and never read by the modelled logic.
- A new `JmsConfiguration` is taken to have no destination resolver; that class is not part of this model.
- The configuration is a value here: sharing one configuration object between endpoints (aliasing) is not captured.
- `null` arguments where Java would throw `NullPointerException`: every destination argument in the model is present (no `newInstance(null)`, no null topic), and so is every configuration. The constructors at lines 75-88 accept a null `JmsConfiguration`, and with one, `configureListenerContainer` (line 150) and `createEndpointUri` (line 878) throw `NullPointerException` whenever name and destination object are both absent; `Configuration` is a value here and cannot be absent.
- CreateConsumer: the `JmsConsumer` constructor is not part of this model; `Consumer` is a plain record, and calls that constructor may make on the listener container are not recorded, so the container's setter log in its contract is what the set-up appends.
- The `JMSException` that `getTopicName()` may throw: provider behaviour.
