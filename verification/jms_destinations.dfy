/**
 * JMS destinations as the endpoint sees them, and the dispatch of
 * `JmsEndpoint.newInstance(Destination)` onto the endpoint class that
 * handles each kind of destination.
 */
module JmsDestinations {
  import opened Wrappers

  /**
   * A JMS destination object. The provider's object is opaque; what the
   * endpoint reads of it is its JMS interface type, its queue or topic name,
   * and `text`, what its `toString()` renders.
   * `TemporaryQueue` is also a `Queue` and `TemporaryTopic` also a `Topic`
   * (see `InstanceOf`); `Other` is a destination implementing neither.
   */
  datatype Destination =
    | TemporaryQueue(queueName: string, text: string)
    | TemporaryTopic(topicName: string, text: string)
    | Queue(queueName: string, text: string)
    | Topic(topicName: string, text: string)
    | Other(text: string)

  /** A destination resolver object; `text` is what its `toString()` renders. */
  datatype Resolver = Resolver(text: string)

  /** The JMS interfaces a destination may implement. */
  datatype JmsType = DestinationType | QueueType | TopicType | TemporaryQueueType | TemporaryTopicType

  /** The JMS interface hierarchy: `sub` is `sup` or extends it. */
  predicate Extends(sub: JmsType, sup: JmsType) {
    sub == sup || sup == DestinationType ||
    (sub == TemporaryQueueType && sup == QueueType) ||
    (sub == TemporaryTopicType && sup == TopicType)
  }

  /** Java's `d instanceof t`. */
  predicate InstanceOf(d: Destination, t: JmsType) {
    match d
    case TemporaryQueue(_, _) => Extends(TemporaryQueueType, t)
    case TemporaryTopic(_, _) => Extends(TemporaryTopicType, t)
    case Queue(_, _) => Extends(QueueType, t)
    case Topic(_, _) => Extends(TopicType, t)
    case Other(_) => t == DestinationType
  }

  /** The endpoint classes `newInstance` chooses between, each holding its destination. */
  datatype EndpointClass =
    | TemporaryQueueEndpoint(destination: Destination)
    | TemporaryTopicEndpoint(destination: Destination)
    | QueueEndpoint(destination: Destination)
    | TopicEndpoint(destination: Destination)

  /** The JMS type the constructor of each endpoint class takes. */
  function Accepts(k: EndpointClass): JmsType {
    match k
    case TemporaryQueueEndpoint(_) => TemporaryQueueType
    case TemporaryTopicEndpoint(_) => TemporaryTopicType
    case QueueEndpoint(_) => QueueType
    case TopicEndpoint(_) => TopicType
  }

  /** Failures of the endpoint operations in this model. */
  datatype JmsError =
    | IllegalArgument(message: string)
    | ClassCast
    | StartFailed(cause: string)

  /**
   * `newInstance(Destination)`: temporary queues and temporary topics are
   * tested before queues, and every other destination is cast to `Topic`,
   * which fails for a destination that is not one.
   * The chosen class takes the most specific JMS type the destination has,
   * and a destination that is neither a queue nor a topic is refused.
   */
  function NewInstance(d: Destination): (r: Result<EndpointClass, JmsError>)
    ensures r.Ok? ==> r.value.destination == d && InstanceOf(d, Accepts(r.value))
    ensures r.Ok? ==> forall t :: InstanceOf(d, t) ==> Extends(Accepts(r.value), t)
    ensures r.Err? <==> !InstanceOf(d, QueueType) && !InstanceOf(d, TopicType)
    ensures r.Err? ==> r.error == ClassCast
  {
    if InstanceOf(d, TemporaryQueueType) then Ok(TemporaryQueueEndpoint(d))
    else if InstanceOf(d, TemporaryTopicType) then Ok(TemporaryTopicEndpoint(d))
    else if InstanceOf(d, QueueType) then Ok(QueueEndpoint(d))
    else if InstanceOf(d, TopicType) then Ok(TopicEndpoint(d))
    else Err(ClassCast)
  }
}
