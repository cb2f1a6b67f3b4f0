/**
 * The two precedence rules of the endpoint over its three ways of naming a
 * destination (a name, a destination object, a resolver):
 * `configureListenerContainer` tries name, object, resolver;
 * `createEndpointUri` tries object, name, resolver.
 * Both are stated against one reference definition, `FirstPresent`.
 */
module JmsPrecedence {
  import opened Wrappers
  import opened JmsDestinations

  /** One way of telling a consumer or a URI which destination is meant. */
  datatype DestinationSource =
    | ByName(name: string)
    | ByObject(destination: Destination)
    | ByResolver(resolver: Resolver)

  /** Reference definition of a precedence: the first configured candidate in order. */
  function FirstPresent<T>(candidates: seq<Option<T>>): (r: Option<T>)
    ensures r.None? <==> forall i :: 0 <= i < |candidates| ==> candidates[i].None?
    ensures forall i :: (0 <= i < |candidates| && candidates[i].Some? &&
                         (forall j :: 0 <= j < i ==> candidates[j].None?)) ==> r == candidates[i]
  {
    if |candidates| == 0 then None
    else if candidates[0].Some? then candidates[0]
    else FirstPresent(candidates[1..])
  }

  /**
   * Over three candidates, the first present one is the first if present,
   * else the second if present, else the third (which may be absent).
   */
  lemma FirstOfThree<T>(a: Option<T>, b: Option<T>, c: Option<T>)
    ensures FirstPresent([a, b, c]) == if a.Some? then a else if b.Some? then b else c
  {
    var s := [a, b, c];
    assert s[0] == a && s[1] == b && s[2] == c;
  }

  function NameSource(name: Option<string>): Option<DestinationSource> {
    if name.Some? then Some(ByName(name.value)) else None
  }

  function ObjectSource(destination: Option<Destination>): Option<DestinationSource> {
    if destination.Some? then Some(ByObject(destination.value)) else None
  }

  function ResolverSource(resolver: Option<Resolver>): Option<DestinationSource> {
    if resolver.Some? then Some(ByResolver(resolver.value)) else None
  }

  /** The order in which the listener container set-up looks at the three sources. */
  function ListenerOrder(name: Option<string>, destination: Option<Destination>, resolver: Option<Resolver>)
    : seq<Option<DestinationSource>>
  {
    [NameSource(name), ObjectSource(destination), ResolverSource(resolver)]
  }

  /** The order in which the endpoint URI derivation looks at the three sources. */
  function UriOrder(name: Option<string>, destination: Option<Destination>, resolver: Option<Resolver>)
    : seq<Option<DestinationSource>>
  {
    [ObjectSource(destination), NameSource(name), ResolverSource(resolver)]
  }

  /** A setter call made on a Spring message listener container. */
  datatype Setting =
    | SetDestinationName(name: string)
    | SetDestination(destination: Destination)
    | SetDestinationResolver(resolver: Resolver)
    | SetPubSubDomain(pubSubDomain: bool)

  /** The destination setter that hands a source to the listener container. */
  function SettingFor(s: DestinationSource): Setting {
    match s
    case ByName(n) => SetDestinationName(n)
    case ByObject(d) => SetDestination(d)
    case ByResolver(rv) => SetDestinationResolver(rv)
  }

  predicate IsDestinationSetting(s: Setting) {
    !s.SetPubSubDomain?
  }

  const NoDestinationMessage := "Neither destination, destinationName or destinationResolver are specified on this endpoint!"
  const NoMetadataTemplateMessage := "No Metadata JmsTemplate supplied!"
  const Scheme := "jms"

  /**
   * The setter calls `configureListenerContainer` makes, in order: one
   * destination setter for the first configured source in listener order,
   * then the pub-sub flag; or the IllegalArgumentException when no source
   * is configured, in which case no setter is called at all.
   */
  function ListenerSettings(name: Option<string>, destination: Option<Destination>,
                            resolver: Option<Resolver>, pubSubDomain: bool)
    : (r: Result<seq<Setting>, JmsError>)
    ensures r.Ok? <==> FirstPresent(ListenerOrder(name, destination, resolver)).Some?
    ensures r.Ok? ==>
      r.value == [SettingFor(FirstPresent(ListenerOrder(name, destination, resolver)).value),
                  SetPubSubDomain(pubSubDomain)]
    ensures r.Err? ==> r.error == IllegalArgument(NoDestinationMessage)
  {
    FirstOfThree(NameSource(name), ObjectSource(destination), ResolverSource(resolver));
    if name.Some? then
      Ok([SetDestinationName(name.value), SetPubSubDomain(pubSubDomain)])
    else if destination.Some? then
      Ok([SetDestination(destination.value), SetPubSubDomain(pubSubDomain)])
    else if resolver.Some? then
      Ok([SetDestinationResolver(resolver.value), SetPubSubDomain(pubSubDomain)])
    else
      Err(IllegalArgument(NoDestinationMessage))
  }

  /** What a source renders as after `jms:` in an endpoint URI. */
  function SourceText(s: DestinationSource): string {
    match s
    case ByName(n) => n
    case ByObject(d) => d.text
    case ByResolver(rv) => rv.text
  }

  /**
   * `createEndpointUri`: `jms:` followed by the first configured source in URI
   * order; with none configured, the URI the base endpoint class would make
   * (`inherited`).
   */
  function EndpointUri(name: Option<string>, destination: Option<Destination>,
                       resolver: Option<Resolver>, inherited: string): (r: string)
    ensures FirstPresent(UriOrder(name, destination, resolver)).Some? ==>
      r == Scheme + ":" + SourceText(FirstPresent(UriOrder(name, destination, resolver)).value)
    ensures FirstPresent(UriOrder(name, destination, resolver)).None? ==> r == inherited
  {
    FirstOfThree(ObjectSource(destination), NameSource(name), ResolverSource(resolver));
    if destination.Some? then Scheme + ":" + destination.value.text
    else if name.Some? then Scheme + ":" + name.value
    else if resolver.Some? then Scheme + ":" + resolver.value.text
    else inherited
  }

  /**
   * `getMetadataJmsOperations`: the template the configuration supplies, or
   * an IllegalArgumentException when it supplies none.
   */
  function MetadataJmsOperations<Ops>(supplied: Option<Ops>): (r: Result<Ops, JmsError>)
    ensures r.Ok? <==> supplied.Some?
    ensures r.Ok? ==> r.value == supplied.value
    ensures r.Err? ==> r.error == IllegalArgument(NoMetadataTemplateMessage)
  {
    if supplied.None? then Err(IllegalArgument(NoMetadataTemplateMessage)) else Ok(supplied.value)
  }

  /**
   * A configured destination name shadows the other two sources for the
   * listener container: the destination object and the resolver make no
   * difference, and the name is what the container receives.
   */
  lemma ListenerNameShadows(name: string, d1: Option<Destination>, d2: Option<Destination>,
                            r1: Option<Resolver>, r2: Option<Resolver>, pubSubDomain: bool)
    ensures ListenerSettings(Some(name), d1, r1, pubSubDomain) == ListenerSettings(Some(name), d2, r2, pubSubDomain)
    ensures ListenerSettings(Some(name), d1, r1, pubSubDomain).Ok?
    ensures forall s :: (s in ListenerSettings(Some(name), d1, r1, pubSubDomain).value &&
                         IsDestinationSetting(s)) ==> s == SetDestinationName(name)
  {
  }

  /**
   * Without a name, a configured destination object shadows the resolver:
   * the resolver is only handed over when both other sources are absent.
   */
  lemma ListenerObjectShadowsResolver(destination: Destination, r1: Option<Resolver>, r2: Option<Resolver>,
                                      pubSubDomain: bool)
    ensures ListenerSettings(None, Some(destination), r1, pubSubDomain)
         == ListenerSettings(None, Some(destination), r2, pubSubDomain)
    ensures ListenerSettings(None, Some(destination), r1, pubSubDomain).Ok?
    ensures forall s :: (s in ListenerSettings(None, Some(destination), r1, pubSubDomain).value &&
                         IsDestinationSetting(s)) ==> s == SetDestination(destination)
  {
  }

  /**
   * A successful set-up hands exactly one source to the container and ends
   * with the endpoint's pub-sub flag; a failed one calls no setter, so the
   * flag is not applied either. Set-up fails exactly when no source exists.
   */
  lemma ListenerSettingsShape(name: Option<string>, destination: Option<Destination>,
                              resolver: Option<Resolver>, pubSubDomain: bool)
    ensures ListenerSettings(name, destination, resolver, pubSubDomain).Err? <==>
              name.None? && destination.None? && resolver.None?
    ensures ListenerSettings(name, destination, resolver, pubSubDomain).Ok? ==>
              var applied := ListenerSettings(name, destination, resolver, pubSubDomain).value;
              |applied| == 2 && IsDestinationSetting(applied[0]) &&
              applied[1] == SetPubSubDomain(pubSubDomain) &&
              (applied[0].SetDestinationName? ==> name.Some?) &&
              (applied[0].SetDestination? ==> destination.Some?) &&
              (applied[0].SetDestinationResolver? ==> resolver.Some?)
  {
  }

  /**
   * In an endpoint URI, a configured destination object shadows the name
   * and the resolver; without one, the name shadows the resolver.
   */
  lemma UriPrecedence(name: Option<string>, destination: Option<Destination>,
                      resolver: Option<Resolver>, inherited: string)
    ensures destination.Some? ==>
              EndpointUri(name, destination, resolver, inherited) == Scheme + ":" + destination.value.text
    ensures destination.None? && name.Some? ==>
              EndpointUri(name, destination, resolver, inherited) == Scheme + ":" + name.value
    ensures destination.None? && name.None? && resolver.Some? ==>
              EndpointUri(name, destination, resolver, inherited) == Scheme + ":" + resolver.value.text
    ensures destination.None? && name.None? && resolver.None? ==>
              EndpointUri(name, destination, resolver, inherited) == inherited
  {
  }

  /**
   * Every URI the endpoint derives itself starts with `jms:`, and what follows
   * is the text of one of the configured sources.
   */
  lemma UriHasScheme(name: Option<string>, destination: Option<Destination>,
                     resolver: Option<Resolver>, inherited: string)
    requires name.Some? || destination.Some? || resolver.Some?
    ensures var uri := EndpointUri(name, destination, resolver, inherited);
            |uri| >= 4 && uri[..4] == Scheme + ":" &&
            ((destination.Some? && uri[4..] == destination.value.text) ||
             (name.Some? && uri[4..] == name.value) ||
             (resolver.Some? && uri[4..] == resolver.value.text))
  {
  }

  /**
   * The two precedences disagree: an endpoint with both a destination name and
   * a destination object gives its consumers the name, while its URI shows
   * the object.
   */
  lemma PrecedencesDisagree(name: string, destination: Destination, resolver: Option<Resolver>,
                            pubSubDomain: bool, inherited: string)
    ensures ListenerSettings(Some(name), Some(destination), resolver, pubSubDomain).value[0]
         == SetDestinationName(name)
    ensures EndpointUri(Some(name), Some(destination), resolver, inherited) == Scheme + ":" + destination.text
  {
  }
}
