/**
 * The records of types.go: the decoded notification (Message and the two
 * structs it nests), the Controller that holds the compute client, and
 * newController's three-step startup with its region default.
 */
module Types {
  import opened Wrappers

  /** A Go `error` value; only its text is kept. */
  datatype Error = Error(message: string)

  /** `FloatingIPUpdatEvent`: the two addresses of a floating-IP record. */
  datatype FloatingIPUpdateEvent = FloatingIPUpdateEvent(floatingIPAddress: string, fixedIPAddress: string)

  /** `FloatingIPPayLoad`: the payload holds exactly one floating-IP record. */
  datatype FloatingIPPayload = FloatingIPPayload(floatingIP: FloatingIPUpdateEvent)

  /** `Message`: an event type and its payload; no other field of the notification is read. */
  datatype Message = Message(eventType: string, payload: FloatingIPPayload)

  /** `Controller`: a handle on the compute client of type C, never changed after startup. */
  datatype Controller<C> = Controller(computeClient: C)

  /** The endpoint options handed to the compute-client constructor. */
  datatype EndpointOpts = EndpointOpts(region: string)

  const DefaultRegion: string := "RegionOne"

  /** The region used for the compute endpoint, given the value of OS_REGION_NAME. */
  function Region(osRegionName: string): (region: string)
    ensures region != ""
    ensures osRegionName != "" ==> region == osRegionName
    ensures osRegionName == "" ==> region == DefaultRegion
  {
    if osRegionName == "" then DefaultRegion else osRegionName
  }

  /**
   * `newController`. The three remote steps are parameters: the result of
   * reading the authentication options, the authentication call and the
   * compute-client constructor. Each failing step returns its error and no
   * controller; the remaining steps are not called.
   */
  function NewController<O, P, C>(
    authOptions: Result<O, Error>,
    authenticate: O -> Result<P, Error>,
    newComputeV2: (P, EndpointOpts) -> Result<C, Error>,
    osRegionName: string): (r: Result<Controller<C>, Error>)
    ensures r.Success? <==>
      && authOptions.Success?
      && authenticate(authOptions.value).Success?
      && newComputeV2(authenticate(authOptions.value).value, EndpointOpts(Region(osRegionName))).Success?
    ensures r.Success? ==>
      r.value.computeClient ==
      newComputeV2(authenticate(authOptions.value).value, EndpointOpts(Region(osRegionName))).value
  {
    match authOptions
    case Failure(err) => Failure(err)
    case Success(opts) =>
      match authenticate(opts)
      case Failure(err) => Failure(err)
      case Success(provider) =>
        match newComputeV2(provider, EndpointOpts(Region(osRegionName)))
        case Failure(err) => Failure(err)
        case Success(client) => Success(Controller(client))
  }

  /** A failure to read the options is returned as is, whatever the later steps would do. */
  lemma AuthOptionsFailureStops<O, P, C>(
    authOptions: Result<O, Error>,
    authenticate1: O -> Result<P, Error>, authenticate2: O -> Result<P, Error>,
    newComputeV2a: (P, EndpointOpts) -> Result<C, Error>, newComputeV2b: (P, EndpointOpts) -> Result<C, Error>,
    region1: string, region2: string)
    requires authOptions.Failure?
    ensures NewController(authOptions, authenticate1, newComputeV2a, region1) == Failure(authOptions.error)
    ensures NewController(authOptions, authenticate1, newComputeV2a, region1)
         == NewController(authOptions, authenticate2, newComputeV2b, region2)
  {
  }

  /** An authentication failure is returned as is, whatever the compute step would do. */
  lemma AuthenticateFailureStops<O, P, C>(
    authOptions: Result<O, Error>,
    authenticate: O -> Result<P, Error>,
    newComputeV2a: (P, EndpointOpts) -> Result<C, Error>, newComputeV2b: (P, EndpointOpts) -> Result<C, Error>,
    region1: string, region2: string)
    requires authOptions.Success? && authenticate(authOptions.value).Failure?
    ensures NewController(authOptions, authenticate, newComputeV2a, region1)
         == Failure(authenticate(authOptions.value).error)
    ensures NewController(authOptions, authenticate, newComputeV2a, region1)
         == NewController(authOptions, authenticate, newComputeV2b, region2)
  {
  }

  /** When the first two steps succeed, the compute step decides: its error or its client. */
  lemma ComputeStepDecides<O, P, C>(
    authOptions: Result<O, Error>,
    authenticate: O -> Result<P, Error>,
    newComputeV2: (P, EndpointOpts) -> Result<C, Error>,
    osRegionName: string)
    requires authOptions.Success? && authenticate(authOptions.value).Success?
    ensures var step := newComputeV2(authenticate(authOptions.value).value, EndpointOpts(Region(osRegionName)));
      NewController(authOptions, authenticate, newComputeV2, osRegionName)
      == (if step.Success? then Success(Controller(step.value)) else Failure(step.error))
  {
  }
}
