/**
 * The Cloud Manager REST API as the cookbook sees it: the abstract state of one
 * server, the responses the cookbook reads, the requests it issues (recorded as
 * events, together with the pauses between polls) and the failures a workflow can
 * end with.
 */
module Api {

  datatype Option<+T> = None | Some(value: T)

  /** Every way a workflow is aborted (a raised Ruby exception). */
  datatype Error =
    | AuthenticationFailed                                  // 401 on any checked call
    | BadRequest(serverMessage: Option<string>, violations: Option<string>)  // 400 on any checked call
    | UnknownServerError                                    // any other 4xx, or 500
    | UnexpectedResponse(code: int)                         // any other status (`raise rsp.inspect`)
    | TransportFailure                                      // a transport error the probe does not tolerate
    | ServiceNeverReturned                                  // the liveness probe exhausted its budget
    | InvalidName(name: string)                             // ontap_name fails the name pattern
    | TenantNotFound(tenant: string)
    | VpcNotFound(vpcId: string)
    | SubnetNotFound(subnetId: string, vpcId: string)
    | SystemDoesNotExist(name: string)                      // aggregate actions: parent system absent
    | SystemNotFound(name: string)                          // docker plugin config: system absent
    | AggregateNotFound(aggregate: string, system: string)  // add disks to an absent aggregate
    | SecretWithoutKey                                      // aws_secret set, aws_key nil or empty
    | KeyWithoutSecret                                      // aws_key set, aws_secret nil or empty
    | OperationFailed(message: string)                      // audit entry reached "Failed"
    | PollTimeout(message: string)                          // poll budget exhausted
    | NilValue(what: string)                                // a method called on a missing value

  /** The errors raised as Ruby's ArgumentError. Of the others, NilValue is a
      NoMethodError, TransportFailure the Errno system-call error of a refused
      connection, and the rest are RuntimeErrors. */
  predicate IsArgumentError(e: Error)
  {
    e.AuthenticationFailed? || e.BadRequest? || e.InvalidName? || e.TenantNotFound? ||
    e.VpcNotFound? || e.SubnetNotFound? || e.SystemNotFound? ||
    e.SecretWithoutKey? || e.KeyWithoutSecret?
  }

  datatype Result<+T> = Ok(value: T) | Err(error: Error)

  /** A response: its status code and the parts of its headers and JSON body that
      the cookbook reads. */
  datatype Response = Response(
    code: int,
    message: Option<string>,      // body 'message'
    violations: Option<string>,   // body 'violations'
    setCookie: Option<string>,    // 'set-cookie' header
    requestId: string)            // 'Oncloud-Request-Id' header

  /** What one liveness probe of the server meets. Unreachable stands for the
      three tolerated errors: host unreachable, timed out, network unreachable. */
  datatype Probe = Answered(response: Response) | Unreachable | TransportError

  datatype Environment = Environment(name: string, publicId: string)
  datatype Tenant = Tenant(name: string, publicId: string)
  datatype Vpc = Vpc(vpcId: string, subnets: seq<string>)

  /** A logical interface of a cluster node. */
  datatype Lif = Lif(ip: string, lifType: string, dataProtocols: seq<string>)
  datatype ClusterNode = ClusterNode(name: string, lifs: seq<Lif>)
  datatype Svm = Svm(name: string, allowedAggregates: seq<string>)

  /** The detail record of a working environment. */
  datatype Detail = Detail(publicId: string, nodes: seq<ClusterNode>, svms: seq<Svm>, svmName: Option<string>)

  datatype AuditEntry = AuditEntry(status: string, actionName: string, errorMessage: string)

  /** One feed of audit bodies: the list returned by the k-th GET of one audit URL. */
  type AuditFeed = nat -> seq<AuditEntry>

  /** The abstract state of one Cloud Manager server. */
  datatype Server = Server(
    probe: nat -> Probe,              // the k-th liveness probe of a workflow
    probeAfterSetup: nat -> Probe,    // the k-th probe while the service restarts after setup
    configMessage: Option<string>,    // 'message' of the configured-state probe
    login: Response,                  // answer to the login POST
    setup: Response,                  // answer to the first-run setup POST
    environments: seq<Environment>,   // the working-environment list, in server order
    detail: string -> Detail,         // detail body returned for a publicId
    aggregates: string -> seq<string>, // aggregate names listed for a publicId
    tenants: seq<Tenant>,
    vpcs: string -> seq<Vpc>,         // VPC list of a region
    mutation: Response,               // answer to the mutating call of an action
    audit: string -> AuditFeed,       // audit feed of a request id
    auditByEnvironment: string -> AuditFeed) // audit feed of a working environment

  datatype VolumeSize = VolumeSize(size: string, unit: string)

  datatype VsaMetadata = VsaMetadata(
    platformLicense: Option<string>,
    ontapVersion: string,
    useLatestVersion: bool,
    licenseType: string,
    instanceType: string)

  /** Body of the working-environment creation POST. */
  datatype EnvironmentPayload = EnvironmentPayload(
    name: string,
    tenantId: string,
    region: string,
    vpcId: string,
    subnetId: string,
    ebsVolumeType: string,
    ebsVolumeSize: VolumeSize,
    skipSnapshots: bool,
    dataEncryptionType: string,
    vsaMetadata: VsaMetadata,
    svmPassword: string,
    writingSpeedState: Option<string>)

  /** Body of the aggregate creation POST. */
  datatype AggregatePayload = AggregatePayload(
    name: string,
    workingEnvironmentId: string,
    numberOfDisks: int,
    diskSize: VolumeSize,
    homeNode: string,
    providerVolumeType: string)

  datatype UserRequest = UserRequest(
    email: string,
    lastName: string,
    firstName: string,
    password: string,
    roleId: string,
    accessKey: Option<string>,
    secretKey: Option<string>)

  datatype TenantRequest = TenantRequest(name: string, description: string, costCenter: string)

  /** Body of the first-run setup POST; proxyUri is the 'uri' of 'proxyUrl'. */
  datatype SetupPayload = SetupPayload(
    userRequest: UserRequest,
    tenantRequest: TenantRequest,
    site: string,
    company: string,
    proxyUri: string)

  /** One observable step of a workflow: a request to the server, or a pause. */
  datatype Event =
    | GetAbout
    | GetConfig
    | PostLogin(email: string, password: string)
    | PostSetup(setup: SetupPayload)
    | GetEnvironments
    | GetDetail(publicId: string, fields: seq<string>)
    | GetAggregates(publicId: string)
    | GetTenants
    | GetVpcs(region: string)
    | PostEnvironment(environment: EnvironmentPayload)
    | PutWritingSpeed(publicId: string, writingSpeedState: string)
    | DeleteEnvironment(publicId: string)
    | PostAggregate(aggregate: AggregatePayload)
    | PostDisks(publicId: string, aggregateName: string, numberOfDisks: int)
    | DeleteAggregate(publicId: string, aggregateName: string)
    | GetAudit(requestId: string)
    | GetAuditByEnvironment(publicId: string)
    | Sleep(seconds: nat)

  /** The requests that change the server. */
  predicate IsMutation(e: Event)
  {
    e.PostSetup? || e.PostEnvironment? || e.PutWritingSpeed? || e.DeleteEnvironment? ||
    e.PostAggregate? || e.PostDisks? || e.DeleteAggregate?
  }

  predicate NoMutation(events: seq<Event>)
  {
    forall i :: 0 <= i < |events| ==> !IsMutation(events[i])
  }

  predicate NoLogin(events: seq<Event>)
  {
    forall i :: 0 <= i < |events| ==> !events[i].PostLogin?
  }

  /** Number of pauses in a run of events. */
  function Sleeps(events: seq<Event>): nat
  {
    if events == [] then 0 else (if events[0].Sleep? then 1 else 0) + Sleeps(events[1..])
  }

  /** Total seconds paused in a run of events. */
  function Paused(events: seq<Event>): nat
  {
    if events == [] then 0 else (if events[0].Sleep? then events[0].seconds else 0) + Paused(events[1..])
  }

  /** Number of events satisfying a test (requests of one kind, say). */
  function Count(events: seq<Event>, kind: Event -> bool): nat
  {
    if events == [] then 0 else (if kind(events[0]) then 1 else 0) + Count(events[1..], kind)
  }

  lemma {:induction false} SleepsAppend(a: seq<Event>, b: seq<Event>)
    ensures Sleeps(a + b) == Sleeps(a) + Sleeps(b)
    decreases |a|
  {
    if a != [] {
      assert (a + b)[1..] == a[1..] + b;
      SleepsAppend(a[1..], b);
    } else {
      assert a + b == b;
    }
  }

  lemma {:induction false} SleepsNone(events: seq<Event>)
    requires forall i :: 0 <= i < |events| ==> !events[i].Sleep?
    ensures Sleeps(events) == 0 && Paused(events) == 0
    decreases |events|
  {
    if events != [] {
      SleepsNone(events[1..]);
    }
  }

  lemma {:induction false} PausedAppend(a: seq<Event>, b: seq<Event>)
    ensures Paused(a + b) == Paused(a) + Paused(b)
    decreases |a|
  {
    if a != [] {
      assert (a + b)[1..] == a[1..] + b;
      PausedAppend(a[1..], b);
    } else {
      assert a + b == b;
    }
  }

  lemma {:induction false} CountAppend(a: seq<Event>, b: seq<Event>, kind: Event -> bool)
    ensures Count(a + b, kind) == Count(a, kind) + Count(b, kind)
    decreases |a|
  {
    if a != [] {
      assert (a + b)[1..] == a[1..] + b;
      CountAppend(a[1..], b, kind);
    } else {
      assert a + b == b;
    }
  }

  lemma NoMutationAppend(a: seq<Event>, b: seq<Event>)
    ensures NoMutation(a + b) <==> NoMutation(a) && NoMutation(b)
  {
    if NoMutation(a) && NoMutation(b) {
      forall i | 0 <= i < |a + b| ensures !IsMutation((a + b)[i]) {
        if i < |a| { assert (a + b)[i] == a[i]; } else { assert (a + b)[i] == b[i - |a|]; }
      }
    }
    if NoMutation(a + b) {
      forall i | 0 <= i < |a| ensures !IsMutation(a[i]) { assert (a + b)[i] == a[i]; }
      forall i | 0 <= i < |b| ensures !IsMutation(b[i]) { assert (a + b)[i + |a|] == b[i]; }
    }
  }

  /** What a workflow (or one of its steps) ends with, and what it did on the way. */
  datatype Trace<+T> = Trace(outcome: Result<T>, events: seq<Event>)

  /** A step that first sends prefix and then behaves as t. */
  function Then<T>(prefix: seq<Event>, t: Trace<T>): Trace<T>
  {
    Trace(t.outcome, prefix + t.events)
  }
}
