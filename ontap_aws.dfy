/**
 * The standalone storage-system resource on AWS: create a working environment
 * unless one of that name exists, change its write speed, delete it, and wait on the
 * audit entry of the request the server started.
 */
module OntapAws {
  import opened Api
  import opened OccmHelper

  /** Attempts of the request-id poll, and the seconds paused after each one. */
  const PollBudget: nat := 90
  const PollInterval: nat := 30

  /** The resource's properties that the actions read. */
  datatype Properties = Properties(
    occmUser: string,
    occmPassword: string,
    ontapName: string,
    tenantName: string,
    region: string,
    vpcId: string,
    subnetId: string,
    instanceType: string,
    licenseType: string,
    ontapVersion: string,
    useLatest: bool,
    platformLicense: Option<string>,
    ebsVolumeType: string,
    ebsVolumeSize: string,
    svmPassword: string,
    bypassSnapshot: bool,
    dataEncryptionType: string,
    writeSpeed: Option<string>,
    waitExecution: bool)

  /** The write speed as sent: upcased, and present only when one is set. */
  function WritingSpeedState(writeSpeed: Option<string>): (r: Option<string>)
    ensures r.Some? <==> writeSpeed.Some?
    ensures r.Some? ==> r.value == Upcase(writeSpeed.value)
    ensures r.Some? ==> |r.value| == |writeSpeed.value| &&
                        forall i :: 0 <= i < |r.value| ==> !('a' <= r.value[i] <= 'z')
  {
    match writeSpeed
    case None => None
    case Some(w) => Some(Upcase(w))
  }

  /** Body of the creation POST, once the tenant id, VPC id and subnet id are resolved. */
  function Payload(p: Properties, tenantId: string, vpcId: string, subnetId: string): EnvironmentPayload
  {
    EnvironmentPayload(
      p.ontapName, tenantId, p.region, vpcId, subnetId, p.ebsVolumeType,
      SplitSize(p.ebsVolumeSize), p.bypassSnapshot, p.dataEncryptionType,
      VsaMetadata(p.platformLicense, p.ontapVersion, p.useLatest, p.licenseType, p.instanceType),
      p.svmPassword, WritingSpeedState(p.writeSpeed))
  }

  /** The default volume size splits into the number and the unit the creation
      body carries. */
  lemma DefaultSizeSplit()
    ensures SplitSize("1TB") == VolumeSize("1", "TB")
  {
    SplitSizeRoundTrip("1", "TB");
    assert "1" + "TB" == "1TB";
  }

  /** The opening shared by the three actions: probe, name check, login, lookup. */
  function OpenRun(s: Server, p: Properties): Trace<Option<Environment>>
  {
    Open(s, p.ontapName, p.occmUser, p.occmPassword, true)
  }

  /** Create, once no environment of the name exists: resolve the tenant id, the
      VPC and the subnet, post the creation, and settle it. */
  function ProvisionRun(s: Server, p: Properties): Trace<bool>
  {
    match GetTenantId(s.tenants, p.tenantName)
    case Err(e) => Trace(Err(e), [GetTenants])
    case Ok(tenantId) =>
      match ValidateVpc(s.vpcs(p.region), p.vpcId)
      case Err(e) => Trace(Err(e), [GetTenants, GetVpcs(p.region)])
      case Ok(vpc) =>
        match ValidateSubnet(s.vpcs(p.region), p.vpcId, p.subnetId)
        case Err(e) => Trace(Err(e), [GetTenants, GetVpcs(p.region), GetVpcs(p.region)])
        case Ok(subnetId) =>
          Then([GetTenants, GetVpcs(p.region), GetVpcs(p.region),
                PostEnvironment(Payload(p, tenantId, vpc.vpcId, subnetId))],
               Settle(s, p.waitExecution, PollBudget, PollInterval))
  }

  /** The create action: changed when a new working environment was requested. */
  function CreateRun(s: Server, p: Properties): Trace<bool>
  {
    var open := OpenRun(s, p);
    if open.outcome.Err? then Trace(Err(open.outcome.error), open.events)
    else if open.outcome.value.Some? then Trace(Ok(false), open.events)
    else Then(open.events, ProvisionRun(s, p))
  }

  /** The write-speed action: changed when a new speed was sent to an existing system. */
  function SetWriteSpeedRun(s: Server, p: Properties): Trace<bool>
  {
    var open := OpenRun(s, p);
    if open.outcome.Err? then Trace(Err(open.outcome.error), open.events)
    else if open.outcome.value.None? then Trace(Ok(false), open.events)
    else if p.writeSpeed.None? then Trace(Err(NilValue("write_speed")), open.events)
    else
      var env := open.outcome.value.value;
      Then(open.events + [PutWritingSpeed(env.publicId, Upcase(p.writeSpeed.value))],
           Settle(s, true, PollBudget, PollInterval))
  }

  /** The delete action: changed when an existing system was deleted. */
  function DeleteRun(s: Server, p: Properties): Trace<bool>
  {
    var open := OpenRun(s, p);
    if open.outcome.Err? then Trace(Err(open.outcome.error), open.events)
    else if open.outcome.value.None? then Trace(Ok(false), open.events)
    else
      var env := open.outcome.value.value;
      Then(open.events + [DeleteEnvironment(env.publicId)], Settle(s, true, PollBudget, PollInterval))
  }

  /** The cookie the provider holds after any of the three actions. */
  function CookieAfter(s: Server, p: Properties, prior: Option<string>): Option<string>
  {
    CookieAfterOpen(s, p.ontapName, p.occmUser, p.occmPassword, true, prior)
  }

  method Provision(s: Server, p: Properties) returns (t: Trace<bool>)
    ensures t == ProvisionRun(s, p)
  {
    var tenantId := GetTenantId(s.tenants, p.tenantName);
    if tenantId.Err? {
      return Trace(Err(tenantId.error), [GetTenants]);
    }
    var vpc := ValidateVpc(s.vpcs(p.region), p.vpcId);
    if vpc.Err? {
      return Trace(Err(vpc.error), [GetTenants, GetVpcs(p.region)]);
    }
    var subnetId := ValidateSubnet(s.vpcs(p.region), p.vpcId, p.subnetId);
    if subnetId.Err? {
      return Trace(Err(subnetId.error), [GetTenants, GetVpcs(p.region), GetVpcs(p.region)]);
    }
    var payload := Payload(p, tenantId.value, vpc.value.vpcId, subnetId.value);
    var settled := SettleMutation(s, p.waitExecution, PollBudget, PollInterval);
    t := Then([GetTenants, GetVpcs(p.region), GetVpcs(p.region), PostEnvironment(payload)], settled);
  }

  method Create(pr: Provider, s: Server, p: Properties) returns (t: Trace<bool>)
    modifies pr
    ensures t == CreateRun(s, p)
    ensures pr.authCookie == CookieAfter(s, p, old(pr.authCookie))
  {
    var open := pr.OpenSession(s, p.ontapName, p.occmUser, p.occmPassword, true);
    if open.outcome.Err? {
      return Trace(Err(open.outcome.error), open.events);
    }
    if open.outcome.value.Some? {
      return Trace(Ok(false), open.events);
    }
    var provisioned := Provision(s, p);
    t := Then(open.events, provisioned);
  }

  method SetWriteSpeed(pr: Provider, s: Server, p: Properties) returns (t: Trace<bool>)
    modifies pr
    ensures t == SetWriteSpeedRun(s, p)
    ensures pr.authCookie == CookieAfter(s, p, old(pr.authCookie))
  {
    var open := pr.OpenSession(s, p.ontapName, p.occmUser, p.occmPassword, true);
    if open.outcome.Err? {
      return Trace(Err(open.outcome.error), open.events);
    }
    if open.outcome.value.None? {
      return Trace(Ok(false), open.events);
    }
    if p.writeSpeed.None? {
      return Trace(Err(NilValue("write_speed")), open.events);
    }
    var put := PutWritingSpeed(open.outcome.value.value.publicId, Upcase(p.writeSpeed.value));
    var settled := SettleMutation(s, true, PollBudget, PollInterval);
    t := Then(open.events + [put], settled);
  }

  method Delete(pr: Provider, s: Server, p: Properties) returns (t: Trace<bool>)
    modifies pr
    ensures t == DeleteRun(s, p)
    ensures pr.authCookie == CookieAfter(s, p, old(pr.authCookie))
  {
    var open := pr.OpenSession(s, p.ontapName, p.occmUser, p.occmPassword, true);
    if open.outcome.Err? {
      return Trace(Err(open.outcome.error), open.events);
    }
    if open.outcome.value.None? {
      return Trace(Ok(false), open.events);
    }
    var settled := SettleMutation(s, true, PollBudget, PollInterval);
    t := Then(open.events + [DeleteEnvironment(open.outcome.value.value.publicId)], settled);
  }

  // ---------------------------------------------------------------------------
  // Properties of the three actions
  // ---------------------------------------------------------------------------

  /** The lookup ran and found no environment of that name. */
  predicate Absent(s: Server, p: Properties)
  {
    OpenRun(s, p).outcome == Ok(None)
  }

  /** The lookup ran and found an environment of that name. */
  predicate Present(s: Server, p: Properties)
  {
    OpenRun(s, p).outcome.Ok? && OpenRun(s, p).outcome.value.Some?
  }

  /** A name that fails the check as written fails every action before login,
      whatever the server holds. */
  lemma InvalidNameRejected(s: Server, p: Properties)
    requires Liveness(s.probe, Some(1), 0).outcome.Ok? && !NameAcceptedAsWritten(p.ontapName)
    ensures CreateRun(s, p).outcome == Err(InvalidName(p.ontapName))
    ensures SetWriteSpeedRun(s, p).outcome == Err(InvalidName(p.ontapName))
    ensures DeleteRun(s, p).outcome == Err(InvalidName(p.ontapName))
    ensures IsArgumentError(InvalidName(p.ontapName))
    ensures NoLogin(CreateRun(s, p).events) && NoLogin(SetWriteSpeedRun(s, p).events) && NoLogin(DeleteRun(s, p).events)
  {
    InvalidNameBeforeLogin(s, p.ontapName, p.occmUser, p.occmPassword);
  }

  /** Credentials refused with a 401 fail every action with the authentication
      ArgumentError right after the login POST, with nothing changed. */
  lemma LoginRejectedStops(s: Server, p: Properties, prior: Option<string>)
    requires Liveness(s.probe, Some(1), 0).outcome.Ok? && NameAcceptedAsWritten(p.ontapName)
    requires s.login.code == 401
    ensures var stopped := Trace(Err(AuthenticationFailed), Liveness(s.probe, Some(1), 0).events + [PostLogin(p.occmUser, p.occmPassword)]);
            CreateRun(s, p) == stopped && SetWriteSpeedRun(s, p) == stopped && DeleteRun(s, p) == stopped
    ensures IsArgumentError(AuthenticationFailed)
    ensures NoMutation(CreateRun(s, p).events)
    ensures CookieAfter(s, p, prior) == prior
  {
    OccmHelper.LoginRejectedStops(s, p.ontapName, p.occmUser, p.occmPassword, true, prior);
  }

  /** An environment of that name already exists: create reports no change and
      sends no request that changes the server. */
  lemma CreateSkipsExisting(s: Server, p: Properties)
    requires Present(s, p)
    ensures CreateRun(s, p).outcome == Ok(false)
    ensures NoMutation(CreateRun(s, p).events)
  {
    OpenNoMutation(s, p.ontapName, p.occmUser, p.occmPassword, true);
  }

  /** Create resolves the tenant, then the VPC, then the subnet; the first lookup
      that fails is the error, and nothing is created. */
  lemma CreateResolutionOrder(s: Server, p: Properties)
    requires Absent(s, p)
    ensures GetTenantId(s.tenants, p.tenantName).Err? ==>
              CreateRun(s, p) == Trace(Err(TenantNotFound(p.tenantName)), OpenRun(s, p).events + [GetTenants])
    ensures GetTenantId(s.tenants, p.tenantName).Ok? && ValidateVpc(s.vpcs(p.region), p.vpcId).Err? ==>
              CreateRun(s, p) == Trace(Err(VpcNotFound(p.vpcId)), OpenRun(s, p).events + [GetTenants, GetVpcs(p.region)])
    ensures GetTenantId(s.tenants, p.tenantName).Ok? && ValidateVpc(s.vpcs(p.region), p.vpcId).Ok? &&
            ValidateSubnet(s.vpcs(p.region), p.vpcId, p.subnetId).Err? ==>
              CreateRun(s, p) == Trace(Err(SubnetNotFound(p.subnetId, p.vpcId)),
                                       OpenRun(s, p).events + [GetTenants, GetVpcs(p.region), GetVpcs(p.region)])
  {
  }

  /** With every lookup resolved, create sends the three lookups and then the
      creation POST whose body carries the resolved ids, and reports a change
      unless the POST's answer or the poll fails. */
  lemma CreateSendsPayload(s: Server, p: Properties)
    requires Absent(s, p)
    requires GetTenantId(s.tenants, p.tenantName).Ok? && ValidateSubnet(s.vpcs(p.region), p.vpcId, p.subnetId).Ok?
    ensures var payload := Payload(p, GetTenantId(s.tenants, p.tenantName).value, p.vpcId, p.subnetId);
            CreateRun(s, p) == Then(OpenRun(s, p).events + [GetTenants, GetVpcs(p.region), GetVpcs(p.region), PostEnvironment(payload)],
                                    Settle(s, p.waitExecution, PollBudget, PollInterval))
    ensures exists t :: t in s.tenants && t.name == p.tenantName &&
                        t.publicId == GetTenantId(s.tenants, p.tenantName).value
  {
    var tenantId := GetTenantId(s.tenants, p.tenantName).value;
    var vpc := ValidateVpc(s.vpcs(p.region), p.vpcId).value;
    var payload := Payload(p, tenantId, vpc.vpcId, p.subnetId);
    var sent := [GetTenants, GetVpcs(p.region), GetVpcs(p.region), PostEnvironment(payload)];
    assert OpenRun(s, p).events + (sent + Settle(s, p.waitExecution, PollBudget, PollInterval).events)
        == OpenRun(s, p).events + sent + Settle(s, p.waitExecution, PollBudget, PollInterval).events;
    var i :| 0 <= i < |s.tenants| && s.tenants[i].name == p.tenantName && tenantId == s.tenants[i].publicId;
    assert s.tenants[i] in s.tenants;
  }

  /** Without wait_execution, an accepted create reports a change at once and
      never polls. */
  lemma CreateWithoutWait(s: Server, p: Properties)
    requires Absent(s, p) && !p.waitExecution
    requires GetTenantId(s.tenants, p.tenantName).Ok? && ValidateSubnet(s.vpcs(p.region), p.vpcId, p.subnetId).Ok?
    requires Check(s.mutation).Ok?
    ensures CreateRun(s, p).outcome == Ok(true)
    ensures Sleeps(CreateRun(s, p).events) == Sleeps(OpenRun(s, p).events)
  {
    CreateSendsPayload(s, p);
    SettleOutcome(s, p.waitExecution, PollBudget, PollInterval);
    var payload := Payload(p, GetTenantId(s.tenants, p.tenantName).value, p.vpcId, p.subnetId);
    var sent := [GetTenants, GetVpcs(p.region), GetVpcs(p.region), PostEnvironment(payload)];
    SleepsNone(sent);
    ChangedAtOnce(CreateRun(s, p), OpenRun(s, p).events, sent);
  }

  lemma ChangedAtOnce(t: Trace<bool>, front: seq<Event>, sent: seq<Event>)
    requires t == Then(front + sent, Trace(Ok(true), [])) && Sleeps(sent) == 0
    ensures t.outcome == Ok(true) && Sleeps(t.events) == Sleeps(front)
  {
    assert t.events == front + sent;
    SleepsAppend(front, sent);
  }

  /** With wait_execution, an accepted create reports a change exactly when the
      poll of its request id succeeds. */
  lemma CreateWaitsForRequest(s: Server, p: Properties)
    requires Absent(s, p) && p.waitExecution
    requires GetTenantId(s.tenants, p.tenantName).Ok? && ValidateSubnet(s.vpcs(p.region), p.vpcId, p.subnetId).Ok?
    requires Check(s.mutation).Ok?
    ensures CreateRun(s, p).outcome == Ok(true) <==>
              AwaitRequest(s.mutation.requestId, s.audit(s.mutation.requestId), PollBudget, PollInterval, 0).outcome.Ok?
  {
    CreateSendsPayload(s, p);
    SettleOutcome(s, p.waitExecution, PollBudget, PollInterval);
  }

  /** Write speed and delete leave an absent system alone: no change, no mutation. */
  lemma AbsentSystemUntouched(s: Server, p: Properties)
    requires Absent(s, p)
    ensures SetWriteSpeedRun(s, p).outcome == Ok(false) && NoMutation(SetWriteSpeedRun(s, p).events)
    ensures DeleteRun(s, p).outcome == Ok(false) && NoMutation(DeleteRun(s, p).events)
  {
    OpenNoMutation(s, p.ontapName, p.occmUser, p.occmPassword, true);
  }

  /** Write speed on an existing system sends the upcased speed to that system's
      public id; a missing speed fails before anything is sent. */
  lemma SetWriteSpeedSends(s: Server, p: Properties)
    requires Present(s, p)
    ensures p.writeSpeed.None? ==> SetWriteSpeedRun(s, p).outcome.Err? && NoMutation(SetWriteSpeedRun(s, p).events)
    ensures p.writeSpeed.Some? ==>
              var env := GetOntapEnv(s.environments, p.ontapName).value;
              env.name == p.ontapName &&
              SetWriteSpeedRun(s, p).events[|OpenRun(s, p).events|] == PutWritingSpeed(env.publicId, Upcase(p.writeSpeed.value))
  {
    OpenNoMutation(s, p.ontapName, p.occmUser, p.occmPassword, true);
  }

  /** Delete on an existing system sends one DELETE for that system's public id. */
  lemma DeleteSends(s: Server, p: Properties)
    requires Present(s, p)
    ensures var env := GetOntapEnv(s.environments, p.ontapName).value;
            env.name == p.ontapName &&
            DeleteRun(s, p).events[|OpenRun(s, p).events|] == DeleteEnvironment(env.publicId)
    ensures DeleteRun(s, p).outcome != Ok(false)
  {
    SettleOutcome(s, true, PollBudget, PollInterval);
  }

  /** The poll pauses at most 90 times, 30 seconds each: 45 minutes in all; it
      times out exactly when all 90 attempts see a pending entry. */
  lemma WaitOntapBudget(requestId: string, feed: AuditFeed)
    ensures Sleeps(AwaitRequest(requestId, feed, PollBudget, PollInterval, 0).events) <= 90
    ensures Paused(AwaitRequest(requestId, feed, PollBudget, PollInterval, 0).events) <= 2700
    ensures AwaitRequest(requestId, feed, PollBudget, PollInterval, 0).outcome == Err(PollTimeout(PollTimeoutMessage))
        <==> forall k :: 0 <= k < 90 ==> Pending(feed(k))
  {
    AwaitRequestBounded(requestId, feed, PollBudget, PollInterval, 0);
    AwaitRequestTimeoutIff(requestId, feed, PollBudget, PollInterval, 0);
  }

  /** The server state once a creation of name with publicId has completed. */
  function AfterCreate(s: Server, name: string, publicId: string): Server
  {
    s.(environments := s.environments + [Environment(name, publicId)])
  }

  /** The environment list without any entry called name. */
  function Without(environments: seq<Environment>, name: string): (r: seq<Environment>)
    ensures forall j :: 0 <= j < |r| ==> r[j].name != name
    ensures forall e :: e in r <==> e in environments && e.name != name
  {
    if environments == [] then []
    else if environments[0].name == name then Without(environments[1..], name)
    else [environments[0]] + Without(environments[1..], name)
  }

  /** The server state once the environment called name has been deleted. */
  function AfterDelete(s: Server, name: string): Server
  {
    s.(environments := Without(s.environments, name))
  }

  /** Creating twice changes nothing the second time: once the system is listed,
      create reports no change and sends no mutation. */
  lemma CreateIdempotent(s: Server, p: Properties, publicId: string)
    requires OpenRun(s, p).outcome.Ok?
    ensures CreateRun(AfterCreate(s, p.ontapName, publicId), p).outcome == Ok(false)
    ensures NoMutation(CreateRun(AfterCreate(s, p.ontapName, publicId), p).events)
  {
    var s' := AfterCreate(s, p.ontapName, publicId);
    assert s'.environments[|s.environments|].name == p.ontapName;
    CreateSkipsExisting(s', p);
  }

  /** Deleting twice changes nothing the second time. */
  lemma DeleteIdempotent(s: Server, p: Properties)
    requires OpenRun(s, p).outcome.Ok?
    ensures DeleteRun(AfterDelete(s, p.ontapName), p).outcome == Ok(false)
    ensures NoMutation(DeleteRun(AfterDelete(s, p.ontapName), p).events)
  {
    AbsentSystemUntouched(AfterDelete(s, p.ontapName), p);
  }
}
