/**
 * The first-run setup resource: unless the server is already configured, send the
 * administrator, the tenant and the site in one setup request, then wait for the
 * service to come back after its restart.
 */
module OccmSetup {
  import opened Api
  import opened OccmHelper

  /** Message of a setup answer that means the setup was done before. */
  const AlreadyPerformedMessage := "Initial setup already performed"
  /** Role of the administrator created by setup. */
  const AdminRole := "Role-1"
  /** Seconds paused before probing the restarted service, and the retries allowed. */
  const RestartPause: nat := 5
  const RestartWait: nat := 5

  datatype Properties = Properties(
    email: string,
    password: string,
    company: string,
    site: string,
    firstName: string,
    lastName: string,
    awsKey: Option<string>,
    awsSecret: Option<string>,
    tenantName: string,
    description: Option<string>,
    costCenter: Option<string>)

  /** Ruby's `x || ''` on an optional string. */
  function OrEmpty(x: Option<string>): (r: string)
    ensures x.Some? ==> r == x.value
    ensures x.None? ==> r == ""
  {
    if x.Some? then x.value else ""
  }

  /** A key that is present and not empty. */
  predicate Usable(x: Option<string>)
  {
    x.Some? && x.value != ""
  }

  /** The pairing check: a secret without a usable key, or a key without a usable
      secret, is refused (the secret is checked first). */
  function KeyPairing(key: Option<string>, secret: Option<string>): (r: Option<Error>)
    ensures r.None? <==> (key.None? && secret.None?) || (Usable(key) && Usable(secret))
    ensures r == Some(SecretWithoutKey) <==> secret.Some? && !Usable(key)
    ensures r == Some(KeyWithoutSecret) <==> key.Some? && !Usable(secret) && !(secret.Some? && !Usable(key))
    ensures r.Some? ==> IsArgumentError(r.value)
  {
    if secret.Some? && !Usable(key) then Some(SecretWithoutKey)
    else if key.Some? && !Usable(secret) then Some(KeyWithoutSecret)
    else None
  }

  /** Body of the setup POST. */
  function Payload(p: Properties): SetupPayload
  {
    SetupPayload(
      UserRequest(p.email, p.lastName, p.firstName, p.password, AdminRole, p.awsKey, p.awsSecret),
      TenantRequest(p.tenantName, OrEmpty(p.description), OrEmpty(p.costCenter)),
      p.site, p.company, "")
  }

  /** After a successful setup POST: pause, then wait for the service. */
  function RestartRun(s: Server): Trace<bool>
  {
    var back := Liveness(s.probeAfterSetup, Some(RestartWait), 0);
    Trace(if back.outcome.Err? then Err(back.outcome.error) else Ok(true), [Sleep(RestartPause)] + back.events)
  }

  /** Setup on a server that is not configured yet, keys already paired. */
  function InitializeRun(s: Server, p: Properties): Trace<bool>
  {
    var c := Check(s.setup);
    if c.Err? then Trace(Err(c.error), [PostSetup(Payload(p))])
    else if s.setup.message == Some(AlreadyPerformedMessage) then Trace(Ok(false), [PostSetup(Payload(p))])
    else if s.setup.code != 200 then Trace(Err(UnexpectedResponse(s.setup.code)), [PostSetup(Payload(p))])
    else Then([PostSetup(Payload(p))], RestartRun(s))
  }

  /** The setup action. */
  function SetupRun(s: Server, p: Properties): Trace<bool>
  {
    var live := Liveness(s.probe, Some(1), 0);
    if live.outcome.Err? then Trace(Err(live.outcome.error), live.events)
    else
      var probed := live.events + [GetConfig];
      if ServerConfigured(s.configMessage) then Trace(Ok(false), probed)
      else
        match KeyPairing(p.awsKey, p.awsSecret)
        case Some(e) => Trace(Err(e), probed)
        case None => Then(probed, InitializeRun(s, p))
  }

  method Initialize(s: Server, p: Properties) returns (t: Trace<bool>)
    ensures t == InitializeRun(s, p)
  {
    var sent := [PostSetup(Payload(p))];
    var c := Check(s.setup);
    if c.Err? {
      return Trace(Err(c.error), sent);
    }
    if s.setup.message == Some(AlreadyPerformedMessage) {
      return Trace(Ok(false), sent);
    }
    if s.setup.code != 200 {
      return Trace(Err(UnexpectedResponse(s.setup.code)), sent);
    }
    var back := ServerResponding(s.probeAfterSetup, Some(RestartWait));
    var outcome := if back.outcome.Err? then Err(back.outcome.error) else Ok(true);
    t := Trace(outcome, sent + ([Sleep(RestartPause)] + back.events));
  }

  method Setup(s: Server, p: Properties) returns (t: Trace<bool>)
    ensures t == SetupRun(s, p)
  {
    var live := ServerResponding(s.probe, Some(1));
    if live.outcome.Err? {
      return Trace(Err(live.outcome.error), live.events);
    }
    var probed := live.events + [GetConfig];
    if ServerConfigured(s.configMessage) {
      return Trace(Ok(false), probed);
    }
    var refused := KeyPairing(p.awsKey, p.awsSecret);
    if refused.Some? {
      return Trace(Err(refused.value), probed);
    }
    var initialized := Initialize(s, p);
    t := Then(probed, initialized);
  }

  // ---------------------------------------------------------------------------
  // Properties of the setup action
  // ---------------------------------------------------------------------------

  /** A configured server is left alone: no change, no setup POST, and the key
      pairing is never looked at, whatever the keys are. */
  lemma ConfiguredServerSkipped(s: Server, p: Properties)
    requires Liveness(s.probe, Some(1), 0).outcome.Ok? && ServerConfigured(s.configMessage)
    ensures SetupRun(s, p).outcome == Ok(false)
    ensures NoMutation(SetupRun(s, p).events)
    ensures forall key, secret :: SetupRun(s, p.(awsKey := key, awsSecret := secret)) == SetupRun(s, p)
  {
    NoLoginInLiveness(s.probe, Some(1), 0);
    NoMutationAppend(Liveness(s.probe, Some(1), 0).events, [GetConfig]);
  }

  /** The setup request is sent only when the configuration query answered with
      the "not set up" sentinel message (an authentication error, an empty body
      or any other message counts as configured) and the keys pair; on a live
      server both together always lead to it. */
  lemma SetupPostsOnlyWhenUnconfigured(s: Server, p: Properties)
    ensures PostSetup(Payload(p)) in SetupRun(s, p).events ==>
              s.configMessage == Some(NotSetUpMessage) && KeyPairing(p.awsKey, p.awsSecret).None?
    ensures Liveness(s.probe, Some(1), 0).outcome.Ok? && s.configMessage == Some(NotSetUpMessage) &&
            KeyPairing(p.awsKey, p.awsSecret).None? ==>
              PostSetup(Payload(p)) in SetupRun(s, p).events
  {
    var live := Liveness(s.probe, Some(1), 0);
    var probed := live.events + [GetConfig];
    NoLoginInLiveness(s.probe, Some(1), 0);
    NoMutationAppend(live.events, [GetConfig]);
    assert IsMutation(PostSetup(Payload(p)));
    assert PostSetup(Payload(p)) !in probed;
    if live.outcome.Ok? && !ServerConfigured(s.configMessage) && KeyPairing(p.awsKey, p.awsSecret).None? {
      assert SetupRun(s, p).events[|probed|] == PostSetup(Payload(p));
    }
  }

  /** On an unconfigured server, the keys are refused exactly when they do not
      pair, before anything is posted. */
  lemma KeyPairingRefuses(s: Server, p: Properties)
    requires Liveness(s.probe, Some(1), 0).outcome.Ok? && !ServerConfigured(s.configMessage)
    ensures p.awsSecret.Some? && !Usable(p.awsKey) ==> SetupRun(s, p).outcome == Err(SecretWithoutKey)
    ensures p.awsKey.Some? && !Usable(p.awsSecret) && !(p.awsSecret.Some? && !Usable(p.awsKey)) ==>
              SetupRun(s, p).outcome == Err(KeyWithoutSecret)
    ensures SetupRun(s, p).outcome in {Err(SecretWithoutKey), Err(KeyWithoutSecret)} ==> NoMutation(SetupRun(s, p).events)
    ensures (p.awsKey.None? && p.awsSecret.None?) || (Usable(p.awsKey) && Usable(p.awsSecret)) ==>
              SetupRun(s, p) == Then(Liveness(s.probe, Some(1), 0).events + [GetConfig], InitializeRun(s, p))
  {
    var live := Liveness(s.probe, Some(1), 0);
    NoLoginInLiveness(s.probe, Some(1), 0);
    NoMutationAppend(live.events, [GetConfig]);
    var r := InitializeRun(s, p);
    if KeyPairing(p.awsKey, p.awsSecret).None? {
      assert r.outcome != Err(SecretWithoutKey) && r.outcome != Err(KeyWithoutSecret) by {
        RestartRunErrors(s);
      }
    }
  }

  lemma {:induction false} LivenessErrors(probe: nat -> Probe, wait: Option<nat>, step: nat)
    requires wait.Some? ==> step <= wait.value
    ensures Liveness(probe, wait, step).outcome != Err(SecretWithoutKey)
    ensures Liveness(probe, wait, step).outcome != Err(KeyWithoutSecret)
    decreases if wait.Some? then wait.value - step else 0
  {
    if probe(step) == Unreachable && wait.Some? && step < wait.value {
      LivenessErrors(probe, wait, step + 1);
    }
  }

  lemma RestartRunErrors(s: Server)
    ensures RestartRun(s).outcome != Err(SecretWithoutKey) && RestartRun(s).outcome != Err(KeyWithoutSecret)
  {
    LivenessErrors(s.probeAfterSetup, Some(RestartWait), 0);
  }

  /** The setup body always names role "Role-1" and an empty proxy, and sends an
      empty description or cost center when none is given. */
  lemma PayloadDefaults(p: Properties)
    ensures Payload(p).userRequest.roleId == "Role-1" && Payload(p).proxyUri == ""
    ensures p.description.None? ==> Payload(p).tenantRequest.description == ""
    ensures p.costCenter.None? ==> Payload(p).tenantRequest.costCenter == ""
    ensures Payload(p).userRequest.accessKey == p.awsKey && Payload(p).userRequest.secretKey == p.awsSecret
  {
  }

  /** A setup answer "Initial setup already performed" that passes the status
      check reports no change rather than an error. */
  lemma AlreadyPerformedIsNoChange(s: Server, p: Properties)
    requires Check(s.setup).Ok? && s.setup.message == Some(AlreadyPerformedMessage)
    ensures InitializeRun(s, p) == Trace(Ok(false), [PostSetup(Payload(p))])
  {
  }

  /** A 400 from setup is raised by the shared status check, as an ArgumentError
      carrying the server's message and violations. */
  lemma BadRequestFromSharedCheck(s: Server, p: Properties)
    requires s.setup.code == 400
    ensures InitializeRun(s, p).outcome == Err(BadRequest(s.setup.message, s.setup.violations))
    ensures IsArgumentError(InitializeRun(s, p).outcome.error)
  {
  }

  /** After a 200, setup pauses 5 seconds, probes the restarted service with up to
      5 more pauses of 5 seconds, and reports a change once it answers. */
  lemma SuccessWaitsForRestart(s: Server, p: Properties)
    requires s.setup.code == 200 && s.setup.message != Some(AlreadyPerformedMessage)
    ensures InitializeRun(s, p).events[..2] == [PostSetup(Payload(p)), Sleep(RestartPause)]
    ensures Sleeps(InitializeRun(s, p).events) <= 1 + RestartWait
    ensures InitializeRun(s, p).outcome == Ok(true) <==> Liveness(s.probeAfterSetup, Some(RestartWait), 0).outcome.Ok?
    ensures InitializeRun(s, p).outcome == Err(ServiceNeverReturned) <==>
              forall k :: 0 <= k <= RestartWait ==> s.probeAfterSetup(k) == Unreachable
  {
    var back := Liveness(s.probeAfterSetup, Some(RestartWait), 0);
    PausesBounded(s.probeAfterSetup, RestartWait, 0);
    NeverReturnedIff(s.probeAfterSetup, RestartWait, 0);
    FalseOnlyWithoutWait(s.probeAfterSetup, RestartWait, 0);
    SleepsAppend([PostSetup(Payload(p)), Sleep(RestartPause)], back.events);
    assert [PostSetup(Payload(p))] + ([Sleep(RestartPause)] + back.events) == [PostSetup(Payload(p)), Sleep(RestartPause)] + back.events;
  }

  /** Any status other than 200 that passes the check (202, 204) without the
      sentinel is raised as an unexpected response. */
  lemma OtherSuccessStatusRaises(s: Server, p: Properties)
    requires Passes(s.setup.code) && s.setup.code != 200 && s.setup.message != Some(AlreadyPerformedMessage)
    ensures InitializeRun(s, p).outcome == Err(UnexpectedResponse(s.setup.code))
  {
  }
}
