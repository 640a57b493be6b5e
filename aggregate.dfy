/**
 * The aggregate resource: create an aggregate on an existing storage system, add
 * disks to one, or delete one, waiting each time on the audit entry of the request.
 */
module Aggregate {
  import opened Api
  import opened OccmHelper

  /** Attempts of the request-id poll, and the seconds paused after each one. */
  const PollBudget: nat := 60
  const PollInterval: nat := 10

  /** The detail fields create asks for. */
  const ClusterFields: seq<string> := ["ontapClusterProperties"]

  datatype Properties = Properties(
    occmUser: string,
    occmPassword: string,
    ontapName: string,
    aggregate: string,
    diskCount: int,
    ebsVolumeType: string,
    ebsVolumeSize: string)

  /** The opening: create skips the ontap_name check, add and delete make it. */
  function OpenRun(s: Server, p: Properties, checkName: bool): Trace<Option<Environment>>
  {
    Open(s, p.ontapName, p.occmUser, p.occmPassword, checkName)
  }

  /** Body of the creation POST for a system and its first cluster node. */
  function Payload(p: Properties, publicId: string, homeNode: string): AggregatePayload
  {
    AggregatePayload(p.aggregate, publicId, p.diskCount, SplitSize(p.ebsVolumeSize), homeNode, p.ebsVolumeType)
  }

  /** Create on a system that exists: skip a listed aggregate, otherwise read the
      cluster nodes, post the aggregate on the first node, and wait for it. */
  function BuildRun(s: Server, p: Properties, env: Environment): Trace<bool>
  {
    if p.aggregate in s.aggregates(env.publicId) then Trace(Ok(false), [GetAggregates(env.publicId)])
    else
      var read := [GetAggregates(env.publicId), GetDetail(env.publicId, ClusterFields)];
      match GetOntapDetails(s.detail(env.publicId), env.publicId)
      case None => Trace(Err(NilValue("ontapClusterProperties")), read)
      case Some(d) =>
        if d.nodes == [] then Trace(Err(NilValue("nodes[0]")), read)
        else Then(read + [PostAggregate(Payload(p, env.publicId, d.nodes[0].name))],
                  Settle(s, true, PollBudget, PollInterval))
  }

  /** The create action. */
  function CreateRun(s: Server, p: Properties): Trace<bool>
  {
    var open := OpenRun(s, p, false);
    if open.outcome.Err? then Trace(Err(open.outcome.error), open.events)
    else if open.outcome.value.None? then Trace(Err(SystemDoesNotExist(p.ontapName)), open.events)
    else Then(open.events, BuildRun(s, p, open.outcome.value.value))
  }

  /** The add-disks action: the aggregate must be listed for the system. */
  function AddRun(s: Server, p: Properties): Trace<bool>
  {
    var open := OpenRun(s, p, true);
    if open.outcome.Err? then Trace(Err(open.outcome.error), open.events)
    else if open.outcome.value.None? then Trace(Err(SystemDoesNotExist(p.ontapName)), open.events)
    else
      var id := open.outcome.value.value.publicId;
      var listed := open.events + [GetAggregates(id)];
      if p.aggregate !in s.aggregates(id) then Trace(Err(AggregateNotFound(p.aggregate, p.ontapName)), listed)
      else Then(listed + [PostDisks(id, p.aggregate, p.diskCount)], Settle(s, true, PollBudget, PollInterval))
  }

  /** The delete action: an aggregate that is not listed is left alone. */
  function DeleteRun(s: Server, p: Properties): Trace<bool>
  {
    var open := OpenRun(s, p, true);
    if open.outcome.Err? then Trace(Err(open.outcome.error), open.events)
    else if open.outcome.value.None? then Trace(Err(SystemDoesNotExist(p.ontapName)), open.events)
    else
      var id := open.outcome.value.value.publicId;
      var listed := open.events + [GetAggregates(id)];
      if p.aggregate !in s.aggregates(id) then Trace(Ok(false), listed)
      else Then(listed + [DeleteAggregate(id, p.aggregate)], Settle(s, true, PollBudget, PollInterval))
  }

  method Build(s: Server, p: Properties, env: Environment) returns (t: Trace<bool>)
    ensures t == BuildRun(s, p, env)
  {
    var aggregateContent := s.aggregates(env.publicId);
    if p.aggregate in aggregateContent {
      return Trace(Ok(false), [GetAggregates(env.publicId)]);
    }
    var read := [GetAggregates(env.publicId), GetDetail(env.publicId, ClusterFields)];
    var clusterContent := GetOntapDetails(s.detail(env.publicId), env.publicId);
    if clusterContent.None? {
      return Trace(Err(NilValue("ontapClusterProperties")), read);
    }
    if clusterContent.value.nodes == [] {
      return Trace(Err(NilValue("nodes[0]")), read);
    }
    var homeNode := clusterContent.value.nodes[0].name;
    var settled := SettleMutation(s, true, PollBudget, PollInterval);
    t := Then(read + [PostAggregate(Payload(p, env.publicId, homeNode))], settled);
  }

  method Create(pr: Provider, s: Server, p: Properties) returns (t: Trace<bool>)
    modifies pr
    ensures t == CreateRun(s, p)
    ensures pr.authCookie == CookieAfterOpen(s, p.ontapName, p.occmUser, p.occmPassword, false, old(pr.authCookie))
  {
    var open := pr.OpenSession(s, p.ontapName, p.occmUser, p.occmPassword, false);
    if open.outcome.Err? {
      return Trace(Err(open.outcome.error), open.events);
    }
    if open.outcome.value.None? {
      return Trace(Err(SystemDoesNotExist(p.ontapName)), open.events);
    }
    var built := Build(s, p, open.outcome.value.value);
    t := Then(open.events, built);
  }

  method Add(pr: Provider, s: Server, p: Properties) returns (t: Trace<bool>)
    modifies pr
    ensures t == AddRun(s, p)
    ensures pr.authCookie == CookieAfterOpen(s, p.ontapName, p.occmUser, p.occmPassword, true, old(pr.authCookie))
  {
    var open := pr.OpenSession(s, p.ontapName, p.occmUser, p.occmPassword, true);
    if open.outcome.Err? {
      return Trace(Err(open.outcome.error), open.events);
    }
    if open.outcome.value.None? {
      return Trace(Err(SystemDoesNotExist(p.ontapName)), open.events);
    }
    var id := open.outcome.value.value.publicId;
    var listed := open.events + [GetAggregates(id)];
    if p.aggregate !in s.aggregates(id) {
      return Trace(Err(AggregateNotFound(p.aggregate, p.ontapName)), listed);
    }
    var settled := SettleMutation(s, true, PollBudget, PollInterval);
    t := Then(listed + [PostDisks(id, p.aggregate, p.diskCount)], settled);
  }

  method Delete(pr: Provider, s: Server, p: Properties) returns (t: Trace<bool>)
    modifies pr
    ensures t == DeleteRun(s, p)
    ensures pr.authCookie == CookieAfterOpen(s, p.ontapName, p.occmUser, p.occmPassword, true, old(pr.authCookie))
  {
    var open := pr.OpenSession(s, p.ontapName, p.occmUser, p.occmPassword, true);
    if open.outcome.Err? {
      return Trace(Err(open.outcome.error), open.events);
    }
    if open.outcome.value.None? {
      return Trace(Err(SystemDoesNotExist(p.ontapName)), open.events);
    }
    var id := open.outcome.value.value.publicId;
    var listed := open.events + [GetAggregates(id)];
    if p.aggregate !in s.aggregates(id) {
      return Trace(Ok(false), listed);
    }
    var settled := SettleMutation(s, true, PollBudget, PollInterval);
    t := Then(listed + [DeleteAggregate(id, p.aggregate)], settled);
  }

  // ---------------------------------------------------------------------------
  // Properties of the three actions
  // ---------------------------------------------------------------------------

  /** The opening ran and found the system; its public id. */
  predicate Found(s: Server, p: Properties, checkName: bool)
  {
    OpenRun(s, p, checkName).outcome.Ok? && OpenRun(s, p, checkName).outcome.value.Some?
  }

  function FoundId(s: Server, p: Properties, checkName: bool): string
    requires Found(s, p, checkName)
  {
    OpenRun(s, p, checkName).outcome.value.value.publicId
  }

  /** Every action raises a RuntimeError, not an ArgumentError, when the system is
      not listed, and changes nothing. */
  lemma MissingSystemRaises(s: Server, p: Properties)
    ensures OpenRun(s, p, false).outcome == Ok(None) ==>
              CreateRun(s, p).outcome == Err(SystemDoesNotExist(p.ontapName)) && NoMutation(CreateRun(s, p).events)
    ensures OpenRun(s, p, true).outcome == Ok(None) ==>
              AddRun(s, p).outcome == Err(SystemDoesNotExist(p.ontapName)) && NoMutation(AddRun(s, p).events) &&
              DeleteRun(s, p).outcome == Err(SystemDoesNotExist(p.ontapName)) && NoMutation(DeleteRun(s, p).events)
    ensures !IsArgumentError(SystemDoesNotExist(p.ontapName))
  {
    OpenNoMutation(s, p.ontapName, p.occmUser, p.occmPassword, false);
    OpenNoMutation(s, p.ontapName, p.occmUser, p.occmPassword, true);
  }

  /** Create never checks ontap_name: once the probe and login succeed, any name
      reaches the system lookup. Add and delete reject a name that fails the check
      as written before login. */
  lemma OnlyAddAndDeleteCheckName(s: Server, p: Properties)
    requires Liveness(s.probe, Some(1), 0).outcome.Ok? && Login(s, p.occmUser, p.occmPassword).outcome.Ok?
    ensures OpenRun(s, p, false).outcome.Ok?
    ensures !NameAcceptedAsWritten(p.ontapName) ==>
              AddRun(s, p).outcome == Err(InvalidName(p.ontapName)) && NoLogin(AddRun(s, p).events) &&
              DeleteRun(s, p).outcome == Err(InvalidName(p.ontapName)) && NoLogin(DeleteRun(s, p).events)
  {
    if !NameAcceptedAsWritten(p.ontapName) {
      InvalidNameBeforeLogin(s, p.ontapName, p.occmUser, p.occmPassword);
    }
  }

  /** Credentials refused with a 401 fail create, and add and delete once the name
      passes, with the authentication ArgumentError right after the login POST. */
  lemma LoginRejectedStops(s: Server, p: Properties, prior: Option<string>)
    requires Liveness(s.probe, Some(1), 0).outcome.Ok? && s.login.code == 401
    ensures var stopped := Trace(Err(AuthenticationFailed), Liveness(s.probe, Some(1), 0).events + [PostLogin(p.occmUser, p.occmPassword)]);
            CreateRun(s, p) == stopped &&
            (NameAcceptedAsWritten(p.ontapName) ==> AddRun(s, p) == stopped && DeleteRun(s, p) == stopped)
    ensures NoMutation(CreateRun(s, p).events)
    ensures CookieAfterOpen(s, p.ontapName, p.occmUser, p.occmPassword, false, prior) == prior
  {
    OccmHelper.LoginRejectedStops(s, p.ontapName, p.occmUser, p.occmPassword, false, prior);
    if NameAcceptedAsWritten(p.ontapName) {
      OccmHelper.LoginRejectedStops(s, p.ontapName, p.occmUser, p.occmPassword, true, prior);
    }
  }

  /** Create reports no change and mutates nothing when the aggregate is listed. */
  lemma CreateSkipsExisting(s: Server, p: Properties)
    requires Found(s, p, false) && p.aggregate in s.aggregates(FoundId(s, p, false))
    ensures CreateRun(s, p).outcome == Ok(false)
    ensures NoMutation(CreateRun(s, p).events)
  {
    var open := OpenRun(s, p, false);
    OpenNoMutation(s, p.ontapName, p.occmUser, p.occmPassword, false);
    NoMutationAppend(open.events, [GetAggregates(FoundId(s, p, false))]);
  }

  /** Create on an unlisted aggregate posts the requested disk count, the split
      volume size, the volume type, and the first cluster node as home node. */
  lemma CreateSendsPayload(s: Server, p: Properties)
    requires Found(s, p, false) && p.aggregate !in s.aggregates(FoundId(s, p, false))
    requires s.detail(FoundId(s, p, false)).publicId == FoundId(s, p, false)
    requires s.detail(FoundId(s, p, false)).nodes != []
    ensures var id := FoundId(s, p, false);
            var payload := Payload(p, id, s.detail(id).nodes[0].name);
            payload.numberOfDisks == p.diskCount && payload.diskSize == SplitSize(p.ebsVolumeSize) &&
            payload.providerVolumeType == p.ebsVolumeType && payload.workingEnvironmentId == id &&
            CreateRun(s, p) == Then(OpenRun(s, p, false).events +
                                      [GetAggregates(id), GetDetail(id, ClusterFields), PostAggregate(payload)],
                                    Settle(s, true, PollBudget, PollInterval))
  {
    var id := FoundId(s, p, false);
    var read := [GetAggregates(id), GetDetail(id, ClusterFields)];
    var post := PostAggregate(Payload(p, id, s.detail(id).nodes[0].name));
    assert read + [post] == [GetAggregates(id), GetDetail(id, ClusterFields), post];
  }

  /** A detail body for another system, or one without nodes, stops create before
      anything is posted. */
  lemma CreateNeedsClusterNode(s: Server, p: Properties)
    requires Found(s, p, false) && p.aggregate !in s.aggregates(FoundId(s, p, false))
    requires s.detail(FoundId(s, p, false)).publicId != FoundId(s, p, false) || s.detail(FoundId(s, p, false)).nodes == []
    ensures CreateRun(s, p).outcome.Err? && CreateRun(s, p).outcome.error.NilValue?
    ensures NoMutation(CreateRun(s, p).events)
  {
    var open := OpenRun(s, p, false);
    var id := FoundId(s, p, false);
    OpenNoMutation(s, p.ontapName, p.occmUser, p.occmPassword, false);
    NoMutationAppend(open.events, [GetAggregates(id), GetDetail(id, ClusterFields)]);
  }

  /** Add raises when the aggregate is not listed, and otherwise posts disk_count
      disks to that aggregate of that system. */
  lemma AddRequiresAggregate(s: Server, p: Properties)
    requires Found(s, p, true)
    ensures var id := FoundId(s, p, true);
            p.aggregate !in s.aggregates(id) ==>
              AddRun(s, p).outcome == Err(AggregateNotFound(p.aggregate, p.ontapName)) && NoMutation(AddRun(s, p).events)
    ensures var id := FoundId(s, p, true);
            p.aggregate in s.aggregates(id) ==>
              AddRun(s, p) == Then(OpenRun(s, p, true).events + [GetAggregates(id), PostDisks(id, p.aggregate, p.diskCount)],
                                   Settle(s, true, PollBudget, PollInterval))
  {
    var open := OpenRun(s, p, true);
    var id := FoundId(s, p, true);
    OpenNoMutation(s, p.ontapName, p.occmUser, p.occmPassword, true);
    NoMutationAppend(open.events, [GetAggregates(id)]);
    assert open.events + [GetAggregates(id)] + [PostDisks(id, p.aggregate, p.diskCount)]
        == open.events + [GetAggregates(id), PostDisks(id, p.aggregate, p.diskCount)];
  }

  /** Delete leaves an unlisted aggregate alone and otherwise sends one DELETE. */
  lemma DeleteSkipsAbsent(s: Server, p: Properties)
    requires Found(s, p, true)
    ensures var id := FoundId(s, p, true);
            p.aggregate !in s.aggregates(id) ==>
              DeleteRun(s, p).outcome == Ok(false) && NoMutation(DeleteRun(s, p).events)
    ensures var id := FoundId(s, p, true);
            p.aggregate in s.aggregates(id) ==>
              DeleteRun(s, p) == Then(OpenRun(s, p, true).events + [GetAggregates(id), DeleteAggregate(id, p.aggregate)],
                                      Settle(s, true, PollBudget, PollInterval))
  {
    var open := OpenRun(s, p, true);
    var id := FoundId(s, p, true);
    OpenNoMutation(s, p.ontapName, p.occmUser, p.occmPassword, true);
    NoMutationAppend(open.events, [GetAggregates(id)]);
    assert open.events + [GetAggregates(id)] + [DeleteAggregate(id, p.aggregate)]
        == open.events + [GetAggregates(id), DeleteAggregate(id, p.aggregate)];
  }

  /** The poll pauses at most 60 times, 10 seconds each: 10 minutes in all; it
      times out exactly when all 60 attempts see a pending entry. */
  lemma WaitAggregateBudget(requestId: string, feed: AuditFeed)
    ensures Sleeps(AwaitRequest(requestId, feed, PollBudget, PollInterval, 0).events) <= 60
    ensures Paused(AwaitRequest(requestId, feed, PollBudget, PollInterval, 0).events) <= 600
    ensures AwaitRequest(requestId, feed, PollBudget, PollInterval, 0).outcome == Err(PollTimeout(PollTimeoutMessage))
        <==> forall k :: 0 <= k < 60 ==> Pending(feed(k))
  {
    AwaitRequestBounded(requestId, feed, PollBudget, PollInterval, 0);
    AwaitRequestTimeoutIff(requestId, feed, PollBudget, PollInterval, 0);
  }

  /** The aggregate list of one system with name appended. */
  function WithAggregate(s: Server, publicId: string, name: string): Server
  {
    s.(aggregates := (id: string) => if id == publicId then s.aggregates(id) + [name] else s.aggregates(id))
  }

  /** A list of names without any occurrence of name. */
  function Without(names: seq<string>, name: string): (r: seq<string>)
    ensures name !in r
    ensures forall n :: n in r <==> n in names && n != name
  {
    if names == [] then []
    else if names[0] == name then Without(names[1..], name)
    else [names[0]] + Without(names[1..], name)
  }

  /** The aggregate list of one system with name removed. */
  function WithoutAggregate(s: Server, publicId: string, name: string): Server
  {
    s.(aggregates := (id: string) => if id == publicId then Without(s.aggregates(id), name) else s.aggregates(id))
  }

  /** Creating twice changes nothing the second time. */
  lemma CreateIdempotent(s: Server, p: Properties)
    requires Found(s, p, false)
    ensures CreateRun(WithAggregate(s, FoundId(s, p, false), p.aggregate), p).outcome == Ok(false)
    ensures NoMutation(CreateRun(WithAggregate(s, FoundId(s, p, false), p.aggregate), p).events)
  {
    var s' := WithAggregate(s, FoundId(s, p, false), p.aggregate);
    assert OpenRun(s', p, false) == OpenRun(s, p, false);
    CreateSkipsExisting(s', p);
  }

  /** Deleting twice changes nothing the second time. */
  lemma DeleteIdempotent(s: Server, p: Properties)
    requires Found(s, p, true)
    ensures DeleteRun(WithoutAggregate(s, FoundId(s, p, true), p.aggregate), p).outcome == Ok(false)
    ensures NoMutation(DeleteRun(WithoutAggregate(s, FoundId(s, p, true), p.aggregate), p).events)
  {
    var s' := WithoutAggregate(s, FoundId(s, p, true), p.aggregate);
    assert OpenRun(s', p, true) == OpenRun(s, p, true);
    DeleteSkipsAbsent(s', p);
  }
}
