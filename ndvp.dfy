/**
 * The docker volume plugin resource: read the storage system's cluster detail and
 * pick the management interface, the NFS data interface and the aggregate the
 * plugin's configuration names; and the older poll of a system's audit log keyed
 * on an action name.
 */
module Ndvp {
  import opened Api
  import opened OccmHelper

  /** The detail fields the config action asks for. */
  const DetailFields: seq<string> := ["ontapClusterProperties", "svms", "capacityFeatures"]
  const ManagementLifType := "SVM Management"
  const DataLifType := "Data"
  const SvmUsername := "vsadmin"
  const DefaultVolumeSize := "20GB"

  /** The action whose audit entries the poll watches unless told otherwise. */
  const DefaultActionType := "Create Vsa Working Environment"
  const PollBudget: nat := 90
  const PollInterval: nat := 30
  const TimeoutMessage := "Failed to wait for ONTAP Cloud system"

  datatype Properties = Properties(
    occmUser: string,
    occmPassword: string,
    ontapName: string,
    svmPassword: string)

  /** The variables of the plugin's configuration file. */
  datatype DriverConfig = DriverConfig(
    managementIp: string,
    dataIp: string,
    svmName: Option<string>,
    svmUsername: string,
    svmPassword: string,
    aggregate: Option<string>,
    size: string,
    exportPolicy: string)

  // ---------------------------------------------------------------------------
  // Selection from the cluster detail
  // ---------------------------------------------------------------------------

  predicate IsManagementLif(l: Lif)
  {
    l.lifType == ManagementLifType
  }

  predicate IsNfsDataLif(l: Lif)
  {
    l.lifType == DataLifType && "nfs" in l.dataProtocols
  }

  /** The address of the first SVM management interface. */
  function ManagementIp(lifs: seq<Lif>): (r: Option<string>)
    ensures r.None? <==> forall j :: 0 <= j < |lifs| ==> !IsManagementLif(lifs[j])
    ensures r.Some? ==> exists i :: 0 <= i < |lifs| && IsManagementLif(lifs[i]) && r.value == lifs[i].ip &&
                                    forall j :: 0 <= j < i ==> !IsManagementLif(lifs[j])
  {
    match Find(lifs, IsManagementLif)
    case None => None
    case Some(i) => Some(lifs[i].ip)
  }

  /** The address of the first data interface that serves NFS. */
  function DataIp(lifs: seq<Lif>): (r: Option<string>)
    ensures r.None? <==> forall j :: 0 <= j < |lifs| ==> !IsNfsDataLif(lifs[j])
    ensures r.Some? ==> exists i :: 0 <= i < |lifs| && IsNfsDataLif(lifs[i]) && r.value == lifs[i].ip &&
                                    forall j :: 0 <= j < i ==> !IsNfsDataLif(lifs[j])
  {
    match Find(lifs, IsNfsDataLif)
    case None => None
    case Some(i) => Some(lifs[i].ip)
  }

  /** Name of the SVM that belongs to a system. */
  function SvmNameOf(ontapName: string): string
  {
    "svm_" + ontapName
  }

  /** The first allowed aggregate of the system's SVM; none when that SVM allows
      none, an error when the SVM is missing. */
  function SvmAggregate(svms: seq<Svm>, ontapName: string): (r: Result<Option<string>>)
    ensures r.Err? <==> forall j :: 0 <= j < |svms| ==> svms[j].name != SvmNameOf(ontapName)
    ensures r.Ok? ==> exists i :: 0 <= i < |svms| && svms[i].name == SvmNameOf(ontapName) &&
                                  (forall j :: 0 <= j < i ==> svms[j].name != SvmNameOf(ontapName)) &&
                                  r.value == (if svms[i].allowedAggregates == [] then None
                                              else Some(svms[i].allowedAggregates[0]))
  {
    match Find(svms, (svm: Svm) => svm.name == SvmNameOf(ontapName))
    case None => Err(NilValue("svm"))
    case Some(i) =>
      Ok(if svms[i].allowedAggregates == [] then None else Some(svms[i].allowedAggregates[0]))
  }

  /** The configuration read off a detail body, in the order the action reads it. */
  function Select(d: Detail, p: Properties): Result<DriverConfig>
  {
    if d.nodes == [] then Err(NilValue("nodes[0]"))
    else
      var lifs := d.nodes[0].lifs;
      match ManagementIp(lifs)
      case None => Err(NilValue("management interface"))
      case Some(mgmt) =>
        match DataIp(lifs)
        case None => Err(NilValue("data interface"))
        case Some(data) =>
          match SvmAggregate(d.svms, p.ontapName)
          case Err(e) => Err(e)
          case Ok(aggr) =>
            Ok(DriverConfig(mgmt, data, d.svmName, SvmUsername, p.svmPassword, aggr,
                            DefaultVolumeSize, "export-" + SvmNameOf(p.ontapName)))
  }

  /** The config action. */
  function ConfigRun(s: Server, p: Properties): Trace<DriverConfig>
  {
    var open := Open(s, p.ontapName, p.occmUser, p.occmPassword, true);
    if open.outcome.Err? then Trace(Err(open.outcome.error), open.events)
    else if open.outcome.value.None? then Trace(Err(SystemNotFound(p.ontapName)), open.events)
    else
      var id := open.outcome.value.value.publicId;
      var read := open.events + [GetDetail(id, DetailFields)];
      match GetOntapDetails(s.detail(id), id)
      case None => Trace(Err(NilValue("ontapClusterProperties")), read)
      case Some(d) => Trace(Select(d, p), read)
  }

  method Config(pr: Provider, s: Server, p: Properties) returns (t: Trace<DriverConfig>)
    modifies pr
    ensures t == ConfigRun(s, p)
    ensures pr.authCookie == CookieAfterOpen(s, p.ontapName, p.occmUser, p.occmPassword, true, old(pr.authCookie))
  {
    var open := pr.OpenSession(s, p.ontapName, p.occmUser, p.occmPassword, true);
    if open.outcome.Err? {
      return Trace(Err(open.outcome.error), open.events);
    }
    if open.outcome.value.None? {
      return Trace(Err(SystemNotFound(p.ontapName)), open.events);
    }
    var id := open.outcome.value.value.publicId;
    var read := open.events + [GetDetail(id, DetailFields)];
    var outputContent := GetOntapDetails(s.detail(id), id);
    if outputContent.None? {
      return Trace(Err(NilValue("ontapClusterProperties")), read);
    }
    t := Trace(Select(outputContent.value, p), read);
  }

  /** A name that fails the check as written is refused before login. */
  lemma ConfigChecksName(s: Server, p: Properties)
    requires Liveness(s.probe, Some(1), 0).outcome.Ok? && !NameAcceptedAsWritten(p.ontapName)
    ensures ConfigRun(s, p).outcome == Err(InvalidName(p.ontapName))
    ensures NoLogin(ConfigRun(s, p).events)
  {
    InvalidNameBeforeLogin(s, p.ontapName, p.occmUser, p.occmPassword);
  }

  /** Credentials refused with a 401 fail the lookup with the authentication
      ArgumentError right after the login POST; the detail is never read. */
  lemma ConfigLoginRejected(s: Server, p: Properties, prior: Option<string>)
    requires Liveness(s.probe, Some(1), 0).outcome.Ok? && NameAcceptedAsWritten(p.ontapName)
    requires s.login.code == 401
    ensures ConfigRun(s, p) == Trace(Err(AuthenticationFailed), Liveness(s.probe, Some(1), 0).events + [PostLogin(p.occmUser, p.occmPassword)])
    ensures IsArgumentError(ConfigRun(s, p).outcome.error)
    ensures CookieAfterOpen(s, p.ontapName, p.occmUser, p.occmPassword, true, prior) == prior
  {
    LoginRejectedStops(s, p.ontapName, p.occmUser, p.occmPassword, true, prior);
  }

  /** A system that is not listed raises an ArgumentError naming it, and the
      detail is never read. */
  lemma ConfigNeedsSystem(s: Server, p: Properties)
    requires Open(s, p.ontapName, p.occmUser, p.occmPassword, true).outcome == Ok(None)
    ensures ConfigRun(s, p).outcome == Err(SystemNotFound(p.ontapName))
    ensures IsArgumentError(ConfigRun(s, p).outcome.error)
    ensures ConfigRun(s, p).events == Open(s, p.ontapName, p.occmUser, p.occmPassword, true).events
  {
  }

  /** The config action only reads: it sends no request that changes the server. */
  lemma ConfigReadsOnly(s: Server, p: Properties)
    ensures NoMutation(ConfigRun(s, p).events)
  {
    var open := Open(s, p.ontapName, p.occmUser, p.occmPassword, true);
    OpenNoMutation(s, p.ontapName, p.occmUser, p.occmPassword, true);
    if open.outcome.Ok? && open.outcome.value.Some? {
      NoMutationAppend(open.events, [GetDetail(open.outcome.value.value.publicId, DetailFields)]);
    }
  }

  /** A configuration, when one results, names the first management interface and
      the first NFS data interface of the first cluster node, the system's SVM,
      user "vsadmin", a 20GB default size and the SVM's export policy. */
  lemma ConfigSelects(s: Server, p: Properties)
    requires ConfigRun(s, p).outcome.Ok?
    ensures var id := GetOntapEnv(s.environments, p.ontapName).value.publicId;
            var d := s.detail(id);
            var c := ConfigRun(s, p).outcome.value;
            d.publicId == id && d.nodes != [] &&
            Some(c.managementIp) == ManagementIp(d.nodes[0].lifs) &&
            Some(c.dataIp) == DataIp(d.nodes[0].lifs) &&
            Ok(c.aggregate) == SvmAggregate(d.svms, p.ontapName) &&
            c.svmName == d.svmName && c.svmUsername == "vsadmin" && c.svmPassword == p.svmPassword &&
            c.size == "20GB" && c.exportPolicy == "export-svm_" + p.ontapName
  {
  }

  // ---------------------------------------------------------------------------
  // The audit poll keyed on an action name
  // ---------------------------------------------------------------------------

  predicate IsEnvironmentAuditPoll(e: Event)
  {
    e.GetAuditByEnvironment?
  }

  /** Whether any entry of one audit body is about the given action. */
  predicate HasMatch(entries: seq<AuditEntry>, actionType: string)
  {
    exists i :: 0 <= i < |entries| && entries[i].actionName == actionType
  }

  /** The scan of one audit body: a verdict when a matching entry settled, and the
      attempt counter with one pause per matching entry still pending. */
  datatype Scan = Scan(verdict: Option<Result<bool>>, counter: nat, events: seq<Event>)

  function ScanAudit(entries: seq<AuditEntry>, actionType: string, counter: nat): (r: Scan)
    ensures r.counter == counter + |r.events|
    ensures forall i :: 0 <= i < |r.events| ==> r.events[i] == Sleep(PollInterval)
    decreases |entries|
  {
    if entries == [] then Scan(None, counter, [])
    else if entries[0].actionName != actionType then ScanAudit(entries[1..], actionType, counter)
    else if entries[0].status == "Success" then Scan(Some(Ok(true)), counter, [])
    else if entries[0].status == "Failed" then Scan(Some(Err(OperationFailed(entries[0].errorMessage))), counter, [])
    else
      var rest := ScanAudit(entries[1..], actionType, counter + 1);
      Scan(rest.verdict, rest.counter, [Sleep(PollInterval)] + rest.events)
  }

  /** A body with no entry for the action yields no verdict and spends nothing. */
  lemma {:induction false} ScanWithoutMatch(entries: seq<AuditEntry>, actionType: string, counter: nat)
    requires !HasMatch(entries, actionType)
    ensures ScanAudit(entries, actionType, counter) == Scan(None, counter, [])
    decreases |entries|
  {
    if entries != [] {
      assert !HasMatch(entries[1..], actionType) by {
        forall i | 0 <= i < |entries[1..]| ensures entries[1..][i].actionName != actionType {
          assert entries[1..][i] == entries[i + 1];
        }
      }
      ScanWithoutMatch(entries[1..], actionType, counter);
    }
  }

  /** A body with an entry for the action either settles or spends an attempt. */
  lemma {:induction false} ScanWithMatch(entries: seq<AuditEntry>, actionType: string, counter: nat)
    requires HasMatch(entries, actionType)
    ensures ScanAudit(entries, actionType, counter).verdict.None? ==> ScanAudit(entries, actionType, counter).counter > counter
    decreases |entries|
  {
    if entries[0].actionName != actionType {
      var i :| 0 <= i < |entries| && entries[i].actionName == actionType;
      assert entries[1..][i - 1] == entries[i];
      ScanWithMatch(entries[1..], actionType, counter);
    }
  }

  /** The entries of a body that belong to the action, in their order. */
  function Matching(entries: seq<AuditEntry>, actionType: string): (r: seq<AuditEntry>)
    ensures |r| <= |entries|
    ensures forall i :: 0 <= i < |r| ==> r[i].actionName == actionType
    ensures forall e :: e in r <==> e in entries && e.actionName == actionType
    decreases |entries|
  {
    if entries == [] then []
    else if entries[0].actionName == actionType then [entries[0]] + Matching(entries[1..], actionType)
    else Matching(entries[1..], actionType)
  }

  /** Entries of other actions play no part in a scan, wherever they stand. */
  lemma {:induction false} ScanIgnoresOtherActions(entries: seq<AuditEntry>, actionType: string, counter: nat)
    ensures ScanAudit(entries, actionType, counter) == ScanAudit(Matching(entries, actionType), actionType, counter)
    decreases |entries|
  {
    if entries != [] {
      ScanIgnoresOtherActions(entries[1..], actionType, counter);
      if entries[0].actionName == actionType {
        var m := Matching(entries, actionType);
        assert m[0] == entries[0] && m[1..] == Matching(entries[1..], actionType);
        ScanIgnoresOtherActions(entries[1..], actionType, counter + 1);
      }
    }
  }

  /** An entry whose status ends the wait. */
  predicate Settled(e: AuditEntry)
  {
    e.status == "Success" || e.status == "Failed"
  }

  /** On the entries of the action, the scan pauses once per pending entry before
      the first settled one, and that entry gives the verdict; with none settled
      there is no verdict. */
  lemma {:induction false} ScanSettlesAtFirst(entries: seq<AuditEntry>, actionType: string, counter: nat, k: nat)
    requires forall i :: 0 <= i < |entries| ==> entries[i].actionName == actionType
    requires k <= |entries| && (forall j :: 0 <= j < k ==> !Settled(entries[j]))
    requires k < |entries| ==> Settled(entries[k])
    ensures |ScanAudit(entries, actionType, counter).events| == k
    ensures ScanAudit(entries, actionType, counter).counter == counter + k
    ensures ScanAudit(entries, actionType, counter).verdict ==
              if k == |entries| then None
              else if entries[k].status == "Success" then Some(Ok(true))
              else Some(Err(OperationFailed(entries[k].errorMessage)))
    decreases k
  {
    if k > 0 {
      assert !Settled(entries[0]);
      ScanSettlesAtFirst(entries[1..], actionType, counter + 1, k - 1);
    }
  }

  /** The poll as written: the attempt counter moves only on pending entries for
      the action, so it is run here for at most fuel GETs; None means the loop was
      still running when the fuel ran out. */
  function AsWrittenWait(publicId: string, feed: AuditFeed, actionType: string, poll: nat, counter: nat, fuel: nat)
    : Option<Trace<bool>>
    decreases fuel
  {
    if counter >= PollBudget then Some(Trace(Err(PollTimeout(TimeoutMessage)), []))
    else if fuel == 0 then None
    else
      var sc := ScanAudit(feed(poll), actionType, counter);
      var got := [GetAuditByEnvironment(publicId)] + sc.events;
      if sc.verdict.Some? then Some(Trace(sc.verdict.value, got))
      else
        match AsWrittenWait(publicId, feed, actionType, poll + 1, sc.counter, fuel - 1)
        case None => None
        case Some(rest) => Some(Trace(rest.outcome, got + rest.events))
  }

  /** As written, a log that never mentions the action keeps the loop polling for
      ever: however many GETs are allowed, no outcome is reached. */
  lemma {:induction false} NoMatchingEntryNeverExits(publicId: string, feed: AuditFeed, actionType: string,
                                                     poll: nat, counter: nat, fuel: nat)
    requires counter < PollBudget
    requires forall k :: !HasMatch(feed(k), actionType)
    ensures AsWrittenWait(publicId, feed, actionType, poll, counter, fuel) == None
    decreases fuel
  {
    if fuel > 0 {
      ScanWithoutMatch(feed(poll), actionType, counter);
      NoMatchingEntryNeverExits(publicId, feed, actionType, poll + 1, counter, fuel - 1);
    }
  }

  /** The poll corrected: a GET whose body has no pending entry for the action
      spends one attempt and one pause, so the budget of 90 attempts bounds it. */
  function AwaitAction(publicId: string, feed: AuditFeed, actionType: string, poll: nat, counter: nat): Trace<bool>
    decreases if counter < PollBudget then PollBudget - counter else 0
  {
    if counter >= PollBudget then Trace(Err(PollTimeout(TimeoutMessage)), [])
    else
      var sc := ScanAudit(feed(poll), actionType, counter);
      var got := [GetAuditByEnvironment(publicId)] + sc.events;
      if sc.verdict.Some? then Trace(sc.verdict.value, got)
      else if sc.counter == counter then
        var rest := AwaitAction(publicId, feed, actionType, poll + 1, counter + 1);
        Trace(rest.outcome, got + [Sleep(PollInterval)] + rest.events)
      else
        var rest := AwaitAction(publicId, feed, actionType, poll + 1, sc.counter);
        Trace(rest.outcome, got + rest.events)
  }

  /** Where every body mentions the action, the corrected poll and the poll as
      written agree, and the loop as written ends within the budget. */
  lemma {:induction false} AwaitActionAgrees(publicId: string, feed: AuditFeed, actionType: string,
                                             poll: nat, counter: nat, fuel: nat)
    requires forall k :: HasMatch(feed(k), actionType)
    requires fuel + counter > PollBudget
    ensures AsWrittenWait(publicId, feed, actionType, poll, counter, fuel) == Some(AwaitAction(publicId, feed, actionType, poll, counter))
    decreases if counter < PollBudget then PollBudget - counter else 0
  {
    if counter < PollBudget {
      var sc := ScanAudit(feed(poll), actionType, counter);
      ScanWithMatch(feed(poll), actionType, counter);
      if sc.verdict.None? {
        AwaitActionAgrees(publicId, feed, actionType, poll + 1, sc.counter, fuel - 1);
      }
    }
  }

  /** The corrected poll issues at most one GET per attempt left in the budget. */
  lemma {:induction false} AwaitActionBounded(publicId: string, feed: AuditFeed, actionType: string, poll: nat, counter: nat)
    requires counter <= PollBudget
    ensures Count(AwaitAction(publicId, feed, actionType, poll, counter).events, IsEnvironmentAuditPoll) <= PollBudget - counter
    decreases PollBudget - counter
  {
    if counter < PollBudget {
      var sc := ScanAudit(feed(poll), actionType, counter);
      var got := [GetAuditByEnvironment(publicId)] + sc.events;
      CountAppend([GetAuditByEnvironment(publicId)], sc.events, IsEnvironmentAuditPoll);
      SleepsOnly(sc.events);
      if sc.verdict.None? {
        if sc.counter == counter {
          var rest := AwaitAction(publicId, feed, actionType, poll + 1, counter + 1);
          AwaitActionBounded(publicId, feed, actionType, poll + 1, counter + 1);
          CountAppend(got, [Sleep(PollInterval)], IsEnvironmentAuditPoll);
          CountAppend(got + [Sleep(PollInterval)], rest.events, IsEnvironmentAuditPoll);
        } else if sc.counter < PollBudget {
          var rest := AwaitAction(publicId, feed, actionType, poll + 1, sc.counter);
          AwaitActionBounded(publicId, feed, actionType, poll + 1, sc.counter);
          CountAppend(got, rest.events, IsEnvironmentAuditPoll);
        } else {
          CountAppend(got, [], IsEnvironmentAuditPoll);
        }
      }
    }
  }

  lemma {:induction false} SleepsOnly(events: seq<Event>)
    requires forall i :: 0 <= i < |events| ==> events[i] == Sleep(PollInterval)
    ensures Count(events, IsEnvironmentAuditPoll) == 0
    decreases |events|
  {
    if events != [] {
      SleepsOnly(events[1..]);
    }
  }

  /** A first body holding another action's entry and this action's Success ends
      the poll after one GET with no pause. */
  lemma SuccessAmongOtherActions(publicId: string, feed: AuditFeed, other: AuditEntry, done: AuditEntry)
    requires other.actionName != DefaultActionType
    requires done.actionName == DefaultActionType && done.status == "Success"
    requires feed(0) == [other, done]
    ensures AwaitAction(publicId, feed, DefaultActionType, 0, 0) == Trace(Ok(true), [GetAuditByEnvironment(publicId)])
  {
    assert feed(0)[1..] == [done];
    assert ScanAudit(feed(0), DefaultActionType, 0) == Scan(Some(Ok(true)), 0, []);
  }

  /** One audit body scanned entry by entry. */
  method ScanEntries(weEnv: seq<AuditEntry>, actionType: string, counter: nat) returns (sc: Scan)
    ensures sc == ScanAudit(weEnv, actionType, counter)
  {
    var c := counter;
    var pauses: seq<Event> := [];
    var i := 0;
    while i < |weEnv|
      invariant 0 <= i <= |weEnv|
      invariant ScanAudit(weEnv, actionType, counter).verdict == ScanAudit(weEnv[i..], actionType, c).verdict
      invariant ScanAudit(weEnv, actionType, counter).counter == ScanAudit(weEnv[i..], actionType, c).counter
      invariant ScanAudit(weEnv, actionType, counter).events == pauses + ScanAudit(weEnv[i..], actionType, c).events
      invariant c == counter + |pauses|
    {
      assert weEnv[i..][1..] == weEnv[i + 1..];
      var log := weEnv[i];
      if log.actionName == actionType {
        if log.status == "Success" {
          return Scan(Some(Ok(true)), c, pauses);
        } else if log.status == "Failed" {
          return Scan(Some(Err(OperationFailed(log.errorMessage))), c, pauses);
        }
        pauses := pauses + [Sleep(PollInterval)];
        c := c + 1;
      }
      i := i + 1;
    }
    assert weEnv[i..] == [];
    sc := Scan(None, c, pauses);
  }

  /** One pass of the corrected poll within the budget: the GET and the scan of its
      body, then the rest of the poll when the scan gave no verdict. */
  lemma AwaitActionStep(publicId: string, feed: AuditFeed, actionType: string, poll: nat, counter: nat, sc: Scan)
    requires counter < PollBudget && sc == ScanAudit(feed(poll), actionType, counter)
    ensures var t := AwaitAction(publicId, feed, actionType, poll, counter);
            var got := [GetAuditByEnvironment(publicId)] + sc.events;
            var next := if sc.counter == counter then counter + 1 else sc.counter;
            var pause := if sc.counter == counter then [Sleep(PollInterval)] else [];
            if sc.verdict.Some? then t == Trace(sc.verdict.value, got)
            else t.outcome == AwaitAction(publicId, feed, actionType, poll + 1, next).outcome &&
                 t.events == (got + pause) + AwaitAction(publicId, feed, actionType, poll + 1, next).events
  {
  }

  /** The corrected poll: one GET per pass, its body scanned, until a verdict or
      the budget runs out. */
  method WaitOntap(publicId: string, feed: AuditFeed, actionType: string) returns (t: Trace<bool>)
    ensures t == AwaitAction(publicId, feed, actionType, 0, 0)
  {
    var counter: nat := 0;
    var poll: nat := 0;
    var events: seq<Event> := [];
    while counter < PollBudget
      invariant AwaitAction(publicId, feed, actionType, 0, 0).outcome == AwaitAction(publicId, feed, actionType, poll, counter).outcome
      invariant AwaitAction(publicId, feed, actionType, 0, 0).events == events + AwaitAction(publicId, feed, actionType, poll, counter).events
      decreases PollBudget - counter
    {
      var sc := ScanEntries(feed(poll), actionType, counter);
      AwaitActionStep(publicId, feed, actionType, poll, counter, sc);
      var got := [GetAuditByEnvironment(publicId)] + sc.events;
      if sc.verdict.Some? {
        return Trace(sc.verdict.value, events + got);
      }
      var pause := if sc.counter == counter then [Sleep(PollInterval)] else [];
      ghost var rest := events;
      events := events + (got + pause);
      assert events + AwaitAction(publicId, feed, actionType, poll + 1, if sc.counter == counter then counter + 1 else sc.counter).events
          == rest + ((got + pause) + AwaitAction(publicId, feed, actionType, poll + 1, if sc.counter == counter then counter + 1 else sc.counter).events);
      counter := if sc.counter == counter then counter + 1 else sc.counter;
      poll := poll + 1;
    }
    t := Trace(Err(PollTimeout(TimeoutMessage)), events);
  }
}
