/**
 * The helper library every resource mixes in: status-code classification, the
 * liveness probe with its bounded retry, the configured-state sentinel, the session
 * cookie, the find-by-name lookups, the name pattern, the size-string split and the
 * poll of an audit entry by request id. The provider object that holds the session
 * cookie and records what a workflow sends to the server is declared here too.
 */
module OccmHelper {
  import opened Api

  /** Message of the configured-state probe when first-run setup has not happened. */
  const NotSetUpMessage := "OCCM must be setup before performing this operation."
  /** Seconds between two liveness probes. */
  const ProbeInterval: nat := 5
  /** Message raised by both request-id polls when their budget runs out. */
  const PollTimeoutMessage := "Failed to wait for aggregate process"

  // ---------------------------------------------------------------------------
  // Status classification
  // ---------------------------------------------------------------------------

  /** The three statuses a checked call lets through: 200, 202 and 204. */
  predicate Passes(code: int)
  {
    code == 200 || code == 202 || code == 204
  }

  /** The central status check applied to every checked call. */
  function Check(r: Response): (c: Result<Response>)
    ensures c.Ok? <==> Passes(r.code)
    ensures c.Ok? ==> c.value == r
    ensures c.Err? ==> (IsArgumentError(c.error) <==> r.code == 400 || r.code == 401)
    ensures c == Err(AuthenticationFailed) <==> r.code == 401
    ensures r.code == 400 ==> c == Err(BadRequest(r.message, r.violations))
    ensures c == Err(UnknownServerError) <==> (400 <= r.code < 500 && r.code != 400 && r.code != 401) || r.code == 500
  {
    if Passes(r.code) then Ok(r)
    else if r.code == 401 then Err(AuthenticationFailed)
    else if r.code == 400 then Err(BadRequest(r.message, r.violations))
    else if 400 <= r.code < 500 || r.code == 500 then Err(UnknownServerError)
    else Err(UnexpectedResponse(r.code))
  }

  /** Checking a response that already passed the check changes nothing, so the
      second check the resources apply to a mutation's answer is harmless. */
  lemma CheckIdempotent(r: Response)
    ensures Check(r).Ok? ==> Check(Check(r).value) == Check(r)
  {
  }

  // ---------------------------------------------------------------------------
  // Liveness probe
  // ---------------------------------------------------------------------------

  /** The liveness probe from its step-th attempt on. `wait == None` is a caller that
      asked for no waiting; `Some(n)` allows n pauses of ProbeInterval seconds. */
  function Liveness(probe: nat -> Probe, wait: Option<nat>, step: nat): Trace<bool>
    requires wait.Some? ==> step <= wait.value
    decreases if wait.Some? then wait.value - step else 0
  {
    match probe(step)
    case Answered(r) =>
      Trace(if Check(r).Ok? then Ok(true) else Err(Check(r).error), [GetAbout])
    case TransportError =>
      Trace(Err(TransportFailure), [GetAbout])
    case Unreachable =>
      if wait.None? then Trace(Ok(false), [GetAbout])
      else if step < wait.value then
        var rest := Liveness(probe, wait, step + 1);
        Trace(rest.outcome, [GetAbout, Sleep(ProbeInterval)] + rest.events)
      else Trace(Err(ServiceNeverReturned), [GetAbout])
  }

  /** The probe loop: retries an unreachable host, pausing between attempts. */
  method ServerResponding(probe: nat -> Probe, wait: Option<nat>) returns (t: Trace<bool>)
    ensures t == Liveness(probe, wait, 0)
  {
    var stepCount: nat := 0;
    var events: seq<Event> := [];
    while true
      invariant wait.Some? ==> stepCount <= wait.value
      invariant Liveness(probe, wait, 0).outcome == Liveness(probe, wait, stepCount).outcome
      invariant Liveness(probe, wait, 0).events == events + Liveness(probe, wait, stepCount).events
      decreases if wait.Some? then wait.value - stepCount else 0
    {
      events := events + [GetAbout];
      match probe(stepCount) {
        case Answered(r) =>
          var c := Check(r);
          if c.Ok? {
            return Trace(Ok(true), events);
          }
          return Trace(Err(c.error), events);
        case TransportError =>
          return Trace(Err(TransportFailure), events);
        case Unreachable =>
          if wait.None? {
            return Trace(Ok(false), events);
          }
          if stepCount < wait.value {
            events := events + [Sleep(ProbeInterval)];
            stepCount := stepCount + 1;
          } else {
            return Trace(Err(ServiceNeverReturned), events);
          }
      }
    }
  }

  /** One probe whose status passes is enough: true, with no pause. */
  lemma RespondingAtOnce(probe: nat -> Probe, wait: Option<nat>)
    requires probe(0).Answered? && Passes(probe(0).response.code)
    ensures Liveness(probe, wait, 0) == Trace(Ok(true), [GetAbout])
  {
  }

  /** An unreachable host with no wait requested: false at once, no pause. */
  lemma UnreachableWithoutWait(probe: nat -> Probe)
    requires probe(0) == Unreachable
    ensures Liveness(probe, None, 0) == Trace(Ok(false), [GetAbout])
  {
  }

  /** A false answer only ever comes from a caller that asked for no waiting. */
  lemma {:induction false} FalseOnlyWithoutWait(probe: nat -> Probe, n: nat, step: nat)
    requires step <= n
    ensures Liveness(probe, Some(n), step).outcome != Ok(false)
    decreases n - step
  {
    if probe(step) == Unreachable && step < n {
      FalseOnlyWithoutWait(probe, n, step + 1);
    }
  }

  predicate IsProbe(e: Event)
  {
    e.GetAbout?
  }

  /** With a budget of n, the probe pauses at most n - step more times, each time
      for ProbeInterval seconds, and every probe but the last is followed by a
      pause. */
  lemma {:induction false} PausesBounded(probe: nat -> Probe, n: nat, step: nat)
    requires step <= n
    ensures Sleeps(Liveness(probe, Some(n), step).events) <= n - step
    ensures Paused(Liveness(probe, Some(n), step).events) == ProbeInterval * Sleeps(Liveness(probe, Some(n), step).events)
    ensures Count(Liveness(probe, Some(n), step).events, IsProbe)
         == Sleeps(Liveness(probe, Some(n), step).events) + 1
    decreases n - step
  {
    if probe(step) == Unreachable && step < n {
      var rest := Liveness(probe, Some(n), step + 1).events;
      PausesBounded(probe, n, step + 1);
      SleepsAppend([GetAbout, Sleep(ProbeInterval)], rest);
      PausedAppend([GetAbout, Sleep(ProbeInterval)], rest);
      CountAppend([GetAbout, Sleep(ProbeInterval)], rest, IsProbe);
    }
  }

  /** A probe whose status passes. */
  predicate Responds(p: Probe)
  {
    p.Answered? && Passes(p.response.code)
  }

  /** With a budget of n, the probe reports the server up exactly when some probe
      within the budget passes and every earlier one found the host unreachable. */
  lemma {:induction false} RespondingIff(probe: nat -> Probe, n: nat, step: nat)
    requires step <= n
    ensures Liveness(probe, Some(n), step).outcome == Ok(true)
        <==> exists k :: step <= k <= n && Responds(probe(k)) && forall j :: step <= j < k ==> probe(j) == Unreachable
    decreases n - step
  {
    if probe(step) == Unreachable && step < n {
      RespondingIff(probe, n, step + 1);
      if Liveness(probe, Some(n), step).outcome == Ok(true) {
        var k :| step + 1 <= k <= n && Responds(probe(k)) && forall j :: step + 1 <= j < k ==> probe(j) == Unreachable;
        assert forall j :: step <= j < k ==> probe(j) == Unreachable;
      }
    }
  }

  /** The service is declared gone exactly when every probe of the budget, the
      first and the n retries, found the host unreachable. */
  lemma {:induction false} NeverReturnedIff(probe: nat -> Probe, n: nat, step: nat)
    requires step <= n
    ensures Liveness(probe, Some(n), step).outcome == Err(ServiceNeverReturned)
        <==> forall k :: step <= k <= n ==> probe(k) == Unreachable
    decreases n - step
  {
    if probe(step) == Unreachable && step < n {
      NeverReturnedIff(probe, n, step + 1);
    }
  }

  // ---------------------------------------------------------------------------
  // Configured-state probe and session cookie
  // ---------------------------------------------------------------------------

  /** The configured-state probe reads the body without checking the status: only
      the not-set-up sentinel means "not configured". */
  predicate ServerConfigured(message: Option<string>)
  {
    message != Some(NotSetUpMessage)
  }

  /** s is "; " repeated zero or more times: Ruby's split on "; " yields no field. */
  predicate OnlySeparators(s: string)
    decreases |s|
  {
    s == [] || (|s| >= 2 && s[..2] == "; " && OnlySeparators(s[2..]))
  }

  predicate HasSeparator(s: string)
  {
    exists i :: 0 <= i < |s| - 1 && s[i] == ';' && s[i + 1] == ' '
  }

  /** The text before the first "; " (all of s when there is none). */
  function FirstSegment(s: string): string
    decreases |s|
  {
    if |s| < 2 then s
    else if s[..2] == "; " then []
    else [s[0]] + FirstSegment(s[1..])
  }

  /** The session cookie: the first "; "-delimited segment of the set-cookie
      header; nil when the split yields nothing, NoMethodError when the header is
      missing. */
  function CookieOf(header: Option<string>): Result<Option<string>>
  {
    match header
    case None => Err(NilValue("set-cookie"))
    case Some(h) => Ok(if OnlySeparators(h) then None else Some(FirstSegment(h)))
  }

  lemma {:induction false} FirstSegmentOf(c: string, attributes: string)
    requires !HasSeparator(c)
    ensures FirstSegment(c + "; " + attributes) == c
    decreases |c|
  {
    var h := c + "; " + attributes;
    if c == [] {
      assert h[..2] == "; ";
    } else {
      assert h[1..] == c[1..] + "; " + attributes;
      FirstSegmentOf(c[1..], attributes);
      if |c| == 1 {
        assert h[..2] == [c[0], ';'];
      } else {
        assert h[..2] == c[..2];
        assert !(c[0] == ';' && c[1] == ' ');
      }
    }
  }

  /** The cookie of a header "c; attributes" is c, whatever the attributes. */
  lemma CookieRoundTrip(c: string, attributes: string)
    requires c != [] && !HasSeparator(c)
    ensures CookieOf(Some(c + "; " + attributes)) == Ok(Some(c))
  {
    var h := c + "; " + attributes;
    FirstSegmentOf(c, attributes);
    if |c| == 1 {
      assert h[..2] == [c[0], ';'];
    } else {
      assert h[..2] == c[..2];
      assert !(c[0] == ';' && c[1] == ' ');
    }
    assert !OnlySeparators(h);
  }

  /** The login POST and the cookie it yields. */
  function Login(s: Server, user: string, password: string): Trace<Option<string>>
  {
    var c := Check(s.login);
    Trace(if c.Err? then Err(c.error) else CookieOf(s.login.setCookie), [PostLogin(user, password)])
  }

  // ---------------------------------------------------------------------------
  // Find-by-name lookups
  // ---------------------------------------------------------------------------

  /** Index of the first element that satisfies a test, as the early-return `each`
      loops of the lookups find it. */
  function Find<T>(xs: seq<T>, matches: T -> bool): (r: Option<nat>)
    ensures r.Some? ==> r.value < |xs| && matches(xs[r.value])
    ensures r.Some? ==> forall j :: 0 <= j < r.value ==> !matches(xs[j])
    ensures r.None? ==> forall j :: 0 <= j < |xs| ==> !matches(xs[j])
  {
    if xs == [] then None
    else if matches(xs[0]) then Some(0)
    else match Find(xs[1..], matches)
      case None => None
      case Some(i) => Some(i + 1)
  }

  /** The first working environment with the given name, or none. */
  function GetOntapEnv(environments: seq<Environment>, name: string): (r: Option<Environment>)
    ensures r.None? <==> forall j :: 0 <= j < |environments| ==> environments[j].name != name
    ensures r.Some? ==> exists i :: 0 <= i < |environments| && environments[i] == r.value && r.value.name == name &&
                                    forall j :: 0 <= j < i ==> environments[j].name != name
  {
    match Find(environments, (e: Environment) => e.name == name)
    case None => None
    case Some(i) => Some(environments[i])
  }

  /** The publicId of the first tenant with the given name. */
  function GetTenantId(tenants: seq<Tenant>, name: string): (r: Result<string>)
    ensures r.Err? <==> forall j :: 0 <= j < |tenants| ==> tenants[j].name != name
    ensures r.Err? ==> r.error == TenantNotFound(name)
    ensures r.Ok? ==> exists i :: 0 <= i < |tenants| && tenants[i].name == name && r.value == tenants[i].publicId &&
                                  forall j :: 0 <= j < i ==> tenants[j].name != name
  {
    match Find(tenants, (t: Tenant) => t.name == name)
    case None => Err(TenantNotFound(name))
    case Some(i) => Ok(tenants[i].publicId)
  }

  /** The first VPC with the given id. */
  function ValidateVpc(vpcs: seq<Vpc>, vpcId: string): (r: Result<Vpc>)
    ensures r.Err? <==> forall j :: 0 <= j < |vpcs| ==> vpcs[j].vpcId != vpcId
    ensures r.Err? ==> r.error == VpcNotFound(vpcId)
    ensures r.Ok? ==> exists i :: 0 <= i < |vpcs| && vpcs[i] == r.value && r.value.vpcId == vpcId &&
                                  forall j :: 0 <= j < i ==> vpcs[j].vpcId != vpcId
  {
    match Find(vpcs, (v: Vpc) => v.vpcId == vpcId)
    case None => Err(VpcNotFound(vpcId))
    case Some(i) => Ok(vpcs[i])
  }

  /** Resolves the VPC first, then looks for the subnet in that VPC's list only. */
  function ValidateSubnet(vpcs: seq<Vpc>, vpcId: string, subnetId: string): (r: Result<string>)
    ensures ValidateVpc(vpcs, vpcId).Err? ==> r == Err(VpcNotFound(vpcId))
    ensures ValidateVpc(vpcs, vpcId).Ok? ==>
              (r.Ok? <==> subnetId in ValidateVpc(vpcs, vpcId).value.subnets)
    ensures r.Ok? ==> r.value == subnetId
    ensures ValidateVpc(vpcs, vpcId).Ok? && r.Err? ==> r.error == SubnetNotFound(subnetId, vpcId)
  {
    match ValidateVpc(vpcs, vpcId)
    case Err(e) => Err(e)
    case Ok(vpc) =>
      match Find(vpc.subnets, (id: string) => id == subnetId)
      case None => Err(SubnetNotFound(subnetId, vpcId))
      case Some(i) => Ok(vpc.subnets[i])
  }

  /** A subnet listed only under a later VPC of the same id is not found: the
      search never leaves the first matching VPC. */
  lemma SubnetSearchStaysInVpc(first: Vpc, later: Vpc, subnetId: string)
    requires first.vpcId == later.vpcId && subnetId !in first.subnets && subnetId in later.subnets
    ensures ValidateSubnet([first, later], first.vpcId, subnetId) == Err(SubnetNotFound(subnetId, first.vpcId))
  {
    assert ValidateVpc([first, later], first.vpcId).value == first;
  }

  /** The detail body counts only when it carries the publicId that was asked for. */
  function GetOntapDetails(d: Detail, publicId: string): (r: Option<Detail>)
    ensures r.Some? <==> d.publicId == publicId
    ensures r.Some? ==> r.value == d
  {
    if d.publicId == publicId then Some(d) else None
  }

  // ---------------------------------------------------------------------------
  // Name pattern
  // ---------------------------------------------------------------------------

  predicate IsLetter(c: char)
  {
    'A' <= c <= 'Z' || 'a' <= c <= 'z'
  }

  predicate IsDigit(c: char)
  {
    '0' <= c <= '9'
  }

  /** A character of [A-Za-z0-9_]. */
  predicate IsWordChar(c: char)
  {
    IsLetter(c) || IsDigit(c) || c == '_'
  }

  /** The whole of s is a letter followed by 2 to 39 letters, digits or
      underscores: the pattern ^[A-Za-z][A-Za-z0-9_]{2,39}$ read against the
      entire string. */
  predicate ValidName(s: string)
  {
    3 <= |s| <= 40 && IsLetter(s[0]) && forall i :: 1 <= i < |s| ==> IsWordChar(s[i])
  }

  /** The lines of s: the pieces between newline characters. */
  function Lines(s: string): (r: seq<string>)
    ensures |r| >= 1
    ensures forall k :: 0 <= k < |r| ==> '\n' !in r[k]
    decreases |s|
  {
    if s == [] then [[]]
    else
      var rest := Lines(s[1..]);
      if s[0] == '\n' then [[]] + rest
      else [[s[0]] + rest[0]] + rest[1..]
  }

  /** The name check as the resources write it: Ruby's ^ and $ anchor at line
      boundaries, so the pattern passes when any one line of s matches. */
  predicate NameAcceptedAsWritten(s: string)
  {
    exists k :: 0 <= k < |Lines(s)| && ValidName(Lines(s)[k])
  }

  /** A name that spans two lines slips through the check as written although it
      breaks the pattern. */
  lemma MultiLineNameAccepted()
    ensures NameAcceptedAsWritten("1cot\nabc")
    ensures !ValidName("1cot\nabc")
  {
    var s := "1cot\nabc";
    LinesWithoutNewline("abc");
    assert s[1..] == "cot\nabc";
    assert s[1..][1..] == "ot\nabc";
    assert s[1..][1..][1..] == "t\nabc";
    assert s[1..][1..][1..][1..] == "\nabc";
    assert s[1..][1..][1..][1..][1..] == "abc";
    assert Lines("\nabc") == ["", "abc"];
    assert Lines(s)[1] == "abc";
    assert ValidName(Lines(s)[1]);
  }

  /** A string with no newline is its own single line. */
  lemma {:induction false} LinesWithoutNewline(s: string)
    requires '\n' !in s
    ensures Lines(s) == [s]
    decreases |s|
  {
    if s != [] {
      LinesWithoutNewline(s[1..]);
      assert [s[0]] + s[1..] == s;
    }
  }

  /** The corrected check only rejects more: every valid name passes the check as
      written, and a valid name never contains a line break. */
  lemma ValidNameAcceptedAsWritten(s: string)
    requires ValidName(s)
    ensures '\n' !in s
    ensures NameAcceptedAsWritten(s)
  {
    LinesWithoutNewline(s);
    assert Lines(s)[0] == s;
  }

  // ---------------------------------------------------------------------------
  // Volume size strings
  // ---------------------------------------------------------------------------

  /** Ruby's whitespace for a bare `split`. */
  predicate IsSpace(c: char)
  {
    c == ' ' || c == '\t' || c == '\n' || c == '\r' || c == '\U{B}' || c == '\U{C}'
  }

  /** Length of the longest prefix of s whose characters satisfy the test. */
  function RunLength(s: string, inRun: char -> bool): (n: nat)
    ensures n <= |s|
    ensures forall i :: 0 <= i < n ==> inRun(s[i])
    ensures n < |s| ==> !inRun(s[n])
  {
    if s == [] || !inRun(s[0]) then 0 else 1 + RunLength(s[1..], inRun)
  }

  /** The whitespace-separated words of s, as a bare `split` returns them. */
  function Words(s: string): seq<string>
    decreases |s|
  {
    if s == [] then []
    else if IsSpace(s[0]) then Words(s[1..])
    else
      var n := RunLength(s, (c: char) => !IsSpace(c));
      [s[..n]] + Words(s[n..])
  }

  /** The first maximal run of characters satisfying the test (x[/\d+/] or
      x[/[a-zA-Z]+/]), with "" for no match as `join` renders nil. */
  function FirstRun(s: string, inRun: char -> bool): string
    decreases |s|
  {
    if s == [] then []
    else if inRun(s[0]) then s[..RunLength(s, inRun)]
    else FirstRun(s[1..], inRun)
  }

  function JoinRuns(words: seq<string>, inRun: char -> bool): string
  {
    if words == [] then [] else FirstRun(words[0], inRun) + JoinRuns(words[1..], inRun)
  }

  /** A size such as "1TB" split into its digits and its letters. */
  function SplitSize(s: string): VolumeSize
  {
    var words := Words(s);
    VolumeSize(JoinRuns(words, IsDigit), JoinRuns(words, IsLetter))
  }

  lemma {:induction false} RunLengthAll(s: string, inRun: char -> bool)
    requires forall i :: 0 <= i < |s| ==> inRun(s[i])
    ensures RunLength(s, inRun) == |s|
    decreases |s|
  {
    if s != [] {
      RunLengthAll(s[1..], inRun);
    }
  }

  lemma {:induction false} RunLengthPrefix(a: string, b: string, inRun: char -> bool)
    requires forall i :: 0 <= i < |a| ==> inRun(a[i])
    requires b != [] && !inRun(b[0])
    ensures RunLength(a + b, inRun) == |a|
    decreases |a|
  {
    if a != [] {
      assert (a + b)[1..] == a[1..] + b;
      RunLengthPrefix(a[1..], b, inRun);
    } else {
      assert a + b == b;
    }
  }

  lemma {:induction false} FirstRunAfter(a: string, b: string, inRun: char -> bool)
    requires forall i :: 0 <= i < |a| ==> !inRun(a[i])
    requires forall i :: 0 <= i < |b| ==> inRun(b[i])
    requires b != []
    ensures FirstRun(a + b, inRun) == b
    decreases |a|
  {
    if a == [] {
      assert a + b == b;
      RunLengthAll(b, inRun);
    } else {
      assert (a + b)[1..] == a[1..] + b;
      FirstRunAfter(a[1..], b, inRun);
    }
  }

  lemma {:induction false} FirstRunBefore(a: string, b: string, inRun: char -> bool)
    requires forall i :: 0 <= i < |a| ==> inRun(a[i])
    requires a != [] && b != [] && !inRun(b[0])
    ensures FirstRun(a + b, inRun) == a
  {
    RunLengthPrefix(a, b, inRun);
    assert (a + b)[..|a|] == a;
  }

  /** Splitting digits followed by letters gives back the digits as the size and
      the letters as the unit: "1TB" is size "1", unit "TB". */
  lemma SplitSizeRoundTrip(digits: string, letters: string)
    requires digits != [] && forall i :: 0 <= i < |digits| ==> IsDigit(digits[i])
    requires letters != [] && forall i :: 0 <= i < |letters| ==> IsLetter(letters[i])
    ensures SplitSize(digits + letters) == VolumeSize(digits, letters)
  {
    var s := digits + letters;
    assert forall i :: 0 <= i < |s| ==> !IsSpace(s[i]) by {
      forall i | 0 <= i < |s| ensures !IsSpace(s[i]) {
        if i < |digits| { assert s[i] == digits[i]; } else { assert s[i] == letters[i - |digits|]; }
      }
    }
    RunLengthAll(s, (c: char) => !IsSpace(c));
    assert s[..|s|] == s;
    assert s[|s|..] == [];
    assert Words(s) == [s];
    FirstRunBefore(digits, letters, IsDigit);
    FirstRunAfter(digits, letters, IsLetter);
    assert JoinRuns([s], IsDigit) == FirstRun(s, IsDigit) + JoinRuns([], IsDigit);
    assert JoinRuns([s], IsLetter) == FirstRun(s, IsLetter) + JoinRuns([], IsLetter);
  }

  /** ASCII upper-casing. Ruby's `upcase` also maps non-ASCII letters, but the
      write speed it is applied to can only be "normal" or "high". */
  function Upcase(s: string): (r: string)
    ensures |r| == |s|
    ensures forall i :: 0 <= i < |s| ==> r[i] == (if 'a' <= s[i] <= 'z' then s[i] - 'a' + 'A' else s[i])
  {
    if s == [] then []
    else [if 'a' <= s[0] <= 'z' then s[0] - 'a' + 'A' else s[0]] + Upcase(s[1..])
  }

  // ---------------------------------------------------------------------------
  // Poll of an audit entry by request id
  // ---------------------------------------------------------------------------

  predicate IsAuditPoll(e: Event)
  {
    e.GetAudit?
  }

  /** Whether a poll's first audit entry is neither Success nor Failed. */
  predicate Pending(body: seq<AuditEntry>)
  {
    body != [] && body[0].status != "Success" && body[0].status != "Failed"
  }

  /** The request-id poll from its counter-th attempt on: each GET reads the first
      audit entry; Success ends it, Failed raises the server's message, anything
      else pauses and counts one attempt, and budget attempts end in a timeout. */
  function AwaitRequest(requestId: string, feed: AuditFeed, budget: nat, interval: nat, counter: nat): Trace<bool>
    decreases budget - counter
  {
    if counter >= budget then Trace(Err(PollTimeout(PollTimeoutMessage)), [])
    else
      var body := feed(counter);
      if body == [] then Trace(Err(NilValue("audit entry")), [GetAudit(requestId)])
      else if body[0].status == "Success" then Trace(Ok(true), [GetAudit(requestId)])
      else if body[0].status == "Failed" then Trace(Err(OperationFailed(body[0].errorMessage)), [GetAudit(requestId)])
      else
        var rest := AwaitRequest(requestId, feed, budget, interval, counter + 1);
        Trace(rest.outcome, [GetAudit(requestId), Sleep(interval)] + rest.events)
  }

  /** The poll loop shared by the storage-system and aggregate resources. */
  method WaitRequest(requestId: string, feed: AuditFeed, budget: nat, interval: nat) returns (t: Trace<bool>)
    ensures t == AwaitRequest(requestId, feed, budget, interval, 0)
  {
    var counter: nat := 0;
    var events: seq<Event> := [];
    while counter < budget
      invariant AwaitRequest(requestId, feed, budget, interval, 0).outcome
             == AwaitRequest(requestId, feed, budget, interval, counter).outcome
      invariant AwaitRequest(requestId, feed, budget, interval, 0).events
             == events + AwaitRequest(requestId, feed, budget, interval, counter).events
    {
      var body := feed(counter);
      events := events + [GetAudit(requestId)];
      if body == [] {
        return Trace(Err(NilValue("audit entry")), events);
      }
      var log := body[0];
      if log.status == "Success" {
        return Trace(Ok(true), events);
      } else if log.status == "Failed" {
        return Trace(Err(OperationFailed(log.errorMessage)), events);
      }
      events := events + [Sleep(interval)];
      counter := counter + 1;
    }
    return Trace(Err(PollTimeout(PollTimeoutMessage)), events);
  }

  /** The poll never pauses more than budget times, each pause lasts interval
      seconds, and every GET but the last is followed by a pause. */
  lemma {:induction false} AwaitRequestBounded(requestId: string, feed: AuditFeed, budget: nat, interval: nat, counter: nat)
    requires counter <= budget
    ensures Sleeps(AwaitRequest(requestId, feed, budget, interval, counter).events) <= budget - counter
    ensures Paused(AwaitRequest(requestId, feed, budget, interval, counter).events)
         == interval * Sleeps(AwaitRequest(requestId, feed, budget, interval, counter).events)
    ensures Count(AwaitRequest(requestId, feed, budget, interval, counter).events, IsAuditPoll)
         <= Sleeps(AwaitRequest(requestId, feed, budget, interval, counter).events) + 1
    decreases budget - counter
  {
    if counter < budget && Pending(feed(counter)) {
      var rest := AwaitRequest(requestId, feed, budget, interval, counter + 1).events;
      AwaitRequestBounded(requestId, feed, budget, interval, counter + 1);
      SleepsAppend([GetAudit(requestId), Sleep(interval)], rest);
      PausedAppend([GetAudit(requestId), Sleep(interval)], rest);
      CountAppend([GetAudit(requestId), Sleep(interval)], rest, IsAuditPoll);
    }
  }

  /** The poll times out exactly when every one of the budget attempts saw a
      pending first entry. */
  lemma {:induction false} AwaitRequestTimeoutIff(requestId: string, feed: AuditFeed, budget: nat, interval: nat, counter: nat)
    requires counter <= budget
    ensures AwaitRequest(requestId, feed, budget, interval, counter).outcome == Err(PollTimeout(PollTimeoutMessage))
        <==> forall k :: counter <= k < budget ==> Pending(feed(k))
    decreases budget - counter
  {
    if counter < budget && Pending(feed(counter)) {
      AwaitRequestTimeoutIff(requestId, feed, budget, interval, counter + 1);
    }
  }

  /** The poll succeeds exactly when some attempt within the budget sees Success
      and every earlier one saw a pending entry. */
  lemma {:induction false} AwaitRequestSuccessIff(requestId: string, feed: AuditFeed, budget: nat, interval: nat, counter: nat)
    requires counter <= budget
    ensures AwaitRequest(requestId, feed, budget, interval, counter).outcome == Ok(true)
        <==> exists k :: counter <= k < budget && feed(k) != [] && feed(k)[0].status == "Success" &&
                         forall j :: counter <= j < k ==> Pending(feed(j))
    decreases budget - counter
  {
    if counter < budget {
      if Pending(feed(counter)) {
        AwaitRequestSuccessIff(requestId, feed, budget, interval, counter + 1);
        if AwaitRequest(requestId, feed, budget, interval, counter).outcome == Ok(true) {
          var k :| counter + 1 <= k < budget && feed(k) != [] && feed(k)[0].status == "Success" &&
                   forall j :: counter + 1 <= j < k ==> Pending(feed(j));
          assert forall j :: counter <= j < k ==> Pending(feed(j));
        }
      }
    }
  }

  /** Two pending entries then Success: success after exactly three GETs and two
      pauses. */
  lemma PendingPendingSuccess(requestId: string, feed: AuditFeed, budget: nat, interval: nat, pending: AuditEntry, done: AuditEntry)
    requires budget >= 3
    requires pending.status != "Success" && pending.status != "Failed" && done.status == "Success"
    requires feed(0) == [pending] && feed(1) == [pending] && feed(2) == [done]
    ensures AwaitRequest(requestId, feed, budget, interval, 0)
         == Trace(Ok(true), [GetAudit(requestId), Sleep(interval), GetAudit(requestId), Sleep(interval), GetAudit(requestId)])
  {
    assert AwaitRequest(requestId, feed, budget, interval, 2) == Trace(Ok(true), [GetAudit(requestId)]);
  }

  /** A pending entry then Failed: the server's message is raised after exactly
      two GETs and one pause. */
  lemma PendingFailed(requestId: string, feed: AuditFeed, budget: nat, interval: nat, pending: AuditEntry, failed: AuditEntry)
    requires budget >= 2
    requires pending.status != "Success" && pending.status != "Failed" && failed.status == "Failed"
    requires feed(0) == [pending] && feed(1) == [failed]
    ensures AwaitRequest(requestId, feed, budget, interval, 0)
         == Trace(Err(OperationFailed(failed.errorMessage)), [GetAudit(requestId), Sleep(interval), GetAudit(requestId)])
  {
    assert AwaitRequest(requestId, feed, budget, interval, 1)
        == Trace(Err(OperationFailed(failed.errorMessage)), [GetAudit(requestId)]);
  }

  /** The tail of every mutating action: the answer to the mutation is checked,
      then (when asked to wait) the audit entry of its request id is polled. A
      settled poll reports a change. */
  function Settle(s: Server, wait: bool, budget: nat, interval: nat): Trace<bool>
  {
    var c := Check(s.mutation);
    if c.Err? then Trace(Err(c.error), [])
    else if !wait then Trace(Ok(true), [])
    else
      var w := AwaitRequest(s.mutation.requestId, s.audit(s.mutation.requestId), budget, interval, 0);
      Trace(if w.outcome.Ok? then Ok(true) else w.outcome, w.events)
  }

  lemma {:induction false} AwaitRequestNeverFalse(requestId: string, feed: AuditFeed, budget: nat, interval: nat, counter: nat)
    ensures AwaitRequest(requestId, feed, budget, interval, counter).outcome != Ok(false)
    decreases budget - counter
  {
    if counter < budget && Pending(feed(counter)) {
      AwaitRequestNeverFalse(requestId, feed, budget, interval, counter + 1);
    }
  }

  /** A mutation never reports "unchanged": it either fails or reports a change,
      and a change awaited is reported exactly when the poll succeeds. */
  lemma SettleOutcome(s: Server, wait: bool, budget: nat, interval: nat)
    ensures Settle(s, wait, budget, interval).outcome != Ok(false)
    ensures Check(s.mutation).Err? ==> Settle(s, wait, budget, interval) == Trace(Err(Check(s.mutation).error), [])
    ensures Check(s.mutation).Ok? && !wait ==> Settle(s, wait, budget, interval) == Trace(Ok(true), [])
    ensures Check(s.mutation).Ok? && wait ==>
              (Settle(s, wait, budget, interval).outcome == Ok(true) <==>
               AwaitRequest(s.mutation.requestId, s.audit(s.mutation.requestId), budget, interval, 0).outcome.Ok?)
    ensures NoMutation(Settle(s, wait, budget, interval).events)
  {
    AwaitRequestNeverFalse(s.mutation.requestId, s.audit(s.mutation.requestId), budget, interval, 0);
    NoMutationInPoll(s.mutation.requestId, s.audit(s.mutation.requestId), budget, interval, 0);
  }

  // ---------------------------------------------------------------------------
  // The provider object and the opening every action shares
  // ---------------------------------------------------------------------------

  /** The opening of the storage-system, aggregate and docker-plugin actions: the
      liveness probe with one retry, the ontap_name check (when the action has
      one), login, and the lookup of the working environment by name. */
  function Open(s: Server, name: string, user: string, password: string, checkName: bool): Trace<Option<Environment>>
  {
    var live := Liveness(s.probe, Some(1), 0);
    if live.outcome.Err? then Trace(Err(live.outcome.error), live.events)
    else if checkName && !NameAcceptedAsWritten(name) then Trace(Err(InvalidName(name)), live.events)
    else
      var login := Login(s, user, password);
      if login.outcome.Err? then Trace(Err(login.outcome.error), live.events + login.events)
      else Trace(Ok(GetOntapEnv(s.environments, name)), live.events + login.events + [GetEnvironments])
  }

  /** The session cookie after the opening: the login's cookie when login was
      reached and succeeded, the previous one otherwise. */
  function CookieAfterOpen(s: Server, name: string, user: string, password: string, checkName: bool,
                           prior: Option<string>): Option<string>
  {
    var login := Login(s, user, password).outcome;
    if Liveness(s.probe, Some(1), 0).outcome.Ok? && (!checkName || NameAcceptedAsWritten(name)) && login.Ok?
    then login.value else prior
  }

  /** A name that fails the check as written stops the action after the liveness
      probe, before any login. */
  lemma InvalidNameBeforeLogin(s: Server, name: string, user: string, password: string)
    requires Liveness(s.probe, Some(1), 0).outcome.Ok? && !NameAcceptedAsWritten(name)
    ensures Open(s, name, user, password, true) == Trace(Err(InvalidName(name)), Liveness(s.probe, Some(1), 0).events)
    ensures NoLogin(Open(s, name, user, password, true).events)
  {
    NoLoginInLiveness(s.probe, Some(1), 0);
  }

  /** A name that passes the check as written, a multi-line one included, is
      treated exactly as by an action without the check: it reaches the login. */
  lemma NameCheckPassed(s: Server, name: string, user: string, password: string)
    requires NameAcceptedAsWritten(name)
    ensures Open(s, name, user, password, true) == Open(s, name, user, password, false)
    ensures Liveness(s.probe, Some(1), 0).outcome.Ok? ==> PostLogin(user, password) in Open(s, name, user, password, true).events
  {
    var live := Liveness(s.probe, Some(1), 0);
    if live.outcome.Ok? {
      assert Open(s, name, user, password, true).events[|live.events|] == PostLogin(user, password);
    }
  }

  /** The two-line name "1cot\nabc", which breaks the pattern, still reaches the
      login of every action that checks the name. */
  lemma MultiLineNameReachesLogin(s: Server, user: string, password: string)
    requires Liveness(s.probe, Some(1), 0).outcome.Ok?
    ensures PostLogin(user, password) in Open(s, "1cot\nabc", user, password, true).events
    ensures Open(s, "1cot\nabc", user, password, true).outcome != Err(InvalidName("1cot\nabc"))
  {
    MultiLineNameAccepted();
    NameCheckPassed(s, "1cot\nabc", user, password);
    NoLoginInLiveness(s.probe, Some(1), 0);
  }

  /** Credentials refused with a 401 end the opening with the authentication
      ArgumentError right after the login POST: nothing is looked up, nothing
      changes, and the session cookie stays as it was. */
  lemma LoginRejectedStops(s: Server, name: string, user: string, password: string, checkName: bool, prior: Option<string>)
    requires Liveness(s.probe, Some(1), 0).outcome.Ok?
    requires !checkName || NameAcceptedAsWritten(name)
    requires s.login.code == 401
    ensures Open(s, name, user, password, checkName)
         == Trace(Err(AuthenticationFailed), Liveness(s.probe, Some(1), 0).events + [PostLogin(user, password)])
    ensures IsArgumentError(AuthenticationFailed)
    ensures NoMutation(Open(s, name, user, password, checkName).events)
    ensures CookieAfterOpen(s, name, user, password, checkName, prior) == prior
  {
    OpenNoMutation(s, name, user, password, checkName);
  }

  lemma {:induction false} NoLoginInLiveness(probe: nat -> Probe, wait: Option<nat>, step: nat)
    requires wait.Some? ==> step <= wait.value
    ensures NoLogin(Liveness(probe, wait, step).events)
    ensures NoMutation(Liveness(probe, wait, step).events)
    decreases if wait.Some? then wait.value - step else 0
  {
    if probe(step) == Unreachable && wait.Some? && step < wait.value {
      NoLoginInLiveness(probe, wait, step + 1);
    }
  }

  lemma {:induction false} NoMutationInPoll(requestId: string, feed: AuditFeed, budget: nat, interval: nat, counter: nat)
    ensures NoMutation(AwaitRequest(requestId, feed, budget, interval, counter).events)
    decreases budget - counter
  {
    if counter < budget && Pending(feed(counter)) {
      NoMutationInPoll(requestId, feed, budget, interval, counter + 1);
    }
  }

  /** The opening reads but never changes the server. */
  lemma OpenNoMutation(s: Server, name: string, user: string, password: string, checkName: bool)
    ensures NoMutation(Open(s, name, user, password, checkName).events)
  {
    NoLoginInLiveness(s.probe, Some(1), 0);
  }

  /** The mutation tail, as the resource runs it. */
  method SettleMutation(s: Server, wait: bool, budget: nat, interval: nat) returns (t: Trace<bool>)
    ensures t == Settle(s, wait, budget, interval)
  {
    var c := Check(s.mutation);
    if c.Err? {
      return Trace(Err(c.error), []);
    }
    if !wait {
      return Trace(Ok(true), []);
    }
    var w := WaitRequest(s.mutation.requestId, s.audit(s.mutation.requestId), budget, interval);
    t := Trace(if w.outcome.Ok? then Ok(true) else w.outcome, w.events);
  }

  /** The provider of a resource action and the session cookie it keeps between
      calls once login has succeeded. */
  class Provider {
    var authCookie: Option<string>

    constructor ()
      ensures authCookie == None
    {
      authCookie := None;
    }

    /** Runs the opening, keeping the login's cookie as the session cookie. */
    method OpenSession(s: Server, name: string, user: string, password: string, checkName: bool)
      returns (t: Trace<Option<Environment>>)
      modifies this
      ensures t == Open(s, name, user, password, checkName)
      ensures authCookie == CookieAfterOpen(s, name, user, password, checkName, old(authCookie))
    {
      var live := ServerResponding(s.probe, Some(1));
      if live.outcome.Err? {
        return Trace(Err(live.outcome.error), live.events);
      }
      if checkName && !NameAcceptedAsWritten(name) {
        return Trace(Err(InvalidName(name)), live.events);
      }
      var login := Login(s, user, password);
      if login.outcome.Err? {
        return Trace(Err(login.outcome.error), live.events + login.events);
      }
      authCookie := login.outcome.value;
      t := Trace(Ok(GetOntapEnv(s.environments, name)), live.events + login.events + [GetEnvironments]);
    }
  }
}
