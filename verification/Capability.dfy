/** From a capability the model misses to a package installation: the evidence of the session decides,
    and only the catalog names the package. */
module Capability {
  import opened Wrappers
  import opened Text
  import Actions
  import opened Session

  datatype ServiceRequirement = NoService | InstalledService | ActiveService

  datatype Acquisition = Acquisition(packageName: string, executables: seq<string>, services: seq<string>,
                                     installSupported: bool, requirement: ServiceRequirement)

  datatype Definition = Definition(description: string, acquisition: Option<Acquisition>)

  /** The registry of capabilities, and which of them have a registered READ backend. */
  datatype Catalog = Catalog(definitions: map<string, Definition>, backend: string -> bool)

  datatype Software = SoftwareAvailable | SoftwareMissing | SoftwareUnknown

  datatype Service = ServiceActive | ServiceInactive | ServiceUnavailable | ServiceUnknown | NotRequired

  datatype Overall = OverallAvailable | Degraded | Missing | Unknown | Unsupported

  datatype Confidence = Low | Medium | High

  datatype Gap = Gap(capability: string, status: Overall, software: Software, service: Service, reason: string,
                     evidence: seq<string>, candidatePackage: Option<string>, confidence: Confidence, grounded: bool)

  /** What the grounding reads of an `EvidenceRecord`. */
  datatype Evidence = Evidence(source: string, targetHost: Option<string>, arguments: Args, available: bool,
                               facts: Args)

  function AcquisitionOf(catalog: Catalog, capability: string): Option<Acquisition> {
    if capability in catalog.definitions then catalog.definitions[capability].acquisition else None
  }

  // ----- the state machine -----

  datatype Verdict = Verdict(status: Overall, software: Software, service: Service, reason: string)

  /** `capability_state`, as it is called here: no host capabilities are given. */
  function StateOf(catalog: Catalog, capability: string, software: Software, service: Service): Verdict {
    if capability !in catalog.definitions then Verdict(Unknown, software, NotRequired, "capability is not registered")
    else
      var acquisition := AcquisitionOf(catalog, capability);
      var requirement := if acquisition.Some? then acquisition.value.requirement else NoService;
      var service' := if requirement.NoService? then NotRequired else service;
      if software.SoftwareMissing? then Verdict(Missing, software, service', "software prerequisite is missing")
      else if software.SoftwareUnknown? || !catalog.backend(capability) then
        Verdict(Unknown, software, service', "software or READ backend availability is unknown")
      else if service'.ServiceUnknown? then Verdict(Unknown, software, service', "required service state is unknown")
      else if requirement.ActiveService? && service'.ServiceInactive? then
        Verdict(Degraded, software, service', "required history collection service is not active")
      else if requirement.ActiveService? && service'.ServiceUnavailable? then
        Verdict(Degraded, software, service', "required history collection service is unavailable")
      else if requirement.InstalledService? && service'.ServiceUnavailable? then
        Verdict(Degraded, software, service', "required service is unavailable")
      else Verdict(OverallAvailable, software, service', "all required capability prerequisites are available")
  }

  /** The service half of `SoftwareAvailabilityChecker.assess`. */
  function ServiceFrom(requirement: ServiceRequirement, installed: Option<bool>, active: Option<bool>): Service {
    if requirement.NoService? then NotRequired
    else if installed.None? then ServiceUnknown
    else if !installed.value then ServiceUnavailable
    else match active case Some(on) => if on then ServiceActive else ServiceInactive case None => ServiceUnknown
  }

  /** `assess_gap` */
  function AssessGap(catalog: Catalog, gap: Gap): Gap {
    if gap.capability !in catalog.definitions then gap.(status := Unknown)
    else
      var v := StateOf(catalog, gap.capability, gap.software, gap.service);
      gap.(status := v.status,
           reason := if !v.status.OverallAvailable? && !Contains(gap.reason, v.reason)
                     then StripEnd(gap.reason) + "; " + v.reason else gap.reason)
  }

  /** `rstrip(". ")` */
  function StripEnd(s: string): string {
    if s != "" && (s[|s| - 1] == '.' || s[|s| - 1] == ' ') then StripEnd(s[..|s| - 1]) else s
  }

  // ----- grounding -----

  /** A READ tool asked of the host about the value of a field. */
  datatype Query = Query(host: string, source: string, field: string, value: string)

  predicate Matches(e: Evidence, q: Query) {
    && e.targetHost.Some? && Fold(e.targetHost.value) == Fold(q.host) && e.source == q.source
    && "host" in e.arguments && e.arguments["host"] == Str(q.host)
    && q.field in e.arguments && e.arguments[q.field] == Str(q.value)
  }

  function Matching(evidence: seq<Evidence>, q: Query): seq<Evidence> {
    if evidence == [] then []
    else (if Matches(evidence[0], q) then [evidence[0]] else []) + Matching(evidence[1..], q)
  }

  /** The truth of a fact, from the only record of its kind, if that is available and says so. */
  function Fact(records: seq<Evidence>, fact: string): Option<bool> {
    if |records| != 1 || !records[0].available || fact !in records[0].facts || !records[0].facts[fact].Flag? then None
    else Some(records[0].facts[fact].on)
  }

  function PackageFact(evidence: seq<Evidence>, host: string, name: string): Option<bool> {
    Fact(Matching(evidence, Query(host, "query_package", "package_name", name)), "installed")
  }

  function ExecutableFact(evidence: seq<Evidence>, host: string, name: string): Option<bool> {
    Fact(Matching(evidence, Query(host, "query_executable", "executable_name", name)), "exists")
  }

  function ServiceRecords(evidence: seq<Evidence>, host: string, services: seq<string>): seq<Evidence> {
    if services == [] then []
    else Matching(evidence, Query(host, "query_service", "service_name", services[0]))
         + ServiceRecords(evidence, host, services[1..])
  }

  predicate SaysExists(e: Evidence) {
    e.available && "exists" in e.facts && e.facts["exists"].Flag?
  }

  /** Whether the services are installed and active, as far as their records tell. */
  function ServiceFacts(evidence: seq<Evidence>, host: string, a: Acquisition): (Option<bool>, Option<bool>) {
    var records := ServiceRecords(evidence, host, a.services);
    if a.requirement.NoService? || |records| != |a.services|
       || exists k :: 0 <= k < |records| && !SaysExists(records[k]) then (None, None)
    else
      var installed := forall k :: 0 <= k < |records| ==> SaysExists(records[k]) && records[k].facts["exists"].on;
      var active := installed && forall k :: 0 <= k < |records| ==>
                      "active_state" in records[k].facts && records[k].facts["active_state"] == Str("active");
      (Some(installed), Some(active))
  }

  function Shown(b: bool): string {
    if b then "True" else "False"
  }

  function ExecutableLines(executables: seq<string>, exists': bool): seq<string> {
    if executables == [] then []
    else ["query_executable:" + executables[0] + ":exists=" + Shown(exists')]
         + ExecutableLines(executables[1..], exists')
  }

  predicate EvidenceComplete(evidence: seq<Evidence>, host: string, a: Acquisition) {
    && PackageFact(evidence, host, a.packageName).Some?
    && forall k :: 0 <= k < |a.executables| ==> ExecutableFact(evidence, host, a.executables[k]).Some?
  }

  predicate Agreeing(evidence: seq<Evidence>, host: string, a: Acquisition) {
    forall k :: 0 <= k < |a.executables| ==>
      ExecutableFact(evidence, host, a.executables[k]) == PackageFact(evidence, host, a.packageName)
  }

  /** The gap when package and executables agree. The software is available if all of them are there,
      and they agree, so the package alone tells. */
  function Settled(catalog: Catalog, gap: Gap, a: Acquisition, installed: bool, service: Service): Gap {
    var v := StateOf(catalog, gap.capability, if installed then SoftwareAvailable else SoftwareMissing, service);
    gap.(status := v.status, software := v.software, service := v.service, candidatePackage := Some(a.packageName),
         reason := v.reason,
         evidence := ["query_package:" + a.packageName + ":installed=" + Shown(installed)]
                     + ExecutableLines(a.executables, installed),
         grounded := v.software.SoftwareMissing? && !installed)
  }

  /** `ground_capability_gap`; `host` is the target host of the session. */
  function Ground(catalog: Catalog, evidence: seq<Evidence>, host: string, gap: Gap): Gap {
    match AcquisitionOf(catalog, gap.capability)
    case None => gap.(status := Unknown, software := SoftwareUnknown, reason := "acquisition metadata is unavailable")
    case Some(a) =>
      var unknown := gap.(status := Unknown, software := SoftwareUnknown, service := ServiceUnknown,
                          candidatePackage := Some(a.packageName));
      if !EvidenceComplete(evidence, host, a) then
        unknown.(reason := "software absence is not confirmed by complete prerequisite READ evidence")
      else if !Agreeing(evidence, host, a) then
        unknown.(reason := "package and executable READ evidence are contradictory")
      else
        var facts := ServiceFacts(evidence, host, a);
        Settled(catalog, gap, a, PackageFact(evidence, host, a.packageName).value,
                ServiceFrom(a.requirement, facts.0, facts.1))
  }

  /** `request_for_gap` */
  function RequestForGap(catalog: Catalog, host: string, gap: Gap, consent: bool): Option<Actions.Request> {
    if !consent || !gap.grounded then None
    else match AcquisitionOf(catalog, gap.capability)
      case None => None
      case Some(a) =>
        if !a.installSupported then None
        else
          var assessed := AssessGap(catalog, gap);
          if !assessed.status.Missing? || !assessed.software.SoftwareMissing? || assessed.confidence.Low? then None
          else
            Some(Actions.Request(host, Actions.PACKAGE_INSTALL,
                         Actions.PackageInstallParameters(a.packageName, Some(gap.capability),
                           Some(catalog.definitions[gap.capability].description + " capability is unavailable"))))
  }

  // ----- what it takes -----

  /** A record of this tool on the host, asked under the host's own name for this value. */
  ghost predicate Concerns(e: Evidence, q: Query) {
    && e.source == q.source && (exists name :: e.targetHost == Some(name) && Fold(name) == Fold(q.host))
    && {("host", Str(q.host)), (q.field, Str(q.value))} <= e.arguments.Items
  }

  lemma MatchesMeans(e: Evidence, q: Query)
    ensures Matches(e, q) <==> Concerns(e, q)
  {
    if Matches(e, q) {
      assert e.targetHost == Some(e.targetHost.value);
      assert ("host", Str(q.host)) in e.arguments.Items && (q.field, Str(q.value)) in e.arguments.Items;
    }
  }

  /** The k-th record is the only one that answers the query, it is available, and this is its answer. */
  ghost predicate AnswersAt(evidence: seq<Evidence>, q: Query, fact: string, on: bool, k: nat) {
    && k < |evidence| && Concerns(evidence[k], q)
    && (forall j :: 0 <= j < |evidence| && Concerns(evidence[j], q) ==> j == k)
    && evidence[k].available && fact in evidence[k].facts && evidence[k].facts[fact] == Flag(on)
  }

  ghost predicate Answers(evidence: seq<Evidence>, q: Query, fact: string, on: bool) {
    exists k: nat :: AnswersAt(evidence, q, fact, on, k)
  }

  lemma {:induction false} NoMatches(evidence: seq<Evidence>, q: Query)
    ensures Matching(evidence, q) == [] <==> forall j :: 0 <= j < |evidence| ==> !Concerns(evidence[j], q)
  {
    if evidence != [] {
      MatchesMeans(evidence[0], q);
      NoMatches(evidence[1..], q);
      assert forall j :: 0 < j < |evidence| ==> evidence[j] == evidence[1..][j - 1];
    }
  }

  lemma {:induction false} AnswerMeans(evidence: seq<Evidence>, q: Query, fact: string, on: bool)
    ensures Fact(Matching(evidence, q), fact) == Some(on) <==> Answers(evidence, q, fact, on)
  {
    if evidence != [] {
      var rest := evidence[1..];
      MatchesMeans(evidence[0], q);
      if Matches(evidence[0], q) {
        NoMatches(rest, q);
        assert forall j :: 0 < j < |evidence| ==> evidence[j] == rest[j - 1];
        assert Matching(evidence, q)[0] == evidence[0];
        assert Answers(evidence, q, fact, on) <==> AnswersAt(evidence, q, fact, on, 0);
      } else {
        AnswerMeans(rest, q, fact, on);
        AnswersLater(evidence, q, fact, on);
        assert [] + Matching(rest, q) == Matching(rest, q);
      }
    }
  }

  lemma AnswersLater(evidence: seq<Evidence>, q: Query, fact: string, on: bool)
    requires evidence != [] && !Concerns(evidence[0], q)
    ensures Answers(evidence, q, fact, on) <==> Answers(evidence[1..], q, fact, on)
  {
    var rest := evidence[1..];
    if k: nat :| AnswersAt(evidence, q, fact, on, k) {
      assert rest[k - 1] == evidence[k];
      assert AnswersAt(rest, q, fact, on, k - 1) by {
        assert forall j :: 0 <= j < |rest| ==> rest[j] == evidence[j + 1];
      }
    }
    if k: nat :| AnswersAt(rest, q, fact, on, k) {
      assert evidence[k + 1] == rest[k];
      assert AnswersAt(evidence, q, fact, on, k + 1) by {
        assert forall j :: 0 < j < |evidence| ==> evidence[j] == rest[j - 1];
      }
    }
  }

  /** The session confirms that the package and every executable of the acquisition are there, or that
      none of them is. */
  ghost predicate AllAre(evidence: seq<Evidence>, host: string, a: Acquisition, there: bool) {
    && Answers(evidence, Query(host, "query_package", "package_name", a.packageName), "installed", there)
    && forall k :: 0 <= k < |a.executables| ==>
         Answers(evidence, Query(host, "query_executable", "executable_name", a.executables[k]), "exists", there)
  }

  /** It confirms every absence. */
  ghost predicate Confirmed(evidence: seq<Evidence>, host: string, a: Acquisition) {
    AllAre(evidence, host, a, false)
  }

  lemma AllAreMeans(evidence: seq<Evidence>, host: string, a: Acquisition, there: bool)
    ensures AllAre(evidence, host, a, there) <==>
            && EvidenceComplete(evidence, host, a) && Agreeing(evidence, host, a)
            && PackageFact(evidence, host, a.packageName) == Some(there)
  {
    AnswerMeans(evidence, Query(host, "query_package", "package_name", a.packageName), "installed", there);
    forall k | 0 <= k < |a.executables|
      ensures ExecutableFact(evidence, host, a.executables[k]) == Some(there) <==>
              Answers(evidence, Query(host, "query_executable", "executable_name", a.executables[k]), "exists", there)
    {
      AnswerMeans(evidence, Query(host, "query_executable", "executable_name", a.executables[k]), "exists", there);
    }
  }

  // ----- what the services are found to be -----

  /** A record of the session about one of the services. */
  ghost predicate OfService(evidence: seq<Evidence>, host: string, services: seq<string>, e: Evidence) {
    e in evidence
    && exists service :: service in services && Concerns(e, Query(host, "query_service", "service_name", service))
  }

  lemma {:induction false} InMatching(evidence: seq<Evidence>, q: Query, e: Evidence)
    ensures e in Matching(evidence, q) <==> e in evidence && Concerns(e, q)
  {
    if evidence != [] {
      InMatching(evidence[1..], q, e);
      MatchesMeans(evidence[0], q);
    }
  }

  lemma {:induction false} InServiceRecords(evidence: seq<Evidence>, host: string, services: seq<string>, e: Evidence)
    ensures e in ServiceRecords(evidence, host, services) <==> OfService(evidence, host, services, e)
  {
    if services != [] {
      InServiceRecords(evidence, host, services[1..], e);
      InMatching(evidence, Query(host, "query_service", "service_name", services[0]), e);
      assert services == [services[0]] + services[1..];
    }
  }

  /** As many records as services, and each of them tells whether its service exists. */
  ghost predicate ServicesTold(evidence: seq<Evidence>, host: string, a: Acquisition) {
    && |ServiceRecords(evidence, host, a.services)| == |a.services|
    && forall e :: OfService(evidence, host, a.services, e) ==>
         e.available && "exists" in e.facts && (e.facts["exists"] == Flag(true) || e.facts["exists"] == Flag(false))
  }

  ghost predicate SomeServiceGone(evidence: seq<Evidence>, host: string, a: Acquisition) {
    exists e :: OfService(evidence, host, a.services, e) && "exists" in e.facts && e.facts["exists"] == Flag(false)
  }

  ghost predicate SomeServiceIdle(evidence: seq<Evidence>, host: string, a: Acquisition) {
    exists e :: OfService(evidence, host, a.services, e)
                && ("active_state" in e.facts ==> e.facts["active_state"] != Str("active"))
  }

  /** What grounding finds the services to be. */
  function FoundService(evidence: seq<Evidence>, host: string, a: Acquisition): Service {
    var facts := ServiceFacts(evidence, host, a);
    ServiceFrom(a.requirement, facts.0, facts.1)
  }

  lemma ServiceIsExact(evidence: seq<Evidence>, host: string, a: Acquisition)
    ensures var s := FoundService(evidence, host, a);
            var required, told := !a.requirement.NoService?, ServicesTold(evidence, host, a);
            var gone, idle := SomeServiceGone(evidence, host, a), SomeServiceIdle(evidence, host, a);
            && (s == NotRequired <==> !required)
            && (s == ServiceUnknown <==> required && !told)
            && (s == ServiceUnavailable <==> required && told && gone)
            && (s == ServiceInactive <==> required && told && !gone && idle)
            && (s == ServiceActive <==> required && told && !gone && !idle)
  {
    var records := ServiceRecords(evidence, host, a.services);
    forall e ensures e in records <==> OfService(evidence, host, a.services, e) {
      InServiceRecords(evidence, host, a.services, e);
    }
    assert forall k :: 0 <= k < |records| ==> OfService(evidence, host, a.services, records[k]);
    assert forall e :: OfService(evidence, host, a.services, e) ==> exists k :: 0 <= k < |records| && records[k] == e;
  }

  // ----- what grounding finds -----

  /** The status that grounding gives a gap, told by the evidence: the software is missing exactly when the
      session confirms every absence, and there exactly when it confirms every presence; with the software
      there and a READ backend, the services decide. Anything else is unknown. */
  lemma GroundedStatusIsExact(catalog: Catalog, evidence: seq<Evidence>, host: string, gap: Gap)
    requires AcquisitionOf(catalog, gap.capability).Some?
    ensures var a := AcquisitionOf(catalog, gap.capability).value;
            var g, s := Ground(catalog, evidence, host, gap), FoundService(evidence, host, a);
            var missing, there := AllAre(evidence, host, a, false), AllAre(evidence, host, a, true);
            var usable := there && catalog.backend(gap.capability);
            var failing := s == ServiceUnavailable || (a.requirement.ActiveService? && s == ServiceInactive);
            && g.capability == gap.capability && g.candidatePackage == Some(a.packageName)
            && g.confidence == gap.confidence
            && (g.software == SoftwareMissing <==> missing) && (g.software == SoftwareAvailable <==> there)
            && (missing || there ==> g.service == s && (g.grounded <==> missing))
            && (!missing && !there ==> g.service == ServiceUnknown)
            && (g.status == Missing <==> missing)
            && (g.status == Degraded <==> usable && failing)
            && (g.status == OverallAvailable <==> usable && !failing && s != ServiceUnknown)
            && g.status != Unsupported
            && (missing || there ==>
                 g.evidence
                 == ["query_package:" + a.packageName + (if there then ":installed=True" else ":installed=False")]
                    + ExecutableLines(a.executables, there))
  {
    var a := AcquisitionOf(catalog, gap.capability).value;
    AllAreMeans(evidence, host, a, false);
    AllAreMeans(evidence, host, a, true);
    var complete := EvidenceComplete(evidence, host, a) && Agreeing(evidence, host, a);
    assert complete ==> PackageFact(evidence, host, a.packageName)
                        == Some(PackageFact(evidence, host, a.packageName).value);
    SettledMeans(catalog, gap, a, true, FoundService(evidence, host, a));
    SettledMeans(catalog, gap, a, false, FoundService(evidence, host, a));
    SettledNotes(catalog, gap, a, true, FoundService(evidence, host, a));
    SettledNotes(catalog, gap, a, false, FoundService(evidence, host, a));
    ServiceIsExact(evidence, host, a);
  }

  lemma SettledMeans(catalog: Catalog, gap: Gap, a: Acquisition, installed: bool, s: Service)
    requires AcquisitionOf(catalog, gap.capability) == Some(a)
    ensures var g := Settled(catalog, gap, a, installed, s);
            var usable := installed && catalog.backend(gap.capability);
            var failing := !a.requirement.NoService?
                           && (s == ServiceUnavailable || (a.requirement.ActiveService? && s == ServiceInactive));
            && g.capability == gap.capability && g.candidatePackage == Some(a.packageName)
            && g.confidence == gap.confidence && (g.grounded <==> !installed)
            && g.software == (if installed then SoftwareAvailable else SoftwareMissing)
            && g.service == (if a.requirement.NoService? then NotRequired else s)
            && (g.status == Missing <==> !installed) && g.status != Unsupported
            && (g.status == Degraded <==> usable && failing)
            && (g.status == OverallAvailable <==>
                 usable && !failing && (a.requirement.NoService? || s != ServiceUnknown))
  {
  }

  lemma SettledNotes(catalog: Catalog, gap: Gap, a: Acquisition, installed: bool, s: Service)
    ensures Settled(catalog, gap, a, installed, s).evidence
            == ["query_package:" + a.packageName + (if installed then ":installed=True" else ":installed=False")]
               + ExecutableLines(a.executables, installed)
  {
    assert ":installed=" + Shown(installed) == if installed then ":installed=True" else ":installed=False";
    assert "query_package:" + a.packageName + ":installed=" + Shown(installed)
           == "query_package:" + a.packageName + (":installed=" + Shown(installed));
  }

  /** The evidence that grounding notes: what it read of the package, and then of each executable. */
  lemma {:induction false} NotesAt(executables: seq<string>, there: bool, k: nat)
    requires k < |executables|
    ensures |ExecutableLines(executables, there)| == |executables|
    ensures ExecutableLines(executables, there)[k]
            == "query_executable:" + executables[k] + (if there then ":exists=True" else ":exists=False")
  {
    if k > 0 {
      NotesAt(executables[1..], there, k - 1);
    } else if |executables| > 1 {
      NotesAt(executables[1..], there, 0);
    }
  }

  /** Grounding and then asking yields a request exactly if there is consent, the model is not of low
      confidence, the catalog can install, and the session confirms every absence. Whatever the model
      claimed besides, and whatever package it named, makes no difference. */
  lemma GroundedRequestIsExact(catalog: Catalog, evidence: seq<Evidence>, host: string, gap: Gap, consent: bool)
    ensures var a := AcquisitionOf(catalog, gap.capability);
            RequestForGap(catalog, host, Ground(catalog, evidence, host, gap), consent).Some? <==>
              consent && !gap.confidence.Low? && a.Some? && a.value.installSupported
                && Confirmed(evidence, host, a.value)
  {
    if AcquisitionOf(catalog, gap.capability).Some? {
      GroundedStatusIsExact(catalog, evidence, host, gap);
      AssessKeepsGrounded(catalog, evidence, host, gap);
    }
  }

  /** The package asked for is the catalog's, on the host asked about. */
  lemma PackageIsTheCatalogs(catalog: Catalog, host: string, gap: Gap, consent: bool)
    requires RequestForGap(catalog, host, gap, consent).Some?
    ensures var r := RequestForGap(catalog, host, gap, consent).value;
            && AcquisitionOf(catalog, gap.capability).Some?
            && r.host == host && r.actionType == Actions.PACKAGE_INSTALL && r.parameters.PackageInstallParameters?
            && r.parameters.packageName == AcquisitionOf(catalog, gap.capability).value.packageName
            && r.parameters.expectedCapability == Some(gap.capability)
            && r.parameters.reason
               == Some(catalog.definitions[gap.capability].description + " capability is unavailable")
  {
  }

  /** Assessing a grounded gap finds the status that grounding found. */
  lemma AssessKeepsGrounded(catalog: Catalog, evidence: seq<Evidence>, host: string, gap: Gap)
    ensures var g := Ground(catalog, evidence, host, gap);
            AssessGap(catalog, g).status == g.status && AssessGap(catalog, g).software == g.software
  {
    var g, a := Ground(catalog, evidence, host, gap), AcquisitionOf(catalog, gap.capability);
    if a.Some? && EvidenceComplete(evidence, host, a.value) && Agreeing(evidence, host, a.value) {
      var facts := ServiceFacts(evidence, host, a.value);
      AssessKeepsSettled(catalog, gap, a.value, PackageFact(evidence, host, a.value.packageName).value,
                         ServiceFrom(a.value.requirement, facts.0, facts.1));
    } else {
      AssessKeepsUnknown(catalog, g);
    }
  }

  lemma AssessKeepsUnknown(catalog: Catalog, gap: Gap)
    requires gap.status == Unknown && gap.software == SoftwareUnknown
    ensures AssessGap(catalog, gap).status == gap.status && AssessGap(catalog, gap).software == gap.software
  {
  }

  lemma AssessKeepsSettled(catalog: Catalog, gap: Gap, a: Acquisition, installed: bool, service: Service)
    requires AcquisitionOf(catalog, gap.capability) == Some(a)
    ensures var g := Settled(catalog, gap, a, installed, service);
            AssessGap(catalog, g).status == g.status && AssessGap(catalog, g).software == g.software
  {
    var software := if installed then SoftwareAvailable else SoftwareMissing;
    var v := StateOf(catalog, gap.capability, software, service);
    assert StateOf(catalog, gap.capability, v.software, v.service) == v;
  }

  /** Assessing twice is assessing once. */
  lemma AssessIsIdempotent(catalog: Catalog, gap: Gap)
    ensures AssessGap(catalog, AssessGap(catalog, gap)) == AssessGap(catalog, gap)
  {
    var v := StateOf(catalog, gap.capability, gap.software, gap.service);
    ContainsMiddle(StripEnd(gap.reason) + "; ", v.reason, "");
    assert StripEnd(gap.reason) + "; " + v.reason + "" == StripEnd(gap.reason) + "; " + v.reason;
  }
}
