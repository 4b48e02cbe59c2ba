/**
 * The data behind the device dashboard (`dasbboard_build`, net_tui.py:202-372):
 * the system sections, then the tally of every routing protocol the device's
 * configuration names. Every reply has already been fetched; the tables the
 * source draws from the report are not modelled.
 */
module Dashboard {
  import opened Results
  import opened Payloads
  import opened SystemHealth
  import opened ProtocolTallies
  import ProtocolDetector
  import Text

  /** The replies the dashboard reads: the main task's RPCs, the configuration text, and one reply per protocol. */
  datatype DeviceReplies = DeviceReplies(
    facts: Value, alarms: Value, memory: Value, cpu: Value, commit: Value,
    config: string,
    bgp: Value, isis: Value, ospf: Value, mpls: Value, ldp: Value)

  /** Everything the three tables show; a protocol the configuration does not name has no section. */
  datatype Report = Report(
    system: SystemInfo, alarms: seq<Value>, memory: Memory, cpu: Cpu, commit: Commit,
    bgp: Option<BgpTally>, isis: Option<Tally>, ospf: Option<Tally>, mpls: Option<MplsTally>, ldp: Option<Tally>)

  /** A protocol's section: computed only when the protocol is active. */
  function IfActive<T>(active: bool, r: Result<T>): Result<Option<T>> {
    if !active then Ok(None)
    else
      match r
      case Ok(t) => Ok(Some(t))
      case Err(e) => Err(e)
  }

  /** A section is fine when it is not shown or when it is computed without an error. */
  predicate Succeeds<T>(active: bool, r: Result<T>) {
    active ==> r.Ok?
  }

  /**
   * The dashboard, section by section in the source's order; the only handler
   * is the one around the alarms, so any other error ends the whole build.
   */
  function DashboardOf(d: DeviceReplies): (r: Result<Report>)
    ensures r.Ok? <==>
              && SystemFacts(d.facts).Ok? && Alarms(d.alarms).Ok? && MemoryUsage(d.memory).Ok?
              && CpuUsage(d.cpu).Ok? && LastCommit(d.commit).Ok?
              && Succeeds("bgp" in ProtocolDetector.ProtocolList(d.config), BgpSummary(d.bgp))
              && Succeeds("isis" in ProtocolDetector.ProtocolList(d.config), StateTally(Isis, d.isis))
              && Succeeds("ospf" in ProtocolDetector.ProtocolList(d.config), StateTally(Ospf, d.ospf))
              && Succeeds("mpls" in ProtocolDetector.ProtocolList(d.config), MplsSummary(d.mpls))
              && Succeeds("ldp" in ProtocolDetector.ProtocolList(d.config), StateTally(Ldp, d.ldp))
    ensures r.Ok? ==>
              && (r.value.bgp.Some? <==> "bgp" in ProtocolDetector.ProtocolList(d.config))
              && (r.value.isis.Some? <==> "isis" in ProtocolDetector.ProtocolList(d.config))
              && (r.value.ospf.Some? <==> "ospf" in ProtocolDetector.ProtocolList(d.config))
              && (r.value.mpls.Some? <==> "mpls" in ProtocolDetector.ProtocolList(d.config))
              && (r.value.ldp.Some? <==> "ldp" in ProtocolDetector.ProtocolList(d.config))
    ensures r.Ok? ==>
              && r.value.system == SystemFacts(d.facts).value && r.value.alarms == Alarms(d.alarms).value
              && r.value.memory == MemoryUsage(d.memory).value && r.value.cpu == CpuUsage(d.cpu).value
              && r.value.commit == LastCommit(d.commit).value
    ensures r.Ok? ==>
              && (r.value.bgp.Some? ==> r.value.bgp.value == BgpSummary(d.bgp).value)
              && (r.value.isis.Some? ==> r.value.isis.value == StateTally(Isis, d.isis).value)
              && (r.value.ospf.Some? ==> r.value.ospf.value == StateTally(Ospf, d.ospf).value)
              && (r.value.mpls.Some? ==> r.value.mpls.value == MplsSummary(d.mpls).value)
              && (r.value.ldp.Some? ==> r.value.ldp.value == StateTally(Ldp, d.ldp).value)
    ensures r.Ok? ==> r.value.memory.usedPercent + r.value.memory.freePercent == 100
  {
    var protocols := ProtocolDetector.ProtocolList(d.config);
    Assemble(
      SystemFacts(d.facts), Alarms(d.alarms), MemoryUsage(d.memory), CpuUsage(d.cpu), LastCommit(d.commit),
      IfActive("bgp" in protocols, BgpSummary(d.bgp)),
      IfActive("isis" in protocols, StateTally(Isis, d.isis)),
      IfActive("ospf" in protocols, StateTally(Ospf, d.ospf)),
      IfActive("mpls" in protocols, MplsSummary(d.mpls)),
      IfActive("ldp" in protocols, StateTally(Ldp, d.ldp)))
  }

  /** The report of the sections, the first failing one, in the source's order, ending the build. */
  function Assemble(
    system: Result<SystemInfo>, alarms: Result<seq<Value>>, memory: Result<Memory>, cpu: Result<Cpu>,
    commit: Result<Commit>, bgp: Result<Option<BgpTally>>, isis: Result<Option<Tally>>,
    ospf: Result<Option<Tally>>, mpls: Result<Option<MplsTally>>, ldp: Result<Option<Tally>>): Result<Report>
  {
    var system :- system;
    var alarms :- alarms;
    var memory :- memory;
    var cpu :- cpu;
    var commit :- commit;
    var bgp :- bgp;
    var isis :- isis;
    var ospf :- ospf;
    var mpls :- mpls;
    var ldp :- ldp;
    Ok(Report(system, alarms, memory, cpu, commit, bgp, isis, ospf, mpls, ldp))
  }

  method BuildDashboard(d: DeviceReplies) returns (r: Result<Report>)
    ensures r == DashboardOf(d)
  {
    var system :- SystemFacts(d.facts);
    var alarms :- ExtractAlarms(d.alarms);
    var memory :- MemoryUsage(d.memory);
    var cpu :- CpuUsage(d.cpu);
    var commit :- LastCommit(d.commit);
    var protocols := ProtocolDetector.ProtocolList(d.config);
    var bgp: Option<BgpTally> := None;
    if "bgp" in protocols {
      var t :- BgpSummary(d.bgp);
      bgp := Some(t);
    }
    var isis: Option<Tally> := None;
    if "isis" in protocols {
      var t :- TallyProtocol(Isis, d.isis);
      isis := Some(t);
    }
    var ospf: Option<Tally> := None;
    if "ospf" in protocols {
      var t :- TallyProtocol(Ospf, d.ospf);
      ospf := Some(t);
    }
    var mpls: Option<MplsTally> := None;
    if "mpls" in protocols {
      var t :- SummarizeMpls(d.mpls);
      mpls := Some(t);
    }
    var ldp: Option<Tally> := None;
    if "ldp" in protocols {
      var t :- TallyProtocol(Ldp, d.ldp);
      ldp := Some(t);
    }
    r := Ok(Report(system, alarms, memory, cpu, commit, bgp, isis, ospf, mpls, ldp));
  }

  /**
   * The reply of a protocol the configuration does not name is never read:
   * replacing it changes nothing.
   */
  lemma InactiveBgpIgnored(d: DeviceReplies, other: Value)
    requires "bgp" !in ProtocolDetector.ProtocolList(d.config)
    ensures DashboardOf(d.(bgp := other)) == DashboardOf(d)
  {
    var protocols := ProtocolDetector.ProtocolList(d.config);
    assert IfActive("bgp" in protocols, BgpSummary(other)) == IfActive("bgp" in protocols, BgpSummary(d.bgp));
  }

  lemma InactiveIsisIgnored(d: DeviceReplies, other: Value)
    requires "isis" !in ProtocolDetector.ProtocolList(d.config)
    ensures DashboardOf(d.(isis := other)) == DashboardOf(d)
  {
    var protocols := ProtocolDetector.ProtocolList(d.config);
    assert IfActive("isis" in protocols, StateTally(Isis, other)) == IfActive("isis" in protocols, StateTally(Isis, d.isis));
  }

  lemma InactiveOspfIgnored(d: DeviceReplies, other: Value)
    requires "ospf" !in ProtocolDetector.ProtocolList(d.config)
    ensures DashboardOf(d.(ospf := other)) == DashboardOf(d)
  {
    var protocols := ProtocolDetector.ProtocolList(d.config);
    assert IfActive("ospf" in protocols, StateTally(Ospf, other)) == IfActive("ospf" in protocols, StateTally(Ospf, d.ospf));
  }

  lemma InactiveMplsIgnored(d: DeviceReplies, other: Value)
    requires "mpls" !in ProtocolDetector.ProtocolList(d.config)
    ensures DashboardOf(d.(mpls := other)) == DashboardOf(d)
  {
    var protocols := ProtocolDetector.ProtocolList(d.config);
    assert IfActive("mpls" in protocols, MplsSummary(other)) == IfActive("mpls" in protocols, MplsSummary(d.mpls));
  }

  lemma InactiveLdpIgnored(d: DeviceReplies, other: Value)
    requires "ldp" !in ProtocolDetector.ProtocolList(d.config)
    ensures DashboardOf(d.(ldp := other)) == DashboardOf(d)
  {
    var protocols := ProtocolDetector.ProtocolList(d.config);
    assert IfActive("ldp" in protocols, StateTally(Ldp, other)) == IfActive("ldp" in protocols, StateTally(Ldp, d.ldp));
  }

  /** A configuration that never says `protocols ` gives a dashboard with no protocol section. */
  lemma NoProtocolSections(d: DeviceReplies)
    requires !Text.Contains(d.config, ProtocolDetector.Keyword)
    requires DashboardOf(d).Ok?
    ensures DashboardOf(d).value.bgp.None? && DashboardOf(d).value.isis.None? && DashboardOf(d).value.ospf.None?
    ensures DashboardOf(d).value.mpls.None? && DashboardOf(d).value.ldp.None?
  {
    ProtocolDetector.NoKeywordNoProtocols(d.config);
  }
}
