/**
 * The system part of the dashboard (net_tui.py:202-275): software facts with
 * their per-routing-engine sentinels, active alarms, memory and CPU use, and
 * the last commit, each taken from an already-fetched RPC reply.
 */
module SystemHealth {
  import opened Results
  import opened Payloads
  import Text

  /** The placeholder shown for a routing engine the facts do not describe. */
  const NotAvailable: Value := Str("NA")

  /** The single entry the alarm list holds when the reply has no alarm details. */
  const NoAlarm: Value := Str("None")

  // ---------------------------------------------------------------- facts

  datatype Engine = Engine(uptime: Value, lastRebootReason: Value)

  datatype SystemInfo = SystemInfo(version: Value, model: Value, serialNumber: Value, re0: Engine, re1: Engine)

  /** One routing engine's facts block: copied when truthy, `NA` for both fields otherwise. */
  function EngineFacts(block: Value): Result<Engine> {
    if !Truthy(block) then Ok(Engine(NotAvailable, NotAvailable))
    else
      var uptime :- Get(block, "up_time");
      var reason :- Get(block, "last_reboot_reason");
      Ok(Engine(uptime, reason))
  }

  /**
   * net_tui.py:202-219: the facts are read when the reply is a dict whose two
   * engine blocks are falsy or dicts; the version, model and serial number are
   * then copied (None where absent) and each engine is described by its block.
   */
  function SystemFacts(facts: Value): (r: Result<SystemInfo>)
    ensures r.Ok? <==> facts.Obj? && ReadableBlock(FactsBlock(facts, "RE0")) && ReadableBlock(FactsBlock(facts, "RE1"))
    ensures r.Ok? ==>
              && r.value.version == FactsBlock(facts, "version")
              && r.value.model == FactsBlock(facts, "model")
              && r.value.serialNumber == FactsBlock(facts, "serialnumber")
              && r.value.re0 == ExpectedEngine(FactsBlock(facts, "RE0"))
              && r.value.re1 == ExpectedEngine(FactsBlock(facts, "RE1"))
  {
    if !facts.Obj? then Err(TypeErr)   // `.get` on anything but a dict
    else
      var re0 :- EngineFacts(FactsBlock(facts, "RE0"));
      var re1 :- EngineFacts(FactsBlock(facts, "RE1"));
      Ok(SystemInfo(FactsBlock(facts, "version"), FactsBlock(facts, "model"), FactsBlock(facts, "serialnumber"), re0, re1))
  }

  /** What `facts.get(name)` gives on a facts dict. */
  function FactsBlock(facts: Value, name: string): Value
    requires facts.Obj?
  {
    if name in facts.fields then facts.fields[name] else Null
  }

  /** A block the code can read: falsy, or a dict. */
  predicate ReadableBlock(block: Value) {
    !Truthy(block) || block.Obj?
  }

  /** The engine an usable block describes: its two fields (None where absent), or `NA` twice. */
  function ExpectedEngine(block: Value): Engine
    requires ReadableBlock(block)
  {
    if Truthy(block) then Engine(FactsBlock(block, "up_time"), FactsBlock(block, "last_reboot_reason"))
    else Engine(NotAvailable, NotAvailable)
  }

  /**
   * The facts of a dict are read whenever both engine blocks are falsy or dicts,
   * and then an absent or falsy block reports `NA` for both its uptime and its
   * reboot reason, while a present one has its fields copied.
   */
  lemma EngineSentinels(facts: Value)
    requires facts.Obj?
    ensures SystemFacts(facts).Ok? <==>
              ReadableBlock(FactsBlock(facts, "RE0")) && ReadableBlock(FactsBlock(facts, "RE1"))
    ensures SystemFacts(facts).Ok? ==>
              && SystemFacts(facts).value.re0 == ExpectedEngine(FactsBlock(facts, "RE0"))
              && SystemFacts(facts).value.re1 == ExpectedEngine(FactsBlock(facts, "RE1"))
    ensures "RE1" !in facts.fields && ReadableBlock(FactsBlock(facts, "RE0")) ==>
              SystemFacts(facts).Ok? && SystemFacts(facts).value.re1 == Engine(NotAvailable, NotAvailable)
  {
  }

  // ---------------------------------------------------------------- alarms

  /**
   * The descriptions of a list of alarm records, in order. A record without a
   * description raises the KeyError that the handler turns into a final "None";
   * what was collected before it stays.
   */
  function Descriptions(alarms: seq<Value>): Result<seq<Value>> {
    if alarms == [] then Ok([])
    else
      match Index(alarms[0], "alarm-description")
      case Ok(d) => Prefixed([d], Descriptions(alarms[1..]))
      case Err(KeyErr(_)) => Ok([NoAlarm])
      case Err(e) => Err(e)
  }

  /** The alarm list of an `alarm-detail` value: one record, or a list of them (net_tui.py:225-229). */
  function AlarmDetails(detail: Value): Result<seq<Value>> {
    match Shape(detail)
    case Many(alarms) => Descriptions(alarms)
    case Single(alarm) =>
      match Index(alarm, "alarm-description")
      case Ok(d) => Ok([d])
      case Err(KeyErr(_)) => Ok([NoAlarm])
      case Err(e) => Err(e)
  }

  /** net_tui.py:221-231. */
  function Alarms(data: Value): Result<seq<Value>> {
    var info :- Get(data, "alarm-information");
    match Index(info, "alarm-detail")
    case Ok(detail) => AlarmDetails(detail)
    case Err(KeyErr(_)) => Ok([NoAlarm])
    case Err(e) => Err(e)
  }

  method ExtractAlarms(data: Value) returns (r: Result<seq<Value>>)
    ensures r == Alarms(data)
  {
    var info :- Get(data, "alarm-information");
    var found: seq<Value> := [];
    var detail := Index(info, "alarm-detail");
    if detail.Err? {
      if detail.error.KeyErr? {
        found := found + [NoAlarm];
        assert found == [NoAlarm];
        return Ok(found);
      }
      return Err(detail.error);
    }
    match Shape(detail.value)
    case Many(alarms) =>
      var i := 0;
      PrefixedNothing(Descriptions(alarms));
      assert alarms[0..] == alarms;
      while i < |alarms|
        invariant 0 <= i <= |alarms|
        invariant Descriptions(alarms) == Prefixed(found, Descriptions(alarms[i..]))
      {
        assert alarms[i..][1..] == alarms[i + 1..];
        var d := Index(alarms[i], "alarm-description");
        if d.Err? {
          if d.error.KeyErr? {
            found := found + [NoAlarm];
            return Ok(found);
          }
          return Err(d.error);
        }
        PrefixedTwice(found, [d.value], Descriptions(alarms[i + 1..]));
        found := found + [d.value];
        i := i + 1;
      }
      assert found + [] == found;
      r := Ok(found);
    case Single(alarm) =>
      var d := Index(alarm, "alarm-description");
      if d.Err? {
        if d.error.KeyErr? {
          found := found + [NoAlarm];
          assert found == [NoAlarm];
          return Ok(found);
        }
        return Err(d.error);
      }
      found := found + [d.value];
      assert found == [d.value];
      r := Ok(found);
  }

  predicate HasDescription(alarm: Value) {
    alarm.Obj? && "alarm-description" in alarm.fields
  }

  /** The descriptions of alarm records that all have one, in order. */
  function DescriptionsOf(alarms: seq<Value>): seq<Value>
    requires forall i :: 0 <= i < |alarms| ==> HasDescription(alarms[i])
  {
    if alarms == [] then []
    else
      assert HasDescription(alarms[0]);
      [alarms[0].fields["alarm-description"]] + DescriptionsOf(alarms[1..])
  }

  /** A list of alarm records that all have descriptions yields those descriptions, in order. */
  lemma {:induction false} DescriptionsInOrder(alarms: seq<Value>)
    requires forall i :: 0 <= i < |alarms| ==> HasDescription(alarms[i])
    ensures Descriptions(alarms) == Ok(DescriptionsOf(alarms))
  {
    if alarms != [] {
      DescriptionsInOrder(alarms[1..]);
    }
  }

  /**
   * The first record (a dict) without a description ends the list: the
   * descriptions before it are kept and "None" is appended.
   */
  lemma {:induction false} DescriptionsStopAtMissing(alarms: seq<Value>, k: nat)
    requires k < |alarms|
    requires forall i :: 0 <= i < k ==> HasDescription(alarms[i])
    requires alarms[k].Obj? && "alarm-description" !in alarms[k].fields
    ensures Descriptions(alarms) == Ok(DescriptionsOf(alarms[..k]) + [NoAlarm])
  {
    if k > 0 {
      DescriptionsStopAtMissing(alarms[1..], k - 1);
      assert HasDescription(alarms[0]);
      var d := alarms[0].fields["alarm-description"];
      assert alarms[..k][1..] == alarms[1..][..k - 1];
      assert DescriptionsOf(alarms[..k]) == [d] + DescriptionsOf(alarms[1..][..k - 1]);
      assert Descriptions(alarms) == Prefixed([d], Descriptions(alarms[1..]));
      var rest := DescriptionsOf(alarms[1..][..k - 1]);
      assert [d] + (rest + [NoAlarm]) == ([d] + rest) + [NoAlarm];
    } else {
      assert alarms[..0] == [];
      assert Index(alarms[0], "alarm-description") == Err(KeyErr("alarm-description"));
      assert Descriptions(alarms) == Ok([NoAlarm]);
      assert DescriptionsOf(alarms[..0]) + [NoAlarm] == [NoAlarm];
    }
  }

  /** A single alarm record is read exactly as the one-element list holding it. */
  lemma SingleAlarmAsList(alarm: Value)
    requires !alarm.Arr?
    ensures AlarmDetails(alarm) == AlarmDetails(Arr([alarm]))
  {
    assert [alarm][1..] == [];
    var d := Index(alarm, "alarm-description");
    assert Descriptions([alarm][1..]) == Ok([]);
    if d.Ok? {
      assert [d.value] + [] == [d.value];
    }
  }

  /**
   * A reply whose alarm information has no `alarm-detail` lists only "None";
   * a reply with no alarm information at all indexes None and fails.
   */
  lemma AlarmSentinel(data: Value)
    requires data.Obj?
    ensures "alarm-information" in data.fields && data.fields["alarm-information"].Obj?
            && "alarm-detail" !in data.fields["alarm-information"].fields
            ==> Alarms(data) == Ok([NoAlarm])
    ensures "alarm-information" !in data.fields ==> Alarms(data) == Err(TypeErr)
  {
  }

  // ---------------------------------------------------------------- memory

  datatype Memory = Memory(usedPercent: int, freePercent: nat)

  const FreePercentPath: seq<string> :=
    ["system-memory-information", "system-memory-summary-information", "system-memory-free-percent"]

  /** net_tui.py:249-255: free is the field with every '%' deleted, read as an integer; used is the rest of 100. */
  function MemoryUsage(data: Value): (r: Result<Memory>)
    ensures r.Ok? <==> exists s :: Path(data, FreePercentPath) == Ok(Str(s)) && Text.ParseNat(Text.StripPercent(s)).Some?
    ensures r.Ok? ==> r.value.usedPercent + r.value.freePercent == 100
    ensures r.Ok? ==> exists s :: Path(data, FreePercentPath) == Ok(Str(s))
                                  && Text.ParseNat(Text.StripPercent(s)) == Some(r.value.freePercent)
  {
    var field :- Path(data, FreePercentPath);
    MemoryOfField(field)
  }

  function MemoryOfField(field: Value): Result<Memory> {
    if !field.Str? then Err(TypeErr)
    else
      var free :- ToNat(Str(Text.StripPercent(field.s)));
      Ok(Memory(100 - free, free))
  }

  /** A free-percent field written as `n%` gives free n and used 100 - n. */
  lemma MemoryOfPercent(data: Value, n: nat)
    requires Path(data, FreePercentPath) == Ok(Str(Text.Decimal(n) + "%"))
    ensures MemoryUsage(data) == Ok(Memory(100 - n, n))
  {
    PercentField(n);
  }

  lemma PercentField(n: nat)
    ensures MemoryOfField(Str(Text.Decimal(n) + "%")) == Ok(Memory(100 - n, n))
  {
    var s := Text.Decimal(n) + "%";
    Text.StripPercentAppend(Text.Decimal(n), "%");
    assert Text.StripPercent("%") == "";
    assert Text.StripPercent(s) == Text.Decimal(n);
    Text.ParseDecimal(n);
    assert ToNat(Str(Text.StripPercent(s))) == Ok(n);
  }

  /** "37%" free is 37 free and 63 used. */
  lemma MemoryExample(data: Value)
    requires Path(data, FreePercentPath) == Ok(Str("37%"))
    ensures MemoryUsage(data) == Ok(Memory(63, 37))
  {
    assert Text.Decimal(37) == "37";
    assert Text.Decimal(37) + "%" == "37%";
    MemoryOfPercent(data, 37);
  }

  // ---------------------------------------------------------------- CPU

  /** The CPU use shown (the `cpu-user` field as it stands) and the integer it must parse to. */
  datatype Cpu = Cpu(shown: Value, percent: nat)

  /**
   * The CPU of a `route-engine` value (net_tui.py:259-264): the record itself
   * when it is a dict, element 0 when it is a list; anything else leaves
   * `cpu_usage` unassigned, and reading it at line 269 fails.
   */
  function EngineCpu(engines: Value): (r: Result<Cpu>)
    ensures r.Ok? ==> Numeral(r.value.shown) && Text.ParseNat(r.value.shown.s) == Some(r.value.percent)
    ensures r.Ok? ==> CpuUserOf(engines, r.value.shown)
    ensures CpuReadable(engines) ==> r.Ok?
    ensures !engines.Obj? && !engines.Arr? ==> r == Err(NameErr("cpu_usage"))
  {
    var engine :- if engines.Obj? then Ok(engines)
                  else if engines.Arr? then First(engines)
                  else Err(NameErr("cpu_usage"));
    var usage :- Index(engine, "cpu-user");
    var percent :- ToNat(usage);
    Ok(Cpu(usage, percent))
  }

  /** `shown` is the `cpu-user` field of the engine the source reads: the dict itself, or element 0 of a list. */
  predicate CpuUserOf(engines: Value, shown: Value) {
    || (engines.Obj? && Index(engines, "cpu-user") == Ok(shown))
    || (engines.Arr? && engines.items != [] && Index(engines.items[0], "cpu-user") == Ok(shown))
  }

  /** The engine the source reads has a numeral `cpu-user` field. */
  predicate CpuReadable(engines: Value) {
    || (engines.Obj? && NumeralField(engines, "cpu-user"))
    || (engines.Arr? && engines.items != [] && NumeralField(engines.items[0], "cpu-user"))
  }

  /** The record has a `key` field holding a decimal numeral. */
  predicate NumeralField(record: Value, key: string) {
    Index(record, key).Ok? && Numeral(Index(record, key).value)
  }

  /** net_tui.py:257-269. */
  function CpuUsage(data: Value): (r: Result<Cpu>)
    ensures r.Ok? ==> Path(data, ["route-engine-information", "route-engine"]).Ok?
    ensures r.Ok? ==> CpuUserOf(Path(data, ["route-engine-information", "route-engine"]).value, r.value.shown)
    ensures r.Ok? ==> Numeral(r.value.shown) && Text.ParseNat(r.value.shown.s) == Some(r.value.percent)
    ensures Path(data, ["route-engine-information", "route-engine"]).Ok? ==>
              CpuReadable(Path(data, ["route-engine-information", "route-engine"]).value) ==> r.Ok?
    ensures Path(data, ["route-engine-information", "route-engine"]).Ok? ==>
              r == EngineCpu(Path(data, ["route-engine-information", "route-engine"]).value)
    ensures Path(data, ["route-engine-information", "route-engine"]).Err? ==>
              r == Err(Path(data, ["route-engine-information", "route-engine"]).error)
  {
    var engines :- Path(data, ["route-engine-information", "route-engine"]);
    EngineCpu(engines)
  }

  /** With several routing engines only the first is read: the others never matter. */
  lemma CpuFirstEngineOnly(first: Value, others: seq<Value>)
    requires first.Obj?
    ensures EngineCpu(Arr([first] + others)) == EngineCpu(first)
  {
  }

  /** A `route-engine` value that is neither a dict nor a list leaves the CPU use unassigned. */
  lemma CpuOfOtherShape(data: Value, engines: Value)
    requires Path(data, ["route-engine-information", "route-engine"]) == Ok(engines)
    requires !engines.Obj? && !engines.Arr?
    ensures CpuUsage(data) == Err(NameErr("cpu_usage"))
  {
  }

  // ---------------------------------------------------------------- commit

  datatype Commit = Commit(user: Value, time: Value)

  /** net_tui.py:273-275: the user and time of element 0 of the commit history. */
  function LastCommit(data: Value): (r: Result<Commit>)
    ensures r.Ok? <==>
              var history := Path(data, ["commit-information", "commit-history"]);
              && history.Ok? && history.value.Arr? && history.value.items != []
              && Index(history.value.items[0], "user").Ok?
              && Path(history.value.items[0], ["date-time", "#text"]).Ok?
    ensures r.Ok? ==>
              var latest := Path(data, ["commit-information", "commit-history"]).value.items[0];
              && Index(latest, "user") == Ok(r.value.user)
              && Path(latest, ["date-time", "#text"]) == Ok(r.value.time)
  {
    var history :- Path(data, ["commit-information", "commit-history"]);
    var latest :- First(history);
    var user :- Index(latest, "user");
    var time :- Path(latest, ["date-time", "#text"]);
    Ok(Commit(user, time))
  }

  /** Only the newest entry of the commit history is read: the older ones never matter. */
  lemma NewestCommitOnly(data: Value, latest: Value, older: seq<Value>, user: Value, time: Value)
    requires Path(data, ["commit-information", "commit-history"]) == Ok(Arr([latest] + older))
    requires Index(latest, "user") == Ok(user) && Path(latest, ["date-time", "#text"]) == Ok(time)
    ensures LastCommit(data) == Ok(Commit(user, time))
  {
  }

  /** A history of one commit, given as a record rather than a list, is indexed by 0 and raises. */
  lemma SingleCommitRecord(data: Value, entry: map<string, Value>)
    requires Path(data, ["commit-information", "commit-history"]) == Ok(Obj(entry))
    ensures LastCommit(data) == Err(KeyErr("0"))
  {
  }
}
