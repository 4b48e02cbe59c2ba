/**
 * The routing-protocol part of the dashboard (net_tui.py:294-372): up/down
 * tallies of BGP peers, ISIS adjacencies, OSPF neighbours, MPLS LSPs and LDP
 * sessions, each from the protocol's already-fetched RPC reply.
 */
module ProtocolTallies {
  import opened Results
  import opened Payloads
  import Text

  // ---------------------------------------------------------------- BGP

  /** BGP's up count is computed; its down count is shown as the reply gives it. */
  datatype BgpTally = BgpTally(up: int, down: Value)

  const PeerCount: seq<string> := ["bgp-information", "peer-count"]
  const DownPeerCount: seq<string> := ["bgp-information", "down-peer-count"]

  /** The field at `keys` is a decimal numeral. */
  predicate NumeralAt(data: Value, keys: seq<string>) {
    Path(data, keys).Ok? && Numeral(Path(data, keys).value)
  }

  /**
   * net_tui.py:294-300: the tally exists exactly when both counts are
   * numerals; up is then their difference and down the field as it stands.
   */
  function BgpSummary(data: Value): (r: Result<BgpTally>)
    ensures r.Ok? <==> NumeralAt(data, PeerCount) && NumeralAt(data, DownPeerCount)
    ensures r.Ok? ==>
              && r.value.down == Path(data, DownPeerCount).value
              && r.value.up == Text.ParseNat(Path(data, PeerCount).value.s).value
                               - Text.ParseNat(Path(data, DownPeerCount).value.s).value
  {
    var total :- Path(data, ["bgp-information", "peer-count"]);
    var down :- Path(data, ["bgp-information", "down-peer-count"]);
    var t :- ToNat(total);
    var d :- ToNat(down);
    Ok(BgpTally(t - d, down))
  }

  /** With counts that read as numbers, up is the peer count less the down-peer count, down is verbatim. */
  lemma BgpUpIsTotalLessDown(data: Value, s1: string, s2: string, total: nat, down: nat)
    requires Path(data, PeerCount) == Ok(Str(s1)) && Text.ParseNat(s1) == Some(total)
    requires Path(data, DownPeerCount) == Ok(Str(s2)) && Text.ParseNat(s2) == Some(down)
    ensures BgpSummary(data) == Ok(BgpTally(total - down, Str(s2)))
  {
  }

  /** Ten peers of which three are down: seven up, "3" down. */
  lemma BgpExample(data: Value)
    requires Path(data, ["bgp-information", "peer-count"]) == Ok(Str("10"))
    requires Path(data, ["bgp-information", "down-peer-count"]) == Ok(Str("3"))
    ensures BgpSummary(data) == Ok(BgpTally(7, Str("3")))
  {
    assert Text.Decimal(10) == "10";
    assert Text.Decimal(3) == "3";
    Text.ParseDecimal(10);
    Text.ParseDecimal(3);
    BgpUpIsTotalLessDown(data, "10", "3", 10, 3);
  }

  // ---------------------------------------------------------------- ISIS, OSPF, LDP

  datatype Tally = Tally(up: nat, down: nat)

  /** The three protocols tallied by classifying each record's state string. */
  datatype StateProtocol = Isis | Ospf | Ldp

  function InformationKey(p: StateProtocol): string {
    match p
    case Isis => "isis-adjacency-information"
    case Ospf => "ospf-neighbor-information"
    case Ldp => "ldp-session-information"
  }

  function RecordsKey(p: StateProtocol): string {
    match p
    case Isis => "isis-adjacency"
    case Ospf => "ospf-neighbor"
    case Ldp => "ldp-session"
  }

  function StateKey(p: StateProtocol): string {
    match p
    case Isis => "adjacency-state"
    case Ospf => "ospf-neighbor-state"
    case Ldp => "ldp-session-state"
  }

  /** The state that counts as up. */
  function UpState(p: StateProtocol): string {
    match p
    case Isis => "Up"
    case Ospf => "Full"
    case Ldp => "Operational"
  }

  /** The record is a dict whose state field is the up state. */
  predicate IsUp(record: Value, key: string, want: string) {
    record.Obj? && key in record.fields && record.fields[key] == Str(want)
  }

  /** How many records are up: the reference count. */
  function CountUp(records: seq<Value>, key: string, want: string): nat {
    if records == [] then 0 else (if IsUp(records[0], key, want) then 1 else 0) + CountUp(records[1..], key, want)
  }

  /** A tally plus the counts already made; an error passes through. */
  function Added(up: nat, down: nat, r: Result<Tally>): Result<Tally> {
    match r
    case Ok(t) => Ok(Tally(up + t.up, down + t.down))
    case Err(e) => Err(e)
  }

  /**
   * The loop over a list of records (net_tui.py:308-312 and its twins):
   * `record.get(key) == want` counts up, anything else down; `.get` on a
   * record that is not a dict raises.
   */
  function RecordTally(records: seq<Value>, key: string, want: string): Result<Tally> {
    if records == [] then Ok(Tally(0, 0))
    else
      var state :- Get(records[0], key);
      Added(if state == Str(want) then 1 else 0, if state == Str(want) then 0 else 1,
            RecordTally(records[1..], key, want))
  }

  method TallyRecords(records: seq<Value>, key: string, want: string) returns (r: Result<Tally>)
    ensures r == RecordTally(records, key, want)
  {
    var upCount, downCount := 0, 0;
    var i := 0;
    assert records[0..] == records;
    while i < |records|
      invariant 0 <= i <= |records|
      invariant RecordTally(records, key, want) == Added(upCount, downCount, RecordTally(records[i..], key, want))
    {
      assert records[i..][1..] == records[i + 1..];
      var state :- Get(records[i], key);
      if state == Str(want) {
        upCount := upCount + 1;
      } else {
        downCount := downCount + 1;
      }
      i := i + 1;
    }
    r := Ok(Tally(upCount, downCount));
  }

  /**
   * A list tally succeeds exactly when every record is a dict, and then up is
   * the number of records in the up state and down the number of the others.
   */
  lemma {:induction false} RecordTallyCounts(records: seq<Value>, key: string, want: string)
    ensures RecordTally(records, key, want).Ok? <==> forall i :: 0 <= i < |records| ==> records[i].Obj?
    ensures RecordTally(records, key, want).Ok? ==>
              && RecordTally(records, key, want).value.up == CountUp(records, key, want)
              && RecordTally(records, key, want).value.up + RecordTally(records, key, want).value.down == |records|
  {
    if records != [] {
      RecordTallyCounts(records[1..], key, want);
      if records[0].Obj? && RecordTally(records[1..], key, want).Err? {
        var j :| 0 <= j < |records[1..]| && !records[1..][j].Obj?;
        assert !records[j + 1].Obj?;
      }
    }
  }

  /**
   * The tally of a protocol's records value (net_tui.py:306-317, 325-336,
   * 357-370): a list is tallied record by record with `.get`; a single ISIS
   * or OSPF record is indexed with `[...]`, a single LDP record uses `.get`.
   */
  function EntriesTally(p: StateProtocol, entries: Value): Result<Tally> {
    match Shape(entries)
    case Many(records) => RecordTally(records, StateKey(p), UpState(p))
    case Single(record) =>
      var state :- if p == Ldp then Get(record, StateKey(p)) else Index(record, StateKey(p));
      Ok(if state == Str(UpState(p)) then Tally(1, 0) else Tally(0, 1))
  }

  function StateTally(p: StateProtocol, data: Value): Result<Tally> {
    var entries :- Path(data, [InformationKey(p), RecordsKey(p)]);
    EntriesTally(p, entries)
  }

  method TallyProtocol(p: StateProtocol, data: Value) returns (r: Result<Tally>)
    ensures r == StateTally(p, data)
  {
    var entries :- Path(data, [InformationKey(p), RecordsKey(p)]);
    if entries.Arr? {
      r := TallyRecords(entries.items, StateKey(p), UpState(p));
    } else {
      var state :- if p == Ldp then Get(entries, StateKey(p)) else Index(entries, StateKey(p));
      var upCount, downCount := 0, 0;
      if state == Str(UpState(p)) {
        upCount := upCount + 1;
      } else {
        downCount := downCount + 1;
      }
      r := Ok(Tally(upCount, downCount));
    }
  }

  /**
   * Every record is counted once: up plus down is the number of records, a
   * single record counting as one, and up is the number in the up state.
   */
  lemma TallyCountsEveryRecord(p: StateProtocol, entries: Value)
    requires EntriesTally(p, entries).Ok?
    ensures EntriesTally(p, entries).value.up + EntriesTally(p, entries).value.down == |Records(Shape(entries))|
    ensures EntriesTally(p, entries).value.up == CountUp(Records(Shape(entries)), StateKey(p), UpState(p))
  {
    if entries.Arr? {
      RecordTallyCounts(entries.items, StateKey(p), UpState(p));
    } else {
      assert [entries][1..] == [];
    }
  }

  /** A single record that has its state field tallies exactly as the one-element list holding it. */
  lemma SingleRecordAsList(p: StateProtocol, record: Value)
    requires !record.Arr?
    requires p == Ldp || !record.Obj? || StateKey(p) in record.fields
    ensures EntriesTally(p, record) == EntriesTally(p, Arr([record]))
  {
    var key, want := StateKey(p), UpState(p);
    assert [record][1..] == [];
    if record.Obj? {
      assert Get(record, key) == (if p == Ldp then Get(record, key) else Index(record, key));
      var state := Get(record, key).value;
      assert RecordTally([record], key, want)
          == Added(if state == Str(want) then 1 else 0, if state == Str(want) then 0 else 1, RecordTally([], key, want));
    } else {
      assert RecordTally([record], key, want) == Err(TypeErr);
    }
  }

  /**
   * A single ISIS or OSPF record without a state field raises a KeyError,
   * where the same record inside a list is counted down.
   */
  lemma SingleRecordMissingState(p: StateProtocol, record: Value)
    requires p != Ldp
    requires record.Obj? && StateKey(p) !in record.fields
    ensures EntriesTally(p, record) == Err(KeyErr(StateKey(p)))
    ensures EntriesTally(p, Arr([record])) == Ok(Tally(0, 1))
  {
    var key, want := StateKey(p), UpState(p);
    assert [record][1..] == [];
    assert Get(record, key) == Ok(Null);
    assert RecordTally([record], key, want) == Added(0, 1, RecordTally([], key, want));
  }

  // ---------------------------------------------------------------- MPLS

  /** What one `rsvp-session-data` record contributes: its session type and its two counts. */
  datatype LspEntry = LspEntry(sessionType: Value, upCount: Value, downCount: Value)

  /**
   * The reads the loop body makes of one record (net_tui.py:346-347), in
   * Python's order: the right-hand side `up-count` first, then the key
   * `session-type`, which must be hashable, then `down-count`.
   */
  function LspEntryOf(record: Value): Result<LspEntry> {
    var up :- Index(record, "up-count");
    var kind :- Index(record, "session-type");
    if !Hashable(kind) then Err(TypeErr)
    else
      var down :- Index(record, "down-count");
      Ok(LspEntry(kind, up, down))
  }

  function LspEntries(records: seq<Value>): Result<seq<LspEntry>> {
    if records == [] then Ok([])
    else
      var e :- LspEntryOf(records[0]);
      Prefixed([e], LspEntries(records[1..]))
  }

  datatype Side = UpSide | DownSide

  function CountOf(e: LspEntry, side: Side): Value {
    match side
    case UpSide => e.upCount
    case DownSide => e.downCount
  }

  /** The dict the loop fills for one side: each entry, in order, overwrites its session type's count. */
  function SessionMap(es: seq<LspEntry>, side: Side): map<Value, Value> {
    if es == [] then map[]
    else SessionMap(es[..|es| - 1], side)[es[|es| - 1].sessionType := CountOf(es[|es| - 1], side)]
  }

  /** The two dicts `lsp_up_dict` and `lsp_down_dict` once the loop has run (net_tui.py:343-347). */
  function LspMaps(records: seq<Value>): Result<(map<Value, Value>, map<Value, Value>)> {
    var es :- LspEntries(records);
    Ok((SessionMap(es, UpSide), SessionMap(es, DownSide)))
  }

  method FillLspMaps(records: seq<Value>) returns (r: Result<(map<Value, Value>, map<Value, Value>)>)
    ensures r == LspMaps(records)
  {
    var upMap: map<Value, Value> := map[];
    var downMap: map<Value, Value> := map[];
    ghost var done: seq<LspEntry> := [];
    var i := 0;
    assert records[0..] == records;
    PrefixedNothing(LspEntries(records));
    while i < |records|
      invariant 0 <= i <= |records|
      invariant LspEntries(records) == Prefixed(done, LspEntries(records[i..]))
      invariant upMap == SessionMap(done, UpSide) && downMap == SessionMap(done, DownSide)
    {
      assert records[i..][1..] == records[i + 1..];
      var e :- LspEntryOf(records[i]);
      PrefixedTwice(done, [e], LspEntries(records[i + 1..]));
      upMap := upMap[e.sessionType := e.upCount];
      downMap := downMap[e.sessionType := e.downCount];
      assert (done + [e])[..|done|] == done;
      done := done + [e];
      i := i + 1;
    }
    assert done + [] == done;
    r := Ok((upMap, downMap));
  }

  /** The last entry with a given session type: no later entry has it. */
  predicate LastOfType(es: seq<LspEntry>, i: int, kind: Value) {
    0 <= i < |es| && es[i].sessionType == kind && forall j :: i < j < |es| ==> es[j].sessionType != kind
  }

  /** Each dict has exactly the session types of the entries as keys. */
  lemma {:induction false} SessionMapKeys(es: seq<LspEntry>, side: Side, kind: Value)
    ensures kind in SessionMap(es, side) <==> exists i :: 0 <= i < |es| && es[i].sessionType == kind
  {
    if es != [] {
      var n := |es| - 1;
      var init := es[..n];
      SessionMapKeys(init, side, kind);
      if kind in SessionMap(es, side) && es[n].sessionType != kind {
        var i :| 0 <= i < |init| && init[i].sessionType == kind;
        assert es[i] == init[i];
      }
      if (exists i :: 0 <= i < |es| && es[i].sessionType == kind) && es[n].sessionType != kind {
        var i :| 0 <= i < |es| && es[i].sessionType == kind;
        assert i < n && init[i] == es[i];
      }
    }
  }

  /** ... and holds for each type the count of the last entry of that type: a later record overwrites an earlier one. */
  lemma {:induction false} LastEntryWins(es: seq<LspEntry>, side: Side, i: nat)
    requires i < |es| && LastOfType(es, i, es[i].sessionType)
    ensures es[i].sessionType in SessionMap(es, side)
    ensures SessionMap(es, side)[es[i].sessionType] == CountOf(es[i], side)
  {
    var n := |es| - 1;
    if i < n {
      var init := es[..n];
      assert es[n].sessionType != es[i].sessionType;
      assert init[i] == es[i];
      assert LastOfType(init, i, init[i].sessionType);
      LastEntryWins(init, side, i);
    }
  }

  /** One session type's up and down counts. */
  datatype LspCounts = LspCounts(up: Value, down: Value)

  datatype MplsTally = MplsTally(ingress: LspCounts, egress: LspCounts, transit: LspCounts)

  /** `d[kind]` on one of the two dicts. */
  function MapLookup(m: map<Value, Value>, kind: string): Result<Value> {
    if Str(kind) in m then Ok(m[Str(kind)]) else Err(KeyErr(kind))
  }

  /** The six lookups of net_tui.py:348-353, in their order. */
  function SessionCounts(upMap: map<Value, Value>, downMap: map<Value, Value>): Result<MplsTally> {
    var ingressUp :- MapLookup(upMap, "Ingress");
    var ingressDown :- MapLookup(downMap, "Ingress");
    var egressUp :- MapLookup(upMap, "Egress");
    var egressDown :- MapLookup(downMap, "Egress");
    var transitUp :- MapLookup(upMap, "Transit");
    var transitDown :- MapLookup(downMap, "Transit");
    Ok(MplsTally(LspCounts(ingressUp, ingressDown), LspCounts(egressUp, egressDown), LspCounts(transitUp, transitDown)))
  }

  /** The MPLS tally of the records a reply's `rsvp-session-data` iterates over. */
  function RecordsMpls(records: seq<Value>): Result<MplsTally> {
    var maps :- LspMaps(records);
    SessionCounts(maps.0, maps.1)
  }

  /** net_tui.py:341-353. */
  function MplsSummary(data: Value): Result<MplsTally> {
    var sessions :- Path(data, ["mpls-lsp-information", "rsvp-session-data"]);
    var records :- IterRecords(sessions);
    RecordsMpls(records)
  }

  method SummarizeMpls(data: Value) returns (r: Result<MplsTally>)
    ensures r == MplsSummary(data)
  {
    var sessions :- Path(data, ["mpls-lsp-information", "rsvp-session-data"]);
    var records :- IterRecords(sessions);
    var maps :- FillLspMaps(records);
    r := SessionCounts(maps.0, maps.1);
  }

  predicate HasType(es: seq<LspEntry>, kind: string) {
    exists i :: 0 <= i < |es| && es[i].sessionType == Str(kind)
  }

  /**
   * Once every record is readable, the tally succeeds exactly when Ingress,
   * Egress and Transit all occur, fails with a KeyError on the first of them
   * (in that order) that does not, and holds for each the counts of the last
   * record of that type.
   */
  lemma MplsSessionTypes(records: seq<Value>, es: seq<LspEntry>)
    requires LspEntries(records) == Ok(es)
    ensures RecordsMpls(records).Ok? <==> HasType(es, "Ingress") && HasType(es, "Egress") && HasType(es, "Transit")
    ensures !HasType(es, "Ingress") ==> RecordsMpls(records) == Err(KeyErr("Ingress"))
    ensures HasType(es, "Ingress") && !HasType(es, "Egress") ==> RecordsMpls(records) == Err(KeyErr("Egress"))
    ensures HasType(es, "Ingress") && HasType(es, "Egress") && !HasType(es, "Transit") ==>
              RecordsMpls(records) == Err(KeyErr("Transit"))
    ensures forall i :: LastOfType(es, i, Str("Egress")) && RecordsMpls(records).Ok? ==>
              RecordsMpls(records).value.egress == LspCounts(es[i].upCount, es[i].downCount)
    ensures forall i :: LastOfType(es, i, Str("Ingress")) && RecordsMpls(records).Ok? ==>
              RecordsMpls(records).value.ingress == LspCounts(es[i].upCount, es[i].downCount)
    ensures forall i :: LastOfType(es, i, Str("Transit")) && RecordsMpls(records).Ok? ==>
              RecordsMpls(records).value.transit == LspCounts(es[i].upCount, es[i].downCount)
  {
    SessionMapKeys(es, UpSide, Str("Ingress"));
    SessionMapKeys(es, DownSide, Str("Ingress"));
    SessionMapKeys(es, UpSide, Str("Egress"));
    SessionMapKeys(es, DownSide, Str("Egress"));
    SessionMapKeys(es, UpSide, Str("Transit"));
    SessionMapKeys(es, DownSide, Str("Transit"));
    forall i | 0 <= i < |es| && LastOfType(es, i, es[i].sessionType)
      ensures es[i].sessionType in SessionMap(es, UpSide) && SessionMap(es, UpSide)[es[i].sessionType] == es[i].upCount
      ensures es[i].sessionType in SessionMap(es, DownSide) && SessionMap(es, DownSide)[es[i].sessionType] == es[i].downCount
    {
      LastEntryWins(es, UpSide, i);
      LastEntryWins(es, DownSide, i);
    }
  }
}
