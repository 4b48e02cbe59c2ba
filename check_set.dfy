/**
 * The check-set generator (`checks_generate`, net_tui.py:463-478): for each
 * detected protocol, the command list the catalog holds for the chosen level,
 * all of them concatenated as newline-terminated text, and the protocols the
 * catalog has no list for.
 */
module CheckSet {
  import opened Results
  import Text
  import ProtocolDetector

  /** The loaded command catalog: protocol, then level, then its commands. */
  type Catalog = map<string, map<string, seq<string>>>

  /** `all_cmds[protocol][level]` raises no KeyError. */
  predicate HasChecks(catalog: Catalog, protocol: string, level: string) {
    protocol in catalog && level in catalog[protocol]
  }

  /** The lists `cmds_list` collects, in protocol order. */
  function FoundLists(protocols: seq<string>, level: string, catalog: Catalog): seq<seq<string>> {
    if protocols == [] then []
    else
      (if HasChecks(catalog, protocols[0], level) then [catalog[protocols[0]][level]] else [])
      + FoundLists(protocols[1..], level, catalog)
  }

  /** The protocols whose lookup raised, in protocol order. */
  function Missing(protocols: seq<string>, level: string, catalog: Catalog): seq<string> {
    if protocols == [] then []
    else
      (if HasChecks(catalog, protocols[0], level) then [] else [protocols[0]])
      + Missing(protocols[1..], level, catalog)
  }

  /** The lists one after another. */
  function Flatten(lists: seq<seq<string>>): seq<string> {
    if lists == [] then [] else lists[0] + Flatten(lists[1..])
  }

  /** The first loop: look each protocol up, keep the lists found and note the protocols not available. */
  method CollectChecks(protocols: seq<string>, level: string, catalog: Catalog)
    returns (lists: seq<seq<string>>, unavailable: string)
    ensures lists == FoundLists(protocols, level, catalog)
    ensures unavailable == Text.Terminated(Missing(protocols, level, catalog))
  {
    lists := [];
    unavailable := "";
    var i := 0;
    assert protocols[0..] == protocols;
    while i < |protocols|
      invariant 0 <= i <= |protocols|
      invariant FoundLists(protocols, level, catalog) == lists + FoundLists(protocols[i..], level, catalog)
      invariant Text.Terminated(Missing(protocols, level, catalog))
                == unavailable + Text.Terminated(Missing(protocols[i..], level, catalog))
    {
      var protocol := protocols[i];
      assert protocols[i..][1..] == protocols[i + 1..];
      var rest := Missing(protocols[i + 1..], level, catalog);
      if HasChecks(catalog, protocol, level) {
        assert Missing(protocols[i..], level, catalog) == [] + rest;
        assert [] + rest == rest;
        lists := lists + [catalog[protocol][level]];
      } else {
        assert Missing(protocols[i..], level, catalog) == [protocol] + rest;
        assert ([protocol] + rest)[1..] == rest;
        assert Text.Terminated([protocol] + rest) == protocol + "\n" + Text.Terminated(rest);
        assert unavailable + (protocol + "\n" + Text.Terminated(rest))
            == (unavailable + (protocol + "\n")) + Text.Terminated(rest);
        unavailable := unavailable + (protocol + "\n");
      }
      i := i + 1;
    }
    assert protocols[|protocols|..] == [];
    assert FoundLists(protocols, level, catalog) == lists + [];
  }

  /** The second loop: every command of every list, each followed by a newline. */
  method JoinCommands(lists: seq<seq<string>>) returns (commands: string)
    ensures commands == Text.Terminated(Flatten(lists))
  {
    commands := "";
    var j := 0;
    assert lists[0..] == lists;
    while j < |lists|
      invariant 0 <= j <= |lists|
      invariant Text.Terminated(Flatten(lists)) == commands + Text.Terminated(Flatten(lists[j..]))
    {
      var cmds := lists[j];
      assert lists[j..][1..] == lists[j + 1..];
      Text.TerminatedAppend(cmds, Flatten(lists[j + 1..]));
      var k := 0;
      assert cmds[0..] == cmds;
      while k < |cmds|
        invariant 0 <= k <= |cmds|
        invariant Text.Terminated(Flatten(lists))
                  == commands + Text.Terminated(cmds[k..]) + Text.Terminated(Flatten(lists[j + 1..]))
      {
        assert cmds[k..][1..] == cmds[k + 1..];
        commands := commands + (cmds[k] + "\n");
        k := k + 1;
      }
      assert cmds[|cmds|..] == [];
      j := j + 1;
    }
    assert lists[|lists|..] == [];
  }

  /** The generator: the command text and the not-available text. */
  method GenerateChecks(protocols: seq<string>, level: string, catalog: Catalog)
    returns (commands: string, unavailable: string)
    ensures commands == Text.Terminated(Flatten(FoundLists(protocols, level, catalog)))
    ensures unavailable == Text.Terminated(Missing(protocols, level, catalog))
  {
    var lists;
    lists, unavailable := CollectChecks(protocols, level, catalog);
    commands := JoinCommands(lists);
  }

  /**
   * Every protocol is either found or not available, never both: the found
   * lists and the missing protocols together number the protocols, and a
   * protocol is missing exactly when the catalog has no list for it.
   */
  lemma {:induction false} FoundOrMissing(protocols: seq<string>, level: string, catalog: Catalog)
    ensures |FoundLists(protocols, level, catalog)| + |Missing(protocols, level, catalog)| == |protocols|
    ensures forall p :: p in Missing(protocols, level, catalog) <==> p in protocols && !HasChecks(catalog, p, level)
  {
    if protocols != [] {
      FoundOrMissing(protocols[1..], level, catalog);
      assert protocols == [protocols[0]] + protocols[1..];
    }
  }

  /** No command of the chosen level holds a line break. */
  predicate SingleLineCommands(catalog: Catalog, level: string) {
    forall p, i :: p in catalog && level in catalog[p] && 0 <= i < |catalog[p][level]| ==>
      Text.HasNoLineBreak(catalog[p][level][i])
  }

  lemma {:induction false} FlattenSingleLine(protocols: seq<string>, level: string, catalog: Catalog)
    requires SingleLineCommands(catalog, level)
    ensures forall i :: 0 <= i < |Flatten(FoundLists(protocols, level, catalog))| ==>
              Text.HasNoLineBreak(Flatten(FoundLists(protocols, level, catalog))[i])
  {
    if protocols != [] {
      FlattenSingleLine(protocols[1..], level, catalog);
      var rest := FoundLists(protocols[1..], level, catalog);
      if HasChecks(catalog, protocols[0], level) {
        var l := catalog[protocols[0]][level];
        assert FoundLists(protocols, level, catalog) == [l] + rest;
        assert ([l] + rest)[1..] == rest;
        assert Flatten([l] + rest) == l + Flatten(rest);
      } else {
        assert FoundLists(protocols, level, catalog) == [] + rest;
        assert [] + rest == rest;
      }
    }
  }

  /**
   * The fetch step's `splitlines()` of the generated text gives back the flat
   * command sequence, in order, once no command holds a line break.
   */
  lemma CommandsSplitBack(protocols: seq<string>, level: string, catalog: Catalog)
    requires SingleLineCommands(catalog, level)
    ensures Text.SplitLines(Text.Terminated(Flatten(FoundLists(protocols, level, catalog))))
            == Flatten(FoundLists(protocols, level, catalog))
  {
    FlattenSingleLine(protocols, level, catalog);
    Text.SplitTerminated(Flatten(FoundLists(protocols, level, catalog)));
  }

  /** A detected protocol name is a run of word characters, so it holds no line break. */
  lemma DetectedNamesSingleLine(config: string)
    ensures forall w :: w in ProtocolDetector.ProtocolList(config) ==> Text.HasNoLineBreak(w)
  {
    forall w | w in ProtocolDetector.ProtocolList(config)
      ensures Text.HasNoLineBreak(w)
    {
      var ls := ProtocolDetector.Lines(config);
      var n :| 0 <= n < |ls| && ProtocolDetector.LineCapture(ls[n]) == Some(w);
      var k :| ProtocolDetector.MatchAt(ls[n], k) && ProtocolDetector.CapturedAt(ls[n], k + |ProtocolDetector.Keyword|, w);
      forall c | 0 <= c < |w|
        ensures !Text.IsLineBreak(w[c])
      {
        assert ProtocolDetector.IsWordChar(w[c]);
      }
    }
  }

  /** For the detected protocols, the not-available text splits back into the missing protocols. */
  lemma UnavailableSplitBack(config: string, level: string, catalog: Catalog)
    ensures Text.SplitLines(Text.Terminated(Missing(ProtocolDetector.ProtocolList(config), level, catalog)))
            == Missing(ProtocolDetector.ProtocolList(config), level, catalog)
  {
    var ps := ProtocolDetector.ProtocolList(config);
    var m := Missing(ps, level, catalog);
    DetectedNamesSingleLine(config);
    FoundOrMissing(ps, level, catalog);
    forall i | 0 <= i < |m|
      ensures Text.HasNoLineBreak(m[i])
    {
      assert m[i] in m;
    }
    Text.SplitTerminated(m);
  }

  /**
   * With BGP's terse list present and no terse entry for OSPF, the commands
   * are exactly BGP's terse commands and OSPF alone is not available.
   */
  lemma BgpWithoutOspfChecks(catalog: Catalog)
    requires HasChecks(catalog, "bgp", "terse") && !HasChecks(catalog, "ospf", "terse")
    ensures Flatten(FoundLists(["bgp", "ospf"], "terse", catalog)) == catalog["bgp"]["terse"]
    ensures Missing(["bgp", "ospf"], "terse", catalog) == ["ospf"]
  {
    var bgp := catalog["bgp"]["terse"];
    assert ["bgp", "ospf"][1..] == ["ospf"];
    assert ["ospf"][1..] == [];
    assert FoundLists(["ospf"], "terse", catalog) == [];
    assert FoundLists(["bgp", "ospf"], "terse", catalog) == [bgp];
    assert Flatten([bgp]) == bgp + Flatten([]);
    assert Missing(["ospf"], "terse", catalog) == ["ospf"] + Missing([], "terse", catalog);
    assert Missing(["bgp", "ospf"], "terse", catalog) == [] + Missing(["ospf"], "terse", catalog);
  }
}
