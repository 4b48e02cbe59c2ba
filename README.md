# net_tui core in Dafny

This project models the data logic of `net_tui.py`, a terminal dashboard for Junos routers. The model takes the RPC replies as already fetched. It treats every reply as nested Python dicts, lists and strings (`Payloads.Value`) and every Python exception as an `Error` in a `Result`. It covers four parts:

- **Protocol detector** (`ProtocolDetector`): `protocol_list`. It finds the routing protocols named in the `display set` configuration text. The model follows the regex `.*protocols (\w+).*` line by line, then `list(set(...))`.
- **Health extraction** (`SystemHealth`, `ProtocolTallies`, `Dashboard`): every value the dashboard's tables show. This covers:
  - software facts, with the `NA` sentinel for a missing routing engine;
  - active alarms, with the `None` sentinel;
  - memory and CPU use, and the last commit;
  - the up/down tallies of BGP, ISIS, OSPF, MPLS and LDP, for the protocols the configuration names.
- **Check-set generator** (`CheckSet`): the command text and the not-available text `checks_generate` accumulates from the command catalog.
- **Card matcher** (`CardMatch`): the newest-first list of FPC modules of a given model, or `Card Not Found!`.

Where the source works by loops and counters, the model has a method with a `while` loop. Each such method is proved equal to a recursive function, and the properties are proved about that function. The loop methods are:

- `ExtractAlarms`, `TallyRecords` and `FillLspMaps`;
- `CollectChecks` and `JoinCommands`;
- `FindCard`.

`TallyProtocol`, `SummarizeMpls`, `GenerateChecks` and `BuildDashboard` have no loop of their own. They compose the loop methods and are proved equal to the functions that specify them (`StateTally`, `MplsSummary`, the catalog functions, `DashboardOf`).

Module dependencies: Results → Text → Payloads → SystemHealth / ProtocolTallies → Dashboard. Results → Text → ProtocolDetector, which Dashboard and CheckSet import. CardMatch imports Results, Text and Payloads.

Behaviours of the code worth knowing, each as the model states it:

- **Missing alarm information.** A reply without `alarm-information` is not "no alarms". `.get` gives None, and indexing None raises a TypeError that the `except KeyError` does not catch (`SystemHealth.AlarmSentinel`). Only a missing `alarm-detail` or `alarm-description` gives `None`.
- **Single ISIS and OSPF records.** A single ISIS or OSPF record is read with `[...]`, a list element with `.get`. The two agree only when the record has its state field (`ProtocolTallies.SingleRecordAsList`, `ProtocolTallies.SingleRecordMissingState`). LDP uses `.get` in both.
- **Errors are not scoped.** No error is scoped to one protocol. Any uncaught exception, including a missing MPLS session type, ends the whole dashboard build (`Dashboard.DashboardOf`).
- **Missing facts fields.** A missing facts field is `.get` → None, not an error.

## Model

| member | source | states |
|---|---|---|
| ProtocolDetector.LineCapture | net_tui.py:50 | a line yields no name iff `protocols ` followed by a word character occurs nowhere in it; otherwise the name starts after the last such occurrence and is the maximal run of word characters there |
| ProtocolDetector.Lines | net_tui.py:50 | the text cut at each newline is non-empty and no piece holds a newline |
| ProtocolDetector.JoinLinesOfText | net_tui.py:50 | joining the lines with newlines gives the text back |
| ProtocolDetector.LinesOfJoined | net_tui.py:50 | cutting joined newline-free lines gives those lines back |
| ProtocolDetector.CapturesOfLines | net_tui.py:50 | the matches are at most one per line, and a name is matched iff some line captures it |
| ProtocolDetector.Dedup | net_tui.py:51 | the de-duplicated list has no repeats and the same elements as its input |
| ProtocolDetector.DedupNoLonger | net_tui.py:51 | de-duplication never lengthens the list |
| ProtocolDetector.ProtocolList | net_tui.py:47-52 | the result has no duplicates, has no more names than lines, and holds a name iff some line of the configuration captures it |
| ProtocolDetector.NoKeywordNoCaptures | net_tui.py:50 | text without `protocols ` gives no regex match |
| ProtocolDetector.NoKeywordNoProtocols | net_tui.py:47-52 | text without `protocols ` gives the empty protocol list |
| Text.ParseDecimal | net_tui.py:252 | `int()` reads back the decimal numeral of every natural number |
| Text.StripPercent | net_tui.py:252 | deleting `%` leaves no `%`, and changes nothing in a string without one |
| Text.StripPercentAppend | net_tui.py:252 | deleting `%` from a concatenation is deleting it from each part |
| Text.SplitTerminated | net_tui.py:490 | `splitlines()` of newline-terminated break-free lines gives back exactly those lines |
| Payloads.ToNat | net_tui.py:252 | `int()` of a decimal numeral gives its value; a non-string is a TypeError and any other string a ValueError |
| SystemHealth.SystemFacts | net_tui.py:202-219 | the facts are read iff the reply is a dict whose engine blocks are falsy or dicts; version, model and serial number are copied (None where absent) and each engine is `NA`/`NA` for a falsy block, its two fields otherwise |
| SystemHealth.EngineSentinels | net_tui.py:202-219 | the facts are read iff both engine blocks are falsy or dicts; a falsy or absent block gives `NA` for both uptime and reboot reason, a present one has its two fields copied; no RE1 gives `NA`/`NA` |
| SystemHealth.ExtractAlarms | net_tui.py:221-231 | the appending loop computes exactly the alarm list of the reply |
| SystemHealth.DescriptionsInOrder | net_tui.py:225-227 | a list of alarm records that all have descriptions yields them in order |
| SystemHealth.DescriptionsStopAtMissing | net_tui.py:225-231 | at the first record without a description the list ends with `None`, the earlier descriptions kept |
| SystemHealth.SingleAlarmAsList | net_tui.py:225-229 | a single alarm record gives the same result as the one-element list holding it |
| SystemHealth.AlarmSentinel | net_tui.py:223-231 | a missing `alarm-detail` gives exactly `["None"]`; a missing `alarm-information` is a TypeError |
| SystemHealth.MemoryUsage | net_tui.py:249-255 | the memory is read iff the free-percent field is a string that is a numeral once every `%` is deleted; then free is that number and used + free = 100 |
| SystemHealth.MemoryOfPercent | net_tui.py:249-255 | a field `n%` gives free n and used 100 − n |
| SystemHealth.MemoryExample | net_tui.py:249-255 | `37%` free gives 63 used and 37 free |
| SystemHealth.EngineCpu | net_tui.py:257-269 | a dict engine value or the first element of a list is read; the CPU shown is its `cpu-user` field, which must be a numeral, and it is read whenever it is one; any other shape leaves `cpu_usage` unassigned |
| SystemHealth.CpuUsage | net_tui.py:257-269 | the CPU shown is the numeral `cpu-user` field of the `route-engine-information`/`route-engine` value, of the dict itself or of element 0 of a list, and it is read whenever that field is a numeral; a readable path gives exactly `EngineCpu` of it; a failing lookup on that path is the error it raises |
| SystemHealth.CpuFirstEngineOnly | net_tui.py:257-264 | in a list of engine records only the first is read |
| SystemHealth.CpuOfOtherShape | net_tui.py:257-269 | an engine value that is neither dict nor list leaves `cpu_usage` unassigned, which raises |
| SystemHealth.LastCommit | net_tui.py:273-275 | the commit is read iff the history is a non-empty list whose first entry has `user` and `date-time`/`#text`; they are the user and time shown |
| SystemHealth.NewestCommitOnly | net_tui.py:273-275 | the commit shown is the user and time of element 0 of the history, whatever follows it |
| SystemHealth.SingleCommitRecord | net_tui.py:273-275 | a history given as one record fails, because a dict is indexed by 0 |
| ProtocolTallies.BgpSummary | net_tui.py:294-300 | the BGP tally exists iff both counts are numerals; up is peer-count − down-peer-count and down is the field as given |
| ProtocolTallies.BgpUpIsTotalLessDown | net_tui.py:294-300 | for any counts that `int()` reads, leading zeros included, up = peer-count − down-peer-count and down is reported verbatim |
| ProtocolTallies.BgpExample | net_tui.py:294-300 | 10 peers with 3 down give 7 up and `3` down |
| ProtocolTallies.TallyRecords | net_tui.py:307-312 | the counting loop computes exactly the list tally |
| ProtocolTallies.RecordTallyCounts | net_tui.py:307-312 | a list tally succeeds iff every record is a dict, and then up is the number of records in the up state and up + down the number of records |
| ProtocolTallies.TallyProtocol | net_tui.py:301-370 | the ISIS/OSPF/LDP branch computes exactly the protocol's tally |
| ProtocolTallies.TallyCountsEveryRecord | net_tui.py:304-370 | up + down is the number of records, a single record counting as one, and up counts the records whose state is `Up`, `Full` or `Operational` |
| ProtocolTallies.SingleRecordAsList | net_tui.py:307-317 | a single record that is not a list tallies as the one-element list holding it, unless it is an ISIS or OSPF dict without its state field |
| ProtocolTallies.SingleRecordMissingState | net_tui.py:313-336 | for ISIS and OSPF a single record without the state field raises KeyError, while in a list it counts as down |
| ProtocolTallies.FillLspMaps | net_tui.py:343-347 | the dict-filling loop computes exactly the two session-type maps |
| ProtocolTallies.SessionMapKeys | net_tui.py:345-347 | each map's keys are exactly the session types of the records |
| ProtocolTallies.LastEntryWins | net_tui.py:345-347 | for each session type the map holds the count of the last record of that type |
| ProtocolTallies.SummarizeMpls | net_tui.py:339-353 | the MPLS branch computes exactly the MPLS tally |
| ProtocolTallies.MplsSessionTypes | net_tui.py:348-353 | the MPLS tally succeeds iff Ingress, Egress and Transit all occur; otherwise it fails with a KeyError naming the first missing in that order; each type's counts are those of its last record |
| Dashboard.DashboardOf | net_tui.py:202-372 | the dashboard succeeds iff every section read succeeds; each system section of the report is that section's value; a protocol section is present iff the configuration names the protocol, and is then that protocol's tally; memory used + free = 100 |
| Dashboard.BuildDashboard | net_tui.py:202-372 | the build computes exactly the dashboard of the replies |
| Dashboard.InactiveBgpIgnored | net_tui.py:294 | the BGP reply is never read when the configuration does not name BGP |
| Dashboard.InactiveIsisIgnored | net_tui.py:301 | the ISIS reply is never read when the configuration does not name ISIS |
| Dashboard.InactiveOspfIgnored | net_tui.py:320 | the OSPF reply is never read when the configuration does not name OSPF |
| Dashboard.InactiveMplsIgnored | net_tui.py:339 | the MPLS reply is never read when the configuration does not name MPLS |
| Dashboard.InactiveLdpIgnored | net_tui.py:354 | the LDP reply is never read when the configuration does not name LDP |
| Dashboard.NoProtocolSections | net_tui.py:293-354 | a configuration without `protocols ` gives a dashboard with no protocol section |
| CheckSet.CollectChecks | net_tui.py:463-469 | the lookup loop collects exactly the found lists in protocol order, and the not-available text is the failed protocols, each with a newline, in order |
| CheckSet.JoinCommands | net_tui.py:475-478 | the nested loop writes every command of every list, in order, each followed by a newline |
| CheckSet.GenerateChecks | net_tui.py:463-478 | the command text is every command of every found list, in protocol order, each newline-terminated; the not-available text is every failed protocol, newline-terminated |
| CheckSet.FoundOrMissing | net_tui.py:465-469 | found lists and missing protocols together number the protocols, and a protocol is missing iff the catalog has no list for it at that level |
| CheckSet.FlattenSingleLine | net_tui.py:476-478 | commands without line breaks in the catalog give a flat command list without line breaks |
| CheckSet.CommandsSplitBack | net_tui.py:475-490 | `splitlines()` of the command text gives the flat command sequence back when no command holds a line break |
| CheckSet.DetectedNamesSingleLine | net_tui.py:50-51 | no detected protocol name holds a line break |
| CheckSet.UnavailableSplitBack | net_tui.py:454-469 | for detected protocols, the not-available text splits back into the missing protocols |
| CheckSet.BgpWithoutOspfChecks | net_tui.py:463-478 | with BGP's terse list and no terse OSPF entry, the commands are BGP's terse list and only OSPF is not available |
| CardMatch.FindCard | net_tui.py:401-415 | the nested scan computes exactly the card report |
| CardMatch.ModuleLinesAreMatches | net_tui.py:405-408 | a router's modules scan without error iff each is a dict with a string name, and with a model number when the name says FPC; the lines are then one per module whose name contains `FPC` and whose model number is the card, in scan order |
| CardMatch.PrependedNewestFirst | net_tui.py:407-408 | prepending each line is writing the lines newest first, each with its newline |
| CardMatch.ReportLinesNewestFirst | net_tui.py:407-408 | the report's lines are the matches in reverse scan order when no line holds a break |
| CardMatch.NotFoundIffNoMatch | net_tui.py:410-415 | the report is `Card Not Found!` iff the inventories are read and no module matches |
| CardMatch.SingleModuleUnreadable | net_tui.py:404-406 | a single module record, not in a list, is iterated by key and raises |

## Left out

- RPC execution: `nr.run`, `main_task`, `filter` and the `protocol_list` call's own RPC. Every reply, and the configuration text, is a parameter.
- The startup file reads and the YAML load of `cmds.yml`. The catalog is a parameter of type `map<string, map<string, seq<string>>>`. A catalog entry that is not a dict of lists (None, a string, a number) is not modelled.
- The Textual UI: widgets, loading indicators, `Table` and `Syntax` rendering, including the `Checks are not available for following protocols` header line put above the not-available text.
- `cfg_fetch`, `cmd_fetch` and `action_fetch_output`. They are network fan-out and dated file writes; only the `splitlines()` of the command text is modelled.
- The `@work` threads and the `global final_cmds`. The command text is a method result.
- Clipboard copy, the SVG snapshot and the commented-out RIB/FIB lines. They are external calls or dead code.
- Payload scalars: numbers and booleans in a reply are not modelled. XML replies give strings, so `int()` is applied to strings only.
- Text.ParseNat: `int()` accepts only ASCII digit strings here. The surrounding whitespace, signs, underscores and Unicode digits that Python also accepts give a ValueError.
- ProtocolDetector.IsWordChar: `\w` is ASCII letters, digits and `_`. Python's Unicode word characters are not modelled.
- ProtocolDetector.Dedup: `list(set(...))` has an unspecified order. The model lists names in first-occurrence order, and its contracts state only membership and the absence of duplicates.
- CardMatch.ModuleMatch: a module name that is a list or dict is a TypeError here. Python would test membership in it and print its repr.
- Payloads.First: indexing a dict by 0 is recorded as `KeyErr("0")`. Nothing distinguishes it from a missing string key `"0"`.
