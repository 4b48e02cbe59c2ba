/**
 * The card matcher (`card_fetch`, net_tui.py:401-415): the chassis modules of
 * every router whose name contains `FPC` and whose model number is the card
 * asked for, one line each, every new line put in front of the ones before.
 */
module CardMatch {
  import opened Results
  import opened Payloads
  import Text

  const CardNotFound: string := "Card Not Found!"

  /** The line shown for one matching module. */
  function MatchLine(router: string, name: string, card: string): string {
    ": " + router + " : " + name + " > " + card
  }

  /**
   * One module of the inventory: whether the name contains `FPC` first, and only
   * then the model-number comparison, as `and` short-circuits.
   */
  function ModuleMatch(router: string, card: string, entry: Value): Result<seq<string>> {
    var name :- Index(entry, "name");
    if !name.Str? then Err(TypeErr)
    else if !Text.Contains(name.s, "FPC") then Ok([])
    else
      var model :- Index(entry, "model-number");
      Ok(if model == Str(card) then [MatchLine(router, name.s, card)] else [])
  }

  /** The lines of a first result followed by those of a second, the first error winning. */
  function Concat(a: Result<seq<string>>, b: Result<seq<string>>): Result<seq<string>> {
    match a
    case Ok(xs) => Prefixed(xs, b)
    case Err(e) => Err(e)
  }

  /** The matching lines of a router's modules, in scan order. */
  function ModuleLines(router: string, card: string, modules: seq<Value>): Result<seq<string>> {
    if modules == [] then Ok([])
    else Concat(ModuleMatch(router, card, modules[0]), ModuleLines(router, card, modules[1..]))
  }

  /** The modules a router's inventory reply lists (net_tui.py:404-405). */
  function Modules(reply: Value): Result<seq<Value>> {
    var modules :- Path(reply, ["chassis-inventory", "chassis", "chassis-module"]);
    IterRecords(modules)
  }

  function RouterLines(router: string, card: string, reply: Value): Result<seq<string>> {
    var modules :- Modules(reply);
    ModuleLines(router, card, modules)
  }

  /** The matching lines of every router, routers in the order of the reply, in scan order. */
  function CardLines(routers: seq<(string, Value)>, card: string): Result<seq<string>> {
    if routers == [] then Ok([])
    else Concat(RouterLines(routers[0].0, card, routers[0].1), CardLines(routers[1..], card))
  }

  /** The text `final_card_result` ends up holding: each line in turn put in front, with its newline. */
  function Prepended(lines: seq<string>): string {
    if lines == [] then "" else lines[|lines| - 1] + "\n" + Prepended(lines[..|lines| - 1])
  }

  /** What the output pane shows (net_tui.py:410-415). */
  function CardReport(routers: seq<(string, Value)>, card: string): Result<string> {
    var lines :- CardLines(routers, card);
    var text := Prepended(lines);
    Ok(if text != "" then text else CardNotFound)
  }

  lemma ConcatPrefixed(xs: seq<string>, a: Result<seq<string>>, b: Result<seq<string>>)
    ensures Concat(Prefixed(xs, a), b) == Prefixed(xs, Concat(a, b))
  {
    if a.Ok? && b.Ok? {
      assert (xs + a.value) + b.value == xs + (a.value + b.value);
    }
  }

  method FindCard(routers: seq<(string, Value)>, card: string) returns (r: Result<string>)
    ensures r == CardReport(routers, card)
  {
    var text := "";
    ghost var seen: seq<string> := [];
    var i := 0;
    assert routers[0..] == routers;
    PrefixedNothing(CardLines(routers, card));
    while i < |routers|
      invariant 0 <= i <= |routers|
      invariant CardLines(routers, card) == Prefixed(seen, CardLines(routers[i..], card))
      invariant text == Prepended(seen)
    {
      var router := routers[i].0;
      assert routers[i..][1..] == routers[i + 1..];
      var modules :- Modules(routers[i].1);
      var k := 0;
      assert modules[0..] == modules;
      while k < |modules|
        invariant 0 <= k <= |modules|
        invariant CardLines(routers, card)
                  == Prefixed(seen, Concat(ModuleLines(router, card, modules[k..]), CardLines(routers[i + 1..], card)))
        invariant text == Prepended(seen)
      {
        var entry := modules[k];
        assert modules[k..][1..] == modules[k + 1..];
        var found :- ModuleMatch(router, card, entry);
        ConcatPrefixed(found, ModuleLines(router, card, modules[k + 1..]), CardLines(routers[i + 1..], card));
        PrefixedTwice(seen, found, Concat(ModuleLines(router, card, modules[k + 1..]), CardLines(routers[i + 1..], card)));
        var name := entry.fields["name"].s;
        if Text.Contains(name, "FPC") && entry.fields["model-number"] == Str(card) {
          text := MatchLine(router, name, card) + "\n" + text;
          assert (seen + found)[..|seen|] == seen;
        } else {
          assert seen + found == seen;
        }
        seen := seen + found;
        k := k + 1;
      }
      assert modules[|modules|..] == [];
      PrefixedNothing(CardLines(routers[i + 1..], card));
      i := i + 1;
    }
    assert seen + [] == seen;
    r := Ok(if text != "" then text else CardNotFound);
  }

  // ---------------------------------------------------------------- properties

  /** The lines in reverse order. */
  function Reverse(lines: seq<string>): (r: seq<string>)
    ensures |r| == |lines|
    ensures forall i :: 0 <= i < |lines| ==> r[i] == lines[|lines| - 1 - i]
  {
    seq(|lines|, i requires 0 <= i < |lines| => lines[|lines| - 1 - i])
  }

  /** Prepending every line is writing them newest first, each with its newline. */
  lemma {:induction false} PrependedNewestFirst(lines: seq<string>)
    ensures Prepended(lines) == Text.Terminated(Reverse(lines))
  {
    if lines != [] {
      var init := lines[..|lines| - 1];
      PrependedNewestFirst(init);
      assert Reverse(lines) == [lines[|lines| - 1]] + Reverse(init);
      assert Reverse(lines)[1..] == Reverse(init);
    }
  }

  /** When no line holds a line break of its own, the pane's lines are the matches, the latest first. */
  lemma ReportLinesNewestFirst(lines: seq<string>)
    requires forall i :: 0 <= i < |lines| ==> Text.HasNoLineBreak(lines[i])
    ensures Text.SplitLines(Prepended(lines)) == Reverse(lines)
  {
    PrependedNewestFirst(lines);
    Text.SplitTerminated(Reverse(lines));
  }

  /** The report is "Card Not Found!" exactly when the inventories are read and nothing matches. */
  lemma NotFoundIffNoMatch(routers: seq<(string, Value)>, card: string)
    ensures CardReport(routers, card) == Ok(CardNotFound) <==> CardLines(routers, card) == Ok([])
  {
    var r := CardLines(routers, card);
    if r.Ok? && r.value != [] {
      var ls := r.value;
      var t := Prepended(ls);
      assert t == ls[|ls| - 1] + "\n" + Prepended(ls[..|ls| - 1]);
      assert t[|ls[|ls| - 1]|] == '\n';
      assert t != "";
      assert t != CardNotFound by {
        assert '\n' in t;
        assert '\n' !in CardNotFound;
      }
    }
  }

  /** A module the loop reads without an error: a dict with a string name, having a model number when the name says FPC. */
  predicate Readable(entry: Value) {
    && entry.Obj?
    && "name" in entry.fields
    && entry.fields["name"].Str?
    && (Text.Contains(entry.fields["name"].s, "FPC") ==> "model-number" in entry.fields)
  }

  /** The module is an FPC card of the model asked for. */
  predicate Matches(card: string, entry: Value) {
    && Readable(entry)
    && Text.Contains(entry.fields["name"].s, "FPC")
    && entry.fields["model-number"] == Str(card)
  }

  /** The matches among a router's modules, by plain filtering: the reference the scan is held to. */
  function MatchedLines(router: string, card: string, modules: seq<Value>): seq<string>
    requires forall i :: 0 <= i < |modules| ==> Readable(modules[i])
  {
    if modules == [] then []
    else
      (if Matches(card, modules[0]) then [MatchLine(router, modules[0].fields["name"].s, card)] else [])
      + MatchedLines(router, card, modules[1..])
  }

  /**
   * Scanning a router's modules succeeds exactly when every module is
   * readable, and then gives one line per matching entry, in scan order.
   */
  lemma {:induction false} ModuleLinesAreMatches(router: string, card: string, modules: seq<Value>)
    ensures ModuleLines(router, card, modules).Ok? <==> forall i :: 0 <= i < |modules| ==> Readable(modules[i])
    ensures ModuleLines(router, card, modules).Ok? ==>
              ModuleLines(router, card, modules).value == MatchedLines(router, card, modules)
  {
    if modules != [] {
      ModuleLinesAreMatches(router, card, modules[1..]);
      if Readable(modules[0]) && ModuleLines(router, card, modules[1..]).Err? {
        var j :| 0 <= j < |modules[1..]| && !Readable(modules[1..][j]);
        assert !Readable(modules[j + 1]);
      }
      if forall i :: 0 <= i < |modules| ==> Readable(modules[i]) {
        assert forall i :: 0 <= i < |modules[1..]| ==> Readable(modules[1..][i]) by {
          forall i | 0 <= i < |modules[1..]|
            ensures Readable(modules[1..][i])
          {
            assert modules[1..][i] == modules[i + 1];
          }
        }
      }
    }
  }

  /** A single module record, not in a list, is iterated by key and cannot be read. */
  lemma SingleModuleUnreadable(reply: Value, entry: Value)
    requires Path(reply, ["chassis-inventory", "chassis", "chassis-module"]) == Ok(entry)
    requires entry.Obj? && entry.fields != map[]
    ensures Modules(reply) == Err(TypeErr)
  {
  }
}
