/** The front end of the plot command: the `c:v` alias rewrite of the
    argument list, the economy gates that choose between a command's success
    and failure continuations, and one invocation of the command with its
    optional plot scope, its `-f` flag and its fault handling. The player's
    temporary metadata is the state it changes. */
module MainCommand {
  import opened Domain
  import opened JavaStrings

  // ---------------------------------------------------------------------
  // The c:v alias rewrite
  // ---------------------------------------------------------------------

  /** The first argument holds a colon and splits around colons into
      exactly two pieces. */
  predicate AliasRewriteApplies(args: seq<string>)
  {
    |args| >= 1 && ':' in args[0] && |Split(args[0], ':')| == 2
  }

  /** `h:2 SomeUsername` reads as `h SomeUsername 2`: the left piece
      becomes the first argument and the right piece the last. */
  function AliasRewrite(args: seq<string>): seq<string>
  {
    if AliasRewriteApplies(args) then
      var parts := Split(args[0], ':');
      [parts[0]] + args[1..] + [parts[1]]
    else args
  }

  /** The rewrite as `onCommand` performs it: a fresh array one longer than
      the arguments, the two pieces written at both ends and the remaining
      arguments copied in between. */
  method RewriteAliasArgs(args: seq<string>) returns (r: seq<string>)
    ensures r == AliasRewrite(args)
    ensures AliasRewriteApplies(args) ==>
      && |r| == |args| + 1
      && r[0] == Split(args[0], ':')[0]
      && r[|args|] == Split(args[0], ':')[1]
      && r[1..|args|] == args[1..]
    ensures !AliasRewriteApplies(args) ==> r == args
  {
    r := args;
    if |args| >= 1 && ':' in args[0] {
      var split2 := Split(args[0], ':');
      if |split2| == 2 {
        var tmp := new string[|args| + 1];
        tmp[0] := split2[0];
        tmp[|args|] := split2[1];
        var i := 1;
        while i < |args|
          invariant 1 <= i <= |args|
          invariant tmp[0] == split2[0] && tmp[|args|] == split2[1]
          invariant forall k :: 1 <= k < i ==> tmp[k] == args[k]
        {
          tmp[i] := args[i];
          i := i + 1;
        }
        r := tmp[..];
        assert r[1..|args|] == args[1..];
        assert r == [split2[0]] + args[1..] + [split2[1]];
      }
    }
  }

  /** The rewrite applies once: its first argument holds no colon, so
      rewriting again changes nothing. */
  lemma {:induction false} AliasRewriteIdempotent(args: seq<string>)
    ensures AliasRewrite(AliasRewrite(args)) == AliasRewrite(args)
  {
    if AliasRewriteApplies(args) {
      var parts := Split(args[0], ':');
      assert ':' !in parts[0];
      assert AliasRewrite(args)[0] == parts[0];
    }
  }

  /** `h:2 Steve` becomes `h Steve 2`. */
  lemma AliasRewriteMovesValueLast()
    ensures AliasRewrite(["h:2", "Steve"]) == ["h", "Steve", "2"]
  {
    assert "h:2" == "h" + [':'] + "2";
    SplitPair("h", "2", ':');
  }

  /** A first argument that does not split into exactly two pieces leaves
      the arguments as they are: `a:` is one piece, `a:b:c` three. */
  lemma AliasRewriteNeedsTwoPieces(rest: seq<string>)
    ensures AliasRewrite(["a:"] + rest) == ["a:"] + rest
    ensures AliasRewrite(["a:b:c"] + rest) == ["a:b:c"] + rest
  {
    assert "a:" == "a" + [':'];
    SplitWordSpace("a", ':');
    var s := "a:b:c";
    assert s == "a" + [':'] + ("b" + [':'] + "c");
    SegmentsAfterWord("a", "b" + [':'] + "c", ':');
    SegmentsAfterWord("b", "c", ':');
    SegmentsWithoutSeparator("c", ':');
    assert Segments(s, ':') == ["a", "b", "c"];
    assert s[1] == ':';
    assert |Split(s, ':')| == 3;
  }

  // ---------------------------------------------------------------------
  // Economy gates
  // ---------------------------------------------------------------------

  datatype Continuation = Success | Failure

  /** What a gate reads when it runs: the plot area it charges in (if
      any), whether the economy is enabled there, whether the player holds
      the econ-bypass permission, the command's price there (if it has one)
      and the player's balance. */
  datatype Economy = Economy(area: Option<AreaId>, enabled: bool, bypass: bool, price: Option<int>, money: int)

  /** A command without a price costs nothing. */
  function PriceOf(e: Economy): int
  {
    match e.price
    case None => 0
    case Some(p) => p
  }

  /** The gate of a command that needs no confirmation: fails only a player
      who is charged (an area, an enabled economy, no bypass) a non-zero
      price above their balance. */
  function DirectChoice(e: Economy): (c: Continuation)
    ensures c == Failure <==>
      e.area.Some? && e.enabled && !e.bypass && PriceOf(e) != 0 && e.money < PriceOf(e)
  {
    if e.area.Some? && e.enabled && !e.bypass then
      if PriceOf(e) != 0 && e.money < PriceOf(e) then Failure else Success
    else Success
  }

  /** The gate run when a pending confirmation is confirmed: the price is
      compared with the balance whether or not it is zero. */
  function ConfirmedChoice(e: Economy): (c: Continuation)
    ensures c == Failure <==> e.area.Some? && e.enabled && !e.bypass && e.money < PriceOf(e)
  {
    if e.area.Some? && e.enabled && !e.bypass then
      if e.money < PriceOf(e) then Failure else Success
    else Success
  }

  /** The gate `-f` installs: no confirmation and no look at the bypass
      permission. */
  function ForcedChoice(e: Economy): (c: Continuation)
    ensures c == Failure <==> e.area.Some? && e.enabled && PriceOf(e) != 0 && e.money < PriceOf(e)
  {
    if e.area.Some? && e.enabled then
      if PriceOf(e) != 0 && e.money < PriceOf(e) then Failure else Success
    else Success
  }

  /** Runs the chosen continuation when the caller supplied it: at most one
      continuation runs, and never the one not chosen. */
  function RunChosen(choice: Continuation, hasSuccess: bool, hasFailure: bool): (ran: Option<Continuation>)
    ensures ran.Some? ==> ran.value == choice
    ensures ran.None? <==> (choice == Success && !hasSuccess) || (choice == Failure && !hasFailure)
  {
    match choice
    case Success => if hasSuccess then Some(Success) else None
    case Failure => if hasFailure then Some(Failure) else None
  }

  /** The confirmation callbacks a command can be run with. The forced one
      carries the plot area it was created with. */
  datatype Gate = StandardGate | ForcedGate(area: Option<AreaId>)

  /** What a gate does when the command calls it: register a pending
      confirmation, or run (at most) one continuation at once. */
  datatype GateStep = AwaitConfirmation | Ran(ran: Option<Continuation>)

  /** What a gate reads about one plot area when it runs: whether the
      economy is enabled there and the command's price there, if any. */
  datatype AreaEconomy = AreaEconomy(enabled: bool, price: Option<int>)

  /** The economy a gate sees when it reads at `area`, for a player with
      the given bypass permission and balance. */
  function EconomyAt(area: Option<AreaId>, market: AreaId -> AreaEconomy, bypass: bool, money: int): Economy
  {
    match area
    case None => Economy(None, false, bypass, None, money)
    case Some(a) => Economy(area, market(a).enabled, bypass, market(a).price, money)
  }

  /** One call of a gate. `needsConfirmation` is whether the command asks
      the player to confirm; `applicable` is the player's applicable plot
      area at that moment and `market` what each area's economy reads
      then. The standard gate reads the economy at `applicable`; the forced
      gate reads it at the area it was created with. */
  function RunGate(
    g: Gate, needsConfirmation: bool, applicable: Option<AreaId>, market: AreaId -> AreaEconomy,
    bypass: bool, money: int, hasSuccess: bool, hasFailure: bool): (step: GateStep)
    ensures g.StandardGate? ==> (step == AwaitConfirmation <==> needsConfirmation)
    ensures g.ForcedGate? ==> step.Ran?
    ensures
      var choice :=
        if g.StandardGate? then DirectChoice(EconomyAt(applicable, market, bypass, money))
        else ForcedChoice(EconomyAt(g.area, market, bypass, money));
      step.Ran? ==>
        && (step.ran.Some? ==> step.ran.value == choice)
        && (step.ran.None? <==> (choice == Success && !hasSuccess) || (choice == Failure && !hasFailure))
  {
    match g
    case StandardGate =>
      if needsConfirmation then AwaitConfirmation
      else Ran(RunChosen(DirectChoice(EconomyAt(applicable, market, bypass, money)), hasSuccess, hasFailure))
    case ForcedGate(area) =>
      Ran(RunChosen(ForcedChoice(EconomyAt(area, market, bypass, money)), hasSuccess, hasFailure))
  }

  /** The forced gate reads the economy at the area it was created with,
      whatever area applies to the player when it runs: a gate created in
      an area without an economy passes where the standard gate, reading
      at the current area, fails. */
  lemma ForcedGateReadsCapturedArea(
    needsConfirmation: bool, area: Option<AreaId>, here: Option<AreaId>, there: Option<AreaId>,
    market: AreaId -> AreaEconomy, bypass: bool, money: int, hasSuccess: bool, hasFailure: bool)
    ensures RunGate(ForcedGate(area), needsConfirmation, here, market, bypass, money, hasSuccess, hasFailure)
         == RunGate(ForcedGate(area), needsConfirmation, there, market, bypass, money, hasSuccess, hasFailure)
    ensures
      var split := (a: AreaId) => if a == 0 then AreaEconomy(false, None) else AreaEconomy(true, Some(100));
      && RunGate(ForcedGate(Some(0)), false, Some(1), split, false, 0, true, true) == Ran(Some(Success))
      && RunGate(StandardGate, false, Some(1), split, false, 0, true, true) == Ran(Some(Failure))
  {
  }

  /** The pending action a confirmable command registers, run when the
      player confirms, against the economy `e` at the player's applicable
      area at that later moment. */
  function OnConfirmed(e: Economy, hasSuccess: bool, hasFailure: bool): (ran: Option<Continuation>)
    ensures ran.Some? ==> (ran.value == Failure <==> ConfirmedChoice(e) == Failure)
    ensures ran.None? <==>
      (ConfirmedChoice(e) == Success && !hasSuccess) || (ConfirmedChoice(e) == Failure && !hasFailure)
  {
    RunChosen(ConfirmedChoice(e), hasSuccess, hasFailure)
  }

  /** No area or no enabled economy: every gate passes. With the bypass
      permission the direct and confirmed gates pass. */
  lemma GatesPassWithoutCharge(e: Economy)
    ensures e.area.None? || !e.enabled ==>
      DirectChoice(e) == Success && ConfirmedChoice(e) == Success && ForcedChoice(e) == Success
    ensures e.bypass ==> DirectChoice(e) == Success && ConfirmedChoice(e) == Success
  {
  }

  /** The confirmed gate fails whenever the direct gate does, and differs
      from it exactly for a charged player with a negative balance facing
      a zero price. */
  lemma ConfirmedGateStricterThanDirect(e: Economy)
    ensures DirectChoice(e) == Failure ==> ConfirmedChoice(e) == Failure
    ensures DirectChoice(e) != ConfirmedChoice(e) <==>
      e.area.Some? && e.enabled && !e.bypass && PriceOf(e) == 0 && e.money < 0
  {
  }

  /** The forced gate ignores the bypass permission: it agrees with the
      direct gate for a player without bypass and can fail a player with
      it. */
  lemma ForcedGateIgnoresBypass(e: Economy)
    ensures ForcedChoice(e.(bypass := true)) == ForcedChoice(e.(bypass := false))
    ensures !e.bypass ==> ForcedChoice(e) == DirectChoice(e)
    ensures
      var poor := Economy(Some(0), true, true, Some(10), 5);
      DirectChoice(poor) == Success && ForcedChoice(poor) == Failure
  {
  }

  /** A missing price behaves as a price of zero in every gate. */
  lemma MissingPriceIsZero(e: Economy)
    requires e.price.None?
    ensures DirectChoice(e) == DirectChoice(e.(price := Some(0)))
    ensures ConfirmedChoice(e) == ConfirmedChoice(e.(price := Some(0)))
    ensures ForcedChoice(e) == ForcedChoice(e.(price := Some(0)))
  {
  }

  // ---------------------------------------------------------------------
  // One invocation: scope switch, flags, fault handling, restore
  // ---------------------------------------------------------------------

  /** A plot named by the first argument: the plot, whether its area is a
      single-plot area and whether it is loaded, its center, and whether
      it denies the player. */
  datatype ParsedPlot = ParsedPlot(ref: PlotRef, singlePlotArea: bool, loaded: bool, center: Loc, denied: bool)

  /** The player running the command: whether it is the console, the plot
      area that applies to it, and the permissions it holds. */
  datatype Caller = Caller(console: bool, applicableArea: Option<AreaId>, perms: set<Permission>)

  /** One call of the superclass's execute: the arguments and gate passed
      on, and the two temporary metadata slots as they stand during it. */
  datatype Invocation = Invocation(args: seq<string>, gate: Gate, location: Option<Loc>, lastPlot: Option<PlotRef>)

  datatype CommandException = CommandException(caption: string)

  /** How the superclass's execute ends: normally, with a command
      exception, or with any other fault and its message, if any. */
  datatype StepOutcome = Completed | Raised(e: CommandException) | Faulted(message: Option<string>)

  /** The messages the invocation sends the player. */
  datatype Notice = BorderDenied | InvalidCommandFlag | Error(value: string) | ErrorConsole

  /** The invocation returns a completed future of a boolean, or rethrows
      a command exception. */
  datatype ExecResult = Returned(value: bool) | Rethrown(e: CommandException)

  /** All that one invocation determines: its result, the message sent,
      the superclass call made (if any) and the two slots afterwards. */
  datatype ExecOutcome = ExecOutcome(
    result: ExecResult,
    notice: Option<Notice>,
    invoked: Option<Invocation>,
    location: Option<Loc>,
    lastPlot: Option<PlotRef>)

  /** Where the scope moves the player: the plot's center, or the origin of
      the nameless world for an unloaded plot of a single-plot area. */
  function ScopeLocation(p: ParsedPlot): Loc
  {
    if p.singlePlotArea && !p.loaded then Loc("", 0, 0, 0) else p.center
  }

  /** The player may take the scope of the plot: console, same area, admin
      or area sudo, and not denied from the plot. */
  predicate MayScopeTo(c: Caller, p: ParsedPlot)
  {
    && (c.console || Some(p.ref.area) == c.applicableArea || Admin in c.perms || AdminAreaSudo in c.perms)
    && !p.denied
  }

  /** A non-empty argument that starts with a dash. */
  predicate IsDashToken(a: string)
  {
    |a| > 0 && a[0] == '-'
  }

  /** The invocation from the superclass call on: a command exception
      passes through untouched, any other fault is reported, and a scope
      switch of a non-console player is undone. */
  function FinishSpec(
    c: Caller, args: seq<string>, gate: Gate, step: Invocation -> StepOutcome, switched: bool,
    savedLocation: Option<Loc>, savedPlot: Option<PlotRef>, location: Option<Loc>, lastPlot: Option<PlotRef>): ExecOutcome
  {
    var inv := Invocation(args, gate, location, lastPlot);
    var outcome := step(inv);
    if outcome.Raised? then ExecOutcome(Rethrown(outcome.e), None, Some(inv), location, lastPlot)
    else
      var notice :=
        if outcome.Faulted? then Some(if outcome.message.Some? then Error(outcome.message.value) else ErrorConsole)
        else None;
      var restore := switched && !c.console;
      ExecOutcome(Returned(true), notice, Some(inv),
        if restore then savedLocation else location,
        if restore then savedPlot else lastPlot)
  }

  /** One invocation, from the player's slots `location0` and `lastPlot0`.
      `parse` reads a plot from the first argument, `canTeleport` says
      whether the player may be moved to a location, and `step` is the
      superclass's execute. */
  function ExecuteSpec(
    c: Caller, args: seq<string>, confirm: Gate,
    parse: string -> Option<ParsedPlot>, canTeleport: Loc -> bool, step: Invocation -> StepOutcome,
    location0: Option<Loc>, lastPlot0: Option<PlotRef>): ExecOutcome
  {
    if |args| < 2 then FinishSpec(c, args, confirm, step, false, location0, lastPlot0, location0, lastPlot0)
    else
      var newPlot := parse(args[0]);
      var switched := newPlot.Some? && MayScopeTo(c, newPlot.value);
      if switched && !canTeleport(ScopeLocation(newPlot.value)) then
        ExecOutcome(Returned(false), Some(BorderDenied), None, location0, lastPlot0)
      else
        var location1 := if switched then Some(ScopeLocation(newPlot.value)) else location0;
        var lastPlot1 := if switched then Some(newPlot.value.ref) else lastPlot0;
        var args1 := if switched then args[1..] else args;
        if |args1| >= 2 && IsDashToken(args1[0]) then
          if args1[0][1..] == "f" then
            FinishSpec(c, args1[1..], ForcedGate(c.applicableArea), step, switched, location0, lastPlot0, location1, lastPlot1)
          else ExecOutcome(Returned(false), Some(InvalidCommandFlag), None, location1, lastPlot1)
        else FinishSpec(c, args1, confirm, step, switched, location0, lastPlot0, location1, lastPlot1)
  }

  /** The player's temporary metadata: the location and the last plot
      commands act on, each present or absent. */
  class TemporaryMetaData {
    var location: Option<Loc>
    var lastPlot: Option<PlotRef>

    constructor (location: Option<Loc>, lastPlot: Option<PlotRef>)
      ensures this.location == location && this.lastPlot == lastPlot
    {
      this.location := location;
      this.lastPlot := lastPlot;
    }
  }

  /** The invocation: saves and overwrites the two slots when the first
      argument names a plot the player may take the scope of, handles a
      leading dash argument, calls the superclass, and restores the slots
      afterwards (removing a slot that was empty before). */
  method Execute(
    c: Caller, meta: TemporaryMetaData, args: seq<string>, confirm: Gate,
    parse: string -> Option<ParsedPlot>, canTeleport: Loc -> bool, step: Invocation -> StepOutcome)
    returns (result: ExecResult, notice: Option<Notice>, invoked: Option<Invocation>)
    modifies meta
    ensures var o := ExecuteSpec(c, args, confirm, parse, canTeleport, step, old(meta.location), old(meta.lastPlot));
      && result == o.result && notice == o.notice && invoked == o.invoked
      && meta.location == o.location && meta.lastPlot == o.lastPlot
  {
    notice, invoked := None, None;
    var argv := args;
    var gate := confirm;
    var location: Option<Loc> := None;
    var plot: Option<PlotRef> := None;
    var tp := false;
    if |argv| >= 2 {
      var area := c.applicableArea;
      var newPlot := parse(argv[0]);
      if newPlot.Some? && MayScopeTo(c, newPlot.value) {
        var newLoc := ScopeLocation(newPlot.value);
        if canTeleport(newLoc) {
          location := meta.location;
          meta.location := Some(newLoc);
          plot := meta.lastPlot;
          meta.lastPlot := Some(newPlot.value.ref);
          tp := true;
        } else {
          notice := Some(BorderDenied);
          result := Returned(false);
          return;
        }
        argv := argv[1..];
      }
      if |argv| >= 2 && |argv[0]| > 0 && argv[0][0] == '-' {
        if argv[0][1..] == "f" {
          gate := ForcedGate(area);
          argv := argv[1..];
        } else {
          notice := Some(InvalidCommandFlag);
          result := Returned(false);
          return;
        }
      }
    }
    var inv := Invocation(argv, gate, meta.location, meta.lastPlot);
    invoked := Some(inv);
    var outcome := step(inv);
    if outcome.Raised? {
      result := Rethrown(outcome.e);
      return;
    }
    if outcome.Faulted? {
      if outcome.message.Some? {
        notice := Some(Error(outcome.message.value));
      } else {
        notice := Some(ErrorConsole);
      }
    }
    if tp && !c.console {
      if location.None? {
        meta.location := None;
      } else {
        meta.location := location;
      }
      if plot.None? {
        meta.lastPlot := None;
      } else {
        meta.lastPlot := plot;
      }
    }
    result := Returned(true);
  }

  /** The command entry point: rewrites a `c:v` first argument, runs the
      invocation with the standard gate and performs a command exception
      that escapes it. It always answers true. */
  method OnCommand(
    c: Caller, meta: TemporaryMetaData, args: seq<string>,
    parse: string -> Option<ParsedPlot>, canTeleport: Loc -> bool, step: Invocation -> StepOutcome)
    returns (r: bool, notice: Option<Notice>, performed: Option<CommandException>)
    modifies meta
    ensures r
    ensures var o := ExecuteSpec(c, AliasRewrite(args), StandardGate, parse, canTeleport, step, old(meta.location), old(meta.lastPlot));
      && meta.location == o.location && meta.lastPlot == o.lastPlot && notice == o.notice
      && performed == (if o.result.Rethrown? then Some(o.result.e) else None)
  {
    var argv := RewriteAliasArgs(args);
    var result, invoked;
    result, notice, invoked := Execute(c, meta, argv, StandardGate, parse, canTeleport, step);
    performed := if result.Rethrown? then Some(result.e) else None;
    r := true;
  }

  // ---------------------------------------------------------------------
  // Properties of one invocation
  // ---------------------------------------------------------------------

  /** The scope is switched: at least two arguments, the first names a plot
      the player may take the scope of, and the player may be moved to it. */
  predicate Switches(c: Caller, args: seq<string>, parse: string -> Option<ParsedPlot>, canTeleport: Loc -> bool)
  {
    && |args| >= 2
    && parse(args[0]).Some?
    && MayScopeTo(c, parse(args[0]).value)
    && canTeleport(ScopeLocation(parse(args[0]).value))
  }

  /** A switch consumes exactly the first argument and the superclass runs
      with both slots holding the plot's location and the plot. */
  lemma ScopeSwitchConsumesFirstArgument(
    c: Caller, args: seq<string>, confirm: Gate,
    parse: string -> Option<ParsedPlot>, canTeleport: Loc -> bool, step: Invocation -> StepOutcome,
    location0: Option<Loc>, lastPlot0: Option<PlotRef>)
    requires Switches(c, args, parse, canTeleport)
    requires !(|args| >= 3 && IsDashToken(args[1]))
    ensures
      var p := parse(args[0]).value;
      ExecuteSpec(c, args, confirm, parse, canTeleport, step, location0, lastPlot0).invoked
        == Some(Invocation(args[1..], confirm, Some(ScopeLocation(p)), Some(p.ref)))
  {
  }

  /** Without a plot scope or a dash argument, the superclass sees the
      arguments, gate and slots unchanged, and the slots stay as they were. */
  lemma NoScopeLeavesEverything(
    c: Caller, args: seq<string>, confirm: Gate,
    parse: string -> Option<ParsedPlot>, canTeleport: Loc -> bool, step: Invocation -> StepOutcome,
    location0: Option<Loc>, lastPlot0: Option<PlotRef>)
    requires |args| < 2 || parse(args[0]).None? || !MayScopeTo(c, parse(args[0]).value)
    requires !(|args| >= 2 && IsDashToken(args[0]))
    ensures var o := ExecuteSpec(c, args, confirm, parse, canTeleport, step, location0, lastPlot0);
      && o.invoked == Some(Invocation(args, confirm, location0, lastPlot0))
      && o.location == location0 && o.lastPlot == lastPlot0
  {
  }

  /** A player who may not be moved to the plot gets the border message,
      false, no command run, and untouched slots. */
  lemma TeleportBlockedChangesNothing(
    c: Caller, args: seq<string>, confirm: Gate,
    parse: string -> Option<ParsedPlot>, canTeleport: Loc -> bool, step: Invocation -> StepOutcome,
    location0: Option<Loc>, lastPlot0: Option<PlotRef>)
    requires |args| >= 2 && parse(args[0]).Some? && MayScopeTo(c, parse(args[0]).value)
    requires !canTeleport(ScopeLocation(parse(args[0]).value))
    ensures ExecuteSpec(c, args, confirm, parse, canTeleport, step, location0, lastPlot0)
      == ExecOutcome(Returned(false), Some(BorderDenied), None, location0, lastPlot0)
  {
  }

  /** After a switch, a non-console player whose command ends normally or
      with a fault gets both slots back exactly as they were (an empty slot
      stays empty), and the invocation answers true. */
  lemma ScopeRestoredAfterCommand(
    c: Caller, args: seq<string>, confirm: Gate,
    parse: string -> Option<ParsedPlot>, canTeleport: Loc -> bool, step: Invocation -> StepOutcome,
    location0: Option<Loc>, lastPlot0: Option<PlotRef>)
    requires Switches(c, args, parse, canTeleport) && !c.console
    requires !(|args| >= 3 && IsDashToken(args[1]) && args[1][1..] != "f")
    ensures var o := ExecuteSpec(c, args, confirm, parse, canTeleport, step, location0, lastPlot0);
      !o.result.Rethrown? ==> o.result == Returned(true) && o.location == location0 && o.lastPlot == lastPlot0
  {
  }

  /** A fault with a player who had no saved location, after a two-argument
      plot-scoped command, leaves the location slot empty. */
  lemma FaultLeavesEmptySlotEmpty(
    c: Caller, args: seq<string>, confirm: Gate,
    parse: string -> Option<ParsedPlot>, canTeleport: Loc -> bool, step: Invocation -> StepOutcome,
    lastPlot0: Option<PlotRef>, message: Option<string>)
    requires Switches(c, args, parse, canTeleport) && !c.console && |args| == 2
    requires
      var p := parse(args[0]).value;
      step(Invocation(args[1..], confirm, Some(ScopeLocation(p)), Some(p.ref))) == Faulted(message)
    ensures var o := ExecuteSpec(c, args, confirm, parse, canTeleport, step, None, lastPlot0);
      o.location == None && o.result == Returned(true)
  {
  }

  /** An invalid dash argument after a switch returns false before the
      restore: both slots keep the plot scope. */
  lemma InvalidFlagSkipsRestore(
    c: Caller, args: seq<string>, confirm: Gate,
    parse: string -> Option<ParsedPlot>, canTeleport: Loc -> bool, step: Invocation -> StepOutcome,
    location0: Option<Loc>, lastPlot0: Option<PlotRef>)
    requires Switches(c, args, parse, canTeleport)
    requires |args| >= 3 && IsDashToken(args[1]) && args[1][1..] != "f"
    ensures
      var p := parse(args[0]).value;
      ExecuteSpec(c, args, confirm, parse, canTeleport, step, location0, lastPlot0)
        == ExecOutcome(Returned(false), Some(InvalidCommandFlag), None, Some(ScopeLocation(p)), Some(p.ref))
  {
  }

  /** A command exception after a switch is rethrown before the restore:
      both slots keep the plot scope. */
  lemma CommandExceptionSkipsRestore(
    c: Caller, args: seq<string>, confirm: Gate,
    parse: string -> Option<ParsedPlot>, canTeleport: Loc -> bool, step: Invocation -> StepOutcome,
    location0: Option<Loc>, lastPlot0: Option<PlotRef>, e: CommandException)
    requires Switches(c, args, parse, canTeleport)
    requires !(|args| >= 3 && IsDashToken(args[1]) && args[1][1..] != "f")
    requires
      var o := ExecuteSpec(c, args, confirm, parse, canTeleport, step, location0, lastPlot0);
      o.invoked.Some? && step(o.invoked.value) == Raised(e)
    ensures
      var p := parse(args[0]).value;
      var o := ExecuteSpec(c, args, confirm, parse, canTeleport, step, location0, lastPlot0);
      o.result == Rethrown(e) && o.location == Some(ScopeLocation(p)) && o.lastPlot == Some(p.ref)
  {
  }

  /** The console is never restored: after a switch its slots keep the
      plot scope whatever the command does. */
  lemma ConsoleNeverRestored(
    c: Caller, args: seq<string>, confirm: Gate,
    parse: string -> Option<ParsedPlot>, canTeleport: Loc -> bool, step: Invocation -> StepOutcome,
    location0: Option<Loc>, lastPlot0: Option<PlotRef>)
    requires Switches(c, args, parse, canTeleport) && c.console
    ensures
      var p := parse(args[0]).value;
      var o := ExecuteSpec(c, args, confirm, parse, canTeleport, step, location0, lastPlot0);
      o.location == Some(ScopeLocation(p)) && o.lastPlot == Some(p.ref)
  {
  }

  /** A leading `-f` (with an argument after it) that names no plot the
      player may take the scope of is consumed and replaces the gate with
      the forced one over the player's applicable area. */
  lemma ForceFlagInstallsForcedGate(
    c: Caller, args: seq<string>, confirm: Gate,
    parse: string -> Option<ParsedPlot>, canTeleport: Loc -> bool, step: Invocation -> StepOutcome,
    location0: Option<Loc>, lastPlot0: Option<PlotRef>)
    requires |args| >= 2 && args[0] == "-f"
    requires parse(args[0]).None? || !MayScopeTo(c, parse(args[0]).value)
    ensures ExecuteSpec(c, args, confirm, parse, canTeleport, step, location0, lastPlot0).invoked
      == Some(Invocation(args[1..], ForcedGate(c.applicableArea), location0, lastPlot0))
  {
    assert args[0][1..] == "f";
  }

  /** After a scope switch, a `-f` in second place (with an argument after
      it) is consumed too: the command runs on the rest, with the forced
      gate over the area that applied before the switch and both slots
      holding the plot scope. */
  lemma ForceFlagAfterScopeSwitch(
    c: Caller, args: seq<string>, confirm: Gate,
    parse: string -> Option<ParsedPlot>, canTeleport: Loc -> bool, step: Invocation -> StepOutcome,
    location0: Option<Loc>, lastPlot0: Option<PlotRef>)
    requires Switches(c, args, parse, canTeleport)
    requires |args| >= 3 && args[1] == "-f"
    ensures
      var p := parse(args[0]).value;
      ExecuteSpec(c, args, confirm, parse, canTeleport, step, location0, lastPlot0).invoked
        == Some(Invocation(args[2..], ForcedGate(c.applicableArea), Some(ScopeLocation(p)), Some(p.ref)))
  {
    assert args[1..][0][1..] == "f";
    assert args[1..][1..] == args[2..];
  }

  /** A fault other than a command exception is caught: the player is told
      its message (or the console-error caption when it has none) and the
      invocation answers true. */
  lemma FaultReported(
    c: Caller, args: seq<string>, confirm: Gate,
    parse: string -> Option<ParsedPlot>, canTeleport: Loc -> bool, step: Invocation -> StepOutcome,
    location0: Option<Loc>, lastPlot0: Option<PlotRef>)
    ensures var o := ExecuteSpec(c, args, confirm, parse, canTeleport, step, location0, lastPlot0);
      o.invoked.Some? && step(o.invoked.value).Faulted? ==>
        && o.result == Returned(true)
        && o.notice == Some(
             if step(o.invoked.value).message.Some? then Error(step(o.invoked.value).message.value)
             else ErrorConsole)
  {
  }
}
