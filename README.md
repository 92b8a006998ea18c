# PlotSquared: Paper event verdicts and the plot command front end

This project models two pieces of decision logic from the PlotSquared land-claim plugin and proves properties about them.

**`PaperListener`** is the listener for events that only the Paper server raises. Each handler looks at where an action happens and decides what to do with the event. An action happens in a plot area, possibly inside a plot, and the plot may be owned, merged, done, or carry flags. The handler's decision is a `Verdict`: cancel the event, abort the spawn, deny the build, remove the projectile, and which message to send. The handlers cover:
- entities and slimes walking across plot borders;
- creature spawns, classified by spawn reason;
- chunk spawns around players and spawner spawns;
- the cap on tile entities per chunk;
- projectiles launched by players;
- beacon effects reaching players.

Each of these is a pure function of its inputs. Asynchronous tab completion parses the command buffer step by step, so it is a method. That method copies the arguments into a fresh array and collects the labels of the completing commands in a loop.

**`MainCommand`** is the front end of the `/plot` command:
- `RewriteAliasArgs` does the `c:v` alias rewrite of the argument list. It writes into a fresh array, and the model keeps that array.
- The economy gates choose between a command's success and failure continuations. There are three: the direct gate, the gate that runs on confirmation, and the forced `-f` gate.
- `Execute` runs one command. It handles the optional leading plot argument. That argument saves the player's temporary location and last plot, overwrites them for the duration of the command, and restores them afterwards. `Execute` also handles dash flags and faults.

The player's temporary metadata is the class `TemporaryMetaData`, with two optional fields. `Execute` changes these fields in place and is proved against the function `ExecuteSpec`, and the lemmas about `ExecuteSpec` state what the invocation promises. The superclass `Command.execute` is a function parameter `step`. It returns normally, throws a `CommandException`, or throws another fault, and it sees the arguments, the gate and both metadata slots.

`JavaStrings` models the parts of `java.lang.String` that both classes rely on:
- `split` around one literal character, with limit 0. Trailing empty pieces are dropped, and a string made only of separators yields no piece at all.
- `toLowerCase(Locale.ENGLISH)` on ASCII letters.

The model keeps these literal behaviours of the code and states each one as a lemma:
- The merge test asks only whether the source plot's merge group contains the source plot itself (`MergeCheckIgnoresTarget`, `MergedPlotReachesUnconnectedPlot`).
- "Same plot" is decided by comparing the hash codes of plot ids (`HashCollisionCountsAsSamePlot`).
- Dropped items are cancelled without aborting the spawn (`DroppedItemCancelledWithoutAbort`).
- An invalid dash flag returns before the scope is restored (`InvalidFlagSkipsRestore`). So does a rethrown `CommandException` (`CommandExceptionSkipsRestore`). The console is never restored (`ConsoleNeverRestored`).
- The confirmed gate compares even a zero price with the balance, while the direct gate does not (`ConfirmedGateStricterThanDirect`).
- The forced gate ignores the econ-bypass permission (`ForcedGateIgnoresBypass`).

The model keeps these behaviours of the code, which a reader may not expect:
- A tab buffer `/plot h` splits into two tokens, and the handler asks for completions of `h` (`OneArgumentQueries`). Only a label followed by nothing but spaces, such as `/plot `, is the single-token case that does nothing (`LabelAloneSkips`).
- The beacon handler has no component switch. It always runs once the beacon is in a plot area.
- A player spawning off any owned plot escapes the mob-spawning switch only after the spawn-reason switch. A `NATURAL` player spawn in an area with mob spawning off is aborted by that switch.

## Model

| member | source | states |
|---|---|---|
| `PaperListener.OnEntityPathfind` | Bukkit/src/main/java/com/plotsquared/bukkit/listener/PaperListener.java:86-118 | Cancelling is the only verdict ever given. It is cancelled iff the component is on, both sides have a plot area, and one of these holds: the areas differ; exactly one side has a plot; or both have plots whose id hashes differ and the source plot is not (merged and contained in its own connected set). |
| `PaperListener.OnSlimePathfind` | Bukkit/src/main/java/com/plotsquared/bukkit/listener/PaperListener.java:120-160 | No target block means no verdict. With a target block, the verdict is exactly the entity pathfinding verdict toward that block. |
| `PaperListener.MergeCheckIgnoresTarget` | Bukkit/src/main/java/com/plotsquared/bukkit/listener/PaperListener.java:114 | A merged source plot whose connected set holds itself may walk into any other plot of the same area. |
| `PaperListener.MergedPlotReachesUnconnectedPlot` | Bukkit/src/main/java/com/plotsquared/bukkit/listener/PaperListener.java:114 | Concrete case: a walk into a plot outside the source's merge group is not cancelled. |
| `PaperListener.HashCollisionCountsAsSamePlot` | Bukkit/src/main/java/com/plotsquared/bukkit/listener/PaperListener.java:111 | Two plots of one area with distinct ids and equal hash codes count as the same plot, so a walk between them is never blocked. |
| `PaperListener.PathfindBetweenPlotsWithWellFormedGroups` | Bukkit/src/main/java/com/plotsquared/bukkit/listener/PaperListener.java:105-117 | Take two plots of one area whose merge groups hold their own plot. A walk between them is blocked iff the hashes differ and the source is unmerged. |
| `PaperListener.ReasonBucket` | Bukkit/src/main/java/com/plotsquared/bukkit/listener/PaperListener.java:184-220 | Each spawn reason named in the switch falls into exactly its own bucket. Any other reason falls into none. |
| `PaperListener.OnPreCreatureSpawn` | Bukkit/src/main/java/com/plotsquared/bukkit/listener/PaperListener.java:162-250 | The verdict is one of: no verdict, cancel, or cancel and abort. Armour stands, spawns with no area and a disabled component are never touched. Otherwise the spawn is aborted iff one of these holds: the entity cap is reached; the reason's bucket switch is off; off any owned plot, a non-player living entity spawns with mob spawning off, or a non-living entity other than a dropped item spawns with misc-unowned off; on an owned plot, building is restricted and the plot is done. It is cancelled iff aborted, or a dropped item passes the earlier checks off any owned plot and road items are killed. |
| `PaperListener.EntityCapPrecedesReason` | Bukkit/src/main/java/com/plotsquared/bukkit/listener/PaperListener.java:176-182 | A full chunk cancels and aborts every considered spawn, whatever its reason or plot. |
| `PaperListener.DroppedItemCancelledWithoutAbort` | Bukkit/src/main/java/com/plotsquared/bukkit/listener/PaperListener.java:221-230 | A dropped item that passes the earlier checks off any owned plot is never aborted. It is cancelled iff road items are killed. |
| `PaperListener.PlayerSpawnIgnoresMobSpawning` | Bukkit/src/main/java/com/plotsquared/bukkit/listener/PaperListener.java:231-234 | A player that passes the earlier checks off any owned plot gets no verdict, whatever the mob-spawning switch says. |
| `PaperListener.UnlistedReasonFallsThrough` | Bukkit/src/main/java/com/plotsquared/bukkit/listener/PaperListener.java:184-220 | A reason outside every bucket gets the same verdict as any other reason that is unlisted or whose bucket the area allows: the switch never decides it. |
| `PaperListener.OnPlayerNaturallySpawnCreatures` | Bukkit/src/main/java/com/plotsquared/bukkit/listener/PaperListener.java:252-261 | Cancelled, never aborted, iff the component is on, an area exists and mob spawning is off there. |
| `PaperListener.OnPreSpawnerSpawn` | Bukkit/src/main/java/com/plotsquared/bukkit/listener/PaperListener.java:263-273 | Cancelled and aborted iff the component is on, an area exists and spawner spawning is off there. |
| `PaperListener.SpawnerGatesAgree` | Bukkit/src/main/java/com/plotsquared/bukkit/listener/PaperListener.java:213-219 | Suppose the spawner handler aborts a spawn and the creature-spawn component is on. Then the creature-spawn handler aborts a SPAWNER-reason spawn at the same place, of any entity other than an armour stand. |
| `PaperListener.OnBlockPlace` | Bukkit/src/main/java/com/plotsquared/bukkit/listener/PaperListener.java:275-298 | Denial sets cancel, sets build denied and sends the cap message carrying MAX_TILES. It happens iff both switches are on, the block is a tile state, an area exists and the chunk's tile count is at least MAX_TILES. |
| `PaperListener.TileCapMonotone` | Bukkit/src/main/java/com/plotsquared/bukkit/listener/PaperListener.java:288-297 | A chunk that refuses a tile entity also refuses it at every higher tile count. |
| `PaperListener.OnProjectileLaunch` | Bukkit/src/main/java/com/plotsquared/bukkit/listener/PaperListener.java:306-365 | Every denial removes the projectile, cancels the event and names exactly the override permission for the location. The shooter lacks that permission. Denied on the road iff the road projectile flag is not true and the road override is missing. Denied on an unowned plot iff the unowned override is missing. Denied on an owned plot, for a player who is not added, iff the plot's flag is false and the other-owner override is missing. |
| `PaperListener.AddedMembersNeverDenied` | Bukkit/src/main/java/com/plotsquared/bukkit/listener/PaperListener.java:350 | Added players on an owned plot are never denied. |
| `PaperListener.OverrideAdmitsLaunch` | Bukkit/src/main/java/com/plotsquared/bukkit/listener/PaperListener.java:324-364 | Holding the override for the location always admits the launch. A denial always removes the projectile. |
| `PaperListener.GetBooleanFlagValue` | Bukkit/src/main/java/com/plotsquared/bukkit/listener/PaperListener.java:446-453 | True iff the container holds true, or holds nothing and the default is true. |
| `PaperListener.OnBeaconEffect` | Bukkit/src/main/java/com/plotsquared/bukkit/listener/PaperListener.java:407-444 | No verdict without an area. A player on the road is cancelled iff the road flag is explicitly false, or the beacon is on a plot and overflow is disabled. On the beacon's own plot, cancelled iff that plot's flag is explicitly false. Otherwise, cancelled iff the player's plot flag is explicitly false or overflow is disabled. A missing flag reads as true. |
| `PaperListener.BeaconOverflowConfined` | Bukkit/src/main/java/com/plotsquared/bukkit/listener/PaperListener.java:423-443 | With overflow disabled, an effect reaches a player only in two cases: inside the beacon's plot, or from a road beacon to a player on the road. |
| `PaperListener.ParseTabBufferAsWritten` | Bukkit/src/main/java/com/plotsquared/bukkit/listener/PaperListener.java:376-390 | The code as written reads the first token of an empty split. This happens iff the buffer passes the guards and, after the slash is removed, splits into no token. `SplitOnlySeparators` and `SplitEmptyOnlySeparators` show that this is exactly a buffer made of nothing but spaces. |
| `PaperListener.ParseTabBuffer` | Bukkit/src/main/java/com/plotsquared/bukkit/listener/PaperListener.java:376-390 | Never overruns. A query is made iff all of these hold: the component is on; the sender is a player; the buffer is a command or starts with a slash; it holds a space; the unslashed buffer splits into at least two tokens; the lower-cased first token is a configured alias. The query's arguments are exactly the tokens after the first, none holding a space, and its trailing-space bit is that of the buffer. This is the corrected parsing; see Findings. |
| `PaperListener.ParseTabBufferCorrectsOnlyOverrun` | Bukkit/src/main/java/com/plotsquared/bukkit/listener/PaperListener.java:382-388 | The corrected parsing agrees with the code everywhere except at the overrun, where it does nothing. |
| `PaperListener.BlankCommandOverruns` | Bukkit/src/main/java/com/plotsquared/bukkit/listener/PaperListener.java:382-388 | The buffer "/ " makes the code as written overrun. The corrected parsing does nothing. |
| `PaperListener.LabelAloneSkips` | Bukkit/src/main/java/com/plotsquared/bukkit/listener/PaperListener.java:382-384 | "/plot " splits into one token, so the handler does nothing. |
| `PaperListener.OneArgumentQueries` | Bukkit/src/main/java/com/plotsquared/bukkit/listener/PaperListener.java:382-390 | "/plot h" asks the command tree about ["h"], with no trailing space. |
| `PaperListener.UppercaseAliasQueries` | Bukkit/src/main/java/com/plotsquared/bukkit/listener/PaperListener.java:385-386 | The alias test ignores ASCII case: "/PLOT h" asks about ["h"], exactly as "/plot h" does. |
| `PaperListener.TrailingSpaceQueries` | Bukkit/src/main/java/com/plotsquared/bukkit/listener/PaperListener.java:382-393 | "/plot home " asks about ["home"], with the trailing space reported. |
| `PaperListener.OnAsyncTabCompletion` | Bukkit/src/main/java/com/plotsquared/bukkit/listener/PaperListener.java:367-405 | Follows the corrected parsing: the command tree is queried iff that parsing yields a query. The arguments are then exactly the split tokens after the label, and the trailing-space bit is that of the buffer. Completions are set iff the tree answers with commands, and they are exactly those commands' labels, in order. |
| `JavaStrings.Split` | Core/src/main/java/com/plotsquared/core/command/MainCommand.java:165 | No piece holds the separator. Without a separator the result is the whole string. Otherwise the result is the raw pieces minus trailing empty ones, and it ends in a non-empty piece. |
| `JavaStrings.JoinSegments` | Bukkit/src/main/java/com/plotsquared/bukkit/listener/PaperListener.java:382 | Joining the raw pieces with the separator gives back the original string. |
| `JavaStrings.SplitEmptyOnlySeparators` | Bukkit/src/main/java/com/plotsquared/bukkit/listener/PaperListener.java:382-386 | A split that yields no piece comes only from a non-empty string of nothing but separators. |
| `JavaStrings.ToLowerEnglish` | Bukkit/src/main/java/com/plotsquared/bukkit/listener/PaperListener.java:386 | Same length as the input, and each character is lower-cased on its own: A to Z map to a to z, and everything else is kept. The partner lemmas below state what this means for whole strings. |
| `JavaStrings.ToLowerEnglishKeepsLowercase` | Bukkit/src/main/java/com/plotsquared/bukkit/listener/PaperListener.java:386 | A string without capital letters is its own lower case. |
| `JavaStrings.ToLowerEnglishIdempotent` | Bukkit/src/main/java/com/plotsquared/bukkit/listener/PaperListener.java:386 | The result holds no capital letter, and lower-casing it again changes nothing. |
| `JavaStrings.ToLowerEnglishFoldsCase` | Bukkit/src/main/java/com/plotsquared/bukkit/listener/PaperListener.java:386 | "PLOT", "Plot" and "plot" all lower-case to "plot". |
| `MainCommand.RewriteAliasArgs` | Core/src/main/java/com/plotsquared/core/command/MainCommand.java:164-178 | When the first argument splits on ':' into exactly two pieces: the result is one longer, the left piece comes first, the right piece comes last, and the remaining arguments stay in order between them. Otherwise the arguments are unchanged. |
| `MainCommand.AliasRewriteIdempotent` | Core/src/main/java/com/plotsquared/core/command/MainCommand.java:164-178 | The rewrite applies once. Rewriting its result changes nothing. |
| `MainCommand.AliasRewriteMovesValueLast` | Core/src/main/java/com/plotsquared/core/command/MainCommand.java:167-176 | ["h:2","Steve"] becomes ["h","Steve","2"]. |
| `MainCommand.AliasRewriteNeedsTwoPieces` | Core/src/main/java/com/plotsquared/core/command/MainCommand.java:165-166 | A first argument "a:" (one piece) or "a:b:c" (three pieces) leaves the arguments unchanged. |
| `MainCommand.DirectChoice` | Core/src/main/java/com/plotsquared/core/command/MainCommand.java:203-216 | Failure iff the player is charged (area present, economy enabled, no bypass), the price is non-zero and the balance is below it. |
| `MainCommand.ConfirmedChoice` | Core/src/main/java/com/plotsquared/core/command/MainCommand.java:184-200 | Failure iff the player is charged and the balance is below the price, even a price of zero. |
| `MainCommand.ForcedChoice` | Core/src/main/java/com/plotsquared/core/command/MainCommand.java:278-297 | Failure iff an area is present, the economy is enabled, the price is non-zero and the balance is below it. Bypass is not consulted. |
| `MainCommand.RunChosen` | Core/src/main/java/com/plotsquared/core/command/MainCommand.java:207-216 | At most one continuation runs, and only the chosen one. Nothing runs only when the chosen continuation is absent. |
| `MainCommand.RunGate` | Core/src/main/java/com/plotsquared/core/command/MainCommand.java:182-217 | The standard gate awaits confirmation iff the command needs it, and otherwise runs at once; the forced gate always runs at once. A gate that runs uses the direct choice at the player's current area (standard) or the forced choice at the area the gate was created with (forced). It runs exactly that continuation, and runs nothing only when that continuation is absent. |
| `MainCommand.ForcedGateReadsCapturedArea` | Core/src/main/java/com/plotsquared/core/command/MainCommand.java:244-284 | The forced gate's outcome does not depend on the area that applies when it runs. Concretely, a gate created in an area with the economy off passes, where the standard gate, reading a priced area, fails. |
| `MainCommand.OnConfirmed` | Core/src/main/java/com/plotsquared/core/command/MainCommand.java:184-200 | The confirmed action runs Failure iff the confirmed gate fails against the economy at confirmation time. It runs the chosen continuation, and nothing only when that continuation is absent. |
| `MainCommand.GatesPassWithoutCharge` | Core/src/main/java/com/plotsquared/core/command/MainCommand.java:186-204 | With no area or a disabled economy, every gate passes. With bypass, the direct and confirmed gates pass. |
| `MainCommand.ConfirmedGateStricterThanDirect` | Core/src/main/java/com/plotsquared/core/command/MainCommand.java:190-207 | The confirmed gate fails whenever the direct gate fails. The two differ exactly for a charged player with a negative balance facing a zero price. |
| `MainCommand.ForcedGateIgnoresBypass` | Core/src/main/java/com/plotsquared/core/command/MainCommand.java:281 | The forced gate's choice does not depend on bypass. Without bypass it equals the direct gate. A concrete player with bypass passes the direct gate and fails the forced gate. |
| `MainCommand.MissingPriceIsZero` | Core/src/main/java/com/plotsquared/core/command/MainCommand.java:189 | A missing price behaves as a price of zero in all three gates. |
| `MainCommand.Execute` | Core/src/main/java/com/plotsquared/core/command/MainCommand.java:233-342 | The result, the message, the superclass call and both metadata slots afterwards are those of `ExecuteSpec` from the slots before. |
| `MainCommand.OnCommand` | Core/src/main/java/com/plotsquared/core/command/MainCommand.java:162-231 | Always answers true. It runs the invocation on the alias-rewritten arguments with the standard gate, and performs exactly the command exception the invocation rethrows. |
| `MainCommand.ScopeSwitchConsumesFirstArgument` | Core/src/main/java/com/plotsquared/core/command/MainCommand.java:243-275 | After a switch with no dash argument following, the superclass gets the arguments without the first one, with both slots holding the plot's location and the plot. |
| `MainCommand.NoScopeLeavesEverything` | Core/src/main/java/com/plotsquared/core/command/MainCommand.java:243-304 | Without a switch or a dash argument, the superclass sees the arguments, gate and slots unchanged, and the slots end as they began. |
| `MainCommand.TeleportBlockedChangesNothing` | Core/src/main/java/com/plotsquared/core/command/MainCommand.java:256-272 | A blocked teleport gives false and the border-denied message. No command runs and both slots are untouched. |
| `MainCommand.ScopeRestoredAfterCommand` | Core/src/main/java/com/plotsquared/core/command/MainCommand.java:322-340 | After a switch and without an invalid flag, a non-console player whose command is not rethrown gets both slots back exactly. A slot that was empty is removed. The invocation answers true. |
| `MainCommand.FaultLeavesEmptySlotEmpty` | Core/src/main/java/com/plotsquared/core/command/MainCommand.java:322-331 | A fault in a two-argument plot-scoped command leaves an empty location slot empty. |
| `MainCommand.InvalidFlagSkipsRestore` | Core/src/main/java/com/plotsquared/core/command/MainCommand.java:299-302 | An invalid dash argument after a switch gives false and the invalid-flag message. No command runs, and both slots keep the plot scope. |
| `MainCommand.CommandExceptionSkipsRestore` | Core/src/main/java/com/plotsquared/core/command/MainCommand.java:305-308 | A command exception after a switch, with or without a following "-f", is rethrown, and both slots keep the plot scope. |
| `MainCommand.ConsoleNeverRestored` | Core/src/main/java/com/plotsquared/core/command/MainCommand.java:323 | After a switch, the console's slots keep the plot scope. |
| `MainCommand.ForceFlagInstallsForcedGate` | Core/src/main/java/com/plotsquared/core/command/MainCommand.java:276-298 | Without a scope switch, a leading "-f" with an argument after it is consumed. The gate becomes the forced gate over the applicable area, and the slots pass through. |
| `MainCommand.ForceFlagAfterScopeSwitch` | Core/src/main/java/com/plotsquared/core/command/MainCommand.java:243-298 | After a scope switch, a "-f" in second place with an argument after it is consumed too. The command runs on the rest, with the forced gate over the area that applied before the switch and both slots holding the plot scope. |
| `MainCommand.FaultReported` | Core/src/main/java/com/plotsquared/core/command/MainCommand.java:309-321 | Another fault is caught: the message carries its text, or the console-error caption when there is none, and the invocation answers true. |

## Findings

| source | as written | input that shows it | evidently intended | confidence | as-written member | corrected member |
|---|---|---|---|---|---|---|
| Bukkit/src/main/java/com/plotsquared/bukkit/listener/PaperListener.java:382-388 | After the one-token test, the first token is read even when the split yielded no token at all. That read is outside the try block. | A player tab-completes the buffer "/ ". " ".split(" ") is empty, and `unprocessedArgs[0]` throws ArrayIndexOutOfBoundsException. | A buffer with no token does nothing, like a single token. | high; not executed | `PaperListener.ParseTabBufferAsWritten` (shown by `PaperListener.BlankCommandOverruns`) | `PaperListener.ParseTabBuffer` |

## Left out

- Bukkit and Paper event objects, `BukkitUtil.adapt`, and chunk entity and tile enumeration are not modelled. Each handler takes what they report as inputs: the area, the plot lookups, entity and tile counts, the entity type, the spawn reason's name, whether the block is a tile state, and the block a slime targets within four blocks, if any.
- `entity.remove()`, `sendMessage`, `setCancelled`, `setShouldAbortSpawn` and `setBuild` are recorded as verdict fields, not performed.
- Flag resolution is not modelled: `FlagContainer.getFlag` inheritance, `PlotFlagUtil.isAreaRoadFlagsAndFlagEquals`, `Plot.getFlag` and `DoneFlag.isDone`. Their results are inputs.
- `Plot.fromString` is the parameter `parse`, and `canTeleport` is a parameter too. `getConnectedPlots`, `isAdded` and `isDenied` are inputs.
- `PlotId.hashCode` is an input: the plot's `idHash`.
- `Plot.equals`, used by the beacon handler, is modelled as same area and same id. The Plot class is not part of this model.
- The `Command` superclass (tree resolution, `tab`, `hasConfirmation`, `getFullId`, `getUsage`) is not modelled. Its execute is the parameter `step`, and `tab` is a function parameter of the tab-completion method.
- `CmdConfirm.addPending` is not modelled beyond the gate step `AwaitConfirmation`. A pending entry replacing an older one and its expiry are outside this model.
- `step` cannot change the metadata slots. A command that rewrites the player's temporary location while it runs is not modelled.
- `MainCommand.getInstance` is not modelled: it is registry construction behind dependency injection.
- `PlotExpression.evaluate`, `double` prices and `double` balances are floating point. Prices and balances are integers here.
- These are not modelled: `CompletableFuture` results, the no-op `whenDone` callback and `thenAccept`, async threading, logging, `printStackTrace`, and caption and tag rendering.
- The unused field `lastChunk` is not modelled.
- In the tab-completion handler, only faults from the command tree are modelled (`TabAnswer.Fault`). Faults from adapting the sender are not.
- The beacon handler's `ignoreCancelled = true` is not modelled: events that are already cancelled never reach it.
- `JavaStrings.ToLowerEnglish`: lower-cases only the letters A to Z. Full Unicode case mapping is not modelled. Configured aliases are plain ASCII command labels.
- OnAsyncTabCompletion: follows the corrected parsing. On a buffer that holds only a slash and spaces, such as "/ ", it makes no query, where the code as written throws an index-out-of-bounds error (see Findings).
