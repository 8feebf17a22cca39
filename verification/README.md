# floppysox session loop and hooks, in Dafny

floppysox is a headless Minecraft client built on the go-mc library. Its
`main.go` authenticates, registers event hooks with go-mc's player, chat,
world and screen managers, joins the server, and then loops over
`client.HandleGame()`. This project models the program's own logic:

- the error values that reach the loop, as a wrap chain (`ErrorChain`), with
  `errors.As` read as "the first link of this kind in the chain";
- the four-way decision on each `HandleGame` result (`Classifier`): nil
  panics, a `DisconnectErr` beneath a `bot.PacketHandlerError` is a clean
  exit, any other packet-handler error is logged and the loop goes on,
  anything else is fatal;
- the loop itself, as a fold over a finite sequence of `HandleGame` results
  and as an iterative method, plus the authentication and join steps in
  front of it and the resulting process exit status (`Session`);
- the routing of `onScreenSlotChange` by window id and slot index
  (`ScreenRouting`);
- what each registered hook returns and does (`Hooks`).

Files: `wrappers.dfy` (Option, Result), `errors.dfy`, `classifier.dfy`,
`session.dfy`, `screens.dfy`, `hooks.dfy`.

Modelling choices:

- An `Error` is `Disconnect(reason)` (the program's `DisconnectErr`),
  `HandlerErr(packetId, inner)` (go-mc's `PacketHandlerError`),
  `Wrapped(msg, inner)` (any other error with `Unwrap`) or `Other(msg)`.
  `DisconnectErr` has no `Unwrap`, so it can only end a chain.
- A chat message (`chat.Message`) is represented by its rendered text.
- `HandleGame` results are `Option<Error>`; `None` is Go's nil.
- A hook's visible behaviour is an `Effect`: chat lines handed to
  `SendMessage` (whether or not sending succeeded), respawns
  scheduled, the slot it reported on, and the error it returns.
- go-mc returns a hook's error from `HandleGame` wrapped in a
  `PacketHandlerError`. That wrapping happens inside the library, which is
  not part of this model; `Hooks.DisconnectHookEndsSession` and
  `Hooks.SendFailureKeepsSession` take it as the shape of the error they
  classify.
- Exit statuses follow Go: returning from `main` is 0, `log.Fatal` is 1, an
  unrecovered panic is 2.

Facts about main.go the model keeps:

- A failed authentication logs the error and returns from `main`
  (main.go:36-40), so the process exits with status 0.
- The program keeps no loaded-chunk set: `onChunkLoad` and `onChunkUnload`
  only log (main.go:126-134). No chunk-set invariant is modelled.
- A bare `DisconnectErr` that is not inside a packet-handler error is fatal,
  because the disconnect test is nested inside the handler test
  (main.go:80-90).

## Model

| member | source | states |
|---|---|---|
| ErrorChain.Link | main.go:80-81 | the chain `errors.As` walks starts at the error itself, and every link but the last unwraps while the last does not |
| ErrorChain.FirstIndex | main.go:80-81 | the position chosen is within the chain or just past it, and a position within the chain holds a link of the target kind |
| ErrorChain.As | main.go:80-81 | what `errors.As` finds has the target's kind |
| ErrorChain.AsIsFirstLink | main.go:80-81 | `errors.As` finds the first link of the chain with the target's kind, and nothing when no link has it |
| ErrorChain.AsFindsIff | main.go:80-81 | `errors.As` reports a match exactly when some link of the chain has the target's kind |
| ErrorChain.DisconnectText | main.go:165-167 | a `DisconnectErr` message is "disconnect: " followed by exactly the reason text |
| ErrorChain.DisconnectTextRoundTrip | main.go:165-167 | the reason can be read back unchanged from a `DisconnectErr` message |
| ErrorChain.ParseDisconnectTextInverse | main.go:165-167 | any message that starts with the prefix is the message of the reason that follows it |
| Classifier.Classify | main.go:75-91 | a result is a panic exactly when it is nil; a fatal result is the original error and has no handler link; a continued result logs the first handler link of the chain |
| Classifier.ClassifyExitIff | main.go:80-83 | the loop returns cleanly with reason r exactly when some packet-handler link wraps, beneath it, a `DisconnectErr` with reason r |
| Classifier.ClassifyContinueIff | main.go:80-87 | the loop logs and goes on exactly when the chain holds a packet-handler error and no handler wraps a disconnect |
| Classifier.ClassifyFatalIff | main.go:80-90 | the loop ends fatally exactly when no link of the chain is a packet-handler error |
| Classifier.NilPanics | main.go:76-78 | a nil result panics, never continues and never exits |
| Classifier.BareDisconnectIsFatal | main.go:80-90 | a `DisconnectErr` not wrapped in a handler error is fatal |
| Session.RunLoop | main.go:75-91 | the loop stops at the first result that does not continue, with that result's outcome; while every result continues it keeps looping and has logged one handler error per result |
| Session.MainLoop | main.go:75-91 | the iterative loop over `HandleGame` results reaches the same state as the fold: it stops at a non-continue outcome or has logged one error per result |
| Session.StopIsFinal | main.go:77-89 | once the loop has exited, panicked or failed, later results change nothing |
| Session.HandlerErrorsKeepLooping | main.go:75-87 | after handler errors that were logged and ignored, the loop handles the following results on the same client exactly as it would from the start, shifted past the logged ones |
| Session.NextResultHandled | main.go:75-91 | after any run of ignored handler errors, the next result is handled: it is logged too or it ends the loop at its own position |
| Session.RunAsWritten | main.go:36-71 | as written, a failed join after a successful authentication logs nil instead of the join error |
| Session.Run | main.go:36-72 | authentication failure stops before joining; join failure stops with the join error logged; the loop runs only after both succeed |
| Session.StaleJoinErrorLogged | main.go:68-71 | for every join error, the code as written logs nil where the corrected run logs that error |
| Session.RunAgreesOnExit | main.go:68-71 | the stale log line changes nothing else: both versions end with the same exit status, and they are the same run when the join succeeds |
| Session.SessionExitStatus | main.go:36-91 | a run exits with 0 after a failed authentication or a clean disconnect, 1 after a failed join or a fatal loop error, 2 after a nil loop result, and has no status only while the loop still runs |
| Session.LoopExitStatus | main.go:76-90 | a stopped loop exits with 0 exactly for a disconnect beneath a handler error, 2 exactly for a nil result, and 1 exactly for an error with no handler link |
| ScreenRouting.Route | main.go:136-154 | id -2 is the inventory and only -2 is; (-1,-1) and only it is the cursor; any other pair is a screen slot exactly when that id is open as an inventory screen, else ignored; a routed slot has the address it came from |
| ScreenRouting.RouteAddressRoundTrip | main.go:137-147 | every slot the hook can report is routed to from its own (id, index) address |
| ScreenRouting.InventoryWins | main.go:137-138 | id -2 resolves to the inventory slot at that index, whatever screens are open |
| ScreenRouting.MinusOneFallsThrough | main.go:139-142 | id -1 with an index other than -1 is not the cursor and goes to the screen lookup |
| ScreenRouting.UnknownScreenIgnored | main.go:142-151 | an id that is not open, or whose screen is not an inventory, is ignored for any index |
| Hooks.OnDeath | main.go:95-106 | `onDeath` schedules exactly one respawn, sends nothing and returns nil immediately |
| Hooks.OnGameStart | main.go:108-114 | `onGameStart` hands "Hello, world" to `SendMessage` once, whatever the send's result, and returns nil exactly when sending succeeded, otherwise the send error unchanged |
| Hooks.OnPlayerMsg | main.go:116-119 | `onPlayerMsg` has no effect beyond logging and returns nil |
| Hooks.OnSystemMsg | main.go:121-124 | `onSystemMsg` has no effect beyond logging and returns nil |
| Hooks.OnChunkLoad | main.go:126-129 | `onChunkLoad` has no effect beyond logging and returns nil |
| Hooks.OnChunkUnload | main.go:131-134 | `onChunkUnload` has no effect beyond logging and returns nil |
| Hooks.OnHealthChange | main.go:156-159 | `onHealthChange` has no effect beyond logging and returns nil |
| Hooks.OnScreenSlotChange | main.go:136-154 | `onScreenSlotChange` returns nil and sends nothing; it reports inventory slot `index` for id -2, the cursor for (-1,-1), the screen slot for an open inventory screen, and ignores the change exactly in the remaining cases |
| Hooks.OnDisconnect | main.go:161-172 | `onDisconnect` returns a `DisconnectErr` that `errors.As` finds with exactly the given reason, whose message is "disconnect: " followed by that reason |
| Hooks.Dispatch | main.go:45-65 | each event reaches its registered hook: only a death schedules a respawn, only game start attempts to send the greeting, only a slot change reports a slot; open and close events do nothing |
| Hooks.DispatchErrorIff | main.go:95-172 | a hook returns an error exactly for a disconnect or a failed greeting send, and the error is the disconnect or the send error itself |
| Hooks.DisconnectHookEndsSession | main.go:80-83 | a disconnect returned by `onDisconnect` and wrapped by the handler error, under any further wrappers, ends the loop cleanly with the same reason |
| Hooks.SendFailureKeepsSession | main.go:84-87 | a greeting send failure that carries no disconnect is logged and the loop continues |

## Left out

- Obtaining credentials, the command-line flags and `JoinServer` (main.go:20-25, 36-43, 68): these are calls into the authentication library and go-mc; the model only takes their success or error as inputs to `Session.Run`.
- The inside of `HandleGame`: reading packets, decoding them and calling the hooks is go-mc code; the loop takes the sequence of results it returns as input, and the hook-error wrapping is an assumption stated above.
- How often go-mc fires the game-start event: each `onGameStart` call attempts to send the greeting exactly once (`Hooks.OnGameStart`, `Hooks.Dispatch`), and that the event fires once per session is the library's promise.
- The loop never ends on its own: the model runs it over any finite sequence of `HandleGame` results, and `Running` means no stopping result has arrived yet.
- The respawn goroutine's five-second sleep and its call to `Respawn` (main.go:98-104): concurrency and wall-clock time; `Hooks.OnDeath` only counts the one respawn it schedules.
- Log text and formatting, `chat.Message` rendering, the `item.ByID` lookup and slot contents (item id, count, NBT): library data and output only; slots are identified by address and containers by slot count.
- Health as a `float32` (main.go:156): floating point that is only logged.
- The package-level globals and the shadowing of `client` at main.go:42: wiring with no behaviour of its own.
- Error trees from `Unwrap() []error` (joined errors): main.go never builds one, and the model's chains are linear.
- The `errors.As` extension point (an error's own `As` method): none of the error types here define one, so matching is by type alone.
- Hooks.OnScreenSlotChange: an out-of-range slot index would make Go panic in two branches; the model requires the index to be in range there instead of modelling that panic.

## Findings

| source | as written | input that shows it | evidently intended | confidence | as-written member | corrected member |
|---|---|---|---|---|---|---|
| main.go:68-71 | a failed join calls `log.Fatal(err)`, and `err` still holds the nil left by the successful authentication | authentication succeeds and `JoinServer` returns any error e: the fatal log line shows `<nil>`, not e | `log.Fatal(login_err)` | high; not executed | Session.RunAsWritten, Session.StaleJoinErrorLogged | Session.Run |
