/** The event hooks main.go registers with go-mc (main.go lines 45-65 and
    95-172), and what each one hands back to the library. */
module Hooks {
  import opened Wrappers
  import opened ErrorChain
  import opened Classifier
  import opened ScreenRouting

  /** The chat line `onGameStart` sends. */
  const Greeting: string := "Hello, world"

  /** What one hook call does that the rest of the program can see:
      chat messages handed to `SendMessage` (`attempted`, recorded whether
      or not the send succeeded), respawns scheduled, the slot it reported on, and
      the error it returns (`None` is Go's nil). Log lines are not part of
      the model. */
  datatype Effect = Effect(
    attempted: seq<string>,
    respawns: nat,
    observed: Option<SlotTarget>,
    result: Option<Error>)

  /** A hook that only logs. */
  const Quiet: Effect := Effect([], 0, None, None)

  /** `onDeath`: schedules one delayed respawn in the background and returns
      nil at once, without waiting for it. */
  function OnDeath(): (e: Effect)
    ensures e.result.None? && e.respawns == 1 && e.attempted == [] && e.observed.None?
  {
    Effect([], 1, None, None)
  }

  /** `onGameStart`: sends the greeting; `sendResult` is what sending
      returned. The send error is returned unchanged. */
  function OnGameStart(sendResult: Option<Error>): (e: Effect)
    ensures e.attempted == [Greeting] && e.respawns == 0 && e.observed.None?
    ensures e.result.None? <==> sendResult.None?
    ensures sendResult.Some? ==> e.result == sendResult
  {
    match sendResult
    case Some(err) => Effect([Greeting], 0, None, Some(err))
    case None => Effect([Greeting], 0, None, None)
  }

  /** `onDisconnect`: builds a `DisconnectErr` carrying the reason, so that
      the session loop can stop. */
  function OnDisconnect(reason: string): (err: Error)
    ensures As(err, DisconnectKind) == Some(Disconnect(reason))
    ensures err.Disconnect? && DisconnectText(err.reason) == DisconnectPrefix + reason
    ensures !Unwraps(err)
  {
    Disconnect(reason)
  }

  /** `onPlayerMsg`: logs the chat message and returns nil. */
  function OnPlayerMsg(text: string): (e: Effect)
    ensures e.result.None? && e.attempted == [] && e.respawns == 0 && e.observed.None?
  {
    Quiet
  }

  /** `onSystemMsg`: logs the message and its overlay flag and returns nil. */
  function OnSystemMsg(text: string, overlay: bool): (e: Effect)
    ensures e.result.None? && e.attempted == [] && e.respawns == 0 && e.observed.None?
  {
    Quiet
  }

  /** `onChunkLoad`: logs the position and returns nil; the program keeps
      no chunk set of its own. */
  function OnChunkLoad(x: int, z: int): (e: Effect)
    ensures e.result.None? && e.attempted == [] && e.respawns == 0 && e.observed.None?
  {
    Quiet
  }

  /** `onChunkUnload`: logs the position and returns nil. */
  function OnChunkUnload(x: int, z: int): (e: Effect)
    ensures e.result.None? && e.attempted == [] && e.respawns == 0 && e.observed.None?
  {
    Quiet
  }

  /** `onHealthChange`: logs the new health and returns nil. */
  function OnHealthChange(): (e: Effect)
    ensures e.result.None? && e.attempted == [] && e.respawns == 0 && e.observed.None?
  {
    Quiet
  }

  /** `onScreenSlotChange`: looks at the slot the change routes to, for
      logging, and returns nil without changing anything. */
  function OnScreenSlotChange(s: Screens, id: int, index: int): (e: Effect)
    requires IndexInRange(s, id, index)
    ensures e.result.None? && e.attempted == [] && e.respawns == 0
    ensures e.observed.Some?
    ensures id == InventoryId ==> e.observed == Some(Inventory(index))
    ensures id == CursorId && index == CursorIndex ==> e.observed == Some(Cursor)
    ensures id != InventoryId && !(id == CursorId && index == CursorIndex) && IsInventoryScreen(s, id)
      ==> e.observed == Some(ScreenSlot(id, index))
    ensures e.observed.value.Ignored? <==> id != InventoryId && !(id == CursorId && index == CursorIndex) && !IsInventoryScreen(s, id)
  {
    Effect([], 0, Some(Route(s, id, index)), None)
  }

  /** One decoded event, named after the hook it reaches. Health is a
      `float32` that is only logged, so it carries no value here; chunk
      positions are only logged, so they carry their coordinates and nothing
      else. `ScreenOpen` and `ScreenClose` have nil hooks. */
  datatype Event =
    | GameStart(sendResult: Option<Error>)
    | PlayerChat(text: string)
    | SystemChat(text: string, overlay: bool)
    | Disconnected(reason: string)
    | HealthChange
    | Death
    | ChunkLoad(x: int, z: int)
    | ChunkUnload(x: int, z: int)
    | SetSlot(id: int, index: int)
    | ScreenOpen
    | ScreenClose

  /** An event the hooks can be given: a slot change must index in range. */
  predicate Dispatchable(s: Screens, ev: Event) {
    ev.SetSlot? ==> IndexInRange(s, ev.id, ev.index)
  }

  /** The hook each event reaches, with the listeners main.go registers. */
  function Dispatch(s: Screens, ev: Event): (e: Effect)
    requires Dispatchable(s, ev)
    ensures e.respawns == (if ev.Death? then 1 else 0)
    ensures e.attempted == (if ev.GameStart? then [Greeting] else [])
    ensures e.observed.Some? <==> ev.SetSlot?
  {
    match ev
    case GameStart(r) => OnGameStart(r)
    case Disconnected(reason) => Effect([], 0, None, Some(OnDisconnect(reason)))
    case Death => OnDeath()
    case SetSlot(id, index) => OnScreenSlotChange(s, id, index)
    case PlayerChat(text) => OnPlayerMsg(text)
    case SystemChat(text, overlay) => OnSystemMsg(text, overlay)
    case ChunkLoad(x, z) => OnChunkLoad(x, z)
    case ChunkUnload(x, z) => OnChunkUnload(x, z)
    case HealthChange => OnHealthChange()
    case ScreenOpen => Quiet
    case ScreenClose => Quiet
  }

  /** Only two hooks ever return an error: `onDisconnect` always, and
      `onGameStart` exactly when sending the greeting failed. Every other
      hook, and the nil ones, return nil. */
  lemma DispatchErrorIff(s: Screens, ev: Event)
    requires Dispatchable(s, ev)
    ensures Dispatch(s, ev).result.Some? <==>
      ev.Disconnected? || (ev.GameStart? && ev.sendResult.Some?)
    ensures ev.Disconnected? ==> Dispatch(s, ev).result == Some(Disconnect(ev.reason))
    ensures ev.GameStart? ==> Dispatch(s, ev).result == ev.sendResult
  {
  }

  /** go-mc hands a hook's error back from `HandleGame` wrapped in a
      `PacketHandlerError` for the packet being handled, possibly with more
      wrapping around it. A disconnect reported that way ends the session
      cleanly with the reason `onDisconnect` was given. */
  lemma DisconnectHookEndsSession(reason: string, packetId: int, outer: seq<string>)
    ensures Classify(Some(WrapAll(outer, HandlerErr(packetId, OnDisconnect(reason))))) == Exit(reason)
  {
    var x := HandlerErr(packetId, OnDisconnect(reason));
    var e := WrapAll(outer, x);
    WrapAllLinks(outer, x, 0);
    WrapAllLinks(outer, x, 1);
    DisconnectAtExits(e, |outer|, |outer| + 1, reason);
  }

  /** `inner` with one `Wrapped` layer around it per message, outermost
      first. */
  function WrapAll(outer: seq<string>, inner: Error): Error {
    if |outer| == 0 then inner else Wrapped(outer[0], WrapAll(outer[1..], inner))
  }

  /** The chain of a wrapped error runs through one link per wrapper and
      then through the chain of the wrapped error. */
  lemma {:induction false} WrapAllLinks(outer: seq<string>, inner: Error, m: nat)
    requires m < Depth(inner)
    ensures Depth(WrapAll(outer, inner)) == |outer| + Depth(inner)
    ensures Link(WrapAll(outer, inner), |outer| + m) == Link(inner, m)
  {
    if |outer| > 0 {
      WrapAllLinks(outer[1..], inner, m);
    }
  }

  /** A failed greeting that carries no disconnect is logged, and the loop
      keeps the session going. */
  lemma SendFailureKeepsSession(sendErr: Error, packetId: int)
    requires !InChain(sendErr, DisconnectKind)
    ensures var e := HandlerErr(packetId, OnGameStart(Some(sendErr)).result.value);
      Classify(Some(e)) == Continue(e)
  {
    var e := HandlerErr(packetId, sendErr);
    AsFindsIff(sendErr, DisconnectKind);
  }
}
