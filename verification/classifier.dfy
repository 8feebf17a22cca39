/** The decision main.go takes on each value `client.HandleGame()` returns
    (main.go lines 75-91). */
module Classifier {
  import opened Wrappers
  import opened ErrorChain

  /** What the loop does with one `HandleGame` result:
      - `Panic`: the result was nil, which `HandleGame` promises never to
        return, so the program panics;
      - `Exit`: a disconnect reached the loop through a packet handler; the
        reason is logged and `main` returns;
      - `Continue`: some other packet-handler error; it is logged and the
        loop calls `HandleGame` again on the same client;
      - `Fatal`: anything else; `log.Fatal` ends the process. */
  datatype Outcome =
    | Panic
    | Exit(reason: string)
    | Continue(logged: Error)
    | Fatal(err: Error)

  /** The classification exactly as main.go nests it: look for a
      `PacketHandlerError` first, and only beneath that one for a
      `DisconnectErr`. */
  function Classify(res: Option<Error>): (o: Outcome)
    ensures res.None? <==> o.Panic?
    ensures o.Fatal? ==> res == Some(o.err) && As(o.err, HandlerKind).None?
    ensures o.Continue? ==> res.Some? && o.logged.HandlerErr? && As(res.value, HandlerKind) == Some(o.logged)
  {
    match res
    case None => Panic
    case Some(err) =>
      match As(err, HandlerKind)
      case Some(h) =>
        (match As(h, DisconnectKind)
         case Some(d) => Exit(d.reason)
         case None => Continue(h))
      case None => Fatal(err)
  }

  /** Some link of the chain is a packet-handler error. */
  ghost predicate HasHandler(e: Error) {
    exists i :: 0 <= i < Depth(e) && Link(e, i).HandlerErr?
  }

  /** A packet-handler error in the chain wraps, somewhere beneath it, a
      `DisconnectErr` with reason `r`. */
  ghost predicate DisconnectBeneathHandler(e: Error, r: string) {
    exists i, j :: 0 <= i < j < Depth(e) && Link(e, i).HandlerErr? && Link(e, j) == Disconnect(r)
  }

  /** The loop exits cleanly with reason `r` exactly when a packet-handler
      error wraps a `DisconnectErr` with that reason. */
  lemma ClassifyExitIff(e: Error, r: string)
    ensures Classify(Some(e)) == Exit(r) <==> DisconnectBeneathHandler(e, r)
  {
    if Classify(Some(e)) == Exit(r) {
      ExitHasDisconnectBeneath(e, r);
    }
    if DisconnectBeneathHandler(e, r) {
      var i', j :| 0 <= i' < j < Depth(e) && Link(e, i').HandlerErr? && Link(e, j) == Disconnect(r);
      DisconnectAtExits(e, i', j, r);
    }
  }

  lemma ExitHasDisconnectBeneath(e: Error, r: string)
    requires Classify(Some(e)) == Exit(r)
    ensures DisconnectBeneathHandler(e, r)
  {
    var h := As(e, HandlerKind).value;
    var i := FoundAt(e, HandlerKind);
    var k := FoundAt(h, DisconnectKind);
    assert Link(e, i + k) == Link(h, k);
  }

  /** A handler link at `i'` above a `Disconnect(r)` at `j` makes the loop
      exit with `r`: the first handler link is at or before `i'`, and the
      disconnect is the last link of its chain. */
  lemma DisconnectAtExits(e: Error, i': nat, j: nat, r: string)
    requires i' < j < Depth(e) && Link(e, i').HandlerErr? && Link(e, j) == Disconnect(r)
    ensures Classify(Some(e)) == Exit(r)
  {
    AsIsFirstLink(e, HandlerKind);
    var i := FirstIndex(e, HandlerKind);
    if i' < i {
      FirstIndexIsFirst(e, HandlerKind, i');
    }
    var h := Link(e, i);
    LinkSuffix(e, i, j - i);
    DisconnectFound(h, j - i, r);
  }

  /** A `DisconnectErr` anywhere in the chain of `h` is what `errors.As`
      finds there: it is the only link that can be last. */
  lemma DisconnectFound(h: Error, m: nat, r: string)
    requires m < Depth(h) && Link(h, m) == Disconnect(r)
    ensures As(h, DisconnectKind) == Some(Disconnect(r))
  {
    AsIsFirstLink(h, DisconnectKind);
    var k := FirstIndex(h, DisconnectKind);
    if m < k {
      FirstIndexIsFirst(h, DisconnectKind, m);
    }
    DisconnectIsLast(h, k);
  }

  /** The loop ends fatally exactly when no link of the chain is a
      packet-handler error. In particular a bare `DisconnectErr`, not wrapped
      in a handler error, is fatal. */
  lemma ClassifyFatalIff(e: Error)
    ensures Classify(Some(e)).Fatal? <==> !HasHandler(e)
  {
    AsFindsIff(e, HandlerKind);
    if HasHandler(e) {
      var i :| 0 <= i < Depth(e) && Link(e, i).HandlerErr?;
      assert KindOf(Link(e, i)) == HandlerKind;
    }
  }

  /** The loop logs and keeps going exactly when the chain holds a
      packet-handler error but none of them wraps a `DisconnectErr`. */
  lemma ClassifyContinueIff(e: Error)
    ensures Classify(Some(e)).Continue? <==>
      HasHandler(e) && forall r :: !DisconnectBeneathHandler(e, r)
  {
    ClassifyFatalIff(e);
    var o := Classify(Some(e));
    if o.Exit? {
      ClassifyExitIff(e, o.reason);
    }
    forall r | DisconnectBeneathHandler(e, r)
      ensures !o.Continue?
    {
      ClassifyExitIff(e, r);
    }
  }

  /** A nil result never continues and never exits. */
  lemma NilPanics()
    ensures Classify(None) == Panic
  {
  }

  /** A `DisconnectErr` that reaches the loop without a handler error around
      it is fatal, because the disconnect test is nested in the handler test. */
  lemma BareDisconnectIsFatal(r: string)
    ensures Classify(Some(Disconnect(r))) == Fatal(Disconnect(r))
  {
  }
}
