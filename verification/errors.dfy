/** Go error values as they reach the session loop of main.go, and the
    standard library's `errors.As` walk over their wrap chain. */
module ErrorChain {
  import opened Wrappers

  /** One error value. Each constructor is one Go error shape:
      - `Disconnect`: the program's own `DisconnectErr`; it has no `Unwrap`,
        so it always ends a chain;
      - `HandlerErr`: go-mc's `bot.PacketHandlerError`, which records the id
        of the packet whose handler failed and unwraps to that failure;
      - `Wrapped`: any other error with an `Unwrap` (for example one made by
        `fmt.Errorf` with `%w`);
      - `Other`: any error without an `Unwrap` (transport, decoding, ...). */
  datatype Error =
    | Disconnect(reason: string)
    | HandlerErr(packetId: int, inner: Error)
    | Wrapped(msg: string, inner: Error)
    | Other(msg: string)

  /** The dynamic type `errors.As` compares against its target. */
  datatype Kind = DisconnectKind | HandlerKind | WrappedKind | OtherKind

  function KindOf(e: Error): Kind {
    match e
    case Disconnect(_) => DisconnectKind
    case HandlerErr(_, _) => HandlerKind
    case Wrapped(_, _) => WrappedKind
    case Other(_) => OtherKind
  }

  /** True when the error has an `Unwrap` method. */
  predicate Unwraps(e: Error) {
    e.HandlerErr? || e.Wrapped?
  }

  /** How many links `errors.As` visits: the error itself, then each
      `Unwrap()` result in turn, until an error that does not unwrap. */
  function Depth(e: Error): (n: nat)
    ensures n >= 1
    ensures n == 1 <==> !Unwraps(e)
  {
    if Unwraps(e) then 1 + Depth(e.inner) else 1
  }

  /** The link at position `i` of the chain of `e`; position 0 is `e`. */
  function Link(e: Error, i: nat): (l: Error)
    requires i < Depth(e)
    ensures i == 0 ==> l == e
    ensures i + 1 < Depth(e) <==> Unwraps(l)
  {
    if i == 0 then e else Link(e.inner, i - 1)
  }

  /** The chain from position `i` on is the chain of the link at `i`. */
  lemma {:induction false} LinkSuffix(e: Error, i: nat, m: nat)
    requires i < Depth(e)
    ensures Depth(Link(e, i)) == Depth(e) - i
    ensures m < Depth(Link(e, i)) ==> Link(Link(e, i), m) == Link(e, i + m)
  {
    if i > 0 {
      LinkSuffix(e.inner, i - 1, m);
    }
  }

  /** A `DisconnectErr` can only be the last link of a chain. */
  lemma DisconnectIsLast(e: Error, j: nat)
    requires j < Depth(e) && Link(e, j).Disconnect?
    ensures j == Depth(e) - 1
  {
  }

  /** Some link of the chain of `e` has kind `k`. */
  ghost predicate InChain(e: Error, k: Kind) {
    exists i :: 0 <= i < Depth(e) && KindOf(Link(e, i)) == k
  }

  /** The position of the first link of kind `k` in the chain of `e`, or
      `Depth(e)` when no link has that kind. */
  function FirstIndex(e: Error, k: Kind): (i: nat)
    ensures i <= Depth(e)
    ensures i < Depth(e) ==> KindOf(Link(e, i)) == k
  {
    if KindOf(e) == k then 0
    else if Unwraps(e) then 1 + FirstIndex(e.inner, k)
    else 1
  }

  /** No link before the one `FirstIndex` picks has kind `k`. */
  lemma {:induction false} FirstIndexIsFirst(e: Error, k: Kind, j: nat)
    requires j < FirstIndex(e, k)
    ensures KindOf(Link(e, j)) != k
  {
    if j > 0 {
      FirstIndexIsFirst(e.inner, k, j - 1);
    }
  }

  /** `errors.As(e, target)` for a target of kind `k`: checks the error
      itself, then what it unwraps to, and so on. */
  function As(e: Error, k: Kind): (r: Option<Error>)
    ensures r.Some? ==> KindOf(r.value) == k
  {
    if KindOf(e) == k then Some(e)
    else if Unwraps(e) then As(e.inner, k)
    else None
  }

  /** What `errors.As` finds is the first link of the chain whose kind is
      `k`, and it finds nothing when no link has that kind. */
  lemma {:induction false} AsIsFirstLink(e: Error, k: Kind)
    ensures var i := FirstIndex(e, k);
      As(e, k) == if i < Depth(e) then Some(Link(e, i)) else None
  {
    if KindOf(e) != k && Unwraps(e) {
      AsIsFirstLink(e.inner, k);
    }
  }

  /** Where in the chain the match of `errors.As` sits; its own chain is
      the rest of the chain from there. */
  lemma FoundAt(e: Error, k: Kind) returns (i: nat)
    requires As(e, k).Some?
    ensures i < Depth(e) && Link(e, i) == As(e, k).value
    ensures Depth(As(e, k).value) == Depth(e) - i
    ensures forall m :: 0 <= m < Depth(e) - i ==> Link(As(e, k).value, m) == Link(e, i + m)
  {
    AsIsFirstLink(e, k);
    i := FirstIndex(e, k);
    LinkSuffix(e, i, 0);
    forall m | 0 <= m < Depth(e) - i
      ensures Link(As(e, k).value, m) == Link(e, i + m)
    {
      LinkSuffix(e, i, m);
    }
  }

  /** `errors.As` reports a match exactly when some link has the kind. */
  lemma AsFindsIff(e: Error, k: Kind)
    ensures As(e, k).Some? <==> InChain(e, k)
  {
    AsIsFirstLink(e, k);
    var i := FirstIndex(e, k);
    if InChain(e, k) {
      var j :| 0 <= j < Depth(e) && KindOf(Link(e, j)) == k;
      if j < i {
        FirstIndexIsFirst(e, k, j);
      }
    }
  }

  /** The text `DisconnectErr.Error()` builds in front of the reason. */
  const DisconnectPrefix: string := "disconnect: "

  /** `DisconnectErr.Error()`: the prefix followed by the rendered reason. */
  function DisconnectText(reason: string): (m: string)
    ensures |m| == |DisconnectPrefix| + |reason|
    ensures m[..|DisconnectPrefix|] == DisconnectPrefix
    ensures m[|DisconnectPrefix|..] == reason
  {
    DisconnectPrefix + reason
  }

  /** Recovers the reason from a `DisconnectErr` message, or `None` when the
      text does not start with the prefix. */
  function ParseDisconnectText(m: string): (r: Option<string>)
    ensures r.Some? ==> |r.value| <= |m|
  {
    if |DisconnectPrefix| <= |m| && m[..|DisconnectPrefix|] == DisconnectPrefix
    then Some(m[|DisconnectPrefix|..])
    else None
  }

  /** The message of a `DisconnectErr` carries its reason unchanged. */
  lemma DisconnectTextRoundTrip(reason: string)
    ensures ParseDisconnectText(DisconnectText(reason)) == Some(reason)
  {
  }

  /** Every text the parser accepts is the message of exactly one reason. */
  lemma ParseDisconnectTextInverse(m: string)
    ensures ParseDisconnectText(m).Some? ==> DisconnectText(ParseDisconnectText(m).value) == m
  {
    if ParseDisconnectText(m).Some? {
      assert m == m[..|DisconnectPrefix|] + m[|DisconnectPrefix|..];
    }
  }
}
