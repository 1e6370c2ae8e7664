/**
 * A simulated chain as the relayer tests drive it: delivering an update message
 * sets the tracked height of the client to the header's height, and the host then
 * produces its next block. Two such chains exchange updates in a repeated
 * ping-pong cycle.
 */
module MockChain {
  import opened Wrappers
  import opened Heights
  import opened Ics18Relayer

  /** A simulated host always serves as latest header the block at its latest height. */
  predicate HostConsistent(ctx: RelayerContext) {
    ctx.latestHeader == Some(Header(ctx.chainId, ctx.latestHeight))
  }

  /**
   * The client-state transition of a successful update: the client now tracks the
   * header's height. Everything else about the chain is unchanged.
   */
  function ApplyClientUpdate(ctx: RelayerContext, msg: MsgUpdateClient): (r: RelayerContext)
    ensures r.clients.Keys == ctx.clients.Keys + {msg.clientId}
    ensures QueryClientFullState(r, msg.clientId) == Some(ClientState(msg.header.height))
    ensures forall id :: id != msg.clientId ==> QueryClientFullState(r, id) == QueryClientFullState(ctx, id)
    ensures r.chainId == ctx.chainId && r.latestHeight == ctx.latestHeight
    ensures r.latestHeader == ctx.latestHeader && r.signer == ctx.signer
  {
    ctx.(clients := ctx.clients[msg.clientId := ClientState(msg.header.height)])
  }

  /** The host produces its next block: one height further in the same revision. */
  function AdvanceHost(ctx: RelayerContext): (r: RelayerContext)
    ensures HostConsistent(r)
    ensures Lt(ctx.latestHeight, r.latestHeight) && r.latestHeight.revisionNumber == ctx.latestHeight.revisionNumber
    ensures r.latestHeight.revisionHeight == ctx.latestHeight.revisionHeight + 1
    ensures r.clients == ctx.clients && r.chainId == ctx.chainId && r.signer == ctx.signer
  {
    var next := Increment(ctx.latestHeight);
    ctx.(latestHeight := next, latestHeader := Some(Header(ctx.chainId, next)))
  }

  /** Delivering a client message: apply the update, then advance the host by one block. */
  function Deliver(ctx: RelayerContext, msg: ClientMsg): (r: RelayerContext)
    ensures HostConsistent(r)
    ensures r.clients.Keys == ctx.clients.Keys + {msg.msg.clientId}
    ensures TrackedHeight(r, msg.msg.clientId) == msg.msg.header.height
    ensures forall id :: id != msg.msg.clientId ==> QueryClientFullState(r, id) == QueryClientFullState(ctx, id)
    ensures r.latestHeight == Increment(ctx.latestHeight)
    ensures r.chainId == ctx.chainId && r.signer == ctx.signer
  {
    AdvanceHost(ApplyClientUpdate(ctx, msg.msg))
  }

  /**
   * Idempotence guard: once a built update has been applied, building again from
   * the same header reports that the client is already up to date, carrying the
   * header's height as both the source and the destination height.
   */
  lemma RebuildAfterUpdateIsUpToDate(dest: RelayerContext, clientId: ClientId, srcHeader: Header)
    requires BuildClientUpdateDatagram(dest, clientId, srcHeader).Ok?
    ensures var updated := Deliver(dest, BuildClientUpdateDatagram(dest, clientId, srcHeader).value);
      BuildClientUpdateDatagram(updated, clientId, srcHeader)
        == Err(ClientAlreadyUpToDate(clientId, srcHeader.height, srcHeader.height))
  {
  }

  /**
   * Monotonicity: an update that is built and applied strictly raises the tracked
   * height of its client, to the header's height.
   */
  lemma UpdateRaisesTrackedHeight(dest: RelayerContext, clientId: ClientId, srcHeader: Header)
    requires BuildClientUpdateDatagram(dest, clientId, srcHeader).Ok?
    ensures var updated := Deliver(dest, BuildClientUpdateDatagram(dest, clientId, srcHeader).value);
      clientId in dest.clients && clientId in updated.clients
      && Lt(TrackedHeight(dest, clientId), TrackedHeight(updated, clientId))
      && TrackedHeight(updated, clientId) == srcHeader.height
  {
  }

  /**
   * A header that is not above the tracked height is refused, so a stale or
   * repeated header can never lower the tracked height.
   */
  lemma StaleHeaderIsRefused(dest: RelayerContext, clientId: ClientId, srcHeader: Header)
    requires clientId in dest.clients
    requires Le(srcHeader.height, TrackedHeight(dest, clientId))
    ensures BuildClientUpdateDatagram(dest, clientId, srcHeader).Err?
  {
  }

  /**
   * The ping-pong cycle between chains A and B: in each iteration B's client for A
   * is updated with A's latest header, then A's client for B with B's latest
   * header, each update delivered to its chain. When B tracks A below A's height
   * and A tracks B at most at B's height, every build succeeds and, after each
   * exchange, the updated chain tracks its counterpart at the counterpart's latest height.
   */
  method ClientUpdatePingPong(
    ctxA: RelayerContext, ctxB: RelayerContext,
    clientOnAForB: ClientId, clientOnBForA: ClientId,
    numIterations: nat)
    returns (a: RelayerContext, b: RelayerContext)
    requires HostConsistent(ctxA) && HostConsistent(ctxB)
    requires clientOnAForB in ctxA.clients && clientOnBForA in ctxB.clients
    requires Lt(TrackedHeight(ctxB, clientOnBForA), ctxA.latestHeight)
    requires Le(TrackedHeight(ctxA, clientOnAForB), ctxB.latestHeight)
    ensures HostConsistent(a) && HostConsistent(b)
    ensures a.clients.Keys == ctxA.clients.Keys && b.clients.Keys == ctxB.clients.Keys
    ensures a.latestHeight == Height(ctxA.latestHeight.revisionNumber, ctxA.latestHeight.revisionHeight + numIterations)
    ensures b.latestHeight == Height(ctxB.latestHeight.revisionNumber, ctxB.latestHeight.revisionHeight + numIterations)
    ensures numIterations > 0 ==> TrackedHeight(a, clientOnAForB) == b.latestHeight
    ensures numIterations > 0 ==> Increment(TrackedHeight(b, clientOnBForA)) == a.latestHeight
    ensures a.chainId == ctxA.chainId && a.signer == ctxA.signer
    ensures b.chainId == ctxB.chainId && b.signer == ctxB.signer
    ensures forall id :: id != clientOnAForB ==> QueryClientFullState(a, id) == QueryClientFullState(ctxA, id)
    ensures forall id :: id != clientOnBForA ==> QueryClientFullState(b, id) == QueryClientFullState(ctxB, id)
  {
    a, b := ctxA, ctxB;
    var i := 0;
    while i < numIterations
      invariant 0 <= i <= numIterations
      invariant HostConsistent(a) && HostConsistent(b)
      invariant a.clients.Keys == ctxA.clients.Keys && b.clients.Keys == ctxB.clients.Keys
      invariant a.latestHeight == Height(ctxA.latestHeight.revisionNumber, ctxA.latestHeight.revisionHeight + i)
      invariant b.latestHeight == Height(ctxB.latestHeight.revisionNumber, ctxB.latestHeight.revisionHeight + i)
      invariant Lt(TrackedHeight(b, clientOnBForA), a.latestHeight)
      invariant Le(TrackedHeight(a, clientOnAForB), b.latestHeight)
      invariant i > 0 ==> TrackedHeight(a, clientOnAForB) == b.latestHeight
      invariant i > 0 ==> Increment(TrackedHeight(b, clientOnBForA)) == a.latestHeight
      invariant a.chainId == ctxA.chainId && a.signer == ctxA.signer
      invariant b.chainId == ctxB.chainId && b.signer == ctxB.signer
      invariant forall id :: id != clientOnAForB ==> QueryClientFullState(a, id) == QueryClientFullState(ctxA, id)
      invariant forall id :: id != clientOnBForA ==> QueryClientFullState(b, id) == QueryClientFullState(ctxB, id)
    {
      // Update the client on B to the latest height of A.
      var aLatestHeader := a.latestHeader.value;
      var clientMsgB := BuildClientUpdateDatagram(b, clientOnBForA, aLatestHeader);
      assert clientMsgB.Ok?;
      b := Deliver(b, clientMsgB.value);
      assert TrackedHeight(b, clientOnBForA) == a.latestHeight;

      // Update the client on A to the latest height of B.
      var bLatestHeader := b.latestHeader.value;
      var clientMsgA := BuildClientUpdateDatagram(a, clientOnAForB, bLatestHeader);
      assert clientMsgA.Ok?;
      a := Deliver(a, clientMsgA.value);
      assert TrackedHeight(a, clientOnAForB) == b.latestHeight;

      i := i + 1;
    }
  }

  /** The client type tag of Tendermint clients. */
  const TendermintClientType := "07-tendermint"

  /** The client type tag of mock clients. */
  const MockClientType := "9999-mock"

  /**
   * The concrete scenario: chain A starts at (1, 11) and chain B at (1, 20); B's
   * client for A tracks (1, 10) and A's client for B tracks (1, 20). Four
   * iterations all succeed and leave each chain tracking the other's latest height
   * as of its last update.
   */
  method PingPongScenario() returns (a: RelayerContext, b: RelayerContext)
    ensures a.latestHeight == Height(1, 15) && b.latestHeight == Height(1, 24)
    ensures QueryClientFullState(a, ClientId(TendermintClientType, 0)) == Some(ClientState(Height(1, 24)))
    ensures QueryClientFullState(b, ClientId(MockClientType, 0)) == Some(ClientState(Height(1, 14)))
  {
    var chainAStartHeight := Height(1, 11);
    var chainBStartHeight := Height(1, 20);
    var clientOnBForAHeight := Height(1, 10);
    var clientOnAForBHeight := Height(1, 20);
    var numIterations := 4;

    var clientOnAForB := ClientId(TendermintClientType, 0);
    var clientOnBForA := ClientId(MockClientType, 0);

    var chainIdA := ChainId("mockgaiaA", 1);
    var chainIdB := ChainId("mockgaiaB", 1);
    var signer := Signer("relayer");

    var ctxA := RelayerContext(chainIdA, chainAStartHeight, Some(Header(chainIdA, chainAStartHeight)),
                               map[clientOnAForB := ClientState(clientOnAForBHeight)], signer);
    var ctxB := RelayerContext(chainIdB, chainBStartHeight, Some(Header(chainIdB, chainBStartHeight)),
                               map[clientOnBForA := ClientState(clientOnBForAHeight)], signer);

    a, b := ClientUpdatePingPong(ctxA, ctxB, clientOnAForB, clientOnBForA, numIterations);
  }
}
