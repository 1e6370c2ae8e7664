/**
 * The relayer's view of one chain (ICS 18) and the decision that builds a client
 * update message for a destination chain from a source chain's latest header.
 */
module Ics18Relayer {
  import opened Wrappers
  import opened Heights

  /** A client identifier: the client type tag and the counter it was assigned. */
  datatype ClientId = ClientId(clientType: string, counter: nat)

  /** A chain identifier: a name and the revision (version) number. */
  datatype ChainId = ChainId(name: string, version: nat)

  /** The account that signs the messages a chain's relayer sends; compared by equality only. */
  datatype Signer = Signer(account: string)

  /** A client state, seen only through its latest tracked height. */
  datatype ClientState = ClientState(latestHeight: Height)

  /** A header issued by a chain, seen through the chain it comes from and its height. */
  datatype Header = Header(chainId: ChainId, height: Height)

  /**
   * What the relayer can ask of one chain: its latest height, the state of each
   * client it hosts (absent when unknown), its latest header, and its signer.
   */
  datatype RelayerContext = RelayerContext(
    chainId: ChainId,
    latestHeight: Height,
    latestHeader: Option<Header>,
    clients: map<ClientId, ClientState>,
    signer: Signer)

  /** The client state the chain holds for `clientId`, or `None` when it holds none. */
  function QueryClientFullState(ctx: RelayerContext, clientId: ClientId): (r: Option<ClientState>)
    ensures r.Some? <==> clientId in ctx.clients
    ensures r.Some? ==> r.value == ctx.clients[clientId]
  {
    if clientId in ctx.clients then Some(ctx.clients[clientId]) else None
  }

  /** The message asking a chain to advance client `clientId` with `header`. */
  datatype MsgUpdateClient = MsgUpdateClient(clientId: ClientId, header: Header, signer: Signer)

  /** Client messages; only the update message is built by the relayer. */
  datatype ClientMsg = UpdateClient(msg: MsgUpdateClient)

  /** The reasons a client update message is not built. */
  datatype RelayerError =
    | ClientStateNotFound(clientId: ClientId)
    | ClientAlreadyUpToDate(clientId: ClientId, sourceHeight: Height, destinationHeight: Height)
    | ClientAtHigherHeight(clientId: ClientId, sourceHeight: Height, destinationHeight: Height)

  /** The height the destination tracks for `clientId`, when it tracks that client. */
  function TrackedHeight(dest: RelayerContext, clientId: ClientId): Height
    requires clientId in dest.clients
  {
    dest.clients[clientId].latestHeight
  }

  /**
   * Builds the update message for client `clientId` on `dest`, given that the
   * source chain's latest header is `srcHeader`. The message is built exactly when
   * the destination knows the client and tracks it at a height below the header's.
   */
  function BuildClientUpdateDatagram(dest: RelayerContext, clientId: ClientId, srcHeader: Header)
    : (r: Result<ClientMsg, RelayerError>)
    ensures clientId !in dest.clients ==> r == Err(ClientStateNotFound(clientId))
    ensures clientId in dest.clients && srcHeader.height == TrackedHeight(dest, clientId) ==>
      r == Err(ClientAlreadyUpToDate(clientId, srcHeader.height, TrackedHeight(dest, clientId)))
    ensures clientId in dest.clients && Lt(srcHeader.height, TrackedHeight(dest, clientId)) ==>
      r == Err(ClientAtHigherHeight(clientId, srcHeader.height, TrackedHeight(dest, clientId)))
    ensures r.Ok? <==> clientId in dest.clients && Lt(TrackedHeight(dest, clientId), srcHeader.height)
    ensures r.Ok? ==> r.value == UpdateClient(MsgUpdateClient(clientId, srcHeader, dest.signer))
  {
    match QueryClientFullState(dest, clientId)
    case None => Err(ClientStateNotFound(clientId))
    case Some(destClientState) =>
      var destClientLatestHeight := destClientState.latestHeight;
      if srcHeader.height == destClientLatestHeight then
        Err(ClientAlreadyUpToDate(clientId, srcHeader.height, destClientLatestHeight))
      else if Lt(srcHeader.height, destClientLatestHeight) then
        Err(ClientAtHigherHeight(clientId, srcHeader.height, destClientLatestHeight))
      else
        Ok(UpdateClient(MsgUpdateClient(clientId, srcHeader, dest.signer)))
  }

  /**
   * The decision consults nothing of the destination but its client state for
   * `clientId` and, only when it succeeds, its signer: two chains that agree on
   * these give the same answer, whatever their latest height and header.
   */
  lemma BuildReadsOnlyClientStateAndSigner(d1: RelayerContext, d2: RelayerContext, clientId: ClientId, srcHeader: Header)
    requires QueryClientFullState(d1, clientId) == QueryClientFullState(d2, clientId)
    requires d1.signer == d2.signer
    ensures BuildClientUpdateDatagram(d1, clientId, srcHeader) == BuildClientUpdateDatagram(d2, clientId, srcHeader)
  {
  }

  /**
   * When the client is unknown, the outcome depends on the client id alone: neither
   * the header's height nor the signer is consulted.
   */
  lemma NotFoundConsultsNothingElse(d1: RelayerContext, d2: RelayerContext, clientId: ClientId, h1: Header, h2: Header)
    requires clientId !in d1.clients && clientId !in d2.clients
    ensures BuildClientUpdateDatagram(d1, clientId, h1) == BuildClientUpdateDatagram(d2, clientId, h2)
    ensures BuildClientUpdateDatagram(d1, clientId, h1).Err?
  {
  }

  /**
   * The outcomes partition the inputs: for a known client exactly one of
   * already-up-to-date, at-higher-height and success happens, as the three height
   * comparisons do.
   */
  lemma BuildOutcomesPartition(dest: RelayerContext, clientId: ClientId, srcHeader: Header)
    requires clientId in dest.clients
    ensures var r := BuildClientUpdateDatagram(dest, clientId, srcHeader);
      (r.Ok? || (r.Err? && r.error.ClientAlreadyUpToDate?) || (r.Err? && r.error.ClientAtHigherHeight?))
      && (r.Err? && r.error.ClientAlreadyUpToDate? <==> srcHeader.height == TrackedHeight(dest, clientId))
      && (r.Err? && r.error.ClientAtHigherHeight? <==> Lt(srcHeader.height, TrackedHeight(dest, clientId)))
  {
  }

  /** Every error carries the client id it was asked about; the height errors carry both heights. */
  lemma ErrorsCarryTheirData(dest: RelayerContext, clientId: ClientId, srcHeader: Header)
    ensures var r := BuildClientUpdateDatagram(dest, clientId, srcHeader);
      r.Err? ==> (
        && r.error.clientId == clientId
        && (!r.error.ClientStateNotFound? ==>
              && clientId in dest.clients
              && r.error.sourceHeight == srcHeader.height
              && r.error.destinationHeight == TrackedHeight(dest, clientId)))
  {
  }
}
