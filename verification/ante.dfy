/**
  The ante-handler router of app/ante/ante.go.

  `NewAnteHandler(options)` returns a closure that, for every incoming
  transaction, (1) probes whether the transaction carries extension options,
  (2) if it carries at least one, switches on the type URL of the FIRST option
  only, (3) otherwise falls back to a type switch that accepts every non-nil
  transaction, and then forwards `(ctx, tx, sim)` to exactly one downstream
  ante handler, or rejects the transaction before any handler runs.

  The context type `C` and the options type `O` are opaque type parameters:
  the router only passes them through. The three handler constructors are
  uninterpreted functions of the options, supplied as a `Constructors` record.
*/
module Ante {

  import opened Wrappers

  // ---------------------------------------------------------------------------
  // Data model
  // ---------------------------------------------------------------------------

  /** Type URLs the router recognises in the first extension option. */
  const EthereumTxUrl: string := "/artela.evm.v1.ExtensionOptionsEthereumTx"
  const Web3TxUrl: string := "/artela.types.v1.ExtensionOptionsWeb3Tx"
  const DynamicFeeTxUrl: string := "/artela.types.v1.ExtensionOptionDynamicFeeTx"

  /** One extension option: a protobuf `Any`, i.e. a type URL and an encoded
      payload the router never decodes. */
  datatype ExtensionOption = ExtensionOption(typeUrl: string, value: seq<bv8>)

  /** A transaction as the router sees it. `Nil` is the nil interface value.
      A non-nil transaction has an opaque body; `extensions` is `None` when the
      transaction does not implement the extension-options capability, and
      `Some(opts)` (possibly empty) when it does. */
  datatype Tx =
    | Nil
    | Tx(body: seq<bv8>, extensions: Option<seq<ExtensionOption>>)

  /** The three downstream ante handlers the router can pick. */
  datatype HandlerKind = EVM | LegacyEip712 | Cosmos

  /** Errors. The first two are the kinds the router itself raises. A
      downstream handler may return any error, including those two kinds;
      `HandlerError` names the rest, and the router never produces it. */
  datatype AnteError =
    | UnknownExtensionOptions(typeUrl: string)
    | UnknownRequest
    | HandlerError(reason: string)

  /** The router's decision: forward to one handler, or reject up front. */
  datatype Route = Route(kind: HandlerKind) | Reject(err: AnteError)

  /** An ante handler: `(ctx, tx, sim) -> (newCtx, err)`, `None` meaning nil. */
  type Handler<!C> = (C, Tx, bool) -> (C, Option<AnteError>)

  /** The handler constructors newEVMAnteHandler,
      newLegacyCosmosAnteHandlerEip712 and newCosmosAnteHandler, whose bodies
      are not part of this model. */
  datatype Constructors<!O, !C> = Constructors(
    newEVM: O -> Handler<C>,
    newLegacyEip712: O -> Handler<C>,
    newCosmos: O -> Handler<C>)

  // ---------------------------------------------------------------------------
  // Extension inspection
  // ---------------------------------------------------------------------------

  /** The capability probe followed by `opts[0]`: the first extension option,
      if the transaction implements the capability and its list is non-empty.
      A nil transaction implements no interface. */
  function FirstExtension(tx: Tx): (r: Option<ExtensionOption>)
    ensures r.Some? <==> tx.Tx? && tx.extensions.Some? && |tx.extensions.value| > 0
    ensures r.Some? ==> r.value == tx.extensions.value[0]
  {
    match tx
    case Nil => None
    case Tx(_, ext) =>
      match ext
      case None => None
      case Some(opts) => if |opts| > 0 then Some(opts[0]) else None
  }

  /** The type URL of the first extension option, if any. */
  function FirstTypeUrl(tx: Tx): Option<string>
  {
    match FirstExtension(tx)
    case None => None
    case Some(opt) => Some(opt.typeUrl)
  }

  // ---------------------------------------------------------------------------
  // The type-URL switch
  // ---------------------------------------------------------------------------

  /** The cases of the switch on the first option's type URL, in source order. */
  const SwitchCases: seq<(string, HandlerKind)> :=
    [(EthereumTxUrl, EVM), (Web3TxUrl, LegacyEip712), (DynamicFeeTxUrl, Cosmos)]

  /** A Go `switch` on a string: the cases are tried from the top and the first
      case whose constant equals `url` wins; `None` is the `default` branch. */
  function FirstMatch(cases: seq<(string, HandlerKind)>, url: string): (r: Option<HandlerKind>)
    ensures r.None? <==> forall i :: 0 <= i < |cases| ==> cases[i].0 != url
    ensures r.Some? ==>
      exists i :: 0 <= i < |cases| && cases[i] == (url, r.value) &&
        forall j :: 0 <= j < i ==> cases[j].0 != url
  {
    if cases == [] then None
    else if cases[0].0 == url then Some(cases[0].1)
    else FirstMatch(cases[1..], url)
  }

  // ---------------------------------------------------------------------------
  // Selection
  // ---------------------------------------------------------------------------

  /** Which handler the closure picks for `tx`, or the error it returns before
      invoking any handler. Reads neither the context nor the simulate flag. */
  function Select(tx: Tx): (r: Route)
    // selection rejects only with its own two kinds; a `Reject` never carries `HandlerError`
    ensures r.Reject? ==> r.err.UnknownExtensionOptions? || r.err.UnknownRequest?
  {
    match FirstExtension(tx)
    case Some(opt) =>
      (match FirstMatch(SwitchCases, opt.typeUrl)
       case Some(kind) => Route(kind)
       case None => Reject(UnknownExtensionOptions(opt.typeUrl)))
    case None =>
      // the fallback `switch tx.(type)`: only the nil interface misses `case sdk.Tx`
      if tx.Nil? then Reject(UnknownRequest) else Route(Cosmos)
  }

  // ---------------------------------------------------------------------------
  // Properties of the switch
  // ---------------------------------------------------------------------------

  /** The handler registry, keyed by type URL: an order-free reference for
      the switch. */
  const Registry: map<string, HandlerKind> :=
    map[EthereumTxUrl := EVM, Web3TxUrl := LegacyEip712, DynamicFeeTxUrl := Cosmos]

  /** The switch and the registry agree on every URL: the three case
      constants are distinct, so the order of the cases does not matter and
      any URL outside the registry falls through to `default`. */
  lemma {:induction false} SwitchMatchesRegistry(url: string)
    ensures FirstMatch(SwitchCases, url) == (if url in Registry then Some(Registry[url]) else None)
  {
    var tail1 := SwitchCases[1..];
    var tail2 := tail1[1..];
    assert tail2[1..] == [];
    if url == EthereumTxUrl {
    } else if url == Web3TxUrl {
      assert FirstMatch(SwitchCases, url) == FirstMatch(tail1, url);
    } else if url == DynamicFeeTxUrl {
      assert FirstMatch(SwitchCases, url) == FirstMatch(tail1, url) == FirstMatch(tail2, url);
    } else {
      assert FirstMatch(SwitchCases, url) == FirstMatch(tail1, url) == FirstMatch(tail2, url)
        == FirstMatch(tail2[1..], url) == None;
    }
  }

  // ---------------------------------------------------------------------------
  // Properties of the selection
  // ---------------------------------------------------------------------------

  /** Only the first option's type URL (and whether the transaction is nil)
      decides the route: the body, the option's payload and every option at
      index 1 or above are never consulted. */
  lemma RoutingDependsOnlyOnFirstTypeUrl(tx1: Tx, tx2: Tx)
    requires tx1.Nil? == tx2.Nil?
    requires FirstTypeUrl(tx1) == FirstTypeUrl(tx2)
    ensures Select(tx1) == Select(tx2)
  {
  }

  /** Appending options after the first one never changes the route. */
  lemma LaterOptionsIgnored(body: seq<bv8>, first: ExtensionOption, rest: seq<ExtensionOption>)
    ensures Select(Tx(body, Some([first] + rest))) == Select(Tx(body, Some([first])))
  {
    RoutingDependsOnlyOnFirstTypeUrl(Tx(body, Some([first] + rest)), Tx(body, Some([first])));
  }

  /** The Ethereum URL selects the EVM handler, whatever the payload, and is
      the only way to reach it. */
  lemma SelectEVMIff(tx: Tx)
    ensures Select(tx) == Route(EVM) <==> FirstTypeUrl(tx) == Some(EthereumTxUrl)
  {
    if FirstTypeUrl(tx).Some? {
      SwitchMatchesRegistry(FirstTypeUrl(tx).value);
    }
  }

  /** The Web3 URL selects the EIP-712 legacy Cosmos handler, and is the only
      way to reach it. */
  lemma SelectLegacyEip712Iff(tx: Tx)
    ensures Select(tx) == Route(LegacyEip712) <==> FirstTypeUrl(tx) == Some(Web3TxUrl)
  {
    if FirstTypeUrl(tx).Some? {
      SwitchMatchesRegistry(FirstTypeUrl(tx).value);
    }
  }

  /** The default Cosmos handler serves exactly the non-nil transactions that
      either have no first option (no capability, or an empty list) or whose
      first option is the dynamic-fee URL. */
  lemma SelectCosmosIff(tx: Tx)
    ensures Select(tx) == Route(Cosmos) <==>
      tx.Tx? && (FirstTypeUrl(tx) == None || FirstTypeUrl(tx) == Some(DynamicFeeTxUrl))
  {
    if FirstTypeUrl(tx).Some? {
      SwitchMatchesRegistry(FirstTypeUrl(tx).value);
    }
  }

  /** A transaction that lacks the capability and one whose option list is
      empty are routed alike, to the default Cosmos handler. */
  lemma EmptyOptionsRouteToCosmos(body: seq<bv8>)
    ensures Select(Tx(body, None)) == Route(Cosmos)
    ensures Select(Tx(body, Some([]))) == Route(Cosmos)
  {
  }

  /** Any other first type URL is rejected with that URL, and only such URLs
      are. */
  lemma SelectUnknownExtensionIff(tx: Tx, url: string)
    ensures Select(tx) == Reject(UnknownExtensionOptions(url)) <==>
      FirstTypeUrl(tx) == Some(url) && url != EthereumTxUrl && url != Web3TxUrl && url != DynamicFeeTxUrl
  {
    if FirstTypeUrl(tx).Some? {
      SwitchMatchesRegistry(FirstTypeUrl(tx).value);
    }
  }

  /** `ErrUnknownRequest` is raised for the nil transaction and for nothing
      else. */
  lemma SelectUnknownRequestIff(tx: Tx)
    ensures Select(tx) == Reject(UnknownRequest) <==> tx == Nil
  {
  }

  // ---------------------------------------------------------------------------
  // Construction and dispatch
  // ---------------------------------------------------------------------------

  /** The three handlers built once, up front, from the options: the
      reference against which per-call construction is checked. */
  datatype Handlers<!C> = Handlers(evm: Handler<C>, legacyEip712: Handler<C>, cosmos: Handler<C>)
  {
    /** The prebuilt handler of the given kind. */
    function For(kind: HandlerKind): Handler<C>
    {
      match kind
      case EVM => evm
      case LegacyEip712 => legacyEip712
      case Cosmos => cosmos
    }
  }

  function BuildAll<O, C>(ctors: Constructors<O, C>, options: O): Handlers<C>
  {
    Handlers(ctors.newEVM(options), ctors.newLegacyEip712(options), ctors.newCosmos(options))
  }

  /** A router that holds prebuilt handlers instead of building one per call. */
  function DispatchPrebuilt<C>(handlers: Handlers<C>, ctx: C, tx: Tx, sim: bool): (C, Option<AnteError>)
  {
    match Select(tx)
    case Reject(err) => (ctx, Some(err))
    case Route(kind) => handlers.For(kind)(ctx, tx, sim)
  }

  /** Builds the handler of the given kind from the options, as the closure
      does anew on every call; construction is a pure function of the
      options, so the result is the handler built up front for that kind. */
  function Build<O, C>(ctors: Constructors<O, C>, options: O, kind: HandlerKind): (h: Handler<C>)
    ensures h == BuildAll(ctors, options).For(kind)
  {
    match kind
    case EVM => ctors.newEVM(options)
    case LegacyEip712 => ctors.newLegacyEip712(options)
    case Cosmos => ctors.newCosmos(options)
  }

  /** The body of the closure: select, then either reject with the input
      context or apply the selected handler to the original arguments and
      return its result unwrapped. */
  function Dispatch<O, C>(ctors: Constructors<O, C>, options: O, ctx: C, tx: Tx, sim: bool)
    : (r: (C, Option<AnteError>))
    ensures FirstTypeUrl(tx) == Some(EthereumTxUrl) ==> r == ctors.newEVM(options)(ctx, tx, sim)
    ensures FirstTypeUrl(tx) == Some(Web3TxUrl) ==> r == ctors.newLegacyEip712(options)(ctx, tx, sim)
    ensures FirstTypeUrl(tx) == Some(DynamicFeeTxUrl) ==> r == ctors.newCosmos(options)(ctx, tx, sim)
    ensures tx.Tx? && FirstTypeUrl(tx) == None ==> r == ctors.newCosmos(options)(ctx, tx, sim)
    ensures forall url :: FirstTypeUrl(tx) == Some(url) && url !in Registry ==>
      r == (ctx, Some(UnknownExtensionOptions(url)))
    ensures tx == Nil ==> r == (ctx, Some(UnknownRequest))
  {
    SelectEVMIff(tx);
    SelectLegacyEip712Iff(tx);
    SelectCosmosIff(tx);
    var url := if FirstTypeUrl(tx).Some? then FirstTypeUrl(tx).value else "";
    SelectUnknownExtensionIff(tx, url);
    match Select(tx)
    case Reject(err) => (ctx, Some(err))
    case Route(kind) => Build(ctors, options, kind)(ctx, tx, sim)
  }

  /** `NewAnteHandler(options)`: the closure itself. Building the handler on
      every call is observationally the same as building the three handlers
      once. */
  function NewAnteHandler<O, C(!new)>(ctors: Constructors<O, C>, options: O): (h: Handler<C>)
    ensures forall ctx, tx, sim :: h(ctx, tx, sim) == DispatchPrebuilt(BuildAll(ctors, options), ctx, tx, sim)
  {
    (ctx: C, tx: Tx, sim: bool) => Dispatch(ctors, options, ctx, tx, sim)
  }

  // ---------------------------------------------------------------------------
  // Properties of the dispatch
  // ---------------------------------------------------------------------------

  /** A rejected transaction gets back the input context and the router's
      error, and no handler is invoked: the result is the same whatever the
      constructors and options are. */
  lemma RejectInvokesNoHandler<O, C>(
    ctors1: Constructors<O, C>, options1: O, ctors2: Constructors<O, C>, options2: O,
    ctx: C, tx: Tx, sim: bool)
    requires Select(tx).Reject?
    ensures Dispatch(ctors1, options1, ctx, tx, sim) == (ctx, Some(Select(tx).err))
    ensures Dispatch(ctors1, options1, ctx, tx, sim) == Dispatch(ctors2, options2, ctx, tx, sim)
  {
  }

  /** Only the selected handler runs: two routers whose constructors build
      the same handler of the selected kind give the same result, whatever
      they build for the other kinds. */
  lemma OnlySelectedHandlerRuns<O, C>(
    ctors1: Constructors<O, C>, options1: O, ctors2: Constructors<O, C>, options2: O,
    ctx: C, tx: Tx, sim: bool, kind: HandlerKind)
    requires Select(tx) == Route(kind)
    requires Build(ctors1, options1, kind) == Build(ctors2, options2, kind)
    ensures Dispatch(ctors1, options1, ctx, tx, sim) == Dispatch(ctors2, options2, ctx, tx, sim)
  {
  }
}
