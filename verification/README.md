# Artela ante-handler router

A Dafny model of the ante-handler router of the Artela node
(`app/ante/ante.go`). `NewAnteHandler(options)` returns the node's single
transaction-admission hook. For each transaction the hook:

1. probes whether the transaction implements the extension-options capability;
2. if it does and its option list is non-empty, switches on the type URL of the
   first option only: the Ethereum URL picks the EVM ante handler, the Web3 URL
   the EIP-712 legacy Cosmos handler, the dynamic-fee URL the ordinary Cosmos
   handler, and any other URL is rejected with `ErrUnknownExtensionOptions`;
3. otherwise falls back to a type switch that sends every non-nil transaction
   to the ordinary Cosmos handler and rejects the nil transaction with
   `ErrUnknownRequest`;
4. applies the chosen handler to the original `(ctx, tx, sim)` and returns its
   result as is, or returns the input context with the router's error.

Everything is in `ante.dfy` (module `Ante`); `wrappers.dfy` holds the `Option`
type. The context and the handler options are type parameters that the router
only passes along. The three handler constructors are function-valued fields of
a `Constructors` record, so every property below holds for every choice of
downstream handlers. `FirstMatch` models the Go string `switch` as a first-match
search over the case table `SwitchCases`. `Registry` is an order-free map from
URL to handler and serves as the reference the switch is checked against.
`DispatchPrebuilt` is a router that holds three handlers built once. It is the
reference that per-call construction is checked against.

Selection (`Select`) takes the transaction alone. It cannot depend on the
context or on the simulate flag, so repeated calls on the same transaction
always pick the same handler.

Two consequences of the code are worth stating on their own:
- The dynamic-fee URL routes to `newCosmosAnteHandler`, the same handler that
  serves a non-nil transaction without extension options.
- `ErrUnknownRequest` is raised only for the nil interface value. The fallback
  type switch is over a value already typed `sdk.Tx`, so `case sdk.Tx` accepts
  every non-nil transaction.

## Model

| member | source | states |
|---|---|---|
| `Ante.FirstExtension` | app/ante/ante.go:20-23 | An option is found exactly when the transaction is non-nil, has the capability and its list is non-empty; the option found is the one at index 0 |
| `Ante.FirstMatch` | app/ante/ante.go:24-39 | The switch falls to `default` exactly when no case constant equals the URL; otherwise it returns the handler of the first case whose constant equals the URL |
| `Ante.Select` | app/ante/ante.go:20-51 | Selection rejects only with `UnknownExtensionOptions` or `UnknownRequest`; a `Reject` never carries `HandlerError` |
| `Ante.SwitchMatchesRegistry` | app/ante/ante.go:24-39 | The three case URLs are distinct, so the ordered switch agrees with the URL-to-handler registry on every URL, and URLs outside it reach `default` |
| `Ante.RoutingDependsOnlyOnFirstTypeUrl` | app/ante/ante.go:22-24 | Two transactions that agree on nil-ness and on the first option's type URL get the same route, whatever their bodies, payloads and later options |
| `Ante.LaterOptionsIgnored` | app/ante/ante.go:22-24 | Options at index 1 or above never change the route |
| `Ante.SelectEVMIff` | app/ante/ante.go:25-27 | The EVM handler is chosen if and only if the first type URL is the Ethereum URL, whatever the payload |
| `Ante.SelectLegacyEip712Iff` | app/ante/ante.go:28-30 | The EIP-712 legacy handler is chosen if and only if the first type URL is the Web3 URL |
| `Ante.SelectCosmosIff` | app/ante/ante.go:31-33 | The Cosmos handler is chosen if and only if the transaction is non-nil and has no first option or the dynamic-fee URL |
| `Ante.EmptyOptionsRouteToCosmos` | app/ante/ante.go:20-23 | A non-nil transaction lacking the capability and one with an empty option list both go to the Cosmos handler |
| `Ante.SelectUnknownExtensionIff` | app/ante/ante.go:34-38 | The rejection `UnknownExtensionOptions(url)` happens if and only if the first type URL is `url` and it is none of the three recognised URLs |
| `Ante.SelectUnknownRequestIff` | app/ante/ante.go:45-51 | `UnknownRequest` is raised if and only if the transaction is nil |
| `Ante.RejectInvokesNoHandler` | app/ante/ante.go:34-38 | On rejection the closure returns the input context and the router's error, and the result does not depend on the constructors or options, so no handler ran |
| `Ante.OnlySelectedHandlerRuns` | app/ante/ante.go:24-41 | Once a handler kind is selected, only that handler matters: two sets of constructors that build the same handler of that kind give the same result, whatever they build for the other kinds |
| `Ante.Build` | app/ante/ante.go:24-48 | The handler built on demand for a kind is exactly the one a router would hold if it built all three handlers once from the same options |
| `Ante.Dispatch` | app/ante/ante.go:15-53 | The closure's result per class of transaction: the Ethereum URL gives `newEVMAnteHandler`'s result, the Web3 URL `newLegacyCosmosAnteHandlerEip712`'s, the dynamic-fee URL and a non-nil transaction without options `newCosmosAnteHandler`'s, each applied to the original `(ctx, tx, sim)` and unwrapped; any other URL and the nil transaction give back the input context with `UnknownExtensionOptions(url)` or `UnknownRequest` |
| `Ante.NewAnteHandler` | app/ante/ante.go:14-55 | The returned closure, which builds its handler on every call, agrees on every input with a router holding the three handlers built once |

## Left out

- The bodies of `newEVMAnteHandler`, `newLegacyCosmosAnteHandlerEip712`,
  `newCosmosAnteHandler` and the fields of `HandlerOptions`. They are not part
  of this model. The constructors are uninterpreted functions of the options.
  A handler may return any error, including the router's two kinds;
  `HandlerError` names the rest, and the router never produces it. So the kind
  of an error does not tell a caller whether the router or a handler raised it.
- The internals of `sdk.Context`. It is a type parameter that is only passed
  through or returned.
- The message text built by `errorsmod.Wrapf`, including the `%T` rendering of
  the transaction. Errors are datatype values; `UnknownExtensionOptions`
  carries the URL.
- Go interface and type-assertion mechanics beyond the capability probe, and
  protobuf `Any` decoding of option payloads. A payload is an opaque byte
  sequence.
- Concurrent invocation of the hook. The router keeps no shared state, so each
  call is modelled as a pure function.
