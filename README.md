# GeoShapes front-end core, in Dafny

GeoShapes is a single-page NFT front-end: a user connects a wallet, sees the
tokens they own and the mint progress, and mints a token for 0.0001 MON. The
page draws each token's artwork from its id. The id picks a shape name and two
colours from fixed eight-entry tables. It also sets the size of the centred
shape.

This project models the logic in `src/App.tsx`, in four modules:

- `Wrappers` (`wrappers.dfy`): `Option`, standing for TypeScript values that may be `undefined` or `null`.
- `Geometry` (`geometry.dfy`): `getGeometry` over exact natural-number ids, with the two tables as constants.
- `Artwork` (`artwork.dfy`): the integer and dispatch part of `getImage`. This covers the canvas side, the shape size `200 + id % 150`, the templates drawn for a shape name, and the paint.
- `Controller` (`controller.dfy`): the page component. It holds:
  - the mint-control rendering rule;
  - the mint handler;
  - the effects for a token-read error, a mint transaction and the token selection;
  - class `App`, whose fields are the component's state and the hook values it reads.

  Each method of `App` updates fields in place, as the component's `setState` calls do. Its `ensures` ties the new `View()` to a pure step function of the old one (`HandleMintStep`, `TransactionStep`, `SelectionStep`). The properties are lemmas about those step functions. `Valid()` says that the display (shape name, colours, artwork) is either empty or shows one non-zero token. Every method preserves it.

Wallet and ledger calls are not modelled. Hook results (`isConnected`,
`isMintPending`, the owned-token list, the total supply) are fields that
`App.ObserveHooks` sets. The outcomes of `switchChain` and `writeContract` are
parameters of `App.HandleMint`. Each outcome either resolves or throws, and a
thrown value is either an `Error` object with its message or some other value.
The handler awaits `switchChain`, so its failures reach the handler. The mint
write is not awaited: its outcome stands only for a synchronous throw when the
write call is made. A write that fails later is not shown (see "## Left out").

The component keeps loading, minting and error in one record, `appState`. The
model keeps that record as the datatype `AppState`. It does not split it into
separate fields.

A selected token id of `0` is falsy in the source. `SelectionStep` states this
directly: selecting token 0 counts as selecting nothing. The selection
effect then re-selects the first owned token and leaves the display as it was.

Determinism of the geometry and of the artwork holds by construction, since both are Dafny functions.

## Model

| member | source | states |
|---|---|---|
| `Geometry.GetGeometry` | src/App.tsx:72-84 | The primary and secondary colours of every token differ. The table lookups stay in range for every id. |
| `Geometry.GeometryInTables` | src/App.tsx:72-84 | The shape name is an entry of the shape table, and both colours are palette entries. |
| `Geometry.ColorsDistinct` | src/App.tsx:26 | Two palette positions hold the same colour only if they are the same position. |
| `Geometry.ShapeTypesDistinct` | src/App.tsx:25 | Two shape-table positions hold the same name only if they are the same position. |
| `Geometry.SecondaryIsNextPrimary` | src/App.tsx:74-81 | A token's secondary colour is the primary colour of the next token id. |
| `Geometry.GeometryPeriodic` | src/App.tsx:72-84 | Token ids `t` and `t + 8` get the same geometry. |
| `Geometry.GeometryShift` | src/App.tsx:72-84 | Adding any multiple of 8 to an id leaves its geometry unchanged. |
| `Geometry.GeometryDeterminesResidue` | src/App.tsx:72-84 | Two ids get the same geometry if and only if they are equal modulo 8. |
| `Geometry.ExampleTokens` | src/App.tsx:72-84 | Token 0 is a Circle in `#FF6B6B` and `#4ECDC4`. Token 2 is a Square in `#45B7D1` and `#96CEB4`. |
| `Artwork.ArtworkSize` | src/App.tsx:88 | The shape size always lies in [200, 349]. |
| `Artwork.SizeShift` | src/App.tsx:88 | Adding any multiple of 150 to an id leaves the shape size unchanged. |
| `Artwork.DrawnTemplates` | src/App.tsx:99-124 | A shape name draws at most one template, and every drawn template is the one with that name. |
| `Artwork.GetImage` | src/App.tsx:86-127 | The canvas is 400 wide. The size lies in [200, 349]. At most one shape is drawn, and it is the template named by the geometry. |
| `Artwork.TemplateName` | src/App.tsx:100-122 | The name each template is compared with is an entry of the shape table. |
| `Artwork.TemplateRoundTrip` | src/App.tsx:100-122 | Each template's name selects that template and no other. |
| `Artwork.ExactlyOneTemplate` | src/App.tsx:98-123 | A name selects exactly one template if and only if it is in the shape table. A name outside the table draws no shape, so only the background remains. |
| `Artwork.TokenArtworkDrawsItsShape` | src/App.tsx:222-225 | A token's artwork draws exactly one shape: its geometry's shape, with different fill and stroke colours. |
| `Artwork.ArtworkPeriodic` | src/App.tsx:72-88 | The full artwork of ids `t` and `t + 600` is the same. |
| `Controller.RenderMintButton` | src/App.tsx:326-352 | When disconnected, the mint area is the Warpcast link. When connected, the button is disabled if and only if supply is 10000, a write is pending or minting is on. The button is enabled if and only if it offers "Mint for 0.0001 MON". "All Minted" shows exactly when supply is 10000. "Minting..." shows exactly when supply is not 10000 and a mint is in progress. The spinner shows whenever a mint is in progress, even beside "All Minted". |
| `Controller.HandleMintStep` | src/App.tsx:246-266 | When disconnected, nothing changes and the write call is not made. The write call is made if and only if the user is connected and `switchChain` resolves. Only the error field changes. A thrown `Error` sets the error to its message. Any other thrown value sets it to "Failed to mint". When both calls resolve, the error stays cleared. |
| `Controller.HandleMintLeavesMintControl` | src/App.tsx:335-340 | The handler's own state update (the error) never changes the mint area. The pending flag that the write call raises reaches the mint area only through `ObserveHooks`. |
| `Controller.MintWriteLocksMintButton` | src/App.tsx:335-340 | When the write call is made and the hook then reports it pending, a connected user with tokens left sees a disabled button with the spinner and "Minting...". |
| `Controller.TransactionStep` | src/App.tsx:191-194 | A missing or empty transaction id changes nothing. A present id turns minting on and changes nothing else. |
| `Controller.TransactionLocksMintButton` | src/App.tsx:335-340 | After a transaction is seen, a connected user's button is disabled, shows the spinner and does not offer to mint. |
| `Controller.MintTimers` | src/App.tsx:197-206 | A mint transaction schedules exactly six timers. The first five re-read the ledger, at strictly increasing delays. The last clears the minting indicator at 10000 ms, no earlier than any re-read. |
| `Controller.ScheduleMintTimers` | src/App.tsx:197-206 | Building the timers one delay at a time yields exactly the schedule `MintTimers` describes. |
| `Controller.SelectionStep` | src/App.tsx:214-226 | With no truthy selection (none, or id 0) and a non-empty owned list, the first owned token is selected and nothing else changes. With no truthy selection and no owned tokens, nothing changes. With a selection, the display shows that token's geometry and artwork, and nothing else changes. |
| `Controller.SelectionPreservesCoherent` | src/App.tsx:222-225 | The selection effect keeps the display either empty or showing one non-zero token. |
| `Controller.SelectionIdempotent` | src/App.tsx:214-226 | Once a token is selected, running the effect again changes nothing. |
| `Controller.SelectionReachesFixpoint` | src/App.tsx:214-226 | From any state, a third run of the selection effect changes nothing, so the effect re-triggering itself never loops. |
| `Controller.SelectionSettlesOnFirstOwned` | src/App.tsx:214-226 | With nothing selected and a non-zero first owned token, two runs of the effect select and show that token. |
| `Controller.TokenZeroIsNoSelection` | src/App.tsx:215-219 | With id 0 selected, the effect leaves the shape, colours and artwork as they were. |
| `Controller.App.constructor` | src/App.tsx:135-143 | The initial state has nothing loading, nothing minting, no error, no selection and an empty display. |
| `Controller.App.ObserveHooks` | src/App.tsx:130-174 | New hook values replace connection, pending write, owned tokens and supply. Nothing else changes. |
| `Controller.App.HandleMint` | src/App.tsx:246-266 | The new state and the write flag are those of `HandleMintStep`. The display invariant is kept. |
| `Controller.App.OnTokenReadError` | src/App.tsx:185-189 | A token-read error sets "Error loading token data" and changes nothing else. Otherwise nothing changes. |
| `Controller.App.OnTransaction` | src/App.tsx:191-206 | The new state is that of `TransactionStep`. A missing or empty id schedules nothing. A present id schedules the timers of `MintTimers`. |
| `Controller.App.OnMintingCleared` | src/App.tsx:204-206 | The final timer turns minting off and changes nothing else. |
| `Controller.App.SelectToken` | src/App.tsx:286 | A token button sets the selection to that id and changes nothing else. |
| `Controller.App.RunSelectionEffect` | src/App.tsx:214-226 | The new state is that of `SelectionStep`. The display invariant is kept. |

## Left out

- GetGeometry: ids are exact natural numbers. The source converts a `bigint` id with `Number(tokenId)`, which is exact only up to 2^53 - 1. Above that, rounding can change the residue, so the model matches the source only for ids up to 2^53 - 1. At id 2^53, for example, `Number(tokenId) + 1` rounds back to 2^53. Both colour indices are then 0 and the source shows the same colour twice, so `GetGeometry`'s guarantee that the two colours differ does not hold for the source beyond that bound.
- ArtworkSize: the same `Number` conversion applies, so the model matches the source only for ids up to 2^53 - 1.
- The SVG itself is not modelled: the markup, the radial gradient, and the point coordinates with fractional multipliers such as `size*0.43` are floating-point text with no contract beyond the template choice.
- Time is not modelled. This covers the 10 s and 15 s polling intervals and the 2 s auto-connect interval inside a frame. The timers set after a mint are modelled only as the list the effect creates (`MintTimers`). Their firing order in time and the re-reads they trigger are not modelled. Neither is their cancellation when the effect re-runs or the component unmounts. `OnMintingCleared` stands for the final timer firing.
- The connection effect (`switchChain` or `connect` when the connection changes) is not modelled. It only calls the wallet library.
- The wallet library's hooks and actions are not modelled: `useAccount`, `useConnect`, `useReadContract`, `useWriteContract`, `switchChain` and `parseEther`. Neither are the ABI constants or the contract address. Only their results enter, as fields or parameters.
- HandleMint: a failed mint write is never shown, in the model or in the source. The write is issued without `await`, so only a synchronous throw reaches the handler's `catch`. That is the only case `Threw` stands for in `writeContract`. What follows depends on when the write fails:
  - A write the wallet rejects before submitting it, for example because the user declines or funds are short, fails inside the write hook. The component never reads that hook's error, so `appState.error` stays empty.
  - A transaction that is submitted and then reverts on chain does not fail in the hook. The hook reports its hash, the transaction effect turns the minting indicator on, and no receipt is ever read. The page therefore shows "Minting..." for 10 s, as for a success.
  - After those 10 s, nothing shows that the mint failed. `HandleMintStep` therefore leaves the error cleared whenever the write call returns without a synchronous throw.
- HandleMintLeavesMintControl: the model does not capture the write call's effect on `isMintPending`. In the source, calling `writeContract` makes the write hook pending, which locks the mint button. In the model that flag changes only through `ObserveHooks`, so the lemma covers only the handler's own error update. `MintWriteLocksMintButton` states what the button shows once the hook reports the pending write.
- Effects are methods that the caller invokes. The model does not decide when each effect fires. For example, the source runs the token-read error effect only when `isTokenError` changes (src/App.tsx:189). An error that persists is therefore not shown again after the mint handler clears it.
- HandleMint: the handler is asynchronous and awaits `switchChain` after clearing the error. Other updates that could run during that await are not modelled, so the handler is one atomic step.
- The rest of the rendering is not modelled: the token list and loading view, the supply header, the error banner, the preview grid of ids 2 to 5, and all styling.
- `appState.isLoading` is kept in the state but never changes. The same is true in the source.
