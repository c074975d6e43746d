# Zora creator-coin dashboard: wallet gating and creation flows in Dafny

This project models the parts of the Zora creator-coin dashboard (a React single-page application) that hold logic. The rest of the application is presentation over mock data. The model covers:

- **Network classification.** `getNetworkInfo` maps a chain id to a name, a colour and a supported flag. Base (8453) and Base Sepolia (84532) are supported. Every other chain is "Unsupported". The badge is hidden while no wallet is connected (`NetworkIndicator`).
- **The deploy button.** The `handleDeploy` guard needs a connection and a supported network. The method raises and lowers `isDeploying`, records the result, and calls `onDeploy` only after the result is set. The module also covers the disabled predicate, the three idle labels, the status panel and "Deploy Another" (`Deployment`).
- **Address display.** `formatAddress` keeps six characters, adds "...", then keeps four, with JavaScript `slice` semantics. Both wallet components define it, identically, so one function serves both. The module also holds the block-explorer link (`Address`, `JsString`).
- **The wallet button and dialog.** This covers the button caption, the `isModalOpen` flag, connect, disconnect then close, the `copied` flag, the explorer button and the connected and disconnected views (`WalletButtonUi`, `WalletModal`).
- **The two creation forms.** Each form has a schema validator, a submit-disabled predicate and an `onSubmit` state machine over its `useState` fields. The NFT form also has the "View on Zora" link (`CoinForm`, `NftForm`).
- **The creation hooks.** Each hook has its wallet guard, its awaited steps in order, the metadata record it uploads and the result record it returns. A failure after the guard is rethrown (`ZoraCoins`, `ZoraCreate`, `ZoraTypes`). The protocol hook contributes its fixed listings and the guarded mint (`ZoraProtocol`).
- **A side-by-side comparison of the gates** (`FeatureGating`).

Modelling choices:

- **Wallet state is an input.** The connection flag, the address and the presence of wallet and public clients come from the wallet connector (wagmi / RainbowKit). The model takes them as parameters (`Wallet.Account`, `Wallet.Clients`).
- **Asynchronous outcomes are parameters.** These include the URIs the uploads resolve to, the random addresses, hashes and token numbers, and which awaited stage fails, if any (`CoinIo`, `NftIo`, `DeployIo`, `MintIo`). The mocked uploads and simulated calls in the source always resolve, so the failure cases stand for a real upload or SDK call failing (see "## Left out"). The creation hooks are read-only methods, each proved equal to a specification function (`CoinRun`, `NftRun`). That function returns the settled result and the ordered list of steps taken. Every listed property is proved about that function.
- **Component state is a class.** React `useState` fields become class fields. Each handler becomes a method whose postcondition gives the whole new state in terms of the old state and the specification function.
- **The two deploy helpers are arbitrary functions.** `DeploymentButton` imports `isZoraSupportedNetwork` and `getNetworkName` from the wagmi configuration module. That module defines neither; it exports only `config`. The model therefore treats the two as arbitrary functions (`Deployment.WagmiHelpers`). Only the lemmas named `IndicatorHelpers…` assume that they agree with `getNetworkInfo` on every chain id (`Deployment.IndicatorHelpers`). Those lemmas say so.

Three facts about the code that a reader might not expect:

- **No chain switching.** The code never switches chain: "Switch to Base Network" is only the caption of a disabled button (`Deployment.SwitchLabelIsInert`).
- **No names for other chains.** Every chain other than 8453 and 84532, chain 1 included, is named "Unsupported" (`NetworkIndicator.OtherChainInfo`, `Deployment.IndicatorHelpersOnMainnet`).
- **No single feature gate.** Only the deploy button checks the network. The coin form asks only for a connection. The NFT form asks for a connection and an image (`FeatureGating.GatingIsNotUniform`). What every component does share is that nothing is enabled while disconnected (`FeatureGating.DisconnectedDisablesEverything`).

## Model

| member | source | states |
|---|---|---|
| `NetworkIndicator.GetNetworkInfo` | src/components/wallet/NetworkIndicator.tsx:13-22 | The result is supported iff the chain is 8453 or 84532. The name is "Base" iff the chain is 8453, "Base Sepolia" iff it is 84532, and "Unsupported" iff it is neither. The name is always one of these three. The colour is red iff the chain is unsupported. |
| `NetworkIndicator.BaseInfo` | src/components/wallet/NetworkIndicator.tsx:15-16 | Chain `base.id` gives "Base", "bg-blue-600", supported. |
| `NetworkIndicator.BaseSepoliaInfo` | src/components/wallet/NetworkIndicator.tsx:17-18 | Chain `baseSepolia.id` gives "Base Sepolia", "bg-orange-600", supported. |
| `NetworkIndicator.OtherChainInfo` | src/components/wallet/NetworkIndicator.tsx:19-20 | Every other chain gives "Unsupported", "bg-red-600", not supported. |
| `NetworkIndicator.NameIdentifiesChain` | src/components/wallet/NetworkIndicator.tsx:16-20 | The displayed name recovers the chain id for supported chains and nothing for any other chain. |
| `NetworkIndicator.Render` | src/components/wallet/NetworkIndicator.tsx:24-50 | Nothing is rendered iff disconnected. Otherwise the badge carries `getNetworkInfo(chainId)` and shows the warning icon iff the chain is unsupported. |
| `NetworkIndicator.HiddenWhenDisconnected` | src/components/wallet/NetworkIndicator.tsx:24-26 | Disconnected, the output is nothing, whatever the chain id. |
| `Deployment.ResultFor` | src/components/deployment/DeploymentButton.tsx:40-44 | The deployment result's network is the network name. Its URL starts with "https://zora-coins-". Its hash is "0x" followed by the random digits. |
| `Deployment.DeployTrace` | src/components/deployment/DeploymentButton.tsx:27-61 | No step runs iff the guard fails. Otherwise the first step raises the deploying flag and the last lowers it, and nothing in between touches the flag. `onDeploy` runs iff the guard passed, the deployment did not reject and a callback was given. Every `onDeploy` call comes after a recorded result whose network is the network name. A result is recorded only on success. |
| `Deployment.ButtonDisabled` | src/components/deployment/DeploymentButton.tsx:152 | The button is always disabled while disconnected. It is enabled iff connected, on a supported network, not deploying and without the `disabled` prop. |
| `Deployment.IdleLabel` | src/components/deployment/DeploymentButton.tsx:168-173 | The label is one of three strings, first match wins. It is "Connect Wallet to Deploy" iff disconnected, "Switch to Base Network" iff connected on a wrong network, and "Deploy on Base Network" iff the deploy guard passes. |
| `Deployment.ButtonLabel` | src/components/deployment/DeploymentButton.tsx:159-176 | While deploying, the label is "Deploying to <network>...". Otherwise it is the idle label. |
| `Deployment.StatusPanel` | src/components/deployment/DeploymentButton.tsx:122-147 | The panel is present iff connected. Its title is "Ready to Deploy" iff the network is correct and "Wrong Network" iff it is not. |
| `Deployment.Render` | src/components/deployment/DeploymentButton.tsx:63-177 | The result card shows iff a result is held, and it shows that result. An enabled button is captioned "Deploy on Base Network" and passes the guard. Disconnected, the button is disabled and there is no status panel. |
| `Deployment.UrlText` | src/components/deployment/DeploymentButton.tsx:87 | The link text, prefixed with "https://", gives back the URL. |
| `Deployment.SwitchLabelIsInert` | src/components/deployment/DeploymentButton.tsx:150-173 | Whenever the caption is "Switch to Base Network", the button is disabled: the component never switches chain. |
| `Deployment.DeploymentButton.constructor` | src/components/deployment/DeploymentButton.tsx:14-20 | The button starts idle with no result and keeps its `disabled` and `onDeploy` props. |
| `Deployment.DeploymentButton.HandleDeploy` | src/components/deployment/DeploymentButton.tsx:27-61 | The steps taken are `DeployTrace`. If disconnected or on an unsupported network, `isDeploying` and `deploymentResult` are unchanged. Otherwise `isDeploying` ends false, and the result becomes the new record on success and stays as it was on rejection. |
| `Deployment.DeploymentButton.DeployAnother` | src/components/deployment/DeploymentButton.tsx:110 | The result becomes null, and the view is the deploy form for every connection state, chain and helper pair. |
| `Deployment.IndicatorHelpersGate` | src/components/deployment/DeploymentButton.tsx:24-25 | Assuming the helpers agree with `getNetworkInfo`, the deploy guard passes iff connected to chain 8453 or 84532. |
| `Deployment.IndicatorHelpersOnMainnet` | src/components/deployment/DeploymentButton.tsx:24-31 | Under the same assumption, chain 1 is named "Unsupported". Connected there, the view is "Wrong Network" with a disabled "Switch to Base Network" button. |
| `Address.FormatAddress` | src/components/wallet/WalletButton.tsx:10-12 | The output length is min(n,6)+3+min(n,4). It starts with the first min(n,6) characters, then "...", and ends with the last min(n,4) characters. |
| `Address.FormatLongAddress` | src/components/wallet/WalletButton.tsx:11 | For an address of at least 10 characters, the output has length 13: the first 6 characters, "...", and the last 4. |
| `Address.FormatShortAddress` | src/components/wallet/WalletButton.tsx:11 | For an address of at most 4 characters, each slice is the whole string: the output is the address, "...", and the address again. |
| `Address.FormatAddressBounded` | src/components/wallet/WalletConnectionModal.tsx:29-31 | The shortened address is 3 to 13 characters long. |
| `Address.FormatAddressLossless` | src/components/wallet/WalletConnectionModal.tsx:30 | At exactly 10 characters, removing the ellipsis gives the address back. |
| `Address.ExplorerUrl` | src/components/wallet/WalletConnectionModal.tsx:105 | The link is "https://basescan.org/address/" followed by the address. |
| `Address.ExplorerUrlRoundTrip` | src/components/wallet/WalletConnectionModal.tsx:105 | The address can be read back from its explorer link. |
| `WalletButtonUi.Caption` | src/components/wallet/WalletButton.tsx:26 | The caption is "Connect Wallet" iff not (connected and address non-empty). Otherwise it is the formatted address, which can never equal "Connect Wallet". |
| `WalletButtonUi.WalletButton.constructor` | src/components/wallet/WalletButton.tsx:7 | The dialog starts closed. |
| `WalletButtonUi.WalletButton.Click` | src/components/wallet/WalletButton.tsx:17 | A click opens the dialog. |
| `WalletButtonUi.WalletButton.OnClose` | src/components/wallet/WalletButton.tsx:32 | The dialog's `onClose` closes it. |
| `WalletModal.HandleConnect` | src/components/wallet/WalletConnectionModal.tsx:18-22 | The connector's dialog is opened iff the connector offers one, and at most once. |
| `WalletModal.HandleDisconnect` | src/components/wallet/WalletConnectionModal.tsx:24-27 | The handler always disconnects, then closes, in that order. |
| `WalletModal.DisconnectCloses` | src/components/wallet/WalletConnectionModal.tsx:24-27 | From any session, disconnecting leaves the account gone and the dialog closed. Doing it twice equals doing it once. |
| `WalletModal.ExplorerClick` | src/components/wallet/WalletConnectionModal.tsx:103-107 | A window opens iff an address is present, and it opens on that address's explorer link. |
| `WalletModal.Render` | src/components/wallet/WalletConnectionModal.tsx:43-150 | The dialog is hidden iff not open. The header is "Wallet" iff connected, otherwise "Connect Wallet". The connected view shows the shortened address iff there is one, and "Copied" iff `copied`. |
| `WalletModal.WalletConnectionModal.constructor` | src/components/wallet/WalletConnectionModal.tsx:16 | `copied` starts false. |
| `WalletModal.WalletConnectionModal.HandleCopyAddress` | src/components/wallet/WalletConnectionModal.tsx:33-39 | With an address, the handler requests the clipboard write. If the write resolves, it sets `copied`. If the write rejects, `copied` is unchanged and the failure escapes the handler. Without an address, it does nothing and `copied` is unchanged. |
| `WalletModal.WalletConnectionModal.CopiedTimerElapsed` | src/components/wallet/WalletConnectionModal.tsx:37 | The copy timer lowers `copied`. |
| `CoinForm.SchemaIssues` | src/components/create/CreateCoinForm.tsx:8-14 | There are no issues iff name, description, initialLiquidity and category are non-empty and 1 ≤ \|symbol\| ≤ 10. The "10 characters or less" issue appears iff the symbol is longer than 10. Each issue names one of the five fields. |
| `CoinForm.LiquidityMinimumNotEnforced` | src/components/create/CreateCoinForm.tsx:12 | With the other four fields valid, the schema accepts the data iff the liquidity is non-empty. So "0", or text that is not a number, passes: the "Minimum 0.1 ETH" text is not enforced. |
| `CoinForm.ParamsOf` | src/components/create/CreateCoinForm.tsx:49-52 | The hook receives the form fields unchanged, and the image is absent (undefined) when none is picked. |
| `CoinForm.SubmitDisabled` | src/components/create/CreateCoinForm.tsx:290 | Submit is enabled iff connected and not deploying. The network plays no part. |
| `CoinForm.SubmitCaption` | src/components/create/CreateCoinForm.tsx:293-303 | The caption is "Creating..." iff deploying. When idle, it is "Deploy Coin" iff connected. |
| `CoinForm.Render` | src/components/create/CreateCoinForm.tsx:76-150 | The success card shows iff a coin is held. It shows the metadata URI only when that URI is non-empty, and links the coin's explorer page. The form warns iff disconnected. |
| `CoinForm.CreateCoinForm.constructor` | src/components/create/CreateCoinForm.tsx:28-30 | The form starts idle, with no image and no coin. |
| `CoinForm.CreateCoinForm.OnSubmit` | src/components/create/CreateCoinForm.tsx:42-63 | Disconnected, no step runs and all three fields are unchanged. Connected, the steps are `CoinRun` with the current image. `isDeploying` ends false. On success, `createdCoin` becomes the result and `imageFile` becomes null. On failure, both keep their old values. |
| `CoinForm.CreateCoinForm.HandleSubmit` | src/components/create/CreateCoinForm.tsx:152 | The issues are the schema's. Data the schema rejects changes nothing. For accepted data, the steps and the new `isDeploying`, `createdCoin` and `imageFile` are those of `onSubmit`: nothing changes without a connection; otherwise the flag ends down, and the result replaces the old one and clears the image only on success. |
| `CoinForm.CreateCoinForm.HandleImageUpload` | src/components/create/CreateCoinForm.tsx:65-70 | The image is replaced by the first chosen file only when a file was chosen. Nothing else changes. |
| `CoinForm.CreateCoinForm.HandleCreateAnother` | src/components/create/CreateCoinForm.tsx:72-74 | `createdCoin` becomes null, which brings back the form. |
| `NftForm.SchemaIssues` | src/components/zora/ZoraCreateForm.tsx:8-16 | There are no issues iff name and description are non-empty and animationUrl is absent, empty or a URL. An animationUrl issue appears iff the URL is unacceptable. |
| `NftForm.ParamsOf` | src/components/zora/ZoraCreateForm.tsx:49-52 | The hook receives the form fields unchanged, together with the picked image. |
| `NftForm.SubmitDisabled` | src/components/zora/ZoraCreateForm.tsx:239 | Submit is enabled iff connected, an image is picked and the form is not creating. |
| `NftForm.ImageNotice` | src/components/zora/ZoraCreateForm.tsx:169-171 | "Image is required" shows exactly when no image is picked. |
| `NftForm.CollectUrl` | src/components/zora/ZoraCreateForm.tsx:109 | The link is "https://zora.co/collect/base:" + contractAddress + "/" + tokenId. |
| `NftForm.CollectUrlRoundTrip` | src/components/zora/ZoraCreateForm.tsx:109 | For a contract address without "/", the link parses back to exactly that contract and token. |
| `NftForm.SubmitCaption` | src/components/zora/ZoraCreateForm.tsx:242-252 | The caption is one of three strings: "Creating..." iff creating; when idle, "Create NFT" iff connected, otherwise "Connect Wallet to Create". |
| `NftForm.Render` | src/components/zora/ZoraCreateForm.tsx:74-172 | The success card shows iff an item is held, with its collect link. The form warns iff disconnected and shows the image notice. An enabled submit implies a connection and an image. |
| `NftForm.ZoraCreateForm.constructor` | src/components/zora/ZoraCreateForm.tsx:28-30 | The form starts idle, with no image and no item. |
| `NftForm.ZoraCreateForm.OnSubmit` | src/components/zora/ZoraCreateForm.tsx:42-61 | Without a connection or an image, nothing changes. Otherwise the steps are `NftRun`. `isCreating` ends false. On success, `createdItem` becomes the result and `imageFile` becomes null. On failure, both keep their old values. |
| `NftForm.ZoraCreateForm.HandleSubmit` | src/components/zora/ZoraCreateForm.tsx:140 | The issues are the schema's. Data the schema rejects changes nothing. For accepted data, the steps and the new `isCreating`, `createdItem` and `imageFile` are those of `onSubmit`: nothing changes without a connection and an image; otherwise the flag ends down, and the result replaces the old one and clears the image only on success. |
| `NftForm.ZoraCreateForm.HandleImageUpload` | src/components/zora/ZoraCreateForm.tsx:63-68 | The image is replaced by the first chosen file only when a file was chosen. |
| `NftForm.ZoraCreateForm.HandleCreateAnother` | src/components/zora/ZoraCreateForm.tsx:70-72 | `createdItem` becomes null, which brings back the form. |
| `ZoraTypes.ErrorMessage` | src/hooks/useZoraCoins.ts:54-56 | The hook's own message is "Wallet not connected", exactly for the guard error. |
| `ZoraCoins.CreateMetadata` | src/hooks/useZoraCoins.ts:28-43 | The metadata's image is the image URI. It has exactly two attributes, in order: Category = category, then Symbol = symbol. |
| `ZoraCoins.Plan` | src/hooks/useZoraCoins.ts:61-74 | The steps are an image upload (only with a file), then the metadata upload with "" as image when there is no file, then the simulated coin creation, which is given nothing. |
| `ZoraCoins.Created` | src/hooks/useZoraCoins.ts:77-84 | The result's name and symbol are the params. Its version is "v4", its metadataUri is the upload's, and both its address and its hash start with "0x". |
| `ZoraCoins.CoinRun` | src/hooks/useZoraCoins.ts:53-98 | The hook throws "Wallet not connected" with no step unless connected with an address and both clients. Past the guard, the steps taken are a non-empty prefix of the plan. The call succeeds iff no stage on the plan rejects, and then the steps are the whole plan and the result is `Created`. Otherwise the rejecting stage's error is rethrown, and that stage is the last step. |
| `ZoraCoins.CreateCreatorCoin` | src/hooks/useZoraCoins.ts:53-98 | The sequential method, with its reassigned `imageUri`, returns exactly `CoinRun`. |
| `ZoraCoins.NoImageNoUpload` | src/hooks/useZoraCoins.ts:62-65 | Without a file, there is no image upload, and the uploaded metadata's image is "". |
| `ZoraCoins.StepOrder` | src/hooks/useZoraCoins.ts:61-74 | For any two steps in order, the earlier one is the leading image upload, or the metadata upload followed by coin creation. |
| `ZoraCreate.CreateMetadata` | src/hooks/useZoraCreate.ts:30-37 | The image is the uploaded URI and animation_url is params.animationUrl. The attributes are params.attributes, or [] when absent. |
| `ZoraCreate.Plan` | src/hooks/useZoraCreate.ts:55-67 | There are always three steps: image upload, metadata upload built from the uploaded image, then the simulated mint, which is given nothing. |
| `ZoraCreate.Created` | src/hooks/useZoraCreate.ts:70-76 | The result's name is params.name and its metadataUri is the upload's. Its token id is the decimal text of the random number. |
| `ZoraCreate.NftRun` | src/hooks/useZoraCreate.ts:47-90 | The hook throws "Wallet not connected" with no step unless the guard holds. Past the guard, the image upload always runs first and the steps are a prefix of the plan. The call succeeds iff nothing rejects. Otherwise the rejecting stage's error is rethrown. |
| `ZoraCreate.CreateNft` | src/hooks/useZoraCreate.ts:47-90 | The sequential method returns exactly `NftRun`. |
| `ZoraCreate.MetadataUsesUploadedImage` | src/hooks/useZoraCreate.ts:55-61 | The metadata upload is always the second step, and its image is the first step's uploaded URI. |
| `ZoraProtocol.CollectionAddressesDistinct` | src/hooks/useZoraProtocol.ts:47-67 | The three collection addresses differ pairwise. |
| `ZoraProtocol.GetCollections` | src/hooks/useZoraProtocol.ts:41-81 | The hook returns exactly three collections, with pairwise distinct addresses and positive supply. |
| `ZoraProtocol.GetNfts` | src/hooks/useZoraProtocol.ts:83-125 | The hook returns three tokens with ids "1", "2" and "3", each with the mock metadata URI and each belonging to a listed collection. |
| `ZoraProtocol.GetNftsIgnoresCollection` | src/hooks/useZoraProtocol.ts:83 | The listing is the same whatever collection address is passed. |
| `ZoraProtocol.MintNft` | src/hooks/useZoraProtocol.ts:127-158 | The hook throws "Wallet not connected" iff not connected or without a wallet client. A rejection after the guard is rethrown. On success, the result echoes contractAddress, to and quantity. |
| `ZoraProtocol.MintMessage` | src/hooks/useZoraProtocol.ts:147 | The notice starts "Successfully minted " and ends "!". "NFT" takes an "s" iff the quantity is greater than 1. |
| `FeatureGating.DisconnectedDisablesEverything` | src/components/deployment/DeploymentButton.tsx:152 | Disconnected, the deploy button and both creation submits are disabled and the network badge is hidden, for every state and chain. |
| `FeatureGating.GatingIsNotUniform` | src/components/create/CreateCoinForm.tsx:290 | Connected to chain 1, with helpers that agree with the indicator, the deploy button is disabled while both creation forms can be submitted. |

## Left out

- Toasts, `console.error`, `setTimeout` delays, the clipboard's contents and `window.open`. Whether the clipboard write succeeds is a parameter of `HandleCopyAddress`. A handler returns the effects it requests (`WalletModal.Effect`) instead of performing them.
- `Math.random`: random identifiers, hashes and token numbers are parameters. So are the values the mocked uploads resolve to. In the source both uploads resolve to one fixed `ipfs://` URI.
- Async interleaving, stale React closures, double submission and unmounting. Every handler runs to completion as one sequential step.
- The floating-point balance text of the network badge, and `getCollectionStats` (random floating-point numbers).
- react-hook-form's `register`, its error rendering and the `reset()` after a successful creation. The model keeps the validation-before-`onSubmit` rule (`HandleSubmit`) and the schema.
- Pages, charts, tables, cards, routing and styling beyond the captions and views named in the table.
- The deploy button's `onDeploy` callback can throw. That exception is caught and only changes the toast, so state ends as on success. The model records the call and does not distinguish the two.
- The `catch` branches of `getCollections` and `getNFTs`, which return `[]`, cannot run, because nothing in their `try` throws. They are not modelled.
- The failure branches of `CoinRun`, `NftRun`, `MintNft` and `DeployTrace` over-approximate the source. There, the uploads are mocks and the chain calls and the deployment are delays, and none of them ever rejects. Each failure case stands for a real upload, SDK call or deployment failing, and follows the source's `catch`: the hooks rethrow, and the deploy button keeps its old result and lowers the flag.
- `isZoraSupportedNetwork` and `getNetworkName` are not defined in src/config/wagmi.ts. Their behaviour is arbitrary in the model, and only the `IndicatorHelpers` lemmas assume that they agree with `getNetworkInfo` on every chain id.
- `Address.FormatAddress`: characters are Unicode scalar values, whereas JavaScript `slice` counts UTF-16 code units. The two differ only on addresses with characters outside the Basic Multilingual Plane.
- `CoinForm.SchemaIssues`: the symbol length is counted in Unicode scalar values, whereas zod counts UTF-16 code units.
- `NftForm.SchemaIssues`: zod's URL check is a parameter (`isUrl`). The message of a rejected animation URL is taken to be zod's union message "Invalid input".
- `ZoraProtocol.MintMessage`: the quantity is an integer. JavaScript's formatting of fractional, NaN or exponent-form numbers is not modelled.
- `ZoraCreate.Created`: the token number is any natural number. The source draws it below 10000.
