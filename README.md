# Trade swap: a verified model of trade creation and its pages

This project models, in Dafny, the part of the peer-to-peer asset-swap web
application that holds logic rather than layout:

- the trade-creation route (`app/api/trade/route.ts`): a process-wide
  in-memory list of trades; `POST` runs three early-return guards (creator
  wallet, counterparty wallet, non-empty creator offer), normalises missing
  offer fields, builds a `pending` trade and appends it; `GET` returns the list;
- the helpers of `lib/utils.ts`: wallet-address abbreviation and the
  `TRADE-` identifier format;
- the trade page (`app/trade/page.tsx`): selection toggles, the
  case-insensitive token and NFT searches, the guard order of "Create
  Trade", the creator offer it builds and the button's enablement;
- the admin panel (`app/admin/page.tsx`): replace-by-id of a returned trade,
  the status filter, the status badge and label, the blank-wallet guard and
  the "pending only" and "No items offered" display rules;
- the record types of `lib/trade-service.ts` (lines 3-32).

Modules: `Wrappers` (Option), `Seqs` (`filter`, `find`, lookup of every
key, subsequences), `JsText` (the JavaScript string operations used:
ASCII case mapping, `includes`, `slice`, `substring`, `trim`), `TradeTypes`,
`Utils`, `TradeRoute`, `TradePage`, `AdminPage`, and `EndToEnd` for facts
that join the page, the route and the panel.

State that the source changes in place is a class: `TradeRoute.TradeStore`
(the route's `trades` array, a `seq<Trade>` field), `TradePage.TradeForm`
(the page's React state) and `AdminPage.AdminPanel` (the panel's React
state). Each method is specified against a pure function:
`TradeStore.Post` returns exactly `Respond(body, …)` and appends its trade
only on success; `TradeStore.Valid()` (every stored trade is pending, has two
non-empty wallets, a non-empty creator offer and a `TRADE-` id) is kept by
every call.

Inputs that stand for the outside world: the random string behind an
identifier (`Math.random().toString(36)`), the two clock readings of
`createdAt` and `updatedAt` (`Date.now()` is called twice), the wallet
adapter's `connected` and `publicKey`, the parsed SOL field
(`Number.parseFloat(solAmount) || 0`), the server's answer to
`getTradesByWallet`'s request, and what `acceptTrade` and `rejectTrade`
resolve or reject with. The trade page's
`fetch` to `/api/trade` is modelled as a call of `TradeStore.Post`, so the
page's outcome is stated in terms of the route's answer.

`app/api/trade/route.ts:6-8` declares its own `generateTradeId`, identical
to the one in `lib/utils.ts:13-15`; the model has one, `Utils.GenerateTradeId`,
and the route uses it.

Request fields that JSON may leave out are `Option`s: a wallet passes its
guard when it is present and not `""`; `tokens || []`, `nfts || []` and
`solAmount || 0` become defaults for `None`. Amounts are `real`.

Behaviour of the code that is easy to miss:

- the identifier suffix is characters 2 to 10 of the random string, so it
  has eight characters only when that string has at least ten
  (`Utils.TradeIdShape`, `Utils.TradeIdPattern`);
- `createdAt` and `updatedAt` come from two clock readings, which need not
  be equal;
- amounts are not checked for being non-negative: a negative SOL amount
  next to a token is stored as is;
- the page treats any non-empty SOL text, `"0"` included, as an offer,
  while the route rejects the resulting amount 0
  (`EndToEnd.ZeroSolTextPassesPageFailsRoute`).

## Model

| member | source | states |
|---|---|---|
| `TradeTypes.NameInjective` | lib/trade-service.ts:29 | the four status strings are distinct, so comparing status strings compares statuses |
| `TradeRoute.ValidationError` | app/api/trade/route.ts:16-31 | the creator-wallet message exactly when the creator wallet is missing or empty; the counterparty message exactly when the creator wallet is present and the counterparty wallet is not; the empty-offer message exactly when both wallets are present and the creator offer is empty; no error exactly when all three pass |
| `TradeRoute.HasCreatorOffer` | app/api/trade/route.ts:24-27 | the offer guard fails for a missing offer (the exact condition is stated by `HasCreatorOfferIffNonEmpty`) |
| `TradeRoute.PostResponse.StatusCode` | app/api/trade/route.ts:16-31 | the status is 400 exactly for a validation failure |
| `TradeRoute.HasCreatorOfferIffNonEmpty` | app/api/trade/route.ts:24-27 | the creator-offer guard on the raw body holds exactly when the stored offer has a token, an NFT or a positive SOL amount |
| `TradeRoute.NormalizeOffer` | app/api/trade/route.ts:38-47 | missing tokens, NFTs and SOL amount become `[]`, `[]` and 0, present ones are kept; a missing offer becomes the empty offer |
| `TradeRoute.Respond` | app/api/trade/route.ts:15-59 | the answer is a 400 exactly when validation fails, carrying that failure's message |
| `TradeRoute.CreatedTrade` | app/api/trade/route.ts:34-51 | a created trade is pending, has the request's two wallets, the normalised offers (the empty offer for a missing counterparty offer), the generated `TRADE-` id and the two clock readings, and a non-empty creator offer |
| `TradeRoute.TradeStore.constructor` | app/api/trade/route.ts:4 | the store starts empty |
| `TradeRoute.TradeStore.Post` | app/api/trade/route.ts:10-59 | the response is `Respond(body, …)`; a validation failure leaves the store unchanged; a success appends exactly the returned trade after all earlier records; the store invariant is kept |
| `TradeRoute.TradeStore.Get` | app/api/trade/route.ts:69-71 | returns every stored trade in insertion order, unfiltered; each of them is pending, with two non-empty wallets, a non-empty creator offer and a `TRADE-` id |
| `Utils.FormatWalletAddress` | lib/utils.ts:8-11 | the abbreviation is empty exactly for the empty address; otherwise it has 3 + 2·min(4, n) characters, never more than eleven |
| `Utils.FormatShape` | lib/utils.ts:10 | a non-empty address of length n is shown as its first min(4, n) characters, `...`, then its last min(4, n) characters |
| `Utils.FormatLength` | lib/utils.ts:10 | an address of at least four characters is shown in exactly eleven |
| `Utils.FormatShort` | lib/utils.ts:10 | a non-empty address shorter than four is shown as itself, `...`, itself |
| `Utils.FormatPrefixSuffix` | lib/utils.ts:10 | the abbreviation starts with a non-empty prefix of the address and ends with a non-empty suffix of it |
| `Utils.GenerateTradeId` | lib/utils.ts:13-15 | an id starts with `TRADE-` and has at most eight characters after it (the route's own copy, `app/api/trade/route.ts:6-8`, is the same function) |
| `Utils.TradeIdShape` | lib/utils.ts:14 | an id is `TRADE-` followed by characters 2 to min(10, n) of the random string, upper-cased; the suffix has at most eight characters and no lower-case letter; the id at most fourteen |
| `Utils.TradeIdPattern` | lib/utils.ts:14 | a base-36 random string of at least ten characters gives `TRADE-` and exactly eight upper-case base-36 characters |
| `JsText.ToUpperCase` | lib/utils.ts:14 | same length; each character is its upper-case form, ASCII lower-case letters becoming upper-case and every other character kept |
| `JsText.ToLowerCase` | app/trade/page.tsx:57 | same length; each character is its lower-case form, ASCII upper-case letters becoming lower-case and every other character kept |
| `JsText.Includes` | app/trade/page.tsx:57 | the empty needle is always found; a found needle is no longer than the haystack; a needle at index 0 is found |
| `JsText.Slice` | lib/utils.ts:10 | for in-range indices `slice(a, b)` is `s[a..b]`, an end past the string is clamped, a negative start counts back from the end (the whole string when it reaches past the start), and a start at or past the end gives `""` |
| `JsText.SliceFrom` | lib/utils.ts:10 | `slice(a)` is the suffix from `a`, from `|s| + a` for negative `a`, and the whole string when `-a` exceeds the length |
| `JsText.Substring` | lib/utils.ts:14 | for in-range indices `substring(a, b)` is `s[a..b]`, an end past the string is clamped, swapped indices give `s[b..a]`, and indices both at or past the end give `""` |
| `JsText.Trim` | app/admin/page.tsx:22 | the result is a contiguous piece of the string with only white space before and after it, and neither starts nor ends with white space |
| `JsText.IncludesIffOccurs` | app/trade/page.tsx:55-59 | `includes` finds the needle exactly when it occurs at some index of the haystack |
| `JsText.TrimEmptyIffBlank` | app/admin/page.tsx:22 | `trim()` gives `""` exactly for strings made only of JavaScript white space |
| `Seqs.Filter` | app/admin/page.tsx:86 | `filter` keeps only accepted elements of the input, and every accepted element |
| `Seqs.FilterIsSubsequence` | app/trade/page.tsx:55-65 | what a filter keeps stays in its original order |
| `Seqs.Find` | app/trade/page.tsx:115 | `find` fails only when no element matches, and otherwise returns the first match |
| `Seqs.LookupAll` | app/trade/page.tsx:114-132 | mapping selected ids to items succeeds exactly when every id resolves, and yields one item per id, in selection order |
| `TradePage.Toggle` | app/trade/page.tsx:67-73 | the toggled id is in the result exactly when it was not in the selection; every other id is in the result exactly when it was in the selection |
| `TradePage.ToggleSpec` | app/trade/page.tsx:67-73 | toggling a selected id removes every occurrence of it and keeps every other id, as often as before and in order; toggling an unselected id appends it |
| `TradePage.ToggleTwice` | app/trade/page.tsx:67-73 | toggling an unselected id twice restores the selection |
| `TradePage.ToggleNoDuplicates` | app/trade/page.tsx:67-73 | toggling keeps a selection free of duplicates |
| `TradePage.FilterTokens` | app/trade/page.tsx:55-59 | the token search returns at most the catalogue, only catalogue tokens that match the query (the converse is `FilterTokensSpec`) |
| `TradePage.FilterNfts` | app/trade/page.tsx:61-65 | the NFT search returns at most the catalogue, only catalogue NFTs that match the query (the converse is `FilterNftsSpec`) |
| `TradePage.FilterTokensSpec` | app/trade/page.tsx:55-59 | the token search keeps exactly the tokens whose lower-cased name or symbol contains the lower-cased query, each as often as in the catalogue, in catalogue order |
| `TradePage.FilterNftsSpec` | app/trade/page.tsx:61-65 | the NFT search keeps exactly the NFTs whose lower-cased name or collection contains the lower-cased query, each as often as in the catalogue, in catalogue order |
| `TradePage.EmptySearchKeepsAll` | app/trade/page.tsx:55-65 | an empty query keeps every token and every NFT |
| `TradePage.TokenSearchIgnoresCase` | app/trade/page.tsx:55-59 | searching for a query and for its lower-case form gives the same tokens |
| `TradePage.NftSearchIgnoresCase` | app/trade/page.tsx:61-65 | searching for a query and for its lower-case form gives the same NFTs |
| `TradePage.CreatorTokensSpec` | app/trade/page.tsx:114-122 | the creator tokens resolve exactly when every selected id is a catalogue id; the i-th item is the catalogue token with the i-th selected id, with its whole balance as amount |
| `TradePage.CreatorNftsSpec` | app/trade/page.tsx:124-132 | the creator NFTs resolve exactly when every selected id is a catalogue id; the i-th item is the catalogue NFT with the i-th selected id |
| `TradePage.CreatorTokens` | app/trade/page.tsx:114-122 | a resolved token list has one item per selected id, carrying that id, in selection order |
| `TradePage.CreatorNfts` | app/trade/page.tsx:124-132 | a resolved NFT list has one item per selected id, carrying that id, in selection order |
| `TradePage.CreateRequest` | app/trade/page.tsx:140-153 | the route stores the creator's items and SOL value as the creator offer and the empty offer for the counterparty; it accepts the body exactly when both wallets are non-empty and a token, an NFT or a positive SOL value is offered |
| `TradePage.GuardFailure` | app/trade/page.tsx:83-108 | "wallet not connected" exactly when not connected or without a key; "missing counterparty" exactly when connected and the counterparty is empty; "empty offer" exactly when both pass and nothing is selected and the SOL text is empty; no stop otherwise |
| `TradePage.CreateDisabled` | app/trade/page.tsx:443-448 | the button is disabled while a creation runs, when no wallet is connected and when the counterparty is empty (the exact condition is `CreateDisabledIffGuard`) |
| `TradePage.CreateDisabledIffGuard` | app/trade/page.tsx:443-448 | with a public key, the button is disabled exactly when a creation is running or the handler would stop at a guard |
| `TradePage.TradeForm.constructor` | app/trade/page.tsx:44-53 | the form starts with no counterparty, no selection, empty SOL text and no creation running |
| `TradePage.TradeForm.ToggleTokenSelection` | app/trade/page.tsx:67-69 | the token selection becomes its toggle |
| `TradePage.TradeForm.ToggleNftSelection` | app/trade/page.tsx:71-73 | the NFT selection becomes its toggle |
| `TradePage.TradeForm.HandleCreateTrade` | app/trade/page.tsx:82-183 | a failing guard shows its toast and changes nothing; otherwise an unknown item reports an error, and a request with the creator's items and an empty counterparty offer goes to the route, whose error is shown or whose new trade's id is shown and the form reset; no creation is left running |
| `AdminPage.ReplaceById` | app/admin/page.tsx:82-84 | same length; each entry with the updated id becomes the updated trade, every other entry is unchanged |
| `AdminPage.ReplaceByIdKeepsIds` | app/admin/page.tsx:83 | the id at each position is unchanged |
| `AdminPage.ReplaceByIdIdempotent` | app/admin/page.tsx:83 | applying the same reply twice equals applying it once |
| `AdminPage.ReplaceByIdAbsent` | app/admin/page.tsx:83 | a reply for an id not in the list changes nothing |
| `AdminPage.FilterByStatus` | app/admin/page.tsx:86 | the filtered list is no longer than the list, holds only listed trades, and under a non-empty filter only trades whose status string equals it |
| `AdminPage.EmptyFilterKeepsAll` | app/admin/page.tsx:86 | the empty status filter keeps every trade in order |
| `AdminPage.StatusFilterSpec` | app/admin/page.tsx:86 | a non-empty filter keeps exactly the trades whose status string equals it, each as often as in the list, in order |
| `AdminPage.AllOptionMatchesNothing` | app/admin/page.tsx:129 | the menu value `all` keeps no trade |
| `AdminPage.StatusBadgeVariant` | app/admin/page.tsx:88-101 | destructive exactly for `rejected`; default exactly for `accepted` and `completed`; secondary for `pending` and every other string |
| `AdminPage.BadgeOfEachStatus` | app/admin/page.tsx:88-101 | pending, accepted, rejected, completed map to secondary, default, destructive, default |
| `AdminPage.StatusLabelSpec` | app/admin/page.tsx:165 | the label has the status's length, its first character upper-cased and the rest unchanged |
| `AdminPage.StatusLabels` | app/admin/page.tsx:165 | the four statuses are labelled Pending, Accepted, Rejected, Completed |
| `AdminPage.StatusLabel` | app/admin/page.tsx:165 | the label has the status's length |
| `AdminPage.ShowsActions` | app/admin/page.tsx:230 | Accept and Reject are offered exactly for pending trades |
| `AdminPage.ShowsNoItemsIffEmpty` | app/admin/page.tsx:198-202 | for a non-negative SOL amount, "No items offered" is shown exactly when the offer has no token, no NFT and no positive amount |
| `AdminPage.ShowsNoItems` | app/admin/page.tsx:221-224 | "No items offered" (for the creator's or the counterparty's offer) is shown only for an offer with no token, no NFT and no positive SOL amount |
| `AdminPage.AdminPanel.constructor` | app/admin/page.tsx:14-17 | the panel starts with no wallet, no trades, no filter, not loading |
| `AdminPage.TradesByWallet` | lib/trade-service.ts:83-97 | `getTradesByWallet` resolves the answer's trades, `[]` when the answer has none, and `[]` for every failure |
| `AdminPage.AdminPanel.FetchTrades` | app/admin/page.tsx:21-41 | a blank wallet clears the list without a fetch; otherwise the list becomes what `getTradesByWallet` resolves, which is empty after a failed request, and loading ends |
| `AdminPage.AdminPanel.UpdateTrade` | app/admin/page.tsx:82-84 | the list becomes its replace-by-id with the returned trade |
| `AdminPage.AdminPanel.HandleAccept` | app/admin/page.tsx:46-62 | a returned trade replaces the listed one; a failure leaves the list and shows the error's message or the default text |
| `AdminPage.AdminPanel.HandleReject` | app/admin/page.tsx:64-80 | a returned trade replaces the listed one; a failure leaves the list and shows the error's message or the default text |
| `EndToEnd.PageRequestAccepted` | app/trade/page.tsx:140-153 | the route accepts the page's body exactly when both wallets are non-empty and a token, an NFT or a positive SOL amount is offered |
| `EndToEnd.ZeroSolTextPassesPageFailsRoute` | app/trade/page.tsx:101 | SOL text `"0"` with nothing selected passes the page's guards but is rejected by the route as an empty offer |
| `EndToEnd.NewTradeOnAdminPanel` | app/api/trade/route.ts:48 | a new trade is shown with the secondary badge, the label Pending, Accept and Reject buttons, and never "No items offered" for its creator offer |
| `EndToEnd.PageCounterpartyOfferEmpty` | app/trade/page.tsx:148-152 | a trade created from the page stores the empty counterparty offer and shows it as "No items offered" |

## Left out

- `cn` in `lib/utils.ts`: class-name merging for styling.
- The functions of `lib/trade-service.ts` (lines 34-143) other than the fallback of `getTradesByWallet` (`AdminPage.TradesByWallet`): `fetch` wrappers with logging; their results are inputs of the admin panel's methods. `getTradesByWallet` resolves `[]` on any failure, so the panel's error toast (`app/admin/page.tsx:31-37`) is unreachable and a failed fetch shows an empty list; the model has no toast there.
- The accept, reject, get-by-id and by-wallet routes: their source is not part of this model, so no transition out of `pending` and no authorization rule is modelled.
- JSON decoding of the request and its failure answered with 500 (`app/api/trade/route.ts:60-66`, `72-75`), and the one-second delay before the answer (line 57).
- Request fields of other JSON types than the ones declared (a wallet that is a number, a token list that is not an array): wallets are strings, lists are sequences, amounts are reals.
- NaN and `-0`: amounts are reals.
- `Math.random` and `Date.now`: both are inputs; nothing about randomness or uniqueness of identifiers is claimed.
- Unicode case mapping: `toLowerCase` and `toUpperCase` change ASCII letters only.
- UTF-16 code units: JavaScript's `length`, `slice`, `substring` and `charAt` count UTF-16 code units, while a Dafny string holds Unicode scalar values, so for a character outside the Basic Multilingual Plane the model keeps whole what JavaScript may split into half a surrogate pair, and `Utils.FormatLength`'s eleven counts scalar values. The strings the application passes (base58 wallet keys, base-36 random digits) are ASCII, where the two agree.
- Infinite amounts: `Number.parseFloat` may give `Infinity` or `-Infinity`, which `|| 0` keeps and `JSON.stringify` sends as `null`, so the route reads a missing amount; `solValue` is a `real` and cannot express this.
- `Number.parseFloat` and number-to-string conversion: the parsed SOL value is an input; `handleMaxSol` (`app/trade/page.tsx:75-80`), which writes the SOL balance as text, is not modelled.
- Display values in floating point (`toFixed`, `balance * price`) and all rendering.
- The "Search Collection" input of the trade page, which no logic reads.
- `TradeRoute.TradeStore.Post`: the stored trade is returned serialised by `NextResponse.json`; trades here are values, and in-place updates of stored trades by the accept and reject routes, whose source is not part of this model, are out of scope.
- `TradePage.TradeForm.HandleCreateTrade`: `isCreatingTrade` is true only while the request is awaited; the model has no interleaving, so only its final value (false) is stated. Toasts other than the outcome are not modelled, and the message of the `TypeError` thrown for an unknown selected id is represented by `ItemLookupFailed`.
- `AdminPage.AdminPanel.FetchTrades`: the effect runs on every change of the wallet text; the model is one run, and `isLoading`'s interim true value is not stated.
- `app/api/solana-nfts.js`, `app/import/page.tsx`, `app/trade/success/page.tsx`, `app/page.tsx`, `app/index.js`, `app/admin/create-trade/page.tsx` and `components/*`: an external API client, navigation, clipboard access and presentation.
