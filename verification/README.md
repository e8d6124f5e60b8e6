# Qredit V2 API client — a Dafny model

The client library in this repository is a promise-based wrapper around the
Qredit V2 REST API. A client holds one base URL, fixed at construction. Each
method then does three things:

1. It builds a URL from a path and a query string. The query string comes from
   a fixed, ordered list of optional parameters: a parameter is appended as
   `name=value&` exactly when its argument is not `undefined`.
2. It issues one HTTP GET or POST. POST is used only by the four `search*`
   methods and `createTransaction`.
3. It settles the promise. It rejects with the transport error, and otherwise
   resolves with the parsed body.

Two methods deviate from step 3:
- `getBlockHeight` checks the reply's shape using JavaScript truthiness.
- `getWalletBalance` prints the integer balance, in minor units, as a decimal
  with exactly eight fractional digits.

The model is purely functional:

- `Js` — JavaScript values. It covers truthiness, property and index reads
  (which throw on `undefined`/`null`), and the string conversion `+` applies.
- `Query` — the optional-parameter encoder, exactly as the source's
  `querystring +=` lines run. A decoder (`name=value&` fields) is the reference
  the encoder is proved against.
- `Promise` — what the HTTP library delivers (`Ok(body)` or `TransportErr`) and
  how a promise ends. It can be resolved, rejected, or crashed. "Crashed" means
  an exception was thrown inside the callback: it escapes as an uncaught
  exception, and the promise never settles.
- `Height` — the `getBlockHeight` check.
- `Balance` — the `getWalletBalance` conversion, with a parser for its output.
  The parser proves the printed text carries the exact integer.
- `Client` — lib/qreditApi.js. The constructor, `getApiUrl`, one `Call`
  constructor per method, the endpoint table `TargetOf`, the request each call
  issues, and how each call's promise settles.
- `LegacyClient` — the older copy qreditApi.js at the repository root. It is
  related method by method to `Client`. Its constructor and `getApiUrl`
  (qreditApi.js:10-25) are identical to the lib ones, so they are modelled by
  `Client.New` and `Client.GetApiUrl`.
- `Decimal`, `Strings`, `Wrappers` — numerals, scanning and `Option`.

The HTTP exchange is a parameter: every settling function takes the
`Transport` value the library would have delivered.

## Model

| member | source | states |
|---|---|---|
| Client.New | lib/qreditApi.js:11-19 | an `undefined` argument stores `'https://qredit.cloud/api/v2'`; any other argument, null or "" included, is stored unchanged |
| Client.GetApiUrlAfterNew | lib/qreditApi.js:11-26 | `getApiUrl` on a new client returns the constructor's argument, or the default URL when that was undefined |
| Query.EncodeQueryIsPresentFields | lib/qreditApi.js:101-107 | running the `if (v !== undefined) querystring += name=v&` lines in order yields the `name=value&` fields of exactly the present parameters, in list order |
| Query.SentIffPresent | lib/qreditApi.js:103-107 | a parameter's key is sent iff its value is not undefined; falsy values such as 0 or "" are still sent, with their string form |
| Query.EmptyIffAllAbsent | lib/qreditApi.js:101-107 | the query string is "" iff every parameter is undefined |
| Query.NonEmptyEndsWithAmpersand | lib/qreditApi.js:103-107 | a non-empty query string always ends in '&' |
| Query.PresentAppend | lib/qreditApi.js:649-655 | the sent pairs of a concatenated list are the sent pairs of each part, in order, so declaration order is preserved |
| Query.DecodeEncodeQuery | lib/qreditApi.js:101-111 | reading the query back as `name=value&` fields gives exactly the present parameters with their texts, in declaration order |
| Query.FalsyValuesAreSent | lib/qreditApi.js:103-104 | `page = 0` and `id = ""` encode as `page=0&id=&`; all-undefined page/limit encode as "" |
| Client.RequestOf | lib/qreditApi.js:30-1405 | every URL starts with the base URL; only the search methods and `createTransaction` POST, and only they send a body; searches forward the caller's body unchanged; `createTransaction` sends `{transactions: transactions}` |
| Client.Settle | lib/qreditApi.js:35-41 | a transport error rejects with that error; every method except the height and balance lookups resolves with the body untouched; only the height lookup rejects with 'No Data'; only those two can throw |
| Client.QueryUrl | lib/qreditApi.js:298-308 | a method that builds a query requests base + path + '?' + the `name=value&` fields of exactly its present parameters, in declaration order, for every argument; when no argument's text holds '&', that query also reads back as those parameters |
| Client.AllAbsentKeepsQuestionMark | lib/qreditApi.js:1332-1339 | with every optional argument undefined the URL is base + path + '?' — the '?' stays |
| Client.ListBlocksQuery | lib/qreditApi.js:101-111 | for every argument, `listBlocks` requests `/blocks?` followed by the fields of page, limit, id, height, orderBy, each iff not undefined, in that order; without '&' in the arguments the query reads back as them |
| Client.GetPeersQuery | lib/qreditApi.js:647-659 | for every argument, `getPeers` requests `/peers?` followed by the fields of page, limit, port, status, os, version, orderBy, each iff not undefined, in that order; without '&' in the arguments the query reads back as them |
| Client.ListTransactionsQuery | lib/qreditApi.js:782-793 | for every argument, `listTransactions` requests `/transactions?` followed by the fields of page, limit, type, blockId, id, orderBy, each iff not undefined, in that order; without '&' in the arguments the query reads back as them |
| Client.SearchRequest | lib/qreditApi.js:256-263 | a search POSTs the caller's body unchanged, and its query is the fields of page and limit only, each iff not undefined; without '&' in them it reads back as them |
| Client.BlockHeightSettles | lib/qreditApi.js:56-73 | `{data:[{height:100,id:"abc"}]}` resolves to 100; a transport failure rejects with that failure, not 'No Data' |
| Js.FalsyValues | lib/qreditApi.js:63 | the values the `&&` chains and `if` guards treat as false are exactly undefined, null, false, 0 and "" |
| Height.SelectHeight | lib/qreditApi.js:63-73 | the `&&` chain: rejects only with 'No Data'; throws a TypeError only when body and `body.data` are both truthy; a resolved height is truthy and is `data[0].height`; the test passing implies resolution |
| Height.BlockHeight | lib/qreditApi.js:59-73 | a transport error rejects with the error before any shape check; 'No Data' only for a delivered body that fails the test; a passing body resolves with its height |
| Height.SelectHeightCases | lib/qreditApi.js:63-73 | throws iff data is truthy and `data[0]` is undefined or null; resolves iff the shape holds; otherwise rejects with 'No Data' |
| Height.WellFormedReplyResolves | lib/qreditApi.js:63-66 | `{data:[{height:h, id:i, ...}, ...]}` with truthy h and i resolves with h |
| Height.HeightZeroRejected | lib/qreditApi.js:63 | a reply with height 0 is rejected with 'No Data' |
| Height.EmptyIdRejected | lib/qreditApi.js:63 | a reply with id "" is rejected with 'No Data', whatever its height |
| Height.EmptyDataCrashes | lib/qreditApi.js:63 | `{data: []}` throws a TypeError on `data[0].height`; it is not a 'No Data' rejection |
| Balance.FormatScaled | lib/qreditApi.js:1148-1149 | the printed text has a '-' iff the balance is negative, and ends in '.' followed by exactly eight digits |
| Balance.FormatIsFixedText | lib/qreditApi.js:1149 | every printed balance has `toFixed(8)`'s form: optional '-', the integer part with no leading zero, '.', eight digits, and no '-' on zero |
| Balance.FixedTextRoundTrip | lib/qreditApi.js:1149 | conversely, every text of that form is exactly the printed text of the balance it reads back as |
| Balance.FormatScaledUnique | lib/qreditApi.js:1149 | the printed text is the only text of that form that reads back as the balance, so the integer part is fixed as well as the fraction |
| Balance.LeadingZeroNotPrinted | lib/qreditApi.js:1149 | "01.23456789" is not of the printed form; 123456789 prints as "1.23456789", not "01.23456789" |
| Balance.FormatParseRoundTrip | lib/qreditApi.js:1148-1149 | reading the printed text back and scaling by 10^8 gives exactly the integer balance: no rounding |
| Balance.IntegerTextRoundTrip | lib/qreditApi.js:1149 | the decimal text `String(n)` prints for an integer reads back as that integer |
| Balance.IntegerTextIsBigNumber | lib/qreditApi.js:1149 | every integer text is accepted by `new Big(...)`, so the scope restriction never excludes one |
| Balance.NumericBalance | lib/qreditApi.js:1146-1150 | a truthy numeric balance n is always converted: big.js reads `String(n)`, and the wallet resolves with n printed at scale 10^-8 |
| Balance.NonNumericTextCrashes | lib/qreditApi.js:1149 | a balance text big.js refuses, such as "abc", makes `new Big(...)` throw: the promise never settles |
| Balance.WalletBalance | lib/qreditApi.js:1146-1155 | never rejects; throws a TypeError iff the body is undefined or null; resolves "0" iff `body.data` or its balance is falsy; for a truthy balance, resolves iff its text is an integer, with a text that reads back as that integer, and otherwise throws from `new Big(...)` |
| Balance.GetWalletBalance | lib/qreditApi.js:1143-1155 | rejects iff the transport failed, and then with that error |
| Balance.IntegerBalance | lib/qreditApi.js:1146-1150 | a truthy balance whose text is an integer resolves with that integer printed at scale 10^-8 |
| Balance.ZeroTextIsConverted | lib/qreditApi.js:1146-1150 | the balance text "0" is truthy and resolves to "0.00000000", not "0" |
| Balance.ZeroNumberIsNotConverted | lib/qreditApi.js:1146-1155 | the number 0 is falsy and resolves to the literal "0" |
| Balance.MissingBalanceIsZero | lib/qreditApi.js:1152-1155 | `{data:{}}` resolves to the literal "0" |
| Balance.ExampleWallet | lib/qreditApi.js:1148-1150 | the balance "123456789" resolves to "1.23456789" |
| LegacyClient.RequestOf | qreditApi.js:29-370 | every URL starts with the base URL; only searchBlocks, searchTransactions and createTransaction POST; searches forward the body; createTransaction wraps it as `{transactions: ...}` |
| LegacyClient.Settle | qreditApi.js:55-73 | a transport error rejects with the error; every method but the height lookup resolves with the body; only the height lookup throws or rejects with 'No Data' |
| LegacyClient.AgreesWithLib | qreditApi.js:29-370 | every method of the older copy except `getBlockByHeight` issues the same request as the lib method with the missing optional parameters undefined |
| LegacyClient.ListBlocksAgrees | qreditApi.js:84-91 | the older `listBlocks` (page, limit only) requests what the lib `listBlocks` requests with id, height and orderBy undefined |
| LegacyClient.ListTransactionsAgrees | qreditApi.js:295-305 | the older `listTransactions` requests what the lib one requests with orderBy undefined |
| LegacyClient.ListTransactionsKeys | qreditApi.js:295-301 | the older `listTransactions` never sends `orderBy`, and sends its `blockid` argument under the key `blockId` |
| LegacyClient.BlockByHeightSlash | qreditApi.js:110 | the older `getBlockByHeight` requests `/blocks/?height=` where the lib requests `/blocks?height=`, so the two requests differ |
| LegacyClient.SettlesLikeLib | qreditApi.js:62-72 | both copies settle every shared method identically, including the height check |

## Left out

- The HTTP exchange is not modelled. This covers the `request` library, `json: true` parsing, headers and status codes. It is a parameter instead: the `Transport` the callback would receive.
- Concurrency is not modelled. Each call is independent and the client has no mutable state. Two calls with the same arguments give the same URL because the model's functions are pure, so no separate lemma states it.
- Numbers are safe integers: `Num` holds an integer of magnitude at most 2^53 - 1 (`Js.SafeInt`). `String(n)` prints those digit for digit. Above 2^53 it prints the shortest digits that round-trip, padded with zeros: `String(2**60)` is "1152921504606847000". The model does not compute that, so larger numbers are outside it, whether passed as query or path arguments or delivered as balances. Fractions, NaN, Infinity and `-0` are not modelled either.
- Balance.IntegerTextRoundTrip: a numeric balance converts as its decimal text only for safe integers, which are the only numbers `Num` can hold. For a larger integer, big.js reads the rounded `String(n)` text instead.
- Balance.NumericBalance: holds for safe integers only, for the same reason. A larger numeric balance cannot be written in the model.
- Property reads ignore inherited properties. For example, `length` on arrays and strings reads as undefined here.
- Balance.WalletBalance: requires that a balance which reaches big.js is either an integer text or a text big.js refuses. Decimal fractions and exponent forms such as "1.5" or "1e3" are accepted by big.js but are outside this model, because the conversion is modelled on integers.
- Balance.FormatScaled: a balance text of "-0" prints as "0.00000000", because integers have no negative zero. This assumes the big.js release in use drops the sign of zero in `toFixed`. The version is not pinned here.
- Query.DecodeEncodeQuery: holds only when no parameter name contains '=' and no value text contains '&'. The source escapes nothing, so other values produce a query that cannot be split unambiguously. The encoder itself is modelled for all values, and `Client.QueryUrl` and the per-method query lemmas state the URL for every argument. Only their read-back clause carries this condition.
- The endpoint methods are modelled as one table, `Client.TargetOf`, over one `Call` datatype. Per-method lemmas are given for `listBlocks`, `getPeers`, `listTransactions` and the searches. Every other listing is covered by the generic `Client.QueryUrl`.
- example.js and index.js are not part of this model. They are console demos.
- On `getBlockHeight`, an empty result list might be expected to fail with 'No Data'. The code instead throws a TypeError on `body.data[0].height` when `data` is `[]`, and the model follows the code: `Height.EmptyDataCrashes`.
- On `getWalletBalance`, "0" is not only the answer for a missing balance field. The code returns "0" whenever `body.data` or the balance is falsy, which includes the number 0, and the model follows the code: `Balance.ZeroNumberIsNotConverted`.
