/** The client of lib/qreditApi.js: a base URL fixed at construction and one
    method per remote resource. Every method is the same three steps — build
    the URL (and body), issue one HTTP request, settle the promise — so the
    methods are modelled as one table, `TargetOf`, over a `Call` datatype
    naming the method and carrying its arguments. The HTTP exchange itself is
    a parameter (`Transport`). */
module Client {
  import opened Wrappers
  import opened Js
  import opened Query
  import opened Promise
  import Height
  import Balance

  /** The production endpoint used when no base URL is given. */
  const DefaultApiUrl: string := "https://qredit.cloud/api/v2"

  /** The only state a client holds, never changed after construction. */
  datatype Config = Config(apiUrl: JsValue)

  /** The constructor: `undefined` selects the default, anything else — even
      null or "" — is stored as given. */
  function New(apiUrl: JsValue): (c: Config)
    ensures apiUrl == Undefined ==> c.apiUrl == Str(DefaultApiUrl)
    ensures apiUrl != Undefined ==> c.apiUrl == apiUrl
  {
    if apiUrl == Undefined then Config(Str(DefaultApiUrl)) else Config(apiUrl)
  }

  function GetApiUrl(c: Config): JsValue {
    c.apiUrl
  }

  /** `getApiUrl` on a fresh client returns the constructor's argument, or
      the default when that was undefined. */
  lemma GetApiUrlAfterNew(apiUrl: JsValue)
    ensures GetApiUrl(New(apiUrl)) == (if apiUrl == Undefined then Str(DefaultApiUrl) else apiUrl)
    ensures GetApiUrl(New(apiUrl)) != Undefined
  {
  }

  datatype HttpMethod = Get | Post

  /** The request handed to the HTTP library (always with `json: true`). */
  datatype Request = Request(verb: HttpMethod, url: string, body: Option<JsValue>)

  /** A method of the client, with the caller's arguments. Arguments are
      arbitrary JavaScript values; an omitted one is `Undefined`. */
  datatype Call =
    | GetBlockChain
    | GetBlockHeight
    | ListBlocks(page: JsValue, limit: JsValue, id: JsValue, height: JsValue, orderBy: JsValue)
    | GetBlockByHeight(height: JsValue)
    | GetBlockByID(id: JsValue)
    | GetTransactionsByBlockID(id: JsValue)
    | SearchBlocks(page: JsValue, limit: JsValue, body: JsValue)
    | ListDelegates(page: JsValue, limit: JsValue, orderBy: JsValue)
    | GetDelegate(identifier: JsValue)
    | GetDelegateBlocks(identifier: JsValue, page: JsValue, limit: JsValue)
    | GetDelegateVoters(identifier: JsValue, page: JsValue, limit: JsValue)
    | SearchDelegates(page: JsValue, limit: JsValue, body: JsValue)
    | GetNodeConfig
    | GetNodeCryptoConfig
    | GetNodeFeeStats
    | GetNodeStatus
    | GetNodeSyncStatus
    | GetPeers(page: JsValue, limit: JsValue, port: JsValue, status: JsValue, os: JsValue, version: JsValue, orderBy: JsValue)
    | GetPeerByIP(ip: JsValue)
    | CreateTransaction(transactions: JsValue)
    | GetTransactionByID(id: JsValue)
    | ListTransactions(page: JsValue, limit: JsValue, txType: JsValue, blockId: JsValue, id: JsValue, orderBy: JsValue)
    | ListUnconfirmedTransactions(page: JsValue, limit: JsValue)
    | GetUnconfirmedTransactionByID(id: JsValue)
    | SearchTransactions(page: JsValue, limit: JsValue, body: JsValue)
    | GetTransactionTypes
    | GetTransactionFees
    | ListVotes(page: JsValue, limit: JsValue, orderBy: JsValue)
    | GetVoteByID(id: JsValue)
    | ListWallets(page: JsValue, limit: JsValue, orderBy: JsValue)
    | GetWalletByID(id: JsValue)
    | GetWalletBalance(id: JsValue)
    | GetWalletTransactions(id: JsValue, page: JsValue, limit: JsValue)
    | GetWalletReceivedTransactions(id: JsValue, page: JsValue, limit: JsValue)
    | GetWalletSentTransactions(id: JsValue, page: JsValue, limit: JsValue)
    | GetWalletVotes(id: JsValue, page: JsValue, limit: JsValue)
    | GetTopWallets(page: JsValue, limit: JsValue)
    | SearchWallets(page: JsValue, limit: JsValue, body: JsValue)

  /** The four search methods: POST a caller-supplied filter object. */
  predicate IsSearch(call: Call) {
    call.SearchBlocks? || call.SearchDelegates? || call.SearchTransactions? || call.SearchWallets?
  }

  /** Where a call goes: its HTTP method, the path appended to the base URL,
      the method's optional-parameter list when it builds a query string, and
      the request body. */
  datatype Target = Target(verb: HttpMethod, path: string, query: Option<seq<Param>>, body: Option<JsValue>)

  function Paging(page: JsValue, limit: JsValue): seq<Param> {
    [Param("page", page), Param("limit", limit)]
  }

  /** `'/prefix/' + arg + suffix`, the way path arguments are concatenated. */
  function Under(prefix: string, arg: JsValue, suffix: string): string {
    prefix + ToJsString(arg) + suffix
  }

  function Plain(path: string): Target {
    Target(Get, path, None, None)
  }

  function Listing(path: string, params: seq<Param>): Target {
    Target(Get, path, Some(params), None)
  }

  function Search(path: string, page: JsValue, limit: JsValue, body: JsValue): Target {
    Target(Post, path, Some(Paging(page, limit)), Some(body))
  }

  /** The endpoint table: each method's path, parameter list in declaration
      order, and body. */
  function TargetOf(call: Call): Target {
    match call
    case GetBlockChain => Plain("/blockchain")
    case GetBlockHeight => Plain("/blocks?limit=1")
    case ListBlocks(page, limit, id, height, orderBy) =>
      Listing("/blocks", Paging(page, limit) + [Param("id", id), Param("height", height), Param("orderBy", orderBy)])
    case GetBlockByHeight(height) => Plain("/blocks?height=" + ToJsString(height))
    case GetBlockByID(id) => Plain(Under("/blocks/", id, ""))
    case GetTransactionsByBlockID(id) => Plain(Under("/blocks/", id, "/transactions"))
    case SearchBlocks(page, limit, body) => Search("/blocks/search", page, limit, body)
    case ListDelegates(page, limit, orderBy) =>
      Listing("/delegates", Paging(page, limit) + [Param("orderBy", orderBy)])
    case GetDelegate(identifier) => Plain(Under("/delegates/", identifier, ""))
    case GetDelegateBlocks(identifier, page, limit) =>
      Listing(Under("/delegates/", identifier, "/blocks"), Paging(page, limit))
    case GetDelegateVoters(identifier, page, limit) =>
      Listing(Under("/delegates/", identifier, "/voters"), Paging(page, limit))
    case SearchDelegates(page, limit, body) => Search("/delegates/search", page, limit, body)
    case GetNodeConfig => Plain("/node/configuration")
    case GetNodeCryptoConfig => Plain("/node/configuration/crypto")
    case GetNodeFeeStats => Plain("/node/fees")
    case GetNodeStatus => Plain("/node/status")
    case GetNodeSyncStatus => Plain("/node/syncing")
    case GetPeers(page, limit, port, status, os, version, orderBy) =>
      Listing("/peers", Paging(page, limit) + [Param("port", port), Param("status", status),
        Param("os", os), Param("version", version), Param("orderBy", orderBy)])
    case GetPeerByIP(ip) => Plain(Under("/peers/", ip, ""))
    case CreateTransaction(transactions) =>
      Target(Post, "/transactions", None, Some(Obj(map["transactions" := transactions])))
    case GetTransactionByID(id) => Plain(Under("/transactions/", id, ""))
    case ListTransactions(page, limit, txType, blockId, id, orderBy) =>
      Listing("/transactions", Paging(page, limit) + [Param("type", txType), Param("blockId", blockId),
        Param("id", id), Param("orderBy", orderBy)])
    case ListUnconfirmedTransactions(page, limit) => Listing("/transactions/unconfirmed", Paging(page, limit))
    case GetUnconfirmedTransactionByID(id) => Plain(Under("/transactions/unconfirmed/", id, ""))
    case SearchTransactions(page, limit, body) => Search("/transactions/search", page, limit, body)
    case GetTransactionTypes => Plain("/transactions/types")
    case GetTransactionFees => Plain("/transactions/fees")
    case ListVotes(page, limit, orderBy) => Listing("/votes", Paging(page, limit) + [Param("orderBy", orderBy)])
    case GetVoteByID(id) => Plain(Under("/votes/", id, ""))
    case ListWallets(page, limit, orderBy) => Listing("/wallets", Paging(page, limit) + [Param("orderBy", orderBy)])
    case GetWalletByID(id) => Plain(Under("/wallets/", id, ""))
    case GetWalletBalance(id) => Plain(Under("/wallets/", id, ""))
    case GetWalletTransactions(id, page, limit) =>
      Listing(Under("/wallets/", id, "/transactions"), Paging(page, limit))
    case GetWalletReceivedTransactions(id, page, limit) =>
      Listing(Under("/wallets/", id, "/transactions/received"), Paging(page, limit))
    case GetWalletSentTransactions(id, page, limit) =>
      Listing(Under("/wallets/", id, "/transactions/sent"), Paging(page, limit))
    case GetWalletVotes(id, page, limit) => Listing(Under("/wallets/", id, "/votes"), Paging(page, limit))
    case GetTopWallets(page, limit) => Listing("/wallets/top", Paging(page, limit))
    case SearchWallets(page, limit, body) => Search("/wallets/search", page, limit, body)
  }

  /** The base URL as `this.apiURL + ...` renders it. */
  function Base(c: Config): string {
    ToJsString(c.apiUrl)
  }

  /** The full URL of a target: base + path, then '?' + query for a method
      that builds one — the '?' is there even when the query is empty. */
  function UrlOf(c: Config, t: Target): string {
    Base(c) + t.path + (if t.query.Some? then "?" + EncodeQuery(t.query.value) else "")
  }

  /** The request a call issues. Only the search methods and
      `createTransaction` POST, and only they send a body: the searches
      forward the caller's object unchanged, `createTransaction` wraps its
      argument as `{transactions: ...}`. Every URL starts with the base. */
  function RequestOf(c: Config, call: Call): (r: Request)
    ensures Base(c) <= r.url
    ensures r.verb == Post <==> IsSearch(call) || call.CreateTransaction?
    ensures r.body.Some? <==> r.verb == Post
    ensures IsSearch(call) ==> r.body == Some(call.body)
    ensures call.CreateTransaction? ==> r.body == Some(Obj(map["transactions" := call.transactions]))
  {
    var t := TargetOf(call);
    Request(t.verb, UrlOf(c, t), t.body)
  }

  /** How the promise ends for a call whose HTTP exchange went as `t`. A
      transport error rejects with that error; otherwise every method but two
      resolves with the body as delivered, without looking at it. Only the
      height lookup can reject with 'No Data', and only it and the balance
      lookup can throw. */
  function Settle(call: Call, t: Transport): (o: Outcome)
    requires call.GetWalletBalance? && t.Ok? ==> Balance.InScope(t.body)
    ensures t.TransportErr? ==> o == Rejected(TransportFailure(t.cause))
    ensures t.Ok? && !call.GetBlockHeight? && !call.GetWalletBalance? ==> o == Resolved(t.body)
    ensures o == Rejected(NoData) ==> call.GetBlockHeight?
    ensures o.Crashed? ==> call.GetBlockHeight? || call.GetWalletBalance?
  {
    if call.GetBlockHeight? then Height.BlockHeight(t)
    else if call.GetWalletBalance? then Balance.GetWalletBalance(t)
    else
      match t
      case TransportErr(cause) => Rejected(TransportFailure(cause))
      case Ok(body) => Resolved(body)
  }

  /** The URL of a method that builds a query: base + path + '?', then the
      `name=value&` fields of exactly the present parameters, in the method's
      declaration order. When no name holds '=' and no value's text holds
      '&', the query also reads back as those parameters. */
  lemma QueryUrl(c: Config, call: Call)
    requires TargetOf(call).query.Some?
    ensures
      var t := TargetOf(call);
      var head := Base(c) + t.path + "?";
      var url := RequestOf(c, call).url;
      && url == head + EncodePairs(Present(t.query.value))
      && (Separable(t.query.value) ==> DecodeQuery(url[|head|..]) == Some(Present(t.query.value)))
  {
    TargetUrl(c, TargetOf(call));
  }

  lemma TargetUrl(c: Config, t: Target)
    requires t.query.Some?
    ensures
      var head := Base(c) + t.path + "?";
      && UrlOf(c, t) == head + EncodePairs(Present(t.query.value))
      && (Separable(t.query.value) ==> DecodeQuery(UrlOf(c, t)[|head|..]) == Some(Present(t.query.value)))
  {
    var head := Base(c) + t.path + "?";
    var q := EncodeQuery(t.query.value);
    assert UrlOf(c, t) == head + q;
    EncodeQueryIsPresentFields(t.query.value);
    if Separable(t.query.value) {
      assert (head + q)[|head|..] == q;
      DecodeEncodeQuery(t.query.value);
    }
  }

  /** With every optional argument undefined, the URL still ends in '?'. */
  lemma AllAbsentKeepsQuestionMark(c: Config, call: Call)
    requires TargetOf(call).query.Some?
    requires forall i :: 0 <= i < |TargetOf(call).query.value| ==> !IsPresent(TargetOf(call).query.value[i])
    ensures RequestOf(c, call).url == Base(c) + TargetOf(call).path + "?"
  {
    EmptyIffAllAbsent(TargetOf(call).query.value);
  }

  /** No separator in any argument's text, so fields can be read back. */
  predicate NoAmpersand(vs: seq<JsValue>) {
    forall i :: 0 <= i < |vs| ==> vs[i] != Undefined ==> '&' !in ToJsString(vs[i])
  }

  /** A listing's URL, once its parameter list is known to carry the
      caller's values in order under names without '='. */
  lemma ListingQuery(c: Config, call: Call, ps: seq<Param>, vs: seq<JsValue>)
    requires TargetOf(call).query == Some(ps)
    requires |ps| == |vs|
    requires forall i :: 0 <= i < |ps| ==> ps[i].value == vs[i] && '=' !in ps[i].name
    ensures
      var head := Base(c) + TargetOf(call).path + "?";
      var url := RequestOf(c, call).url;
      && url == head + EncodePairs(Present(ps))
      && (NoAmpersand(vs) ==> DecodeQuery(url[|head|..]) == Some(Present(ps)))
  {
    QueryUrl(c, call);
    if NoAmpersand(vs) {
      assert Separable(ps);
    }
  }

  /** listBlocks sends page, limit, id, height, orderBy — each exactly when
      not undefined, in that order — to /blocks. */
  lemma ListBlocksQuery(c: Config, page: JsValue, limit: JsValue, id: JsValue, height: JsValue, orderBy: JsValue)
    ensures
      var head := Base(c) + "/blocks" + "?";
      var url := RequestOf(c, ListBlocks(page, limit, id, height, orderBy)).url;
      var sent := Present([Param("page", page), Param("limit", limit),
        Param("id", id), Param("height", height), Param("orderBy", orderBy)]);
      && url == head + EncodePairs(sent)
      && (NoAmpersand([page, limit, id, height, orderBy]) ==> DecodeQuery(url[|head|..]) == Some(sent))
  {
    var call := ListBlocks(page, limit, id, height, orderBy);
    var ps := [Param("page", page), Param("limit", limit), Param("id", id), Param("height", height),
      Param("orderBy", orderBy)];
    assert TargetOf(call).query.value == ps;
    ListingQuery(c, call, ps, [page, limit, id, height, orderBy]);
  }

  /** getPeers sends page, limit, port, status, os, version, orderBy — each
      exactly when not undefined, in that order — to /peers. */
  lemma GetPeersQuery(c: Config, page: JsValue, limit: JsValue, port: JsValue, status: JsValue,
                      os: JsValue, version: JsValue, orderBy: JsValue)
    ensures
      var head := Base(c) + "/peers" + "?";
      var url := RequestOf(c, GetPeers(page, limit, port, status, os, version, orderBy)).url;
      var sent := Present([Param("page", page), Param("limit", limit),
        Param("port", port), Param("status", status), Param("os", os), Param("version", version),
        Param("orderBy", orderBy)]);
      && url == head + EncodePairs(sent)
      && (NoAmpersand([page, limit, port, status, os, version, orderBy]) ==> DecodeQuery(url[|head|..]) == Some(sent))
  {
    var call := GetPeers(page, limit, port, status, os, version, orderBy);
    var ps := [Param("page", page), Param("limit", limit), Param("port", port), Param("status", status),
      Param("os", os), Param("version", version), Param("orderBy", orderBy)];
    assert TargetOf(call).query.value == ps;
    ListingQuery(c, call, ps, [page, limit, port, status, os, version, orderBy]);
  }

  /** listTransactions sends page, limit, type, blockId, id, orderBy — each
      exactly when not undefined, in that order — to /transactions. */
  lemma ListTransactionsQuery(c: Config, page: JsValue, limit: JsValue, txType: JsValue, blockId: JsValue,
                              id: JsValue, orderBy: JsValue)
    ensures
      var head := Base(c) + "/transactions" + "?";
      var url := RequestOf(c, ListTransactions(page, limit, txType, blockId, id, orderBy)).url;
      var sent := Present([Param("page", page), Param("limit", limit),
        Param("type", txType), Param("blockId", blockId), Param("id", id), Param("orderBy", orderBy)]);
      && url == head + EncodePairs(sent)
      && (NoAmpersand([page, limit, txType, blockId, id, orderBy]) ==> DecodeQuery(url[|head|..]) == Some(sent))
  {
    var call := ListTransactions(page, limit, txType, blockId, id, orderBy);
    var ps := [Param("page", page), Param("limit", limit), Param("type", txType), Param("blockId", blockId),
      Param("id", id), Param("orderBy", orderBy)];
    assert TargetOf(call).query.value == ps;
    ListingQuery(c, call, ps, [page, limit, txType, blockId, id, orderBy]);
  }

  /** A search puts only page and limit in the query and POSTs the caller's
      body unchanged. */
  lemma SearchRequest(c: Config, call: Call)
    requires IsSearch(call)
    ensures
      var head := Base(c) + TargetOf(call).path + "?";
      var r := RequestOf(c, call);
      var sent := Present([Param("page", call.page), Param("limit", call.limit)]);
      && r.verb == Post
      && r.body == Some(call.body)
      && r.url == head + EncodePairs(sent)
      && (NoAmpersand([call.page, call.limit]) ==> DecodeQuery(r.url[|head|..]) == Some(sent))
  {
    var ps := [Param("page", call.page), Param("limit", call.limit)];
    assert TargetOf(call).query == Some(ps);
    ListingQuery(c, call, ps, [call.page, call.limit]);
  }

  /** The example reply to the height lookup resolves to 100, while a
      transport failure rejects with that failure, not with 'No Data'. */
  lemma BlockHeightSettles(cause: string)
    ensures Settle(GetBlockHeight, TransportErr(cause)) == Rejected(TransportFailure(cause))
    ensures Settle(GetBlockHeight, Ok(Obj(map["data" := Arr([Obj(map["height" := Num(100), "id" := Str("abc")])])])))
      == Resolved(Num(100))
  {
    Height.ExampleReply();
  }
}
