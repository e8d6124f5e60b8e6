/** The older copy of the client, qreditApi.js at the repository root. It has
    the same constructor and `getApiUrl`, a subset of the methods, fewer
    optional parameters on the listings, and one path that differs. Each of
    its methods is related to the lib method of the same name. */
module LegacyClient {
  import opened Wrappers
  import opened Js
  import opened Query
  import opened Promise
  import Height
  import Client

  /** The methods the older copy defines, with their arguments. */
  datatype Call =
    | GetBlockChain
    | GetBlockHeight
    | ListBlocks(page: JsValue, limit: JsValue)
    | GetBlockByHeight(height: JsValue)
    | GetBlockByID(id: JsValue)
    | GetTransactionsByBlockID(id: JsValue)
    | SearchBlocks(page: JsValue, limit: JsValue, body: JsValue)
    | CreateTransaction(transactions: JsValue)
    | GetTransactionByID(id: JsValue)
    | ListTransactions(page: JsValue, limit: JsValue, txType: JsValue, blockid: JsValue, id: JsValue)
    | SearchTransactions(page: JsValue, limit: JsValue, body: JsValue)

  /** The older copy's endpoint table. */
  function TargetOf(call: Call): Client.Target {
    match call
    case GetBlockChain => Client.Plain("/blockchain")
    case GetBlockHeight => Client.Plain("/blocks?limit=1")
    case ListBlocks(page, limit) => Client.Listing("/blocks", Client.Paging(page, limit))
    case GetBlockByHeight(height) => Client.Plain("/blocks/?height=" + ToJsString(height))
    case GetBlockByID(id) => Client.Plain(Client.Under("/blocks/", id, ""))
    case GetTransactionsByBlockID(id) => Client.Plain(Client.Under("/blocks/", id, "/transactions"))
    case SearchBlocks(page, limit, body) => Client.Search("/blocks/search", page, limit, body)
    case CreateTransaction(transactions) =>
      Client.Target(Client.Post, "/transactions", None, Some(Obj(map["transactions" := transactions])))
    case GetTransactionByID(id) => Client.Plain(Client.Under("/transactions/", id, ""))
    case ListTransactions(page, limit, txType, blockid, id) =>
      Client.Listing("/transactions", Client.Paging(page, limit) +
        [Param("type", txType), Param("blockId", blockid), Param("id", id)])
    case SearchTransactions(page, limit, body) => Client.Search("/transactions/search", page, limit, body)
  }

  /** The request a call of the older copy issues. */
  function RequestOf(c: Client.Config, call: Call): (r: Client.Request)
    ensures Client.Base(c) <= r.url
    ensures r.verb == Client.Post <==> call.SearchBlocks? || call.SearchTransactions? || call.CreateTransaction?
    ensures call.SearchBlocks? || call.SearchTransactions? ==> r.body == Some(call.body)
    ensures call.CreateTransaction? ==> r.body == Some(Obj(map["transactions" := call.transactions]))
  {
    var t := TargetOf(call);
    Client.Request(t.verb, Client.UrlOf(c, t), t.body)
  }

  /** How a call's promise ends: as in the lib copy, only the height lookup
      inspects the body. */
  function Settle(call: Call, t: Transport): (o: Outcome)
    ensures t.TransportErr? ==> o == Rejected(TransportFailure(t.cause))
    ensures t.Ok? && !call.GetBlockHeight? ==> o == Resolved(t.body)
    ensures o.Crashed? || o == Rejected(NoData) ==> call.GetBlockHeight?
  {
    if call.GetBlockHeight? then Height.BlockHeight(t)
    else
      match t
      case TransportErr(cause) => Rejected(TransportFailure(cause))
      case Ok(body) => Resolved(body)
  }

  /** The lib method of the same name, with the optional parameters the
      older copy lacks left undefined. */
  function Counterpart(call: Call): Client.Call {
    match call
    case GetBlockChain => Client.GetBlockChain
    case GetBlockHeight => Client.GetBlockHeight
    case ListBlocks(page, limit) => Client.ListBlocks(page, limit, Undefined, Undefined, Undefined)
    case GetBlockByHeight(height) => Client.GetBlockByHeight(height)
    case GetBlockByID(id) => Client.GetBlockByID(id)
    case GetTransactionsByBlockID(id) => Client.GetTransactionsByBlockID(id)
    case SearchBlocks(page, limit, body) => Client.SearchBlocks(page, limit, body)
    case CreateTransaction(transactions) => Client.CreateTransaction(transactions)
    case GetTransactionByID(id) => Client.GetTransactionByID(id)
    case ListTransactions(page, limit, txType, blockid, id) =>
      Client.ListTransactions(page, limit, txType, blockid, id, Undefined)
    case SearchTransactions(page, limit, body) => Client.SearchTransactions(page, limit, body)
  }

  /** Every method of the older copy but `getBlockByHeight` issues exactly
      the request the lib copy issues when the extra parameters are omitted:
      an undefined parameter adds nothing to the query. */
  lemma AgreesWithLib(c: Client.Config, call: Call)
    requires !call.GetBlockByHeight?
    ensures RequestOf(c, call) == Client.RequestOf(c, Counterpart(call))
  {
    match call
    case ListBlocks(page, limit) => ListBlocksAgrees(c, page, limit);
    case ListTransactions(page, limit, txType, blockid, id) =>
      ListTransactionsAgrees(c, page, limit, txType, blockid, id);
    case _ =>
  }

  lemma ListBlocksAgrees(c: Client.Config, page: JsValue, limit: JsValue)
    ensures RequestOf(c, ListBlocks(page, limit)) == Client.RequestOf(c, Counterpart(ListBlocks(page, limit)))
  {
    var ps := Client.Paging(page, limit);
    var tail := [Param("id", Undefined), Param("height", Undefined), Param("orderBy", Undefined)];
    assert TargetOf(ListBlocks(page, limit)) == Client.Listing("/blocks", ps);
    assert Client.TargetOf(Counterpart(ListBlocks(page, limit))) == Client.Listing("/blocks", ps + tail);
    ListingAgrees(c, "/blocks", ps, tail);
  }

  lemma ListTransactionsAgrees(c: Client.Config, page: JsValue, limit: JsValue, txType: JsValue, blockid: JsValue, id: JsValue)
    ensures var call := ListTransactions(page, limit, txType, blockid, id);
      RequestOf(c, call) == Client.RequestOf(c, Counterpart(call))
  {
    var call := ListTransactions(page, limit, txType, blockid, id);
    var ps := Client.Paging(page, limit) + [Param("type", txType), Param("blockId", blockid), Param("id", id)];
    var tail := [Param("orderBy", Undefined)];
    assert Client.Paging(page, limit) + [Param("type", txType), Param("blockId", blockid),
      Param("id", id), Param("orderBy", Undefined)] == ps + tail;
    assert TargetOf(call) == Client.Listing("/transactions", ps);
    assert Client.TargetOf(Counterpart(call)) == Client.Listing("/transactions", ps + tail);
    ListingAgrees(c, "/transactions", ps, tail);
  }

  /** A listing with extra undefined parameters requests the same thing. */
  lemma ListingAgrees(c: Client.Config, path: string, ps: seq<Param>, tail: seq<Param>)
    requires forall i :: 0 <= i < |tail| ==> tail[i].value == Undefined
    ensures Client.UrlOf(c, Client.Listing(path, ps)) == Client.UrlOf(c, Client.Listing(path, ps + tail))
  {
    UndefinedTailAddsNothing(ps, tail);
  }

  /** Appending parameters that are all undefined leaves the query as it was. */
  lemma UndefinedTailAddsNothing(ps: seq<Param>, tail: seq<Param>)
    requires forall i :: 0 <= i < |tail| ==> tail[i].value == Undefined
    ensures EncodeQuery(ps + tail) == EncodeQuery(ps)
  {
    EncodeQueryAppend(ps, tail);
    EmptyIffAllAbsent(tail);
  }

  /** The promises settle alike in both copies, for every method they share. */
  lemma SettlesLikeLib(call: Call, t: Transport)
    ensures Settle(call, t) == Client.Settle(Counterpart(call), t)
  {
  }

  /** `getBlockByHeight` is the one path that differs: the older copy puts a
      '/' before the '?'. */
  lemma BlockByHeightSlash(c: Client.Config, height: JsValue)
    ensures RequestOf(c, GetBlockByHeight(height)).url == Client.Base(c) + ("/blocks/?height=" + ToJsString(height))
    ensures Client.RequestOf(c, Client.GetBlockByHeight(height)).url == Client.Base(c) + ("/blocks?height=" + ToJsString(height))
    ensures RequestOf(c, GetBlockByHeight(height)) != Client.RequestOf(c, Client.GetBlockByHeight(height))
  {
    var h := ToJsString(height);
    assert TargetOf(GetBlockByHeight(height)) == Client.Plain("/blocks/?height=" + h);
    assert Client.TargetOf(Client.GetBlockByHeight(height)) == Client.Plain("/blocks?height=" + h);
    DifferAt(Client.Base(c), "/blocks/?height=" + h, "/blocks?height=" + h, 7);
  }

  /** Strings with a common prefix differ when their remainders differ at some index. */
  lemma DifferAt(base: string, a: string, b: string, i: nat)
    requires i < |a| && i < |b| && a[i] != b[i]
    ensures base + a != base + b
  {
    assert (base + a)[|base| + i] == a[i];
    assert (base + b)[|base| + i] == b[i];
  }

  /** The older `listTransactions` never sends `orderBy`, and sends `blockid`
      under the key `blockId`. */
  lemma ListTransactionsKeys(c: Client.Config, page: JsValue, limit: JsValue, txType: JsValue, blockid: JsValue, id: JsValue)
    ensures "orderBy" !in Keys(Present(TargetOf(ListTransactions(page, limit, txType, blockid, id)).query.value))
    ensures blockid != Undefined ==>
      ("blockId", ToJsString(blockid)) in Present(TargetOf(ListTransactions(page, limit, txType, blockid, id)).query.value)
  {
    var ps := TargetOf(ListTransactions(page, limit, txType, blockid, id)).query.value;
    NameNotEarlier(ps, "orderBy");
    if blockid != Undefined {
      SentIffPresent(ps, 3);
    }
  }
}
