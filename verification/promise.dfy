/** How a method's promise ends. The HTTP library calls back with either an
    error or a parsed body; the callback then resolves, rejects, or throws.
    A throw inside the callback is not a rejection: it escapes to the event
    loop as an uncaught exception and the promise never settles. */
module Promise {
  import opened Js

  /** What the HTTP library hands the callback. */
  datatype Transport = Ok(body: JsValue) | TransportErr(cause: string)

  /** The two rejection values the client produces. */
  datatype Reason =
    | TransportFailure(cause: string)  // `reject(error)`
    | NoData                           // `reject('No Data')`, block height only

  /** Exceptions thrown inside the callback. */
  datatype Fault =
    | TypeError       // a property read on undefined or null
    | InvalidNumber   // big.js refusing a balance text

  datatype Outcome =
    | Resolved(value: JsValue)
    | Rejected(reason: Reason)
    | Crashed(fault: Fault)
}
