/** How an awaited call settles. A contract read, a provider request or an async
    function either fulfils with a value or rejects with the thrown error, whose
    message is kept as a string. */
module Await {

  datatype Settled<T> = Fulfilled(value: T) | Rejected(reason: string)

  datatype Option<T> = None | Some(value: T)
}
