/**
 * The exceptions the core raises or passes through. Each constructor names the
 * Python exception class it stands for and the situation that raises it.
 */
module Errors {

  /** A `ccxt.BaseError` raised by the exchange library: its class name and message. */
  datatype Fault = Fault(kind: string, message: string)

  datatype Error =
    | AccountExists(id: string)    // ValueError: the id is already in the account table
    | AccountNotFound(id: string)  // ValueError: the id is not in the account table
    | MissingField(field: string)  // ValueError: a required credential is absent or empty
    | NoAccounts                   // ValueError: market data asked for with no account configured
    | KeyMissing(key: string)      // KeyError: a stored record lacks a field read with `[]`
    | DecryptFailed                // RuntimeError: a stored secret is not a token of this key
    | InjectionFailed              // RuntimeError: the client's options hold no broker table
    | CreateFailed(cause: Error)   // RuntimeError raised by the client factory around `cause`
    | ToolFailed(cause: Error)     // RuntimeError raised by the tool wrapper around `cause`
    | Ccxt(fault: Fault)           // a ccxt.BaseError, passed through unchanged
    | Other(message: string)       // any other exception raised inside library code
  {
    predicate IsValueError() {
      AccountExists? || AccountNotFound? || MissingField? || NoAccounts?
    }

    predicate IsRuntimeError() {
      DecryptFailed? || InjectionFailed? || CreateFailed? || ToolFailed?
    }
  }
}
