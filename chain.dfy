/**
 * Outcomes of the calls the handler makes into collaborators it does not
 * own: the configuration parser, the Ethereum JSON-RPC client, the key
 * parser and the contract bindings. Each such call either yields a value
 * or fails with an error the model does not look inside.
 */
module Chain {

  /** `Some(v)` for a present value, `None` for Go's `nil`. */
  datatype Option<+T> = None | Some(value: T)

  /**
   * An error returned by a collaborator. `NotFound` is go-ethereum's
   * `ethereum.NotFound` sentinel, the only error the handler compares
   * against; every other error is opaque and identified by a code.
   */
  datatype ChainError = NotFound | Opaque(code: nat)

  /** The `(value, err)` pair of a fallible Go call. */
  datatype Result<+T> = Ok(value: T) | Err(error: ChainError)
}
