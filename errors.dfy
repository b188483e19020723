/** Errors and results of the craft_skins program.
    `ErrorCode` is the program's own error enumeration; `Error` adds the failures that
    come from the libraries it calls and the aborts (`assert_eq!`, `unwrap`) that end
    the transaction. */
module Errors {

  /** The program's own error codes, in declaration order. Several of them
      (TokenOwnerInvalid, WrongCreators, NotEnoughToken, TokenMintMismatch,
      EscrowNotInitialized) are declared but never returned by the program. */
  datatype ErrorCode =
    | TokenAmountInvalid
    | TokenOwnerInvalid
    | TokenMintInvalid
    | NotInitialized
    | WrongCreators
    | NotEnoughToken
    | DerivedKeyInvalid
    | CollectionUnverified
    | CollectionKeyInvalid
    | TokenMintMismatch
    | EscrowNotInitialized

  datatype Error =
    | Program(code: ErrorCode)     // `Err(ErrorCode::X.into())`
    | Panic                        // a failed `assert_eq!` or an `unwrap` of None/Err
    | InvalidAccountData           // token account bytes that the SPL token layout does not unpack
    | DataTypeMismatch             // account bytes that the metadata library does not read as metadata
    | Uninitialized                // token account unpacked but not initialised
    | IncorrectOwner               // account not owned by the expected program
    | MetadataDerivedKeyInvalid    // the metadata library's derivation check failed
    | InvalidEditionKey            // the master-edition check failed
    | ConstraintSeeds              // an account does not sit at its seeds' derived address
    | CpiFailed                    // an invoked program (token, associated token) refused

  /** Rust's `Result`, usable with `:-` as Rust's `?`. */
  datatype Result<+T> = Ok(value: T) | Err(error: Error) {
    predicate IsFailure() { Err? }
    function PropagateFailure<U>(): Result<U> requires Err? { Err(error) }
    function Extract(): T requires Ok? { value }
  }
}
