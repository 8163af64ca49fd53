/** The few pieces of the host framework (cosmwasm_std) that the contract touches. */
module Cosmwasm {

  /** An account address; the contract compares addresses only as strings. */
  type Addr = string

  /** Rust's `u8`, the type of the stored network id. */
  newtype u8 = x: int | 0 <= x < 256

  /** The framework's error type. `NotFound` is what loading a storage item that was never saved
      returns; the model names the item by its storage key. `Generic` carries any other failure,
      in particular those of the foreign address derivations. */
  datatype StdError = NotFound(item: string) | Generic(msg: string)

  /** The transaction sender, the only part of `MessageInfo` the contract reads. */
  datatype MessageInfo = MessageInfo(sender: Addr)
}
