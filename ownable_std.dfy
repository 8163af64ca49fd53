/** Types and foreign calls the contract takes from the ownable_std crate. */
module OwnableStd {
  import opened Wrappers
  import opened Cosmwasm

  /** The kind of an ownable. This template only ever stores `Music`. */
  datatype OwnableType = Music

  /** The NFT an ownable is bound to: its token id, the NFT contract address and the CAIP-2
      chain id of the network it lives on. */
  datatype Nft = Nft(id: string, address: string, network: string)

  /** Ownership record derived from chain addresses. */
  datatype OwnableInfo = OwnableInfo(owner: Addr, issuer: Addr, ownableType: Option<string>)

  /** An event observed on another chain and relayed to the ownable. */
  datatype ExternalEventMsg = ExternalEventMsg(
    network: Option<string>,
    eventType: string,
    attributes: map<string, string>)

  /** `address_lto` and `address_eip155` are address derivations implemented outside the
      contract. They are parameters of the model: any pair of partial functions. */
  datatype AddressCodec = AddressCodec(
    lto: (char, string) -> Result<Addr, StdError>,
    eip155: string -> Result<string, StdError>)
}
