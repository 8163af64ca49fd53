/** The messages and responses of the music ownable (templates/music-ownable/src/msg.rs, with the
    fields the `ownables_*` macros add). */
module Msg {
  import opened Wrappers
  import opened Cosmwasm
  import opened OwnableStd

  datatype InstantiateMsg = InstantiateMsg(
    name: string,
    description: string,
    package: string,
    nft: Option<Nft>,
    networkId: u8)

  datatype ExecuteMsg = Transfer(recipient: Addr) | Lock

  datatype InfoResponse = InfoResponse(name: string, description: string, ownableType: OwnableType)

  datatype WidgetStateResponse = WidgetStateResponse(state: string)
}
