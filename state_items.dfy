/** The storage items of the music ownable (templates/music-ownable/src/state.rs). */
module StateItems {
  import opened Wrappers
  import opened Cosmwasm
  import opened OwnableStd

  /** The `STATE` item. Its `locked` flag is the one `execute` uses. */
  datatype State = State(
    name: string,
    description: string,
    owner: Addr,
    locked: bool,
    ownableType: OwnableType)

  /** A snapshot of every modelled storage item; `None` is an item that was never saved.
      `isLocked` is the separate `LOCKED` item used by the external-event path. */
  datatype Storage = Storage(
    state: Option<State>,
    ownableInfo: Option<OwnableInfo>,
    isLocked: Option<bool>,
    nft: Option<Nft>,
    networkId: Option<u8>,
    packageCid: Option<string>)

  /** Storage before `instantiate`. */
  const Empty := Storage(None, None, None, None, None, None)

  // Storage keys, as `Item::new` declares them.
  const StateKey := "state"
  const OwnableInfoKey := "ownable_info"
  const LockedKey := "is_locked"
  const NftKey := "nft"
  const NetworkIdKey := "network_id"
}
