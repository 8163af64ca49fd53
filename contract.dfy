/** The music ownable contract (templates/music-ownable/src/contract.rs).

    Each entry point is specified twice, on purpose: a pure `...Step` function says what the
    entry point does to a snapshot of storage and what it returns, and a method of the class
    `Contract` performs it the way the contract does, loading items into locals, changing them
    and saving them back. Each method's postcondition ties it to its step function; the
    properties of the contract are proved about the step functions in `ContractProperties`. */
module MusicOwnable {
  import opened Wrappers
  import opened Cosmwasm
  import opened OwnableStd
  import opened Msg
  import opened StateItems
  import opened Caip2

  /** The contract's error type. `Unauthorized` is raised both without a reason (by `execute`)
      and with one (on the release path). `NftNotStored` stands for the panic of unwrapping an
      NFT item that `instantiate` never saved. */
  datatype ContractError =
    | Std(err: StdError)
    | Unauthorized(reason: Option<string>)
    | Locked
    | LockError(val: string)
    | MatchEventError(val: string)
    | MatchChainIdError(val: string)
    | InvalidExternalEventArgs
    | NftNotStored

  /** What an entry point returns; the response attributes are not modelled. */
  type Outcome = Result<(), ContractError>

  /** The storage after an entry point, and its outcome. */
  datatype Step = Step(next: Storage, result: Outcome)

  /** The `ownable_type` text of the template, substituted when a project is generated. */
  const PlaceholderType := "PLACEHOLDER4_TYPE"

  /** The reason the release path gives a sender that does not own the locked NFT. */
  const OnlyOwnerCanRelease := "Only the owner can release an ownable"

  /** A u8 network id as the char `address_lto` takes (`network_id as char`). */
  function NetworkChar(id: u8): char {
    (id as int) as char
  }

  /** `attributes.get(key).cloned().unwrap_or_default()`. */
  function Attr(attributes: map<string, string>, key: string): string {
    if key in attributes then attributes[key] else ""
  }

  // ---------------------------------------------------------------- instantiate

  /** A failed instantiate writes nothing; a successful one leaves both lock flags false. */
  function InstantiateStep(s: Storage, codec: AddressCodec, info: MessageInfo, msg: InstantiateMsg): (r: Step)
    ensures r.result.Err? ==> r.next == s
    ensures r.result.Ok? ==>
      r.next.isLocked == Some(false) && r.next.state.Some? && !r.next.state.value.locked &&
      r.next.ownableInfo.Some? && r.next.ownableInfo.value.owner == r.next.ownableInfo.value.issuer
  {
    match codec.lto(NetworkChar(msg.networkId), info.sender)
    case Err(e) => Step(s, Err(Std(e)))
    case Ok(derived) =>
      Step(
        Storage(
          state := Some(State(msg.name, msg.description, info.sender, false, Music)),
          ownableInfo := Some(OwnableInfo(derived, derived, Some(PlaceholderType))),
          isLocked := Some(false),
          nft := if msg.nft.Some? then msg.nft else s.nft,
          networkId := Some(msg.networkId),
          packageCid := Some(msg.package)),
        Ok(()))
  }

  // ---------------------------------------------------------------- execute

  /** A refused execute message writes nothing; an accepted one was sent by the stored owner. */
  function ExecuteStep(s: Storage, info: MessageInfo, msg: ExecuteMsg): (r: Step)
    ensures r.result.Err? ==> r.next == s
    ensures r.result.Ok? ==> s.state.Some? && info.sender == s.state.value.owner && r.next.state.Some?
  {
    if s.state.None? then Step(s, Err(Std(NotFound(StateKey))))
    else
      var state := s.state.value;
      if info.sender != state.owner then Step(s, Err(Unauthorized(None)))
      else
        match msg
        case Transfer(recipient) =>
          if state.locked then Step(s, Err(Locked))
          else Step(s.(state := Some(state.(owner := recipient))), Ok(()))
        case Lock =>
          Step(s.(state := Some(state.(locked := true))), Ok(()))
  }

  // ---------------------------------------------------------------- external events

  /** The checks of `try_register_lock`, in their order, ending in the address the ownable is
      released to; an error is the first check that failed. */
  function LockTarget(s: Storage, codec: AddressCodec, info: MessageInfo, event: ExternalEventMsg): (r: Result<Addr, ContractError>)
    ensures r.Ok? ==>
      s.nft.Some? && s.networkId.Some? && event.network == Some(s.nft.value.network) &&
      Namespace(s.nft.value.network) == "eip155" &&
      s.nft.value.id == Attr(event.attributes, "token_id") &&
      s.nft.value.address == Attr(event.attributes, "contract")
  {
    var owner := Attr(event.attributes, "owner");
    var nftId := Attr(event.attributes, "token_id");
    var contractAddr := Attr(event.attributes, "contract");
    if owner == "" || nftId == "" || contractAddr == "" then Err(InvalidExternalEventArgs)
    else if s.nft.None? then Err(NftNotStored)
    else if s.nft.value.id != nftId then Err(LockError("nft_id mismatch"))
    else if s.nft.value.address != contractAddr then Err(LockError("locking contract mismatch"))
    else
      var network := event.network.GetOr("");
      if network == "" then Err(MatchChainIdError("No network"))
      else if network != s.nft.value.network then Err(LockError("network mismatch"))
      else if Namespace(network) != "eip155" then Err(MatchChainIdError(network))
      else
        match codec.eip155(info.sender)
        case Err(e) => Err(Std(e))
        case Ok(senderAddr) =>
          match codec.eip155(owner)
          case Err(e) => Err(Std(e))
          case Ok(ownerAddr) =>
            if senderAddr != ownerAddr then Err(Unauthorized(Some(OnlyOwnerCanRelease)))
            else if s.networkId.None? then Err(Std(NotFound(NetworkIdKey)))
            else
              match codec.lto(NetworkChar(s.networkId.value), owner)
              case Err(e) => Err(Std(e))
              case Ok(to) => Ok(to)
  }

  /** A release succeeds only from a locked `LOCKED` item, which it clears; a failed one writes nothing. */
  function ReleaseStep(s: Storage, to: Addr): (r: Step)
    ensures r.result.Err? ==> r.next == s
    ensures r.result.Ok? <==> s.isLocked == Some(true) && s.ownableInfo.Some?
    ensures r.result.Ok? ==> r.next.isLocked == Some(false) && r.next.ownableInfo == Some(s.ownableInfo.value.(owner := to))
  {
    if s.isLocked.None? then Step(s, Err(Std(NotFound(LockedKey))))
    else if !s.isLocked.value then Step(s, Err(LockError("Not locked")))
    else if s.ownableInfo.None? then Step(s, Err(Std(NotFound(OwnableInfoKey))))
    else Step(s.(ownableInfo := Some(s.ownableInfo.value.(owner := to)), isLocked := Some(false)), Ok(()))
  }

  /** A failed lock event writes nothing; a successful one found `LOCKED` true and cleared it. */
  function RegisterLockStep(s: Storage, codec: AddressCodec, info: MessageInfo, event: ExternalEventMsg): (r: Step)
    ensures r.result.Err? ==> r.next == s
    ensures r.result.Ok? ==> s.isLocked == Some(true) && r.next.isLocked == Some(false)
  {
    match LockTarget(s, codec, info, event)
    case Err(e) => Step(s, Err(e))
    case Ok(to) => ReleaseStep(s, to)
  }

  /** Only a "lock" event can succeed; a failed event writes nothing. */
  function RegisterExternalEventStep(s: Storage, codec: AddressCodec, info: MessageInfo, event: ExternalEventMsg): (r: Step)
    ensures r.result.Err? ==> r.next == s
    ensures r.result.Ok? ==> event.eventType == "lock" && s.isLocked == Some(true) && r.next.isLocked == Some(false)
  {
    if event.eventType == "lock" then RegisterLockStep(s, codec, info, event)
    else Step(s, Err(MatchEventError(event.eventType)))
  }

  // ---------------------------------------------------------------- queries

  /** Fails only when `STATE` was never saved; otherwise reports its name, description and type. */
  function QueryInfo(s: Storage): (r: Result<InfoResponse, StdError>)
    ensures r.Err? <==> s.state.None?
    ensures r.Err? ==> r.error == NotFound(StateKey)
    ensures r.Ok? ==>
      r.value.name == s.state.value.name && r.value.description == s.state.value.description &&
      r.value.ownableType == s.state.value.ownableType
  {
    if s.state.None? then Err(NotFound(StateKey))
    else Ok(InfoResponse(s.state.value.name, s.state.value.description, s.state.value.ownableType))
  }

  /** Reads the `STATE` flag, never the `LOCKED` item. */
  function QueryLocked(s: Storage): (r: Result<bool, StdError>)
    ensures r.Err? <==> s.state.None?
    ensures r.Err? ==> r.error == NotFound(StateKey)
    ensures r.Ok? ==> r.value == s.state.value.locked
  {
    if s.state.None? then Err(NotFound(StateKey))
    else Ok(s.state.value.locked)
  }

  const WidgetPrefix := "{\"name\":\""
  const WidgetMiddle := "\",\"description\":\""
  const WidgetSuffix := "\",\"type\":\"music\"}"

  /** The widget state document; name and description are inserted without any JSON escaping. */
  function WidgetJson(name: string, description: string): string {
    WidgetPrefix + name + WidgetMiddle + description + WidgetSuffix
  }

  /** Fails only when `STATE` was never saved; otherwise the document starts with the stored
      name and always ends with type "music", whatever the stored ownable type. */
  function QueryWidgetState(s: Storage): (r: Result<WidgetStateResponse, StdError>)
    ensures r.Err? <==> s.state.None?
    ensures r.Err? ==> r.error == NotFound(StateKey)
    ensures r.Ok? ==> WidgetPrefix + s.state.value.name <= r.value.state
    ensures r.Ok? ==>
      |r.value.state| >= |WidgetSuffix| && r.value.state[|r.value.state| - |WidgetSuffix|..] == WidgetSuffix
  {
    if s.state.None? then Err(NotFound(StateKey))
    else Ok(WidgetStateResponse(WidgetJson(s.state.value.name, s.state.value.description)))
  }

  // ---------------------------------------------------------------- the contract's storage

  /** The contract instance: one field per storage item. */
  class Contract {
    var state: Option<State>
    var ownableInfo: Option<OwnableInfo>
    var isLocked: Option<bool>
    var nftItem: Option<Nft>
    var networkId: Option<u8>
    var packageCid: Option<string>

    function Snapshot(): Storage
      reads this
    {
      Storage(state, ownableInfo, isLocked, nftItem, networkId, packageCid)
    }

    /** A contract whose storage holds nothing yet. */
    constructor ()
      ensures Snapshot() == Empty
    {
      state, ownableInfo, isLocked, nftItem, networkId, packageCid := None, None, None, None, None, None;
    }

    method Instantiate(codec: AddressCodec, info: MessageInfo, msg: InstantiateMsg) returns (r: Outcome)
      modifies this
      ensures var step := InstantiateStep(old(Snapshot()), codec, info, msg);
        Snapshot() == step.next && r == step.result
    {
      var derived := codec.lto(NetworkChar(msg.networkId), info.sender);
      if derived.Err? {
        return Err(Std(derived.error));
      }
      var ownable := OwnableInfo(derived.value, derived.value, Some(PlaceholderType));
      networkId := Some(msg.networkId);
      if msg.nft.Some? {
        nftItem := Some(msg.nft.value);
      }
      isLocked := Some(false);
      ownableInfo := Some(ownable);
      packageCid := Some(msg.package);
      state := Some(State(msg.name, msg.description, info.sender, false, Music));
      r := Ok(());
    }

    method Execute(info: MessageInfo, msg: ExecuteMsg) returns (r: Outcome)
      modifies this
      ensures var step := ExecuteStep(old(Snapshot()), info, msg);
        Snapshot() == step.next && r == step.result
    {
      if state.None? {
        return Err(Std(NotFound(StateKey)));
      }
      var current := state.value;
      if info.sender != current.owner {
        return Err(Unauthorized(None));
      }
      match msg {
        case Transfer(recipient) =>
          if current.locked {
            return Err(Locked);
          }
          current := current.(owner := recipient);
          state := Some(current);
        case Lock =>
          current := current.(locked := true);
          state := Some(current);
      }
      r := Ok(());
    }

    method RegisterExternalEvent(codec: AddressCodec, info: MessageInfo, event: ExternalEventMsg) returns (r: Outcome)
      modifies this
      ensures var step := RegisterExternalEventStep(old(Snapshot()), codec, info, event);
        Snapshot() == step.next && r == step.result
    {
      if event.eventType == "lock" {
        r := TryRegisterLock(codec, info, event);
      } else {
        r := Err(MatchEventError(event.eventType));
      }
    }

    method TryRelease(to: Addr) returns (r: Outcome)
      modifies this
      ensures var step := ReleaseStep(old(Snapshot()), to);
        Snapshot() == step.next && r == step.result
    {
      if isLocked.None? {
        return Err(Std(NotFound(LockedKey)));
      }
      var locked := isLocked.value;
      if !locked {
        return Err(LockError("Not locked"));
      }
      if ownableInfo.None? {
        return Err(Std(NotFound(OwnableInfoKey)));
      }
      var ownership := ownableInfo.value;
      ownership := ownership.(owner := to);
      locked := false;
      ownableInfo := Some(ownership);
      isLocked := Some(locked);
      r := Ok(());
    }

    method TryRegisterLock(codec: AddressCodec, info: MessageInfo, event: ExternalEventMsg) returns (r: Outcome)
      modifies this
      ensures var step := RegisterLockStep(old(Snapshot()), codec, info, event);
        Snapshot() == step.next && r == step.result
    {
      var owner := Attr(event.attributes, "owner");
      var nftId := Attr(event.attributes, "token_id");
      var contractAddr := Attr(event.attributes, "contract");
      if owner == "" || nftId == "" || contractAddr == "" {
        return Err(InvalidExternalEventArgs);
      }
      if nftItem.None? {
        return Err(NftNotStored);
      }
      var nft := nftItem.value;
      if nft.id != nftId {
        return Err(LockError("nft_id mismatch"));
      } else if nft.address != contractAddr {
        return Err(LockError("locking contract mismatch"));
      }
      var network := event.network.GetOr("");
      if network == "" {
        return Err(MatchChainIdError("No network"));
      } else if network != nft.network {
        return Err(LockError("network mismatch"));
      }
      var namespace := Namespace(network);
      if namespace != "eip155" {
        return Err(MatchChainIdError(network));
      }
      var senderAddr := codec.eip155(info.sender);
      if senderAddr.Err? {
        return Err(Std(senderAddr.error));
      }
      var ownerAddr := codec.eip155(owner);
      if ownerAddr.Err? {
        return Err(Std(ownerAddr.error));
      }
      if senderAddr.value != ownerAddr.value {
        return Err(Unauthorized(Some(OnlyOwnerCanRelease)));
      }
      if networkId.None? {
        return Err(Std(NotFound(NetworkIdKey)));
      }
      var to := codec.lto(NetworkChar(networkId.value), owner);
      if to.Err? {
        return Err(Std(to.error));
      }
      r := TryRelease(to.value);
    }
  }
}
