/** What the music ownable guarantees, proved about the step functions of `MusicOwnable`. */
module ContractProperties {
  import opened Wrappers
  import opened Cosmwasm
  import opened OwnableStd
  import opened Msg
  import opened StateItems
  import opened Text
  import opened Caip2
  import opened MusicOwnable

  // ---------------------------------------------------------------- execute

  /** Any execute message from a sender other than the stored owner fails with Unauthorized
      and writes nothing; the owner check precedes the lock check, so this holds on a locked
      ownable too. */
  lemma ExecuteByNonOwner(s: Storage, info: MessageInfo, msg: ExecuteMsg)
    requires s.state.Some? && info.sender != s.state.value.owner
    ensures ExecuteStep(s, info, msg) == Step(s, Err(Unauthorized(None)))
  {
  }

  /** Transfer by the owner: refused with Locked on a locked ownable; otherwise the owner
      becomes the recipient and every other field of every item is kept. */
  lemma TransferByOwner(s: Storage, info: MessageInfo, recipient: Addr)
    requires s.state.Some? && info.sender == s.state.value.owner
    ensures var step := ExecuteStep(s, info, Transfer(recipient));
      if s.state.value.locked then step == Step(s, Err(Locked))
      else
        step.result == Ok(()) &&
        step.next.state.Some? && step.next.state.value.owner == recipient &&
        step.next.state.value.name == s.state.value.name &&
        step.next.state.value.description == s.state.value.description &&
        step.next.state.value.locked == s.state.value.locked &&
        step.next.state.value.ownableType == s.state.value.ownableType &&
        step.next.(state := s.state) == s
  {
  }

  /** Lock by the owner sets the `STATE` flag, keeps the owner and every other item. */
  lemma LockByOwner(s: Storage, info: MessageInfo)
    requires s.state.Some? && info.sender == s.state.value.owner
    ensures var step := ExecuteStep(s, info, Lock);
      step.result == Ok(()) &&
      step.next.state == Some(s.state.value.(locked := true)) &&
      step.next.state.value.owner == s.state.value.owner &&
      step.next.(state := s.state) == s
  {
  }

  /** Locking twice is the same as locking once, and the second Lock succeeds as well. */
  lemma LockIdempotent(s: Storage, info: MessageInfo)
    requires ExecuteStep(s, info, Lock).result.Ok?
    ensures var once := ExecuteStep(s, info, Lock).next;
      ExecuteStep(once, info, Lock) == Step(once, Ok(()))
  {
  }

  /** `execute` touches only `STATE`. */
  lemma ExecuteWritesOnlyState(s: Storage, info: MessageInfo, msg: ExecuteMsg)
    ensures ExecuteStep(s, info, msg).next.(state := s.state) == s
  {
  }

  // ---------------------------------------------------------------- instantiate

  /** After a successful instantiate: the ownership record's owner and issuer are both the
      derived address, both lock flags are false, `STATE.owner` is the raw sender, and the NFT
      item is written only when the message carries one. A failing derivation writes nothing. */
  lemma InstantiateEffects(s: Storage, codec: AddressCodec, info: MessageInfo, msg: InstantiateMsg)
    ensures var step := InstantiateStep(s, codec, info, msg);
      match codec.lto(NetworkChar(msg.networkId), info.sender)
      case Err(e) => step == Step(s, Err(Std(e)))
      case Ok(derived) =>
        step.result == Ok(()) &&
        step.next.ownableInfo.Some? &&
        step.next.ownableInfo.value.owner == derived &&
        step.next.ownableInfo.value.issuer == derived &&
        step.next.isLocked == Some(false) &&
        step.next.state.Some? && !step.next.state.value.locked &&
        step.next.state.value.owner == info.sender &&
        step.next.state.value.name == msg.name &&
        step.next.state.value.description == msg.description &&
        step.next.networkId == Some(msg.networkId) &&
        (msg.nft.Some? ==> step.next.nft == msg.nft) &&
        (msg.nft.None? ==> step.next.nft == s.nft)
  {
  }

  // ---------------------------------------------------------------- external events

  /** Only "lock" events are handled; anything else fails with its own type and writes nothing. */
  lemma OtherEventsRejected(s: Storage, codec: AddressCodec, info: MessageInfo, event: ExternalEventMsg)
    requires event.eventType != "lock"
    ensures RegisterExternalEventStep(s, codec, info, event) == Step(s, Err(MatchEventError(event.eventType)))
  {
  }

  /** The external-event path never writes `STATE`, the NFT, the network id or the package. */
  lemma EventWritesOnlyOwnershipAndLockedFlag(s: Storage, codec: AddressCodec, info: MessageInfo, event: ExternalEventMsg)
    ensures var next := RegisterExternalEventStep(s, codec, info, event).next;
      next.(ownableInfo := s.ownableInfo, isLocked := s.isLocked) == s
  {
  }

  /** True when the lock event passes the first `k` checks of `try_register_lock`. */
  predicate PassesChecks(s: Storage, codec: AddressCodec, info: MessageInfo, event: ExternalEventMsg, k: nat) {
    var owner := Attr(event.attributes, "owner");
    var network := event.network.GetOr("");
    (k >= 1 ==> owner != "" && Attr(event.attributes, "token_id") != "" && Attr(event.attributes, "contract") != "") &&
    (k >= 2 ==> s.nft.Some? && s.nft.value.id == Attr(event.attributes, "token_id")) &&
    (k >= 3 ==> s.nft.Some? && s.nft.value.address == Attr(event.attributes, "contract")) &&
    (k >= 4 ==> network != "") &&
    (k >= 5 ==> s.nft.Some? && network == s.nft.value.network) &&
    (k >= 6 ==> Namespace(network) == "eip155") &&
    (k >= 7 ==> codec.eip155(info.sender).Ok? && codec.eip155(owner).Ok? &&
                codec.eip155(info.sender).value == codec.eip155(owner).value)
  }

  /** The checks of `try_register_lock` run in a fixed order and the first failing one decides
      the error. After the seven listed checks come the failures of the derivations and of the
      network id load: the sender's eip155 derivation, then the owner's, then (once the two
      addresses agree) loading `NETWORK_ID`, then the owner's LTO derivation. */
  lemma LockCheckOrder(s: Storage, codec: AddressCodec, info: MessageInfo, event: ExternalEventMsg)
    ensures !PassesChecks(s, codec, info, event, 1) ==>
      LockTarget(s, codec, info, event) == Err(InvalidExternalEventArgs)
    ensures PassesChecks(s, codec, info, event, 1) && s.nft.None? ==>
      LockTarget(s, codec, info, event) == Err(NftNotStored)
    ensures PassesChecks(s, codec, info, event, 1) && s.nft.Some? && !PassesChecks(s, codec, info, event, 2) ==>
      LockTarget(s, codec, info, event) == Err(LockError("nft_id mismatch"))
    ensures PassesChecks(s, codec, info, event, 2) && !PassesChecks(s, codec, info, event, 3) ==>
      LockTarget(s, codec, info, event) == Err(LockError("locking contract mismatch"))
    ensures PassesChecks(s, codec, info, event, 3) && !PassesChecks(s, codec, info, event, 4) ==>
      LockTarget(s, codec, info, event) == Err(MatchChainIdError("No network"))
    ensures PassesChecks(s, codec, info, event, 4) && !PassesChecks(s, codec, info, event, 5) ==>
      LockTarget(s, codec, info, event) == Err(LockError("network mismatch"))
    ensures PassesChecks(s, codec, info, event, 5) && !PassesChecks(s, codec, info, event, 6) ==>
      LockTarget(s, codec, info, event) == Err(MatchChainIdError(event.network.GetOr("")))
    ensures PassesChecks(s, codec, info, event, 6) && codec.eip155(info.sender).Ok? &&
            codec.eip155(Attr(event.attributes, "owner")).Ok? && !PassesChecks(s, codec, info, event, 7) ==>
      LockTarget(s, codec, info, event) == Err(Unauthorized(Some(OnlyOwnerCanRelease)))
    ensures PassesChecks(s, codec, info, event, 6) && codec.eip155(info.sender).Err? ==>
      LockTarget(s, codec, info, event) == Err(Std(codec.eip155(info.sender).error))
    ensures PassesChecks(s, codec, info, event, 6) && codec.eip155(info.sender).Ok? &&
            codec.eip155(Attr(event.attributes, "owner")).Err? ==>
      LockTarget(s, codec, info, event) == Err(Std(codec.eip155(Attr(event.attributes, "owner")).error))
    ensures PassesChecks(s, codec, info, event, 7) && s.networkId.None? ==>
      LockTarget(s, codec, info, event) == Err(Std(NotFound(NetworkIdKey)))
    ensures PassesChecks(s, codec, info, event, 7) && s.networkId.Some? &&
            codec.lto(NetworkChar(s.networkId.value), Attr(event.attributes, "owner")).Err? ==>
      LockTarget(s, codec, info, event) ==
        Err(Std(codec.lto(NetworkChar(s.networkId.value), Attr(event.attributes, "owner")).error))
  {
  }

  /** A lock event reaches the release exactly when it passes every check, the network id is
      stored and the owner's address derives; it is then released to that address. */
  lemma LockTargetFound(s: Storage, codec: AddressCodec, info: MessageInfo, event: ExternalEventMsg)
    ensures var r := LockTarget(s, codec, info, event);
      var owner := Attr(event.attributes, "owner");
      r.Ok? <==>
        (PassesChecks(s, codec, info, event, 7) && s.networkId.Some? &&
         codec.lto(NetworkChar(s.networkId.value), owner).Ok?)
    ensures var r := LockTarget(s, codec, info, event);
      r.Ok? ==> r.value == codec.lto(NetworkChar(s.networkId.value), Attr(event.attributes, "owner")).value
  {
  }

  /** Release of an unlocked ownable fails with "Not locked" and writes nothing; release of a
      locked one hands the ownership record to `to` and clears `LOCKED`, and nothing else. */
  lemma ReleaseEffects(s: Storage, to: Addr)
    requires s.isLocked.Some?
    ensures var step := ReleaseStep(s, to);
      if !s.isLocked.value then step == Step(s, Err(LockError("Not locked")))
      else if s.ownableInfo.None? then step == Step(s, Err(Std(NotFound(OwnableInfoKey))))
      else
        step.result == Ok(()) &&
        step.next.isLocked == Some(false) &&
        step.next.ownableInfo == Some(s.ownableInfo.value.(owner := to)) &&
        step.next.state == s.state &&
        step.next.(ownableInfo := s.ownableInfo, isLocked := s.isLocked) == s
  {
  }

  // ---------------------------------------------------------------- traces

  /** One call of an entry point. */
  datatype Op =
    | InstantiateOp(info: MessageInfo, instantiate: InstantiateMsg)
    | ExecuteOp(info: MessageInfo, execute: ExecuteMsg)
    | EventOp(info: MessageInfo, event: ExternalEventMsg)

  function Apply(s: Storage, codec: AddressCodec, op: Op): Step {
    match op
    case InstantiateOp(info, msg) => InstantiateStep(s, codec, info, msg)
    case ExecuteOp(info, msg) => ExecuteStep(s, info, msg)
    case EventOp(info, event) => RegisterExternalEventStep(s, codec, info, event)
  }

  /** The storage after running `ops` in order from `s` (a failing call keeps the storage). */
  function Run(s: Storage, codec: AddressCodec, ops: seq<Op>): Storage
    decreases |ops|
  {
    if ops == [] then s else Run(Apply(s, codec, ops[0]).next, codec, ops[1..])
  }

  /** What holds of every storage reachable from an empty one: `LOCKED` is never true, and it
      is present whenever the network id is. */
  predicate LockedFlagNeverSet(s: Storage) {
    s.isLocked != Some(true) && (s.networkId.Some? ==> s.isLocked.Some?)
  }

  lemma LockedFlagNeverSetStep(s: Storage, codec: AddressCodec, op: Op)
    requires LockedFlagNeverSet(s)
    ensures LockedFlagNeverSet(Apply(s, codec, op).next)
  {
  }

  lemma {:induction false} LockedFlagNeverSetRun(s: Storage, codec: AddressCodec, ops: seq<Op>)
    requires LockedFlagNeverSet(s)
    ensures LockedFlagNeverSet(Run(s, codec, ops))
    decreases |ops|
  {
    if ops != [] {
      LockedFlagNeverSetStep(s, codec, ops[0]);
      LockedFlagNeverSetRun(Apply(s, codec, ops[0]).next, codec, ops[1..]);
    }
  }

  /** Whatever entry points ran since the storage was empty, an external event never succeeds
      and never writes anything; a lock event that passes every check of `try_register_lock`
      ends in LockError "Not locked", because nothing ever sets `LOCKED` to true. */
  lemma {:induction false} ReleaseAlwaysNotLocked(codec: AddressCodec, ops: seq<Op>, info: MessageInfo, event: ExternalEventMsg)
    ensures var s := Run(Empty, codec, ops);
      var step := RegisterExternalEventStep(s, codec, info, event);
      step.next == s && step.result.Err? &&
      (event.eventType == "lock" && LockTarget(s, codec, info, event).Ok? ==>
        step.result == Err(LockError("Not locked")))
  {
    LockedFlagNeverSetRun(Empty, codec, ops);
  }

  predicate NoInstantiate(ops: seq<Op>) {
    forall i | 0 <= i < |ops| :: !ops[i].InstantiateOp?
  }

  /** Once `STATE` is locked, no execute message or external event changes it again. */
  lemma {:induction false} LockIsPermanent(s: Storage, codec: AddressCodec, ops: seq<Op>)
    requires s.state.Some? && s.state.value.locked
    requires NoInstantiate(ops)
    ensures Run(s, codec, ops).state == s.state
    decreases |ops|
  {
    if ops != [] {
      var next := Apply(s, codec, ops[0]).next;
      assert next.state == s.state;
      LockIsPermanent(next, codec, ops[1..]);
    }
  }

  /** After a successful Lock, every later Transfer fails: with Locked when sent by the owner
      who locked, with Unauthorized otherwise. */
  lemma TransferFailsAfterLock(s: Storage, codec: AddressCodec, locker: MessageInfo, ops: seq<Op>,
                               info: MessageInfo, recipient: Addr)
    requires ExecuteStep(s, locker, Lock).result.Ok?
    requires NoInstantiate(ops)
    ensures var t := Run(ExecuteStep(s, locker, Lock).next, codec, ops);
      ExecuteStep(t, info, Transfer(recipient)) ==
        Step(t, Err(if info.sender == locker.sender then Locked else Unauthorized(None)))
  {
    LockIsPermanent(ExecuteStep(s, locker, Lock).next, codec, ops);
  }

  /** The contract object itself: after instantiate and a Lock by the owner, `query_locked`
      answers true, yet any external event fails and leaves the storage as it was. */
  method LockThenRelease(codec: AddressCodec, owner: MessageInfo, msg: InstantiateMsg,
                         info: MessageInfo, event: ExternalEventMsg)
    returns (locked: Result<bool, StdError>, released: Outcome)
    requires codec.lto(NetworkChar(msg.networkId), owner.sender).Ok?
    ensures locked == Ok(true)
    ensures released.Err?
  {
    var c := new Contract();
    var r := c.Instantiate(codec, owner, msg);
    ghost var afterInstantiate := c.Snapshot();
    r := c.Execute(owner, Lock);
    locked := QueryLocked(c.Snapshot());
    ghost var ops := [InstantiateOp(owner, msg), ExecuteOp(owner, Lock)];
    assert Run(Empty, codec, ops) == c.Snapshot() by {
      assert Apply(Empty, codec, ops[0]).next == afterInstantiate;
      assert ops[1..] == [ExecuteOp(owner, Lock)];
      assert Apply(afterInstantiate, codec, ops[1]).next == c.Snapshot();
      assert Run(c.Snapshot(), codec, ops[1..][1..]) == c.Snapshot();
    }
    ReleaseAlwaysNotLocked(codec, ops, info, event);
    released := c.RegisterExternalEvent(codec, info, event);
  }

  /** The two lock flags are not linked: a successful Lock makes `query_locked` answer true
      while the `LOCKED` item the release path reads keeps its value. */
  lemma LockFlagsUnlinked(s: Storage, info: MessageInfo)
    requires ExecuteStep(s, info, Lock).result.Ok?
    ensures var next := ExecuteStep(s, info, Lock).next;
      QueryLocked(next) == Ok(true) && next.isLocked == s.isLocked
  {
  }

  // ---------------------------------------------------------------- queries

  /** `query_locked` answers the same whatever the `LOCKED` item holds. */
  lemma QueryLockedIgnoresLockedItem(s: Storage, item: Option<bool>)
    ensures QueryLocked(s.(isLocked := item)) == QueryLocked(s)
  {
  }

  /** Transfer and Lock never change what `query_info` reports. */
  lemma ExecuteKeepsInfo(s: Storage, info: MessageInfo, msg: ExecuteMsg)
    ensures QueryInfo(ExecuteStep(s, info, msg).next) == QueryInfo(s)
  {
  }

  /** Reads the name and description back out of a widget state document. This is not a JSON
      reader: each field ends at its first double quote and no escape sequence is decoded. */
  function ParseWidget(w: string): Option<(string, string)> {
    ParseFields(w, WidgetPrefix, WidgetMiddle, WidgetSuffix)
  }

  /** A name and description without double quotes are read back exactly by the
      quote-delimited reader `ParseWidget` (a JSON reader would also decode any backslash
      sequence in them). */
  lemma WidgetRoundTrip(name: string, description: string)
    requires '"' !in name && '"' !in description
    ensures ParseWidget(WidgetJson(name, description)) == Some((name, description))
  {
    FieldsRoundTrip(WidgetPrefix, WidgetMiddle, WidgetSuffix, name, description);
  }

  /** Every document ParseWidget accepts is the widget state of what it returns, and what it
      returns is quote-free. */
  lemma ParseWidgetSound(w: string)
    requires ParseWidget(w).Some?
    ensures WidgetJson(ParseWidget(w).value.0, ParseWidget(w).value.1) == w
    ensures '"' !in ParseWidget(w).value.0 && '"' !in ParseWidget(w).value.1
  {
    FieldsSound(w, WidgetPrefix, WidgetMiddle, WidgetSuffix);
  }

  /** Because nothing is escaped, different names and descriptions can give the same widget state. */
  lemma WidgetStateAmbiguous()
    ensures WidgetJson("x\",\"description\":\"y", "z") == WidgetJson("x", "y\",\"description\":\"z")
  {
  }

  /** The quote-delimited reader gets a stored quote-free name and description back out of the
      widget state. */
  lemma WidgetStateReportsStoredText(s: Storage)
    requires s.state.Some? && '"' !in s.state.value.name && '"' !in s.state.value.description
    ensures QueryWidgetState(s).Ok?
    ensures ParseWidget(QueryWidgetState(s).value.state) == Some((s.state.value.name, s.state.value.description))
  {
    WidgetRoundTrip(s.state.value.name, s.state.value.description);
  }
}
