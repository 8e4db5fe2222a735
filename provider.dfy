/** `LensSmartPostProvider` (frontend/src/context/useLensSmartPost.tsx): the React state it keeps,
    the browser storage it reads and writes, and the operations that change them — `refresh`, the
    login and address-change effects, `clear` and `disconnect`. */
module Provider {
  import opened Wrappers
  import opened Numerals
  import opened Types
  import opened OrderedMaps
  import opened BlockWindows
  import opened Persisted
  import opened EventSync

  const HandleKey := "handle"
  const ProfileIdKey := "profileId"
  const AddressKey := "address"

  predicate IsIdentityKey(k: string)
  {
    k == HandleKey || k == ProfileIdKey || k == AddressKey
  }

  /** `if (s)` on a stored string: `null` and `""` are falsy. */
  predicate Truthy(s: Option<string>)
  {
    s.Some? && s.value != ""
  }

  /** `address === storedAddress`: the connected address is `undefined` without a wallet and a missing
      key reads as `null`, so the two are equal only when both are strings and the same string. */
  predicate SameAddress(address: Option<string>, stored: Option<string>)
  {
    address.Some? && stored == address
  }

  /** The user-facing part of the provider's state. */
  datatype Identity = Identity(handle: Option<string>, profileId: Option<JsNumber>)

  /** The three `setItem` calls of the login effect. */
  function LoginStore(store: Store, data: LoginData): (r: Store)
    ensures forall k :: !IsIdentityKey(k) ==> (k in r <==> k in store) && (k in store ==> r[k] == store[k])
    ensures GetItem(r, HandleKey) == Some(data.handle.localName)
    ensures GetItem(r, ProfileIdKey) == Some(data.id)
    ensures GetItem(r, AddressKey) == Some(data.ownedBy.address)
  {
    store[HandleKey := data.handle.localName][ProfileIdKey := data.id][AddressKey := data.ownedBy.address]
  }

  /** What the address-change effect sets `handle` and `profileId` to. */
  function RestoredIdentity(store: Store, address: Option<string>): (r: Identity)
    ensures r.handle.Some? <==> Truthy(GetItem(store, HandleKey)) && SameAddress(address, GetItem(store, AddressKey))
    ensures r.handle.Some? ==> r.handle.value == store[HandleKey]
    ensures r.profileId.Some? <==> Truthy(GetItem(store, ProfileIdKey)) && SameAddress(address, GetItem(store, AddressKey))
    ensures r.profileId.Some? ==> r.profileId.value == ParseInt(store[ProfileIdKey], 16)
  {
    var storedHandle := GetItem(store, HandleKey);
    var storedProfileId := GetItem(store, ProfileIdKey);
    var storedAddress := GetItem(store, AddressKey);
    Identity(
      if Truthy(storedHandle) && SameAddress(address, storedAddress) then storedHandle else None,
      if Truthy(storedProfileId) && SameAddress(address, storedAddress) then Some(ParseInt(storedProfileId.value, 16)) else None)
  }

  /** The three `removeItem` calls of `disconnect`. */
  function DisconnectStore(store: Store): (r: Store)
    ensures forall k :: k in r <==> k in store && !IsIdentityKey(k)
    ensures forall k :: k in r ==> r[k] == store[k]
  {
    store - {HandleKey, ProfileIdKey, AddressKey}
  }

  /** After a login, reconnecting with the same address restores the handle and the profile id the
      login set, except that an empty handle or id reads back as absent. */
  lemma LoginThenRestore(store: Store, data: LoginData)
    ensures RestoredIdentity(LoginStore(store, data), Some(data.ownedBy.address)) ==
      Identity(if data.handle.localName != "" then Some(data.handle.localName) else None,
               if data.id != "" then Some(ParseInt(data.id, 16)) else None)
  {
  }

  /** A different wallet, or no wallet, sees neither the handle nor the profile id of a login. */
  lemma LoginThenOtherAddress(store: Store, data: LoginData, address: Option<string>)
    requires address != Some(data.ownedBy.address)
    ensures RestoredIdentity(LoginStore(store, data), address) == Identity(None, None)
  {
  }

  /** After `disconnect` nothing is restored, whatever address connects next. */
  lemma DisconnectThenRestore(store: Store, address: Option<string>)
    ensures RestoredIdentity(DisconnectStore(store), address) == Identity(None, None)
  {
    assert GetItem(DisconnectStore(store), HandleKey) == None;
    assert GetItem(DisconnectStore(store), ProfileIdKey) == None;
  }

  /** The identity keys and the checkpoint keys are apart: logging in or disconnecting leaves what
      the next `refresh` reads, and so what it does, as it was. */
  lemma IdentityLeavesCheckpoint(store: Store, data: LoginData, remote: Remote, cfg: Config)
    ensures Sync(LoginStore(store, data), remote, cfg) == Sync(store, remote, cfg)
    ensures Sync(DisconnectStore(store), remote, cfg) == Sync(store, remote, cfg)
  {
    assert forall k :: IsCheckpointKey(k) ==> !IsIdentityKey(k);
    CheckpointOnly(LoginStore(store, data), store, remote, cfg);
    CheckpointOnly(DisconnectStore(store), store, remote, cfg);
  }

  /** One pass of the loop body of `refresh`: the two log reads for the window, the filter, the
      formatting and the two `forEach(... map.set(...))` merges. */
  method MergeWindow(w: Window, remote: Remote, cfg: Config,
                     posts: OrderedMap<PostCreatedEventFormatted>, bets: OrderedMap<BetCreatedEventFormatted>)
    returns (r: Option<(OrderedMap<PostCreatedEventFormatted>, OrderedMap<BetCreatedEventFormatted>)>)
    ensures r == WindowStep(w, remote, cfg, posts, bets)
  {
    var postEvents := remote.postCreated(w.from, w.to);
    if postEvents.Failed? {
      return None;
    }
    var betCreatedEvents := remote.betCreated(w.from, w.to);
    if betCreatedEvents.Failed? {
      return None;
    }
    var serializablePostEvents := PostBatch(postEvents.value, cfg.openActionContractAddress);
    var serializableBetCreatedEvents := BetBatch(betCreatedEvents.value);
    var postEventsMap := SetEach(posts, serializablePostEvents, PostKey);
    var betCreatedEventsMap := SetEach(bets, serializableBetCreatedEvents, BetKey);
    r := Some((postEventsMap, betCreatedEventsMap));
  }

  /** The loop body of `refresh` for the window starting at `i`, the first of the windows `rest`
      still to walk: after it, what is left of the walk is the walk over the other windows. */
  method Advance(i: int, currentBlock: int, remote: Remote, cfg: Config,
                 posts: OrderedMap<PostCreatedEventFormatted>, bets: OrderedMap<BetCreatedEventFormatted>,
                 ghost rest: seq<Window>, ghost walked: Option<(OrderedMap<PostCreatedEventFormatted>, OrderedMap<BetCreatedEventFormatted>)>)
    returns (merged: Option<(OrderedMap<PostCreatedEventFormatted>, OrderedMap<BetCreatedEventFormatted>)>)
    requires i < currentBlock && rest == Windows(i, currentBlock) && Walk(rest, remote, cfg, posts, bets) == walked
    ensures rest != [] && rest[1..] == Windows(i + 2000, currentBlock)
    ensures merged.None? ==> walked == None
    ensures merged.Some? ==> Walk(rest[1..], remote, cfg, merged.value.0, merged.value.1) == walked
  {
    var toBlock := if i + 1999 > currentBlock then currentBlock else i + 1999;
    merged := MergeWindow(Window(i, toBlock), remote, cfg, posts, bets);
    assert rest[0] == Window(i, toBlock);
    assert rest[1..] == Windows(i + 2000, currentBlock);
  }

  /** `for (let i = startBlock; i < currentBlock; i += 2000)`, stopping at the first failed read. */
  method WalkWindows(startBlock: int, currentBlock: nat, remote: Remote, cfg: Config,
                     posts: OrderedMap<PostCreatedEventFormatted>, bets: OrderedMap<BetCreatedEventFormatted>)
    returns (r: Option<(OrderedMap<PostCreatedEventFormatted>, OrderedMap<BetCreatedEventFormatted>)>)
    ensures r == Walk(Windows(startBlock, currentBlock), remote, cfg, posts, bets)
  {
    var postEventsMap, betCreatedEventsMap := posts, bets;
    ghost var rest := Windows(startBlock, currentBlock);
    ghost var walked := Walk(rest, remote, cfg, posts, bets);
    var i := startBlock;
    while i < currentBlock
      invariant rest == Windows(i, currentBlock)
      invariant Walk(rest, remote, cfg, postEventsMap, betCreatedEventsMap) == walked
      decreases currentBlock - i
    {
      var merged := Advance(i, currentBlock, remote, cfg, postEventsMap, betCreatedEventsMap, rest, walked);
      if merged.None? {
        return None;
      }
      postEventsMap, betCreatedEventsMap := merged.value.0, merged.value.1;
      rest := rest[1..];
      i := i + 2000;
    }
    r := Some((postEventsMap, betCreatedEventsMap));
  }

  /** The computation `refresh` performs, from the store it reads to the outcome it reaches. */
  method RunRefresh(store: Store, remote: Remote, cfg: Config) returns (outcome: Outcome)
    ensures outcome == Sync(store, remote, cfg)
  {
    var savedCurrentBlock := GetItem(store, CurrentBlockKey);
    var savedPostEvents := LoadPosts(ListText(store, PostEventsKey));
    var savedBetCreatedEvents := LoadBets(ListText(store, BetCreatedEventsKey));
    if savedPostEvents.None? || savedBetCreatedEvents.None? {
      return LoadFailed;
    }
    var saved := Saved(savedCurrentBlock, savedPostEvents.value, savedBetCreatedEvents.value);
    assert LoadSaved(store) == Some(saved);
    var startBlock := StartBlock(savedCurrentBlock, cfg);
    if remote.blockNumber.Failed? {
      return TipFailed(saved);
    }
    var currentBlock := remote.blockNumber.value;
    var postEventsMap := Upsert(Empty(), saved.posts, PostKey);
    var betCreatedEventsMap := Upsert(Empty(), saved.bets, BetKey);
    var walked := Some((postEventsMap, betCreatedEventsMap));
    if startBlock.Num? {
      walked := WalkWindows(startBlock.value, currentBlock, remote, cfg, postEventsMap, betCreatedEventsMap);
    }
    if walked.None? {
      return WalkFailed(saved, currentBlock);
    }
    outcome := Synced(saved, currentBlock, Values(walked.value.0), Values(walked.value.1));
  }

  class LensSmartPostProvider {
    var store: Store
    var posts: seq<PostCreatedEventFormatted>
    var betsCreated: seq<BetCreatedEventFormatted>
    var handle: Option<string>
    var profileId: Option<JsNumber>
    var loading: bool
    const config: Config

    constructor (initial: Store, cfg: Config)
      ensures store == initial && config == cfg
      ensures posts == [] && betsCreated == [] && handle == None && profileId == None && !loading
    {
      store := initial;
      config := cfg;
      posts, betsCreated := [], [];
      handle, profileId := None, None;
      loading := false;
    }

    /** `refresh`. On success the store holds the new checkpoint and the state the merged lists; on
        a failure the store is as it was, `loading` stays set and the lists are the saved ones the
        routine had already put in the state (the post list only when non-empty). */
    method Refresh(remote: Remote) returns (outcome: Outcome)
      modifies this
      ensures outcome == Sync(old(store), remote, config)
      ensures store == Refreshed(old(store), remote, config)
      ensures handle == old(handle) && profileId == old(profileId)
      ensures loading == !outcome.Synced?
      ensures outcome.LoadFailed? ==> posts == old(posts) && betsCreated == old(betsCreated)
      ensures outcome.TipFailed? || outcome.WalkFailed? ==>
        posts == (if outcome.saved.posts != [] then outcome.saved.posts else old(posts)) &&
        betsCreated == outcome.saved.bets
      ensures outcome.Synced? ==> posts == outcome.posts && betsCreated == outcome.bets
    {
      loading := true;
      outcome := RunRefresh(store, remote, config);
      Apply(outcome);
    }

    /** The state updates `refresh` makes once it knows how far it got: the saved lists go into the
        state as soon as they are read, and only a run that completes writes the checkpoint, replaces
        the lists with the merged ones and clears `loading`. */
    method Apply(outcome: Outcome)
      modifies this
      ensures store == if outcome.Synced? then Commit(old(store), outcome.tip, outcome.posts, outcome.bets) else old(store)
      ensures handle == old(handle) && profileId == old(profileId)
      ensures loading == if outcome.Synced? then false else old(loading)
      ensures outcome.LoadFailed? ==> posts == old(posts) && betsCreated == old(betsCreated)
      ensures outcome.TipFailed? || outcome.WalkFailed? ==>
        posts == (if outcome.saved.posts != [] then outcome.saved.posts else old(posts)) &&
        betsCreated == outcome.saved.bets
      ensures outcome.Synced? ==> posts == outcome.posts && betsCreated == outcome.bets
    {
      if !outcome.LoadFailed? {
        if outcome.saved.posts != [] {
          posts := outcome.saved.posts;
        }
        betsCreated := outcome.saved.bets;
      }
      if outcome.Synced? {
        store := store[CurrentBlockKey := ToDecimal(outcome.tip)];
        store := store[PostEventsKey := SavePosts(outcome.posts)];
        store := store[BetCreatedEventsKey := SaveBets(outcome.bets)];
        posts := outcome.posts;
        betsCreated := outcome.bets;
        loading := false;
      }
    }

    /** `connect` followed by the effect that runs when `loginData` is set. */
    method Login(data: LoginData)
      modifies this
      ensures handle == Some(data.handle.localName) && profileId == Some(ParseInt(data.id, 16))
      ensures store == LoginStore(old(store), data)
      ensures posts == old(posts) && betsCreated == old(betsCreated) && loading == old(loading)
    {
      handle := Some(data.handle.localName);
      profileId := Some(ParseInt(data.id, 16));
      store := store[HandleKey := data.handle.localName];
      store := store[ProfileIdKey := data.id];
      store := store[AddressKey := data.ownedBy.address];
    }

    /** The effect that runs when the connected wallet address changes. */
    method RestoreIdentity(address: Option<string>)
      modifies this
      ensures Identity(handle, profileId) == RestoredIdentity(old(store), address)
      ensures store == old(store) && posts == old(posts) && betsCreated == old(betsCreated) && loading == old(loading)
    {
      var storedHandle := GetItem(store, HandleKey);
      var storedProfileId := GetItem(store, ProfileIdKey);
      var storedAddress := GetItem(store, AddressKey);
      if Truthy(storedHandle) && SameAddress(address, storedAddress) {
        handle := storedHandle;
      } else {
        handle := None;
      }
      if Truthy(storedProfileId) && SameAddress(address, storedAddress) {
        profileId := Some(ParseInt(storedProfileId.value, 16));
      } else {
        profileId := None;
      }
    }

    /** `clear`: forgets the handle and the profile id, and nothing else. */
    method Clear()
      modifies this
      ensures handle == None && profileId == None
      ensures store == old(store) && posts == old(posts) && betsCreated == old(betsCreated) && loading == old(loading)
    {
      profileId := None;
      handle := None;
    }

    /** `disconnect`, as far as storage goes: removes the three identity keys. */
    method Disconnect()
      modifies this
      ensures store == DisconnectStore(old(store))
      ensures handle == old(handle) && profileId == old(profileId)
      ensures posts == old(posts) && betsCreated == old(betsCreated) && loading == old(loading)
    {
      store := store - {HandleKey};
      store := store - {ProfileIdKey};
      store := store - {AddressKey};
    }
  }
}
