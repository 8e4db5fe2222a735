/** What one call of `refresh` (frontend/src/context/useLensSmartPost.tsx) does to browser storage,
    as a function of the stored checkpoint, the chain data the remote calls return and the
    configuration: load the checkpoint, read the tip, walk the block windows merging both event
    logs by transaction hash, and write the checkpoint back only when the whole walk succeeded. */
module EventSync {
  import opened Wrappers
  import opened Numerals
  import opened Types
  import opened OrderedMaps
  import opened BlockWindows
  import opened Persisted

  /** `localStorage`: string keys to string values. */
  type Store = map<string, string>

  const CurrentBlockKey := "currentBlock"
  const PostEventsKey := "postEvents"
  const BetCreatedEventsKey := "betCreatedEvents"

  predicate IsCheckpointKey(k: string)
  {
    k == CurrentBlockKey || k == PostEventsKey || k == BetCreatedEventsKey
  }

  /** The two `uiConfig` values the walk depends on; their definitions are not part of this model. */
  datatype Config = Config(openActionContractAddress: string, openActionContractStartBlock: int)

  /** A remote call either returns a value or rejects. */
  datatype Fetch<T> = Got(value: T) | Failed

  /** What the RPC node answers: the tip (`getBlockNumber`) and, for an inclusive block range, the
      `PostCreated` logs of the Lens hub and the `BetCreated` logs of the open-action contract. */
  datatype Remote = Remote(
    blockNumber: Fetch<nat>,
    postCreated: (int, int) -> Fetch<seq<PostCreatedEvent>>,
    betCreated: (int, int) -> Fetch<seq<BetCreatedEvent>>)

  // ---- Loading the checkpoint -----------------------------------------------------------------

  /** `localStorage.getItem(k)`. */
  function GetItem(store: Store, k: string): (r: Option<string>)
    ensures r.Some? <==> k in store
    ensures r.Some? ==> r.value == store[k]
  {
    if k in store then Some(store[k]) else None
  }

  /** `localStorage.getItem(k) || "[]"`: a missing key and an empty string both read as `"[]"`. */
  function ListText(store: Store, k: string): (r: string)
    ensures r == "[]" || (k in store && r == store[k])
    ensures k !in store ==> r == "[]"
    ensures k in store && store[k] != "" ==> r == store[k]
    ensures k in store && store[k] == "" ==> r == "[]"
  {
    if k in store && store[k] != "" then store[k] else "[]"
  }

  datatype Saved = Saved(
    currentBlock: Option<string>,
    posts: seq<PostCreatedEventFormatted>,
    bets: seq<BetCreatedEventFormatted>)

  /** The three reads at the top of `refresh`; None where one of the `JSON.parse` calls throws. */
  function LoadSaved(store: Store): Option<Saved>
  {
    match (LoadPosts(ListText(store, PostEventsKey)), LoadBets(ListText(store, BetCreatedEventsKey)))
    case (Some(ps), Some(bs)) => Some(Saved(GetItem(store, CurrentBlockKey), ps, bs))
    case _ => None
  }

  /** `savedCurrentBlock ? parseInt(savedCurrentBlock) : uiConfig.openActionContractStartBlock`. */
  function StartBlock(savedCurrentBlock: Option<string>, cfg: Config): JsNumber
  {
    if savedCurrentBlock.Some? && savedCurrentBlock.value != "" then ParseInt(savedCurrentBlock.value, 0)
    else Num(cfg.openActionContractStartBlock)
  }

  /** A missing checkpoint key means "start at the configured block"; a missing `postEvents` or
      `betCreatedEvents` key means "no saved events". */
  lemma EmptyStoreLoads(cfg: Config)
    ensures LoadSaved(map[]) == Some(Saved(None, [], []))
    ensures StartBlock(LoadSaved(map[]).value.currentBlock, cfg) == Num(cfg.openActionContractStartBlock)
  {
    LoadEmptyList();
  }

  // ---- One window -----------------------------------------------------------------------------

  function PostKey(e: PostCreatedEventFormatted): string { e.transactionHash }
  function BetKey(e: BetCreatedEventFormatted): string { e.transactionHash }

  /** `postEvents.filter(e => e.args.postParams.actionModules.includes(address))`. */
  function RelevantPosts(events: seq<PostCreatedEvent>, address: string): (r: seq<PostCreatedEvent>)
    ensures forall e :: e in r <==> e in events && address in e.args.postParams.actionModules
  {
    if events == [] then []
    else
      (if address in events[0].args.postParams.actionModules then [events[0]] else [])
      + RelevantPosts(events[1..], address)
  }

  /** A single post is kept exactly when it names the contract. */
  lemma RelevantPostsSingle(e: PostCreatedEvent, address: string)
    ensures RelevantPosts([e], address) == if address in e.args.postParams.actionModules then [e] else []
  {
    assert [e][1..] == [];
  }

  /** With `RelevantPostsSingle`: the filter keeps the relevant posts in the order fetched,
      duplicates included, since filtering a concatenation concatenates the filtered parts. */
  lemma {:induction false} RelevantPostsAppend(a: seq<PostCreatedEvent>, b: seq<PostCreatedEvent>, address: string)
    ensures RelevantPosts(a + b, address) == RelevantPosts(a, address) + RelevantPosts(b, address)
    decreases |a|
  {
    if a == [] {
      assert a + b == b;
    } else {
      assert (a + b)[0] == a[0] && (a + b)[1..] == a[1..] + b;
      RelevantPostsAppend(a[1..], b, address);
    }
  }

  /** The formatted post events one window contributes. */
  function PostBatch(events: seq<PostCreatedEvent>, address: string): seq<PostCreatedEventFormatted>
  {
    var relevant := RelevantPosts(events, address);
    seq(|relevant|, i requires 0 <= i < |relevant| => ConvertPostEventToSerializable(relevant[i]))
  }

  /** The formatted bet events one window contributes: all of them. */
  function BetBatch(events: seq<BetCreatedEvent>): seq<BetCreatedEventFormatted>
  {
    seq(|events|, i requires 0 <= i < |events| => ConvertBetCreatedEventToSerializable(events[i]))
  }

  /** A post event enters the batch exactly when it lists the open-action contract among its
      action modules; it enters formatted. */
  lemma PostBatchMembers(events: seq<PostCreatedEvent>, address: string, e: PostCreatedEvent)
    ensures ConvertPostEventToSerializable(e) in PostBatch(events, address) <==>
      e in events && address in e.args.postParams.actionModules
  {
    var relevant := RelevantPosts(events, address);
    var batch := PostBatch(events, address);
    if ConvertPostEventToSerializable(e) in batch {
      var i :| 0 <= i < |batch| && batch[i] == ConvertPostEventToSerializable(e);
      ConvertersInjective(e, relevant[i], BetCreatedEvent(BetArgs(0, 0, 0, 0, "", 0, 0), 0, ""), BetCreatedEvent(BetArgs(0, 0, 0, 0, "", 0, 0), 0, ""));
      assert relevant[i] in relevant;
    }
    if e in events && address in e.args.postParams.actionModules {
      assert e in relevant;
      var i :| 0 <= i < |relevant| && relevant[i] == e;
      assert batch[i] == ConvertPostEventToSerializable(e);
    }
  }

  /** Every fetched bet event enters the batch; nothing else does. */
  lemma BetBatchMembers(events: seq<BetCreatedEvent>, e: BetCreatedEvent)
    ensures ConvertBetCreatedEventToSerializable(e) in BetBatch(events) <==> e in events
  {
    var batch := BetBatch(events);
    if ConvertBetCreatedEventToSerializable(e) in batch {
      var i :| 0 <= i < |batch| && batch[i] == ConvertBetCreatedEventToSerializable(e);
      BetEventRoundTrip(e);
      BetEventRoundTrip(events[i]);
    }
    if e in events {
      var i :| 0 <= i < |events| && events[i] == e;
      assert batch[i] == ConvertBetCreatedEventToSerializable(e);
    }
  }

  /** One iteration of the loop: both logs for the window, then both merges. */
  function WindowStep(w: Window, remote: Remote, cfg: Config,
                posts: OrderedMap<PostCreatedEventFormatted>, bets: OrderedMap<BetCreatedEventFormatted>)
    : (r: Option<(OrderedMap<PostCreatedEventFormatted>, OrderedMap<BetCreatedEventFormatted>)>)
    ensures r.Some? <==> remote.postCreated(w.from, w.to).Got? && remote.betCreated(w.from, w.to).Got?
    ensures r.Some? && Valid(posts) && Valid(bets) ==> Valid(r.value.0) && Valid(r.value.1)
  {
    match remote.postCreated(w.from, w.to)
    case Failed => None
    case Got(postEvents) =>
      match remote.betCreated(w.from, w.to)
      case Failed => None
      case Got(betEvents) =>
        Some((Upsert(posts, PostBatch(postEvents, cfg.openActionContractAddress), PostKey),
              Upsert(bets, BetBatch(betEvents), BetKey)))
  }

  /** The loop over the windows, front to back; None as soon as a fetch fails. */
  function Walk(ws: seq<Window>, remote: Remote, cfg: Config,
                posts: OrderedMap<PostCreatedEventFormatted>, bets: OrderedMap<BetCreatedEventFormatted>)
    : (r: Option<(OrderedMap<PostCreatedEventFormatted>, OrderedMap<BetCreatedEventFormatted>)>)
    ensures r.Some? && Valid(posts) && Valid(bets) ==> Valid(r.value.0) && Valid(r.value.1)
    decreases |ws|
  {
    if ws == [] then Some((posts, bets))
    else
      match WindowStep(ws[0], remote, cfg, posts, bets)
      case None => None
      case Some((p, b)) => Walk(ws[1..], remote, cfg, p, b)
  }

  // ---- What the walk fetched ------------------------------------------------------------------

  predicate AllFetched(ws: seq<Window>, remote: Remote)
  {
    forall j :: 0 <= j < |ws| ==> remote.postCreated(ws[j].from, ws[j].to).Got? && remote.betCreated(ws[j].from, ws[j].to).Got?
  }

  /** The formatted post events of all windows, in fetch order. */
  function FetchedPosts(ws: seq<Window>, remote: Remote, cfg: Config): seq<PostCreatedEventFormatted>
    requires AllFetched(ws, remote)
    decreases |ws|
  {
    if ws == [] then []
    else PostBatch(remote.postCreated(ws[0].from, ws[0].to).value, cfg.openActionContractAddress)
         + FetchedPosts(ws[1..], remote, cfg)
  }

  function FetchedBets(ws: seq<Window>, remote: Remote): seq<BetCreatedEventFormatted>
    requires AllFetched(ws, remote)
    decreases |ws|
  {
    if ws == [] then []
    else BetBatch(remote.betCreated(ws[0].from, ws[0].to).value) + FetchedBets(ws[1..], remote)
  }

  /** The walk succeeds exactly when every fetch does, and then it is the merge of everything fetched,
      window after window, into the maps it started from. */
  lemma {:induction false} WalkMerges(ws: seq<Window>, remote: Remote, cfg: Config,
                                      posts: OrderedMap<PostCreatedEventFormatted>, bets: OrderedMap<BetCreatedEventFormatted>)
    requires Valid(posts) && Valid(bets)
    ensures Walk(ws, remote, cfg, posts, bets).Some? <==> AllFetched(ws, remote)
    ensures AllFetched(ws, remote) ==>
      Walk(ws, remote, cfg, posts, bets) ==
        Some((Upsert(posts, FetchedPosts(ws, remote, cfg), PostKey), Upsert(bets, FetchedBets(ws, remote), BetKey)))
    decreases |ws|
  {
    if ws != [] {
      var w := ws[0];
      assert forall j :: 0 <= j < |ws[1..]| ==> ws[1..][j] == ws[j + 1];
      var s := WindowStep(w, remote, cfg, posts, bets);
      if s.Some? {
        var (p, b) := s.value;
        WalkMerges(ws[1..], remote, cfg, p, b);
        if AllFetched(ws, remote) {
          var address := cfg.openActionContractAddress;
          UpsertAppend(posts, PostBatch(remote.postCreated(w.from, w.to).value, address), FetchedPosts(ws[1..], remote, cfg), PostKey);
          UpsertAppend(bets, BetBatch(remote.betCreated(w.from, w.to).value), FetchedBets(ws[1..], remote), BetKey);
        } else {
          var j :| 0 <= j < |ws| && !(remote.postCreated(ws[j].from, ws[j].to).Got? && remote.betCreated(ws[j].from, ws[j].to).Got?);
          assert j > 0;
          assert !AllFetched(ws[1..], remote) by {
            assert ws[1..][j - 1] == ws[j];
          }
        }
      } else {
        assert !AllFetched(ws, remote) by {
          assert !(remote.postCreated(ws[0].from, ws[0].to).Got? && remote.betCreated(ws[0].from, ws[0].to).Got?);
        }
      }
    }
  }

  // ---- The whole routine ----------------------------------------------------------------------

  datatype Outcome =
    | LoadFailed                                    // a `JSON.parse` of the checkpoint threw
    | TipFailed(saved: Saved)                       // `getBlockNumber` rejected
    | WalkFailed(saved: Saved, tip: nat)            // a `getContractEvents` call rejected
    | Synced(saved: Saved, tip: nat,
             posts: seq<PostCreatedEventFormatted>, bets: seq<BetCreatedEventFormatted>)

  /** The windows of a run: none when the start height is `NaN`, since `NaN < tip` is false. */
  function RunWindows(saved: Saved, tip: nat, cfg: Config): seq<Window>
  {
    match StartBlock(saved.currentBlock, cfg)
    case NaN => []
    case Num(start) => Windows(start, tip)
  }

  function Sync(store: Store, remote: Remote, cfg: Config): Outcome
  {
    match LoadSaved(store)
    case None => LoadFailed
    case Some(saved) =>
      match remote.blockNumber
      case Failed => TipFailed(saved)
      case Got(tip) =>
        match Walk(RunWindows(saved, tip, cfg), remote, cfg,
                   Upsert(Empty(), saved.posts, PostKey), Upsert(Empty(), saved.bets, BetKey))
        case None => WalkFailed(saved, tip)
        case Some((p, b)) => Synced(saved, tip, Values(p), Values(b))
  }

  /** The three `setItem` calls at the end of `refresh`: they replace the checkpoint keys, leave every
      other key as it was, and what they write reads back as the new tip and the merged lists. */
  function Commit(store: Store, tip: nat, posts: seq<PostCreatedEventFormatted>, bets: seq<BetCreatedEventFormatted>)
    : (r: Store)
    ensures forall k :: !IsCheckpointKey(k) ==> (k in r <==> k in store) && (k in store ==> r[k] == store[k])
    ensures CurrentBlockKey in r && IsDecimalOf(r[CurrentBlockKey], tip)
  {
    DecimalForm(ToDecimal(tip), tip);
    store[CurrentBlockKey := ToDecimal(tip)][PostEventsKey := SavePosts(posts)][BetCreatedEventsKey := SaveBets(bets)]
  }

  /** What a commit writes reads back as the new tip and the merged lists. */
  lemma CommitReadsBack(store: Store, tip: nat, posts: seq<PostCreatedEventFormatted>, bets: seq<BetCreatedEventFormatted>)
    ensures LoadSaved(Commit(store, tip, posts, bets)) == Some(Saved(Some(ToDecimal(tip)), posts, bets))
  {
    LoadSavePosts(posts);
    LoadSaveBets(bets);
  }

  /** The store after one call of `refresh`. */
  function Refreshed(store: Store, remote: Remote, cfg: Config): Store
  {
    match Sync(store, remote, cfg)
    case Synced(_, tip, posts, bets) => Commit(store, tip, posts, bets)
    case _ => store
  }

  // ---- Properties of a run --------------------------------------------------------------------

  /** A run succeeds exactly when the checkpoint loads, the tip is read and every window's two fetches
      succeed; its lists are then the saved events followed by everything fetched, merged by hash. */
  lemma SyncMerges(store: Store, remote: Remote, cfg: Config)
    requires LoadSaved(store).Some? && remote.blockNumber.Got?
    ensures var saved, tip := LoadSaved(store).value, remote.blockNumber.value;
      var ws := RunWindows(saved, tip, cfg);
      (Sync(store, remote, cfg).Synced? <==> AllFetched(ws, remote)) &&
      (AllFetched(ws, remote) ==>
        Sync(store, remote, cfg) ==
          Synced(saved, tip,
                 Values(Upsert(Empty(), saved.posts + FetchedPosts(ws, remote, cfg), PostKey)),
                 Values(Upsert(Empty(), saved.bets + FetchedBets(ws, remote), BetKey))))
  {
    var saved, tip := LoadSaved(store).value, remote.blockNumber.value;
    var ws := RunWindows(saved, tip, cfg);
    WalkMerges(ws, remote, cfg, Upsert(Empty(), saved.posts, PostKey), Upsert(Empty(), saved.bets, BetKey));
    if AllFetched(ws, remote) {
      UpsertAppend(Empty(), saved.posts, FetchedPosts(ws, remote, cfg), PostKey);
      UpsertAppend(Empty(), saved.bets, FetchedBets(ws, remote), BetKey);
    }
  }

  /** After a successful run no two stored events share a hash; each stored event is the last one
      with its hash among the saved events followed by the fetched ones (a re-fetched event replaces
      the saved one, a saved event that is not re-fetched survives), and every such hash is stored. */
  lemma SyncedContents(store: Store, remote: Remote, cfg: Config)
    requires Sync(store, remote, cfg).Synced?
    ensures var o := Sync(store, remote, cfg);
      var ws := RunWindows(o.saved, o.tip, cfg);
      AllFetched(ws, remote) &&
      MergedFrom(o.posts, o.saved.posts + FetchedPosts(ws, remote, cfg), PostKey) &&
      MergedFrom(o.bets, o.saved.bets + FetchedBets(ws, remote), BetKey)
  {
    SyncMerges(store, remote, cfg);
    var o := Sync(store, remote, cfg);
    var ws := RunWindows(o.saved, o.tip, cfg);
    BuiltFrom(o.saved.posts + FetchedPosts(ws, remote, cfg), PostKey);
    BuiltFrom(o.saved.bets + FetchedBets(ws, remote), BetKey);
  }

  /** When the start height is not below the tip, or is `NaN`, nothing is fetched: the outcome does not
      depend on what the logs would answer, and the lists are the saved ones merged by hash (the saved
      lists themselves when their hashes are distinct, as after an earlier run). */
  lemma CaughtUp(store: Store, remote: Remote, other: Remote, cfg: Config)
    requires LoadSaved(store).Some? && remote.blockNumber.Got? && other.blockNumber == remote.blockNumber
    requires var start := StartBlock(LoadSaved(store).value.currentBlock, cfg);
      start.NaN? || start.value >= remote.blockNumber.value
    ensures var saved := LoadSaved(store).value;
      Sync(store, remote, cfg) == Sync(store, other, cfg) ==
        Synced(saved, remote.blockNumber.value,
               Values(Upsert(Empty(), saved.posts, PostKey)), Values(Upsert(Empty(), saved.bets, BetKey)))
    ensures var saved := LoadSaved(store).value;
      (forall i, j :: 0 <= i < j < |saved.posts| ==> saved.posts[i].transactionHash != saved.posts[j].transactionHash) &&
      (forall i, j :: 0 <= i < j < |saved.bets| ==> saved.bets[i].transactionHash != saved.bets[j].transactionHash) ==>
        Sync(store, remote, cfg) == Synced(saved, remote.blockNumber.value, saved.posts, saved.bets)
  {
    var saved := LoadSaved(store).value;
    assert RunWindows(saved, remote.blockNumber.value, cfg) == [];
    if (forall i, j :: 0 <= i < j < |saved.posts| ==> PostKey(saved.posts[i]) != PostKey(saved.posts[j])) &&
       (forall i, j :: 0 <= i < j < |saved.bets| ==> BetKey(saved.bets[i]) != BetKey(saved.bets[j])) {
      ValuesOfDistinct(saved.posts, PostKey);
      ValuesOfDistinct(saved.bets, BetKey);
    }
  }

  /** A successful run writes the tip it read before the walk, and the next run starts there. */
  lemma ResumesAtTip(store: Store, remote: Remote, cfg: Config)
    requires Sync(store, remote, cfg).Synced?
    ensures var o := Sync(store, remote, cfg);
      LoadSaved(Refreshed(store, remote, cfg)) == Some(Saved(Some(ToDecimal(o.tip)), o.posts, o.bets)) &&
      StartBlock(Some(ToDecimal(o.tip)), cfg) == Num(o.tip)
  {
    var o := Sync(store, remote, cfg);
    CommitReadsBack(store, o.tip, o.posts, o.bets);
    ParseIntDecimal(o.tip);
  }

  /** A run that fails anywhere writes nothing; a run that succeeds changes no key but the three
      checkpoint keys, so `handle`, `profileId` and `address` are never touched by `refresh`. */
  lemma RefreshedStore(store: Store, remote: Remote, cfg: Config, k: string)
    ensures !Sync(store, remote, cfg).Synced? ==> Refreshed(store, remote, cfg) == store
    ensures !IsCheckpointKey(k) ==>
      (k in Refreshed(store, remote, cfg) <==> k in store) &&
      (k in store ==> Refreshed(store, remote, cfg)[k] == store[k])
  {
  }

  /** Writing the same checkpoint twice is writing it once. */
  lemma CommitAgain(store: Store, tip: nat, posts: seq<PostCreatedEventFormatted>, bets: seq<BetCreatedEventFormatted>)
    ensures Commit(Commit(store, tip, posts, bets), tip, posts, bets) == Commit(store, tip, posts, bets)
  {
    var s1 := Commit(store, tip, posts, bets);
    var s2 := Commit(s1, tip, posts, bets);
    assert s2.Keys == s1.Keys;
  }

  /** The lists a successful run writes have distinct hashes. */
  lemma SyncedDistinct(store: Store, remote: Remote, cfg: Config)
    requires Sync(store, remote, cfg).Synced?
    ensures var o := Sync(store, remote, cfg);
      (forall i, j :: 0 <= i < j < |o.posts| ==> o.posts[i].transactionHash != o.posts[j].transactionHash) &&
      (forall i, j :: 0 <= i < j < |o.bets| ==> o.bets[i].transactionHash != o.bets[j].transactionHash)
  {
    SyncedContents(store, remote, cfg);
    var o := Sync(store, remote, cfg);
    assert forall i, j :: 0 <= i < j < |o.posts| ==> PostKey(o.posts[i]) != PostKey(o.posts[j]);
    assert forall i, j :: 0 <= i < j < |o.bets| ==> BetKey(o.bets[i]) != BetKey(o.bets[j]);
  }

  /** Refreshing again at the same tip leaves the store as the first refresh left it: the second run
      fetches nothing and writes back what it read. */
  lemma RefreshTwice(store: Store, remote: Remote, again: Remote, cfg: Config)
    requires Sync(store, remote, cfg).Synced?
    requires again.blockNumber == Got(Sync(store, remote, cfg).tip)
    ensures Refreshed(Refreshed(store, remote, cfg), again, cfg) == Refreshed(store, remote, cfg)
  {
    var o := Sync(store, remote, cfg);
    var s1 := Commit(store, o.tip, o.posts, o.bets);
    ResumesAtTip(store, remote, cfg);
    SyncedDistinct(store, remote, cfg);
    CaughtUp(s1, again, again, cfg);
    assert Sync(s1, again, cfg) == Synced(LoadSaved(s1).value, o.tip, o.posts, o.bets);
    CommitAgain(store, o.tip, o.posts, o.bets);
  }

  /** Folding a walk's events in again changes nothing: merging the same batches twice gives the
      maps that merging them once gives. */
  lemma RewalkIdempotent(ws: seq<Window>, remote: Remote, cfg: Config,
                         posts: OrderedMap<PostCreatedEventFormatted>, bets: OrderedMap<BetCreatedEventFormatted>)
    requires Valid(posts) && Valid(bets) && Walk(ws, remote, cfg, posts, bets).Some?
    ensures var r := Walk(ws, remote, cfg, posts, bets).value;
      Walk(ws, remote, cfg, r.0, r.1) == Some(r)
  {
    WalkMerges(ws, remote, cfg, posts, bets);
    var r := Walk(ws, remote, cfg, posts, bets).value;
    WalkMerges(ws, remote, cfg, r.0, r.1);
    UpsertIdempotent(posts, FetchedPosts(ws, remote, cfg), PostKey);
    UpsertIdempotent(bets, FetchedBets(ws, remote), BetKey);
  }

  /** `refresh` reads only the three checkpoint keys. */
  lemma CheckpointOnly(store: Store, other: Store, remote: Remote, cfg: Config)
    requires forall k :: IsCheckpointKey(k) ==> (k in store <==> k in other) && (k in store ==> store[k] == other[k])
    ensures Sync(store, remote, cfg) == Sync(other, remote, cfg)
  {
    assert IsCheckpointKey(CurrentBlockKey) && IsCheckpointKey(PostEventsKey) && IsCheckpointKey(BetCreatedEventsKey);
    assert LoadSaved(store) == LoadSaved(other);
  }
}
