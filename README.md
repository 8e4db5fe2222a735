# Lens smart-post event cache

This project models the event cache at the heart of the Lens smart-post front end. It covers
the provider's `refresh` routine, the identity bookkeeping around it, the record converters, and
`numberToHex`. It then proves properties of that model.

`refresh` works as follows:

- It reads a checkpoint from browser storage. The checkpoint has three parts:
  - the last block height synced;
  - the stored `PostCreated` events;
  - the stored `BetCreated` events.
- It asks the chain for its current height, called the tip.
- It walks the block range from the checkpoint to the tip in windows of 2000 blocks. In each
  window it:
  - fetches both kinds of event;
  - keeps the posts whose action modules name the smart-post contract;
  - turns the numbers into decimal strings;
  - merges the events into two insertion-ordered maps keyed by transaction hash.
- Finally it writes the tip and both merged lists back to storage.

Around `refresh` sit three more pieces:

- The login effect stores the handle, profile id and address.
- The address effect restores them when the connected address matches the stored one.
- `clear` and `disconnect` reset them.

Modules:

- `Wrappers`: `Option`.
- `Numerals`: decimal and radix digit strings, and ECMAScript `parseInt` (section 19.2.5 of
  ECMA-262) with whitespace, sign, `0x` prefix, radix 0 and `NaN`.
- `LibUtils`: `numberToHex`.
- `Json`: the subset of `JSON.stringify` and `JSON.parse` that the stored lists use, with the
  round trip proved.
- `Types`: the event records and their serializable forms, and the two converters.
- `Persisted`: the storage encoding of the event lists.
- `OrderedMaps`: a JavaScript `Map` keyed by string, which keeps a key's first insertion position
  when its value is overwritten.
- `BlockWindows`: the window loop's ranges.
- `EventSync`: `refresh` as a function of the storage contents and of what the chain calls
  return, as a specification.
- `Provider`:
  - the imperative `refresh` (a `while` loop over the windows and a loop per batch), proved equal
    to that specification;
  - the identity operations;
  - the class `LensSmartPostProvider`, whose fields are the provider's state and its storage.

Storage is a `map<string, string>`. The chain is a record of functions that answer, or fail, for
the tip query and for each window's two log queries.

## Model

| member | source | states |
|---|---|---|
| LibUtils.NumberToHex | frontend/src/lib/utils.ts:8-17 | the result starts with `0x` and has an even number of digits after it |
| LibUtils.NumberToHexValue | frontend/src/lib/utils.ts:8-17 | the digits after `0x` denote `num` in base 16 |
| LibUtils.NumberToHexPadding | frontend/src/lib/utils.ts:11-14 | at most one `0` is prepended; the digits are `toString(16)` itself when that has even length and `"0"` followed by it when odd; for a positive number a leading `0` appears exactly when the plain hex form has odd length |
| LibUtils.NumberToHexZero | frontend/src/lib/utils.ts:8-17 | zero becomes `0x00` |
| LibUtils.NumberToHexParses | frontend/src/lib/utils.ts:8-17 | `parseInt(numberToHex(n), 16)` and `parseInt(numberToHex(n))` give back `n` |
| Numerals.ToRadixValue | frontend/src/lib/utils.ts:9 | `toString(radix)` yields digits whose value is the number |
| Numerals.ToRadixNoLeadingZero | frontend/src/lib/utils.ts:9 | `toString(radix)` starts with `0` only for zero |
| Numerals.DecimalForm | frontend/src/utils/types.ts:78-83 | a string is the decimal form of `n` (digits only, no leading zero unless `n` is 0, value `n`) exactly when it is `n.toString()` |
| Numerals.ParseIntDecimal | frontend/src/context/useLensSmartPost.tsx:61-62 | `parseInt` of `n.toString()`, in radix 10 or with no radix, gives back `n` |
| Numerals.ParseIntHexPrefixed | frontend/src/context/useLensSmartPost.tsx:147 | `parseInt("0x" + d, 16)` is the value of the hex digits `d` |
| Types.ConvertPostEventToSerializable | frontend/src/utils/types.ts:69-85 | profile id, publication id, timestamp and block number become their decimal strings; every other field, the transaction hash included, is kept |
| Types.ConvertBetCreatedEventToSerializable | frontend/src/utils/types.ts:87-94 | the arguments and transaction hash are kept; the block number becomes its decimal string |
| Types.DecimalParses | frontend/src/utils/types.ts:78-83 | a decimal string produced by the converters parses back to its number |
| Types.PostEventRoundTrip | frontend/src/utils/types.ts:69-85 | parsing the formatted numbers of a converted post event gives back the original event |
| Types.BetEventRoundTrip | frontend/src/utils/types.ts:87-94 | parsing the formatted block number of a converted bet event gives back the original event |
| Types.ConvertersInjective | frontend/src/utils/types.ts:69-94 | neither converter maps two different events to the same formatted event |
| Json.ParseStringify | frontend/src/context/useLensSmartPost.tsx:46-51 | `JSON.parse(JSON.stringify(v))` is `v` for every value the stored lists are made of |
| Persisted.PostRoundTrip | frontend/src/context/useLensSmartPost.tsx:46-48 | a formatted post event decodes from its JSON object exactly as it was |
| Persisted.BetRoundTrip | frontend/src/context/useLensSmartPost.tsx:49-51 | a formatted bet event decodes from its JSON object exactly as it was |
| Persisted.LoadSavePosts | frontend/src/context/useLensSmartPost.tsx:132 | the saved `postEvents` text loads back as the same list |
| Persisted.LoadSaveBets | frontend/src/context/useLensSmartPost.tsx:133 | the saved `betCreatedEvents` text loads back as the same list |
| Persisted.LoadEmptyList | frontend/src/context/useLensSmartPost.tsx:47 | the fallback text `"[]"` loads as the empty list for both kinds |
| OrderedMaps.Set | frontend/src/context/useLensSmartPost.tsx:120-125 | `Map.set` updates the entry; a present key keeps its position, a new key goes last; key uniqueness is preserved |
| OrderedMaps.UpsertDomain | frontend/src/context/useLensSmartPost.tsx:71-77 | after setting a list of items, a key is present exactly when it was before or some item has it |
| OrderedMaps.UpsertLookup | frontend/src/context/useLensSmartPost.tsx:120-125 | each key holds the last item set under it, or its old value when no item has it |
| OrderedMaps.UpsertKeepsOrder | frontend/src/context/useLensSmartPost.tsx:120-125 | setting items never moves or drops existing keys (the old key order is a prefix) |
| OrderedMaps.UpsertPresentKeys | frontend/src/context/useLensSmartPost.tsx:120-125 | setting only keys already present leaves the key order unchanged |
| OrderedMaps.UpsertKeyedBy | frontend/src/context/useLensSmartPost.tsx:71-77 | every value stays stored under its own transaction hash |
| OrderedMaps.UpsertIdempotent | frontend/src/context/useLensSmartPost.tsx:120-125 | setting the same items a second time changes nothing |
| OrderedMaps.UpsertAppend | frontend/src/context/useLensSmartPost.tsx:71-125 | setting `a` and then `b` is setting `a + b` (building from the saved list, then merging windows, is one fold) |
| OrderedMaps.LastWithKey | frontend/src/context/useLensSmartPost.tsx:120-125 | finds an item with the key exactly when one exists, and returns an item of the list with that key |
| OrderedMaps.LastWithKeyIsLast | frontend/src/context/useLensSmartPost.tsx:120-125 | the item found is the last one with the key: no later item has it, so the last write wins |
| OrderedMaps.LastWithKeyAppend | frontend/src/context/useLensSmartPost.tsx:71-125 | the last item with a key in `a + b` comes from `b` when `b` has one |
| OrderedMaps.ValuesDistinctKeys | frontend/src/context/useLensSmartPost.tsx:128-129 | `Array.from(map.values())` never holds two events with the same hash |
| OrderedMaps.ValuesOfDistinct | frontend/src/context/useLensSmartPost.tsx:71-77 | a list with distinct hashes comes back unchanged, in order, from its map's values |
| OrderedMaps.DistinctKeysInOrder | frontend/src/context/useLensSmartPost.tsx:71-77 | for a list with distinct hashes the map's key order is the list's hashes in order, one per item |
| OrderedMaps.BuiltFrom | frontend/src/context/useLensSmartPost.tsx:71-129 | the map's values are the last item for each distinct key, and every key of the input is represented |
| OrderedMaps.SetEach | frontend/src/context/useLensSmartPost.tsx:120-125 | the `forEach` of `set` calls computes the fold of `Set` over the items |
| BlockWindows.WindowsShape | frontend/src/context/useLensSmartPost.tsx:79-80 | there are ceil((tip - start) / 2000) windows; window j starts at start + 2000 j, spans at most 2000 blocks, ends no later than the tip, and the next one starts right after it |
| BlockWindows.WindowsCover | frontend/src/context/useLensSmartPost.tsx:79-80 | a height is fetched exactly when start <= h < tip, or h is the tip and tip - start is not a multiple of 2000 |
| BlockWindows.AcrossRuns | frontend/src/context/useLensSmartPost.tsx:79-80 | two runs that meet at a height fetch every height from the first start to before the last tip |
| BlockWindows.ClippedLastWindow | frontend/src/context/useLensSmartPost.tsx:79-80 | from 0 to 4500 the windows are 0-1999, 2000-3999 and 4000-4500, covering exactly 0..4500 |
| BlockWindows.TipLeftToNextRun | frontend/src/context/useLensSmartPost.tsx:79-80 | from 0 to 4000 the windows stop at 3999 and block 4000 is left to the next run |
| EventSync.GetItem | frontend/src/context/useLensSmartPost.tsx:45 | `getItem` answers the stored string, or null exactly when the key is absent |
| EventSync.ListText | frontend/src/context/useLensSmartPost.tsx:47-50 | `getItem(k) \|\| "[]"` is the stored text when it is present and non-empty, and `"[]"` otherwise (absent key or empty string) |
| EventSync.EmptyStoreLoads | frontend/src/context/useLensSmartPost.tsx:45-63 | empty storage loads as no checkpoint and empty lists, and the walk starts at the configured start block |
| EventSync.RelevantPosts | frontend/src/context/useLensSmartPost.tsx:106-110 | keeps exactly the posts whose action modules include the smart-post contract address |
| EventSync.RelevantPostsAppend | frontend/src/context/useLensSmartPost.tsx:106-110 | filtering a concatenation is concatenating the filtered parts, so the filter keeps fetch order and duplicates |
| EventSync.RelevantPostsSingle | frontend/src/context/useLensSmartPost.tsx:106-110 | a single post is kept exactly when its action modules include the contract address |
| EventSync.PostBatchMembers | frontend/src/context/useLensSmartPost.tsx:106-114 | a converted post event is in a window's batch exactly when it was fetched and its action modules name the contract |
| EventSync.BetBatchMembers | frontend/src/context/useLensSmartPost.tsx:116-118 | a converted bet is in a window's bet batch exactly when the bet was fetched |
| EventSync.WindowStep | frontend/src/context/useLensSmartPost.tsx:80-125 | a window merges exactly when both of its log queries succeed, and keeps the hashes unique |
| EventSync.Walk | frontend/src/context/useLensSmartPost.tsx:79-126 | the window loop keeps the hashes unique in both maps |
| EventSync.WalkMerges | frontend/src/context/useLensSmartPost.tsx:79-126 | the loop completes exactly when every query succeeds, and its maps are then the saved maps with all fetched batches set into them in order |
| EventSync.Commit | frontend/src/context/useLensSmartPost.tsx:131-133 | the three `setItem` calls leave every other key alone and store the tip's decimal string |
| EventSync.CommitReadsBack | frontend/src/context/useLensSmartPost.tsx:131-133 | what the three `setItem` calls write reads back as the tip and the two lists |
| EventSync.CommitAgain | frontend/src/context/useLensSmartPost.tsx:131-133 | writing the same checkpoint twice is writing it once |
| EventSync.SyncMerges | frontend/src/context/useLensSmartPost.tsx:42-138 | a run succeeds exactly when every window's queries succeed; its lists are then the saved events followed by all fetched ones, merged by hash |
| EventSync.SyncedContents | frontend/src/context/useLensSmartPost.tsx:71-129 | after a run each stored event is the latest with its hash among saved-then-fetched events, and every such hash is stored |
| EventSync.SyncedDistinct | frontend/src/context/useLensSmartPost.tsx:128-133 | the written lists never hold two events with the same hash |
| EventSync.CaughtUp | frontend/src/context/useLensSmartPost.tsx:61-79 | with the checkpoint at or past the tip, or unparsable, nothing is fetched and the saved lists are kept |
| EventSync.ResumesAtTip | frontend/src/context/useLensSmartPost.tsx:61-63 | after a successful run the next run loads what was written and starts at the tip just read |
| EventSync.RefreshedStore | frontend/src/context/useLensSmartPost.tsx:131-133 | a failed run writes nothing; a run never touches keys other than the three checkpoint keys |
| EventSync.RefreshTwice | frontend/src/context/useLensSmartPost.tsx:42-138 | a second refresh at the same tip leaves storage as the first left it |
| EventSync.RewalkIdempotent | frontend/src/context/useLensSmartPost.tsx:79-126 | walking the same windows again over the merged maps gives the same maps |
| EventSync.CheckpointOnly | frontend/src/context/useLensSmartPost.tsx:45-51 | the outcome of `refresh` depends only on the three checkpoint keys |
| Provider.MergeWindow | frontend/src/context/useLensSmartPost.tsx:82-125 | one window's fetches, filter, conversions and `forEach` merges compute the window step of the specification |
| Provider.Advance | frontend/src/context/useLensSmartPost.tsx:79-125 | one iteration of the window loop consumes exactly the first window of the remaining range |
| Provider.WalkWindows | frontend/src/context/useLensSmartPost.tsx:79-126 | the `for` loop over windows computes the walk of the specification, failing when any query fails |
| Provider.RunRefresh | frontend/src/context/useLensSmartPost.tsx:42-138 | the whole routine computes the run outcome of the specification |
| Provider.LensSmartPostProvider.constructor | frontend/src/context/useLensSmartPost.tsx:26-34 | empty lists, no handle or profile id, not loading |
| Provider.LensSmartPostProvider.Refresh | frontend/src/context/useLensSmartPost.tsx:42-138 | storage becomes the refreshed storage; the lists become the merged lists on success; the saved lists are shown when the run fails after loading; loading stays set on failure |
| Provider.LensSmartPostProvider.Apply | frontend/src/context/useLensSmartPost.tsx:53-59 | sets the saved lists (posts only when non-empty), then on success writes the checkpoint and sets the merged lists and clears loading |
| Provider.LoginStore | frontend/src/context/useLensSmartPost.tsx:149-151 | writes the handle, profile id and owner address, leaving every other key alone |
| Provider.LensSmartPostProvider.Login | frontend/src/context/useLensSmartPost.tsx:144-153 | sets the handle and the hex-parsed profile id and stores all three identity keys |
| Provider.RestoredIdentity | frontend/src/context/useLensSmartPost.tsx:156-172 | handle and profile id are restored exactly when stored non-empty and the address equals the stored one (an absent address never equals an absent one); the profile id is hex-parsed |
| Provider.LensSmartPostProvider.RestoreIdentity | frontend/src/context/useLensSmartPost.tsx:156-172 | sets handle and profile id to the restored identity and changes nothing else |
| Provider.LensSmartPostProvider.Clear | frontend/src/context/useLensSmartPost.tsx:183-186 | handle and profile id become unset; storage is unchanged |
| Provider.DisconnectStore | frontend/src/context/useLensSmartPost.tsx:189-191 | removes exactly the three identity keys |
| Provider.LensSmartPostProvider.Disconnect | frontend/src/context/useLensSmartPost.tsx:187-192 | removes the identity keys and changes no state field |
| Provider.LoginThenRestore | frontend/src/context/useLensSmartPost.tsx:144-172 | after a login, restoring for the login's address gives its handle and profile id |
| Provider.LoginThenOtherAddress | frontend/src/context/useLensSmartPost.tsx:156-172 | after a login, restoring for any other address gives no identity |
| Provider.DisconnectThenRestore | frontend/src/context/useLensSmartPost.tsx:156-192 | after a disconnect, restoring gives no identity for any address |
| Provider.IdentityLeavesCheckpoint | frontend/src/context/useLensSmartPost.tsx:42-192 | login and disconnect do not change what the next `refresh` does |

## Left out

- React: state setters are field assignments, effects are explicit method calls, and the mount
  effect that calls `refresh` once (lines 140-142) is not modelled. Effect scheduling and
  re-render order are not modelled either.
- `console.log` is left out.
- The wagmi `disconnect()` call is left out. So is the connected address becoming undefined after
  it: the address is a parameter of `RestoreIdentity`.
- `connect` only stores its argument. The model passes that argument straight to `Login`.
- The RPC client is a record of functions given as parameters. Network I/O, delays and
  concurrently running refreshes are not modelled. The chain id and the `uiConfig` addresses and
  start block are parameters.
- JSON: the model parses only the canonical text `JSON.stringify` produces. It has:
  - no whitespace;
  - no `true`, `false` or `null`;
  - no fractions or exponents;
  - no surrogate-pair escapes.

  Stored text that parses as JSON but is not a list of event records is treated like text that
  does not parse.
- Numbers are unbounded naturals. Floating-point limits of `Number` and `parseInt` are not
  modelled. Negative numbers do not occur in the records.
- `LibUtils.NumberToHex` takes a natural number. The source's `numberToHex` also accepts negative
  numbers, which it writes with a minus sign after the `0x` or after the padding `0` (`-5` gives
  `0x-5`, `-16` gives `0x0-10`). The model does not cover that case.
- viem returns `bigint` values for the bet arguments, and `JSON.stringify` throws on those. The
  model follows the declared `number` types.
- The bet records use the field names `profileId` and `timestamp` from `utils/types.ts`. The
  contract's `BetCreated` event names those fields `creatorId` and `deadline`
  (`utils/smartPostAbi.ts` lines 155 and 185). The model follows `utils/types.ts`.
- `EventSync.Commit`: `setItem` is assumed never to throw, so the three writes at lines 131-133
  happen as one step. In the source they are separate calls, and `currentBlock` is written first.
  If the write at line 132 or 133 throws, storage is left partly written: the checkpoint has moved
  to the new tip but the event lists have not been updated. Two things can make it throw: a full
  storage quota, or `JSON.stringify` meeting `bigint` bet arguments. The next run then starts at the
  new tip and never fetches the lost events again. The model does not capture that partial write.
- Extra fields that viem puts on each log are carried through by the object spreads, but the
  model keeps only the declared fields.
- `loginData!.handle!` throws when the handle is null. The model's login data always has a handle.
- The `Map` objects are local to `refresh` and never aliased, so they are values.
- `Provider.LensSmartPostProvider.Refresh`: the saved lists are applied to the state after the
  run rather than before the tip query. No reader can observe the difference in the model, since
  nothing runs in between.
- `refresh` has no recovery path. A throwing `JSON.parse` or a rejected query aborts it with
  `loading` still set, and the model follows this.
- When tip - start is a multiple of 2000, the last window ends one block before the tip. That block
  is fetched by the next run, which starts at the written tip. `BlockWindows.WindowsCover` states
  which heights one run fetches, and `BlockWindows.AcrossRuns` shows that two chained runs
  together fetch every height.
