/** How the formatted event lists are kept in browser storage: `JSON.stringify` of the record
    arrays, read back with `JSON.parse`. A record becomes an object with one member per field;
    reading one back looks each field up by name, as property access on the parsed object does. */
module Persisted {
  import opened Wrappers
  import opened Json
  import opened Types

  // ---- Fields -------------------------------------------------------------------------------

  function Field(v: Value, key: string): Option<Value>
  {
    match v
    case Obj(members) => Get(members, key)
    case _ => None
  }

  /** Reading back a member whose key no later member repeats. */
  lemma {:induction false} GetUnique(members: seq<Member>, i: nat, key: string)
    requires i < |members| && members[i].key == key
    requires forall j :: i < j < |members| ==> members[j].key != key
    ensures Get(members, key) == Some(members[i].value)
    decreases |members|
  {
    if i < |members| - 1 {
      GetUnique(members[..|members| - 1], i, key);
    }
  }

  function StrField(v: Value, key: string): Option<string>
  {
    match Field(v, key)
    case Some(Str(s)) => Some(s)
    case _ => None
  }

  function NatField(v: Value, key: string): Option<nat>
  {
    match Field(v, key)
    case Some(Int(n)) => if n >= 0 then Some(n) else None
    case _ => None
  }

  function StrsField(v: Value, key: string): Option<seq<string>>
  {
    match Field(v, key)
    case Some(Arr(items)) => StringsOf(items)
    case _ => None
  }

  function Strings(xs: seq<string>): seq<Value>
  {
    if xs == [] then [] else [Str(xs[0])] + Strings(xs[1..])
  }

  function StringsOf(items: seq<Value>): Option<seq<string>>
  {
    if items == [] then Some([])
    else match (items[0], StringsOf(items[1..]))
      case (Str(s), Some(rest)) => Some([s] + rest)
      case _ => None
  }

  lemma {:induction false} StringsRoundTrip(xs: seq<string>)
    ensures StringsOf(Strings(xs)) == Some(xs)
  {
    if xs != [] {
      StringsRoundTrip(xs[1..]);
      assert Strings(xs)[1..] == Strings(xs[1..]);
      assert [xs[0]] + xs[1..] == xs;
    }
  }

  // ---- Post events --------------------------------------------------------------------------

  function EncodePostParams(p: PostParamsFormatted): Value
  {
    Obj([Member("profileId", Str(p.profileId)),
         Member("contentURI", Str(p.contentURI)),
         Member("actionModules", Arr(Strings(p.actionModules))),
         Member("actionModulesInitDatas", Arr(Strings(p.actionModulesInitDatas))),
         Member("referenceModule", Str(p.referenceModule)),
         Member("referenceModuleInitData", Str(p.referenceModuleInitData))])
  }

  function DecodePostParams(v: Value): Option<PostParamsFormatted>
  {
    var profileId := StrField(v, "profileId");
    var contentURI := StrField(v, "contentURI");
    var actionModules := StrsField(v, "actionModules");
    var actionModulesInitDatas := StrsField(v, "actionModulesInitDatas");
    var referenceModule := StrField(v, "referenceModule");
    var referenceModuleInitData := StrField(v, "referenceModuleInitData");
    if profileId.Some? && contentURI.Some? && actionModules.Some? && actionModulesInitDatas.Some?
       && referenceModule.Some? && referenceModuleInitData.Some?
    then Some(PostParamsFormatted(profileId.value, contentURI.value, actionModules.value,
                                  actionModulesInitDatas.value, referenceModule.value,
                                  referenceModuleInitData.value))
    else None
  }

  function EncodePostArgs(a: PostArgsFormatted): Value
  {
    Obj([Member("postParams", EncodePostParams(a.postParams)),
         Member("pubId", Str(a.pubId)),
         Member("actionModulesInitReturnDatas", Arr(Strings(a.actionModulesInitReturnDatas))),
         Member("referenceModuleInitReturnData", Str(a.referenceModuleInitReturnData)),
         Member("transactionExecutor", Str(a.transactionExecutor)),
         Member("timestamp", Str(a.timestamp))])
  }

  function DecodePostArgs(v: Value): Option<PostArgsFormatted>
  {
    var postParams := match Field(v, "postParams") case Some(p) => DecodePostParams(p) case None => None;
    var pubId := StrField(v, "pubId");
    var returnDatas := StrsField(v, "actionModulesInitReturnDatas");
    var referenceReturnData := StrField(v, "referenceModuleInitReturnData");
    var executor := StrField(v, "transactionExecutor");
    var timestamp := StrField(v, "timestamp");
    if postParams.Some? && pubId.Some? && returnDatas.Some? && referenceReturnData.Some?
       && executor.Some? && timestamp.Some?
    then Some(PostArgsFormatted(postParams.value, pubId.value, returnDatas.value,
                                referenceReturnData.value, executor.value, timestamp.value))
    else None
  }

  function EncodePost(e: PostCreatedEventFormatted): Value
  {
    Obj([Member("args", EncodePostArgs(e.args)),
         Member("blockNumber", Str(e.blockNumber)),
         Member("transactionHash", Str(e.transactionHash))])
  }

  function DecodePost(v: Value): Option<PostCreatedEventFormatted>
  {
    var args := match Field(v, "args") case Some(a) => DecodePostArgs(a) case None => None;
    var blockNumber := StrField(v, "blockNumber");
    var transactionHash := StrField(v, "transactionHash");
    if args.Some? && blockNumber.Some? && transactionHash.Some?
    then Some(PostCreatedEventFormatted(args.value, blockNumber.value, transactionHash.value))
    else None
  }

  lemma PostParamsFieldsFront(p: PostParamsFormatted)
    ensures StrField(EncodePostParams(p), "profileId") == Some(p.profileId)
    ensures StrField(EncodePostParams(p), "contentURI") == Some(p.contentURI)
    ensures StrsField(EncodePostParams(p), "actionModules") == Some(p.actionModules)
  {
    var ms := EncodePostParams(p).members;
    StringsRoundTrip(p.actionModules);
    GetUnique(ms, 0, "profileId");
    GetUnique(ms, 1, "contentURI");
    GetUnique(ms, 2, "actionModules");
  }

  lemma PostParamsFieldsBack(p: PostParamsFormatted)
    ensures StrsField(EncodePostParams(p), "actionModulesInitDatas") == Some(p.actionModulesInitDatas)
    ensures StrField(EncodePostParams(p), "referenceModule") == Some(p.referenceModule)
    ensures StrField(EncodePostParams(p), "referenceModuleInitData") == Some(p.referenceModuleInitData)
  {
    var ms := EncodePostParams(p).members;
    StringsRoundTrip(p.actionModulesInitDatas);
    GetUnique(ms, 3, "actionModulesInitDatas");
    GetUnique(ms, 4, "referenceModule");
    GetUnique(ms, 5, "referenceModuleInitData");
  }

  lemma PostParamsRoundTrip(p: PostParamsFormatted)
    ensures DecodePostParams(EncodePostParams(p)) == Some(p)
  {
    PostParamsFieldsFront(p);
    PostParamsFieldsBack(p);
  }

  lemma PostArgsFieldsFront(a: PostArgsFormatted)
    ensures Field(EncodePostArgs(a), "postParams") == Some(EncodePostParams(a.postParams))
    ensures StrField(EncodePostArgs(a), "pubId") == Some(a.pubId)
    ensures StrsField(EncodePostArgs(a), "actionModulesInitReturnDatas") == Some(a.actionModulesInitReturnDatas)
  {
    var ms := EncodePostArgs(a).members;
    StringsRoundTrip(a.actionModulesInitReturnDatas);
    GetUnique(ms, 0, "postParams");
    GetUnique(ms, 1, "pubId");
    GetUnique(ms, 2, "actionModulesInitReturnDatas");
  }

  lemma PostArgsFieldsBack(a: PostArgsFormatted)
    ensures StrField(EncodePostArgs(a), "referenceModuleInitReturnData") == Some(a.referenceModuleInitReturnData)
    ensures StrField(EncodePostArgs(a), "transactionExecutor") == Some(a.transactionExecutor)
    ensures StrField(EncodePostArgs(a), "timestamp") == Some(a.timestamp)
  {
    var ms := EncodePostArgs(a).members;
    GetUnique(ms, 3, "referenceModuleInitReturnData");
    GetUnique(ms, 4, "transactionExecutor");
    GetUnique(ms, 5, "timestamp");
  }

  lemma PostArgsRoundTrip(a: PostArgsFormatted)
    ensures DecodePostArgs(EncodePostArgs(a)) == Some(a)
  {
    PostParamsRoundTrip(a.postParams);
    PostArgsFieldsFront(a);
    PostArgsFieldsBack(a);
  }

  lemma PostFields(e: PostCreatedEventFormatted)
    ensures Field(EncodePost(e), "args") == Some(EncodePostArgs(e.args))
    ensures StrField(EncodePost(e), "blockNumber") == Some(e.blockNumber)
    ensures StrField(EncodePost(e), "transactionHash") == Some(e.transactionHash)
  {
    var ms := EncodePost(e).members;
    GetUnique(ms, 0, "args");
    GetUnique(ms, 1, "blockNumber");
    GetUnique(ms, 2, "transactionHash");
  }

  lemma PostRoundTrip(e: PostCreatedEventFormatted)
    ensures DecodePost(EncodePost(e)) == Some(e)
  {
    PostArgsRoundTrip(e.args);
    PostFields(e);
  }

  // ---- Bet events ---------------------------------------------------------------------------

  function EncodeBetArgs(a: BetArgs): Value
  {
    Obj([Member("pubId", Int(a.pubId)),
         Member("profileId", Int(a.profileId)),
         Member("userId", Int(a.userId)),
         Member("jurorId", Int(a.jurorId)),
         Member("currency", Str(a.currency)),
         Member("amount", Int(a.amount)),
         Member("timestamp", Int(a.timestamp))])
  }

  function DecodeBetArgs(v: Value): Option<BetArgs>
  {
    var pubId := NatField(v, "pubId");
    var profileId := NatField(v, "profileId");
    var userId := NatField(v, "userId");
    var jurorId := NatField(v, "jurorId");
    var currency := StrField(v, "currency");
    var amount := NatField(v, "amount");
    var timestamp := NatField(v, "timestamp");
    if pubId.Some? && profileId.Some? && userId.Some? && jurorId.Some? && currency.Some?
       && amount.Some? && timestamp.Some?
    then Some(BetArgs(pubId.value, profileId.value, userId.value, jurorId.value, currency.value,
                      amount.value, timestamp.value))
    else None
  }

  function EncodeBet(e: BetCreatedEventFormatted): Value
  {
    Obj([Member("args", EncodeBetArgs(e.args)),
         Member("blockNumber", Str(e.blockNumber)),
         Member("transactionHash", Str(e.transactionHash))])
  }

  function DecodeBet(v: Value): Option<BetCreatedEventFormatted>
  {
    var args := match Field(v, "args") case Some(a) => DecodeBetArgs(a) case None => None;
    var blockNumber := StrField(v, "blockNumber");
    var transactionHash := StrField(v, "transactionHash");
    if args.Some? && blockNumber.Some? && transactionHash.Some?
    then Some(BetCreatedEventFormatted(args.value, blockNumber.value, transactionHash.value))
    else None
  }

  lemma BetArgsIds(a: BetArgs)
    ensures NatField(EncodeBetArgs(a), "pubId") == Some(a.pubId)
    ensures NatField(EncodeBetArgs(a), "profileId") == Some(a.profileId)
    ensures NatField(EncodeBetArgs(a), "userId") == Some(a.userId)
    ensures NatField(EncodeBetArgs(a), "jurorId") == Some(a.jurorId)
  {
    var ms := EncodeBetArgs(a).members;
    GetUnique(ms, 0, "pubId");
    GetUnique(ms, 1, "profileId");
    GetUnique(ms, 2, "userId");
    GetUnique(ms, 3, "jurorId");
  }

  lemma BetArgsRest(a: BetArgs)
    ensures StrField(EncodeBetArgs(a), "currency") == Some(a.currency)
    ensures NatField(EncodeBetArgs(a), "amount") == Some(a.amount)
    ensures NatField(EncodeBetArgs(a), "timestamp") == Some(a.timestamp)
  {
    var ms := EncodeBetArgs(a).members;
    GetUnique(ms, 4, "currency");
    GetUnique(ms, 5, "amount");
    GetUnique(ms, 6, "timestamp");
  }

  lemma BetArgsRoundTrip(a: BetArgs)
    ensures DecodeBetArgs(EncodeBetArgs(a)) == Some(a)
  {
    BetArgsIds(a);
    BetArgsRest(a);
  }

  lemma BetRoundTrip(e: BetCreatedEventFormatted)
    ensures DecodeBet(EncodeBet(e)) == Some(e)
  {
    var ms := EncodeBet(e).members;
    BetArgsRoundTrip(e.args);
    GetUnique(ms, 0, "args");
    GetUnique(ms, 1, "blockNumber");
    GetUnique(ms, 2, "transactionHash");
  }
  // ---- The stored lists --------------------------------------------------------------------

  function EncodePosts(ps: seq<PostCreatedEventFormatted>): seq<Value>
  {
    if ps == [] then [] else [EncodePost(ps[0])] + EncodePosts(ps[1..])
  }

  function DecodePosts(items: seq<Value>): Option<seq<PostCreatedEventFormatted>>
  {
    if items == [] then Some([])
    else match (DecodePost(items[0]), DecodePosts(items[1..]))
      case (Some(e), Some(rest)) => Some([e] + rest)
      case _ => None
  }

  function EncodeBets(bs: seq<BetCreatedEventFormatted>): seq<Value>
  {
    if bs == [] then [] else [EncodeBet(bs[0])] + EncodeBets(bs[1..])
  }

  function DecodeBets(items: seq<Value>): Option<seq<BetCreatedEventFormatted>>
  {
    if items == [] then Some([])
    else match (DecodeBet(items[0]), DecodeBets(items[1..]))
      case (Some(e), Some(rest)) => Some([e] + rest)
      case _ => None
  }

  /** `JSON.stringify(allPostEvents)`. */
  function SavePosts(ps: seq<PostCreatedEventFormatted>): string
  {
    Stringify(Arr(EncodePosts(ps)))
  }

  /** `JSON.parse(text)` read as a list of post records; None where it throws or where the text
      is not such a list. */
  function LoadPosts(text: string): Option<seq<PostCreatedEventFormatted>>
  {
    match Parse(text)
    case Some(Arr(items)) => DecodePosts(items)
    case _ => None
  }

  function SaveBets(bs: seq<BetCreatedEventFormatted>): string
  {
    Stringify(Arr(EncodeBets(bs)))
  }

  function LoadBets(text: string): Option<seq<BetCreatedEventFormatted>>
  {
    match Parse(text)
    case Some(Arr(items)) => DecodeBets(items)
    case _ => None
  }

  lemma {:induction false} PostsRoundTrip(ps: seq<PostCreatedEventFormatted>)
    ensures DecodePosts(EncodePosts(ps)) == Some(ps)
  {
    if ps != [] {
      PostRoundTrip(ps[0]);
      PostsRoundTrip(ps[1..]);
      assert EncodePosts(ps)[1..] == EncodePosts(ps[1..]);
      assert [ps[0]] + ps[1..] == ps;
    }
  }

  lemma {:induction false} BetsRoundTrip(bs: seq<BetCreatedEventFormatted>)
    ensures DecodeBets(EncodeBets(bs)) == Some(bs)
  {
    if bs != [] {
      BetRoundTrip(bs[0]);
      BetsRoundTrip(bs[1..]);
      assert EncodeBets(bs)[1..] == EncodeBets(bs[1..]);
      assert [bs[0]] + bs[1..] == bs;
    }
  }

  /** What one run writes, the next run reads back unchanged. */
  lemma LoadSavePosts(ps: seq<PostCreatedEventFormatted>)
    ensures LoadPosts(SavePosts(ps)) == Some(ps)
  {
    ParseStringify(Arr(EncodePosts(ps)));
    PostsRoundTrip(ps);
  }

  lemma LoadSaveBets(bs: seq<BetCreatedEventFormatted>)
    ensures LoadBets(SaveBets(bs)) == Some(bs)
  {
    ParseStringify(Arr(EncodeBets(bs)));
    BetsRoundTrip(bs);
  }

  /** The default `"[]"` reads as the empty list. */
  lemma LoadEmptyList()
    ensures LoadPosts("[]") == Some([]) && LoadBets("[]") == Some([])
  {
    assert SavePosts([]) == "[]" && SaveBets([]) == "[]";
    LoadSavePosts([]);
    LoadSaveBets([]);
  }
}
