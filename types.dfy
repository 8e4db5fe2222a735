/** The event records of frontend/src/utils/types.ts, as the chain logs deliver them and in the
    "formatted" form the front-end stores: numeric fields become decimal strings so that the
    records can go through JSON. */
module Types {
  import opened Wrappers
  import opened Numerals

  // ---- PostCreated, as fetched ---------------------------------------------------------------

  datatype PostParams = PostParams(
    profileId: nat,
    contentURI: string,
    actionModules: seq<string>,
    actionModulesInitDatas: seq<string>,
    referenceModule: string,
    referenceModuleInitData: string)

  datatype PostArgs = PostArgs(
    postParams: PostParams,
    pubId: nat,
    actionModulesInitReturnDatas: seq<string>,
    referenceModuleInitReturnData: string,
    transactionExecutor: string,
    timestamp: nat)

  datatype PostCreatedEvent = PostCreatedEvent(args: PostArgs, blockNumber: nat, transactionHash: string)

  // ---- PostCreated, as stored ----------------------------------------------------------------

  datatype PostParamsFormatted = PostParamsFormatted(
    profileId: string,
    contentURI: string,
    actionModules: seq<string>,
    actionModulesInitDatas: seq<string>,
    referenceModule: string,
    referenceModuleInitData: string)

  datatype PostArgsFormatted = PostArgsFormatted(
    postParams: PostParamsFormatted,
    pubId: string,
    actionModulesInitReturnDatas: seq<string>,
    referenceModuleInitReturnData: string,
    transactionExecutor: string,
    timestamp: string)

  datatype PostCreatedEventFormatted = PostCreatedEventFormatted(
    args: PostArgsFormatted, blockNumber: string, transactionHash: string)

  // ---- BetCreated: the arguments are kept as they are, only the block number is formatted ----

  datatype BetArgs = BetArgs(
    pubId: nat,
    profileId: nat,
    userId: nat,
    jurorId: nat,
    currency: string,
    amount: nat,
    timestamp: nat)

  datatype BetCreatedEvent = BetCreatedEvent(args: BetArgs, blockNumber: nat, transactionHash: string)

  datatype BetCreatedEventFormatted = BetCreatedEventFormatted(
    args: BetArgs, blockNumber: string, transactionHash: string)

  // ---- The Lens profile a user logs in with --------------------------------------------------

  datatype Handle = Handle(fullHandle: string, localName: string)
  datatype Owner = Owner(address: string)
  datatype LoginData = LoginData(handle: Handle, id: string, ownedBy: Owner)

  // ---- Converters ----------------------------------------------------------------------------

  /** `convertPostEventToSerializable`: the profile id, the publication id, the timestamp and the
      block number are replaced by their decimal strings; every other field, the transaction hash
      (the key the event is stored under) among them, is kept. */
  function ConvertPostEventToSerializable(event: PostCreatedEvent): (r: PostCreatedEventFormatted)
    ensures r.transactionHash == event.transactionHash
    ensures r.args.postParams.contentURI == event.args.postParams.contentURI
    ensures r.args.postParams.actionModules == event.args.postParams.actionModules
    ensures r.args.postParams.actionModulesInitDatas == event.args.postParams.actionModulesInitDatas
    ensures r.args.postParams.referenceModule == event.args.postParams.referenceModule
    ensures r.args.postParams.referenceModuleInitData == event.args.postParams.referenceModuleInitData
    ensures r.args.actionModulesInitReturnDatas == event.args.actionModulesInitReturnDatas
    ensures r.args.referenceModuleInitReturnData == event.args.referenceModuleInitReturnData
    ensures r.args.transactionExecutor == event.args.transactionExecutor
    ensures IsDecimalOf(r.args.postParams.profileId, event.args.postParams.profileId)
    ensures IsDecimalOf(r.args.pubId, event.args.pubId)
    ensures IsDecimalOf(r.args.timestamp, event.args.timestamp)
    ensures IsDecimalOf(r.blockNumber, event.blockNumber)
  {
    var p := event.args.postParams;
    DecimalForm(ToDecimal(p.profileId), p.profileId);
    DecimalForm(ToDecimal(event.args.pubId), event.args.pubId);
    DecimalForm(ToDecimal(event.args.timestamp), event.args.timestamp);
    DecimalForm(ToDecimal(event.blockNumber), event.blockNumber);
    PostCreatedEventFormatted(
      PostArgsFormatted(
        PostParamsFormatted(ToDecimal(p.profileId), p.contentURI, p.actionModules,
                            p.actionModulesInitDatas, p.referenceModule, p.referenceModuleInitData),
        ToDecimal(event.args.pubId),
        event.args.actionModulesInitReturnDatas,
        event.args.referenceModuleInitReturnData,
        event.args.transactionExecutor,
        ToDecimal(event.args.timestamp)),
      ToDecimal(event.blockNumber),
      event.transactionHash)
  }

  /** `convertBetCreatedEventToSerializable`: only the block number changes, to its decimal string. */
  function ConvertBetCreatedEventToSerializable(event: BetCreatedEvent): (r: BetCreatedEventFormatted)
    ensures r.args == event.args && r.transactionHash == event.transactionHash
    ensures IsDecimalOf(r.blockNumber, event.blockNumber)
  {
    DecimalForm(ToDecimal(event.blockNumber), event.blockNumber);
    BetCreatedEventFormatted(event.args, ToDecimal(event.blockNumber), event.transactionHash)
  }

  // ---- Reading the numbers back --------------------------------------------------------------

  /** `parseInt(s, 10)` where a non-negative integer is expected. */
  function ParseNat(s: string): Option<nat>
  {
    match ParseInt(s, 10)
    case Num(n) => if n >= 0 then Some(n) else None
    case NaN => None
  }

  /** The fetched record a stored post event came from, reading its decimal strings back with
      `parseInt(_, 10)` as the bet list does for block numbers. */
  function PostEventFromSerializable(f: PostCreatedEventFormatted): Option<PostCreatedEvent>
  {
    var p := f.args.postParams;
    match (ParseNat(p.profileId), ParseNat(f.args.pubId), ParseNat(f.args.timestamp), ParseNat(f.blockNumber))
    case (Some(profileId), Some(pubId), Some(timestamp), Some(blockNumber)) =>
      Some(PostCreatedEvent(
        PostArgs(
          PostParams(profileId, p.contentURI, p.actionModules, p.actionModulesInitDatas,
                     p.referenceModule, p.referenceModuleInitData),
          pubId, f.args.actionModulesInitReturnDatas, f.args.referenceModuleInitReturnData,
          f.args.transactionExecutor, timestamp),
        blockNumber, f.transactionHash))
    case _ => None
  }

  function BetEventFromSerializable(f: BetCreatedEventFormatted): Option<BetCreatedEvent>
  {
    match ParseNat(f.blockNumber)
    case Some(blockNumber) => Some(BetCreatedEvent(f.args, blockNumber, f.transactionHash))
    case None => None
  }

  /** A decimal string parses back, base 10, to the number it was written for. */
  lemma DecimalParses(s: string, n: nat)
    requires IsDecimalOf(s, n)
    ensures ParseInt(s, 10) == Num(n) && ParseNat(s) == Some(n)
  {
    DecimalForm(s, n);
    ParseIntDecimal(n);
  }

  /** Formatting a post event loses nothing: the fetched record can be read back from it. */
  lemma PostEventRoundTrip(event: PostCreatedEvent)
    ensures PostEventFromSerializable(ConvertPostEventToSerializable(event)) == Some(event)
  {
    var r := ConvertPostEventToSerializable(event);
    DecimalParses(r.args.postParams.profileId, event.args.postParams.profileId);
    DecimalParses(r.args.pubId, event.args.pubId);
    DecimalParses(r.args.timestamp, event.args.timestamp);
    DecimalParses(r.blockNumber, event.blockNumber);
  }

  /** Formatting a bet event loses nothing either; in particular its block number, by which the bet
      list orders the bets, parses back to the original height. */
  lemma BetEventRoundTrip(event: BetCreatedEvent)
    ensures BetEventFromSerializable(ConvertBetCreatedEventToSerializable(event)) == Some(event)
    ensures ParseInt(ConvertBetCreatedEventToSerializable(event).blockNumber, 10) == Num(event.blockNumber)
  {
    DecimalParses(ConvertBetCreatedEventToSerializable(event).blockNumber, event.blockNumber);
  }

  /** Two fetched events are formatted alike only if they are alike. */
  lemma ConvertersInjective(a: PostCreatedEvent, b: PostCreatedEvent, x: BetCreatedEvent, y: BetCreatedEvent)
    ensures ConvertPostEventToSerializable(a) == ConvertPostEventToSerializable(b) ==> a == b
    ensures ConvertBetCreatedEventToSerializable(x) == ConvertBetCreatedEventToSerializable(y) ==> x == y
  {
    PostEventRoundTrip(a);
    PostEventRoundTrip(b);
    BetEventRoundTrip(x);
    BetEventRoundTrip(y);
  }
}
