/**
 * The token-distribution context (`TokenDistroProvider`): one GIV helper and a
 * map of regen helpers per network, rebuilt when that network's subgraph
 * values arrive, and the pair of the network the wallet is on exposed as the
 * current one. The configured network numbers and regen stream lists are
 * parameters.
 */
module TokenDistroContext {
  import opened Wrappers
  import opened TokenDistro

  /** `AddressZero` of ethers. */
  const AddressZero: string := "0x0000000000000000000000000000000000000000"

  /** The subgraph values of one network: the GIV schedule and one schedule per regen stream. */
  datatype NetworkValues = NetworkValues(
    tokenDistroInfo: Option<TokenDistroInfo>,
    streams: map<StreamType, TokenDistroInfo>)

  /**
   * `defaultTokenDistroHelper`: zero address and zero amounts. Its three
   * instants come from three `new Date()` calls at module load and are
   * assumed equal here (`loadTime`). Nothing of any allocation is ever liquid
   * under it.
   */
  function DefaultTokenDistroHelper(loadTime: int): (h: TokenDistroHelper)
    ensures h.Ordered() && h.streamType.None? && h.info.contractAddress == AddressZero
    ensures forall amount: nat, now: int :: h.LiquidPart(amount, now) == 0
    ensures forall now: int :: h.GlobalReleasePercentage(now) == 0.0
  {
    TokenDistroHelper(TokenDistroInfo(AddressZero, 0, 0, 0, loadTime, loadTime, loadTime), None)
  }

  /**
   * The mainnet effect's loop: every configured stream gets a key, holding a
   * helper for the stream's schedule or the default helper when it has none.
   */
  method BuildMainnetRegenHelpers(regenStreams: seq<StreamType>, values: NetworkValues, default: TokenDistroHelper)
    returns (helpers: map<StreamType, TokenDistroHelper>)
    ensures helpers.Keys == set t | t in regenStreams
    ensures forall t :: t in helpers ==>
      helpers[t] == (if t in values.streams then TokenDistroHelper(values.streams[t], Some(t)) else default)
  {
    helpers := map[];
    for i := 0 to |regenStreams|
      invariant helpers.Keys == set t | t in regenStreams[..i]
      invariant forall t :: t in helpers ==>
        helpers[t] == (if t in values.streams then TokenDistroHelper(values.streams[t], Some(t)) else default)
    {
      var t := regenStreams[i];
      assert regenStreams[..i + 1] == regenStreams[..i] + [t];
      helpers := helpers[t := if t in values.streams then TokenDistroHelper(values.streams[t], Some(t)) else default];
    }
    assert regenStreams[..|regenStreams|] == regenStreams;
  }

  /**
   * The xDai effect's loop: only streams that have a schedule get a key;
   * the others are left out, not defaulted.
   */
  method BuildXDaiRegenHelpers(regenStreams: seq<StreamType>, values: NetworkValues)
    returns (helpers: map<StreamType, TokenDistroHelper>)
    ensures helpers.Keys == set t | t in regenStreams && t in values.streams
    ensures forall t :: t in helpers ==> helpers[t] == TokenDistroHelper(values.streams[t], Some(t))
  {
    helpers := map[];
    for i := 0 to |regenStreams|
      invariant helpers.Keys == set t | t in regenStreams[..i] && t in values.streams
      invariant forall t :: t in helpers ==> helpers[t] == TokenDistroHelper(values.streams[t], Some(t))
    {
      var t := regenStreams[i];
      assert regenStreams[..i + 1] == regenStreams[..i] + [t];
      if t in values.streams {
        helpers := helpers[t := TokenDistroHelper(values.streams[t], Some(t))];
      }
    }
    assert regenStreams[..|regenStreams|] == regenStreams;
  }

  /** The `chainId` switch: the xDai network selects its own pair, every other id (or none) mainnet's. */
  function SelectNetwork<T>(chainId: Option<int>, xDaiNetworkNumber: int, xDai: T, mainnet: T): (r: T)
    ensures chainId == Some(xDaiNetworkNumber) ==> r == xDai
    ensures chainId != Some(xDaiNetworkNumber) ==> r == mainnet
  {
    if chainId == Some(xDaiNetworkNumber) then xDai else mainnet
  }

  class TokenDistroProvider {
    const xDaiNetworkNumber: int
    const mainnetRegenStreams: seq<StreamType>
    const xDaiRegenStreams: seq<StreamType>
    const defaultHelper: TokenDistroHelper

    var chainId: Option<int>
    var mainnetGivTokenDistro: TokenDistroHelper
    var xDaiGivTokenDistro: TokenDistroHelper
    var currentGivTokenDistroInfo: TokenDistroHelper
    var mainnetRegenTokenHelpers: map<StreamType, TokenDistroHelper>
    var xDaiRegenTokenDistroHelpers: map<StreamType, TokenDistroHelper>
    var currentRegenTokenDistroHelpers: map<StreamType, TokenDistroHelper>

    /** Once the effects have run, the current pair is the selected network's. */
    ghost predicate Valid()
      reads this
    {
      && currentGivTokenDistroInfo == SelectNetwork(chainId, xDaiNetworkNumber, xDaiGivTokenDistro, mainnetGivTokenDistro)
      && currentRegenTokenDistroHelpers
         == SelectNetwork(chainId, xDaiNetworkNumber, xDaiRegenTokenDistroHelpers, mainnetRegenTokenHelpers)
    }

    /** Mount: every GIV helper is the default one and every regen map is empty. */
    constructor (xDaiNetwork: int, mainnetStreams: seq<StreamType>, xDaiStreams: seq<StreamType>,
                 default: TokenDistroHelper, chain: Option<int>)
      ensures Valid()
      ensures xDaiNetworkNumber == xDaiNetwork && mainnetRegenStreams == mainnetStreams
      ensures xDaiRegenStreams == xDaiStreams && defaultHelper == default && chainId == chain
      ensures mainnetGivTokenDistro == default && xDaiGivTokenDistro == default
      ensures mainnetRegenTokenHelpers == map[] && xDaiRegenTokenDistroHelpers == map[]
    {
      xDaiNetworkNumber, mainnetRegenStreams, xDaiRegenStreams, defaultHelper :=
        xDaiNetwork, mainnetStreams, xDaiStreams, default;
      chainId := chain;
      mainnetGivTokenDistro, xDaiGivTokenDistro, currentGivTokenDistroInfo := default, default, default;
      mainnetRegenTokenHelpers, xDaiRegenTokenDistroHelpers, currentRegenTokenDistroHelpers := map[], map[], map[];
    }

    /** The selection effect. */
    method SelectCurrent()
      modifies this`currentGivTokenDistroInfo, this`currentRegenTokenDistroHelpers
      ensures Valid()
    {
      if chainId == Some(xDaiNetworkNumber) {
        currentGivTokenDistroInfo := xDaiGivTokenDistro;
        currentRegenTokenDistroHelpers := xDaiRegenTokenDistroHelpers;
      } else {
        currentGivTokenDistroInfo := mainnetGivTokenDistro;
        currentRegenTokenDistroHelpers := mainnetRegenTokenHelpers;
      }
    }

    /**
     * New mainnet values: the GIV helper is replaced only when a schedule came
     * with them; the regen map is rebuilt; then the selection effect reruns.
     */
    method OnMainnetValues(values: NetworkValues)
      requires Valid()
      modifies this
      ensures Valid()
      ensures mainnetGivTokenDistro ==
        (if values.tokenDistroInfo.Some? then TokenDistroHelper(values.tokenDistroInfo.value, None)
         else old(mainnetGivTokenDistro))
      ensures mainnetRegenTokenHelpers.Keys == set t | t in mainnetRegenStreams
      ensures forall t :: t in mainnetRegenTokenHelpers ==>
        mainnetRegenTokenHelpers[t]
          == (if t in values.streams then TokenDistroHelper(values.streams[t], Some(t)) else defaultHelper)
      ensures chainId == old(chainId) && xDaiGivTokenDistro == old(xDaiGivTokenDistro)
      ensures xDaiRegenTokenDistroHelpers == old(xDaiRegenTokenDistroHelpers)
    {
      if values.tokenDistroInfo.Some? {
        mainnetGivTokenDistro := TokenDistroHelper(values.tokenDistroInfo.value, None);
      }
      mainnetRegenTokenHelpers := BuildMainnetRegenHelpers(mainnetRegenStreams, values, defaultHelper);
      SelectCurrent();
    }

    /**
     * New xDai values: the GIV helper is replaced only when a schedule came
     * with them; the regen map is rebuilt from the streams that have one.
     */
    method OnXDaiValues(values: NetworkValues)
      requires Valid()
      modifies this
      ensures Valid()
      ensures xDaiGivTokenDistro ==
        (if values.tokenDistroInfo.Some? then TokenDistroHelper(values.tokenDistroInfo.value, None)
         else old(xDaiGivTokenDistro))
      ensures xDaiRegenTokenDistroHelpers.Keys == set t | t in xDaiRegenStreams && t in values.streams
      ensures forall t :: t in xDaiRegenTokenDistroHelpers ==>
        xDaiRegenTokenDistroHelpers[t] == TokenDistroHelper(values.streams[t], Some(t))
      ensures chainId == old(chainId) && mainnetGivTokenDistro == old(mainnetGivTokenDistro)
      ensures mainnetRegenTokenHelpers == old(mainnetRegenTokenHelpers)
    {
      if values.tokenDistroInfo.Some? {
        xDaiGivTokenDistro := TokenDistroHelper(values.tokenDistroInfo.value, None);
      }
      xDaiRegenTokenDistroHelpers := BuildXDaiRegenHelpers(xDaiRegenStreams, values);
      SelectCurrent();
    }

    /** The wallet switches network: only the selection changes. */
    method OnChainChanged(chain: Option<int>)
      requires Valid()
      modifies this
      ensures Valid() && chainId == chain
      ensures mainnetGivTokenDistro == old(mainnetGivTokenDistro) && xDaiGivTokenDistro == old(xDaiGivTokenDistro)
      ensures mainnetRegenTokenHelpers == old(mainnetRegenTokenHelpers)
      ensures xDaiRegenTokenDistroHelpers == old(xDaiRegenTokenDistroHelpers)
    {
      chainId := chain;
      SelectCurrent();
    }

    /**
     * `getTokenDistroHelper`: no stream type gives the current GIV helper; a
     * stream type gives its entry in the current regen map, which may be absent.
     */
    function GetTokenDistroHelper(streamType: Option<StreamType>): (r: Option<TokenDistroHelper>)
      reads this
      ensures streamType.None? ==> r == Some(currentGivTokenDistroInfo)
      ensures streamType.Some? ==>
        (r.Some? <==> streamType.value in currentRegenTokenDistroHelpers)
        && (r.Some? ==> r.value == currentRegenTokenDistroHelpers[streamType.value])
    {
      match streamType
      case None => Some(currentGivTokenDistroInfo)
      case Some(t) => if t in currentRegenTokenDistroHelpers then Some(currentRegenTokenDistroHelpers[t]) else None
    }
  }

  /** On mainnet every configured stream resolves to a helper, possibly the default one. */
  lemma MainnetStreamsAlwaysResolve(p: TokenDistroProvider, t: StreamType)
    requires p.Valid() && p.chainId != Some(p.xDaiNetworkNumber)
    requires p.mainnetRegenTokenHelpers.Keys == set s | s in p.mainnetRegenStreams
    requires t in p.mainnetRegenStreams
    ensures p.GetTokenDistroHelper(Some(t)).Some?
  {
  }
}
