/**
 * The GeoShapes page controller (component `App` in src/App.tsx): the mint
 * control's rendering rule, the mint handler, and the effects that react to a
 * token-read error, to a mint transaction, and to the token selection.
 *
 * Wallet and ledger calls are not modelled; their observable results are
 * inputs: hook values become fields the caller sets, and the outcomes of
 * `switchChain` and `writeContract` are parameters.  Each state change of
 * class `App` is specified by a pure step function over `Snapshot`, and the
 * properties are lemmas about those functions.
 */
module Controller {
  import opened Wrappers
  import opened Geometry
  import opened Artwork

  const MaxSupply: nat := 10000
  const MintLabel: string := "Mint for 0.0001 MON"
  const MintingLabel: string := "Minting..."
  const AllMintedLabel: string := "All Minted"
  const WarpcastUrl: string := "https://warpcast.com/~/mini-apps/launch?domain=geoshapes.pages.dev"
  const FailedToMint: string := "Failed to mint"
  const TokenLoadError: string := "Error loading token data"

  /** Delays (milliseconds) of the five re-reads scheduled after a mint transaction appears. */
  const RefetchDelays: seq<nat> := [1000, 2000, 3000, 5000, 10000]
  /** Delay (milliseconds) after which the minting indicator is cleared. */
  const MintingClearDelay: nat := 10000

  /** The component's own record of loading, minting and the displayed error. */
  datatype AppState = AppState(isLoading: bool, isMinting: bool, error: Option<string>)

  /** What the mint area shows: a link out when disconnected, otherwise a button. */
  datatype MintControl =
    | WarpcastLink(href: string)
    | MintButton(disabled: bool, spinner: bool, text: string)

  /** A value thrown by an awaited call: an `Error` object with its message, or anything else. */
  datatype Thrown = ErrorInstance(message: string) | NonError

  /**
   * How an external call returned to the mint handler: it resolved, or it
   * threw (for `switchChain`, its awaited rejection; for the write, only a
   * synchronous throw, since the write is not awaited).
   */
  datatype Outcome = Resolved | Threw(thrown: Thrown)

  /** Everything the component holds or reads, at one moment. */
  datatype Snapshot = Snapshot(
    isConnected: bool,
    isMintPending: bool,
    ownedTokens: Option<seq<nat>>,
    totalSupply: Option<nat>,
    appState: AppState,
    selectedTokenId: Option<nat>,
    shapeType: Option<string>,
    colors: Option<ColorPair>,
    image: Option<Image>)

  /**
   * Result of the mint handler: the new state and whether the call that issues
   * the mint write was made (also when that call then threw synchronously).
   */
  datatype MintOutcome = MintOutcome(next: Snapshot, writeCalled: bool)

  // ---------------------------------------------------------------- mint control

  /** The mint area for the given connection, supply and mint progress. */
  function RenderMintButton(isConnected: bool, totalSupply: Option<nat>, isMintPending: bool, isMinting: bool): (c: MintControl)
    ensures c.WarpcastLink? <==> !isConnected
    ensures c.WarpcastLink? ==> c.href == WarpcastUrl
    ensures c.MintButton? ==> (c.disabled <==> totalSupply == Some(MaxSupply) || isMintPending || isMinting)
    ensures c.MintButton? ==> (c.disabled <==> c.text != MintLabel)
    ensures c.MintButton? ==> (c.text == AllMintedLabel <==> totalSupply == Some(MaxSupply))
    ensures c.MintButton? ==> (c.text == MintingLabel <==> totalSupply != Some(MaxSupply) && (isMintPending || isMinting))
    ensures c.MintButton? ==> (c.spinner <==> isMintPending || isMinting)
  {
    if !isConnected then WarpcastLink(WarpcastUrl)
    else
      var soldOut := totalSupply == Some(MaxSupply);
      var isDisabled := soldOut || isMintPending || isMinting;
      var isLoading := isMintPending || isMinting;
      var buttonText := if soldOut then AllMintedLabel else if isLoading then MintingLabel else MintLabel;
      MintButton(isDisabled, isLoading, buttonText)
  }

  /** The mint area of a snapshot. */
  function MintControlOf(s: Snapshot): MintControl
  {
    RenderMintButton(s.isConnected, s.totalSupply, s.isMintPending, s.appState.isMinting)
  }

  // ---------------------------------------------------------------- mint handler

  /** The error text shown for a caught value. */
  function CaughtMessage(e: Thrown): string
  {
    match e
    case ErrorInstance(message) => message
    case NonError => FailedToMint
  }

  /**
   * The mint handler: nothing when disconnected; otherwise clear the error,
   * switch chain, and issue the mint write.  A value thrown by `switchChain`,
   * or thrown synchronously by the call that issues the write, becomes the
   * error; a write that fails after it was issued is never seen here.
   */
  function HandleMintStep(s: Snapshot, switchChain: Outcome, writeContract: Outcome): (r: MintOutcome)
    ensures !s.isConnected ==> r == MintOutcome(s, false)
    ensures r.writeCalled <==> s.isConnected && switchChain.Resolved?
    ensures r.next == s.(appState := s.appState.(error := r.next.appState.error))
    ensures s.isConnected && switchChain.Threw? && switchChain.thrown.ErrorInstance? ==>
              r.next.appState.error == Some(switchChain.thrown.message)
    ensures s.isConnected && switchChain == Threw(NonError) ==> r.next.appState.error == Some(FailedToMint)
    ensures s.isConnected && switchChain.Resolved? && writeContract.Resolved? ==> r.next.appState.error == None
    ensures s.isConnected && switchChain.Resolved? && writeContract.Threw? && writeContract.thrown.ErrorInstance? ==>
              r.next.appState.error == Some(writeContract.thrown.message)
    ensures s.isConnected && switchChain.Resolved? && writeContract == Threw(NonError) ==>
              r.next.appState.error == Some(FailedToMint)
  {
    if !s.isConnected then MintOutcome(s, false)
    else
      var cleared := s.(appState := s.appState.(error := None));
      match switchChain
      case Threw(e) => MintOutcome(cleared.(appState := cleared.appState.(error := Some(CaughtMessage(e)))), false)
      case Resolved =>
        match writeContract
        case Resolved => MintOutcome(cleared, true)
        case Threw(e) => MintOutcome(cleared.(appState := cleared.appState.(error := Some(CaughtMessage(e)))), true)
  }

  /**
   * The handler's own state update (the error) never changes the mint area.
   * The pending flag that the write call raises reaches the mint area only
   * through the hooks (`App.ObserveHooks`); see `MintWriteLocksMintButton`.
   */
  lemma HandleMintLeavesMintControl(s: Snapshot, switchChain: Outcome, writeContract: Outcome)
    ensures MintControlOf(HandleMintStep(s, switchChain, writeContract).next) == MintControlOf(s)
  {
  }

  /**
   * Once the write call is made, the write hook reports it pending: a connected
   * user, with tokens left, then sees a disabled button with the spinner and
   * "Minting...".
   */
  lemma MintWriteLocksMintButton(s: Snapshot, writeContract: Outcome)
    requires s.isConnected && s.totalSupply != Some(MaxSupply)
    ensures var o := HandleMintStep(s, Resolved, writeContract);
            o.writeCalled && MintControlOf(o.next.(isMintPending := true)) == MintButton(true, true, MintingLabel)
  {
  }

  // ---------------------------------------------------------------- mint transaction

  /** The effect on a mint transaction id: a present (truthy) id turns the minting indicator on. */
  function TransactionStep(s: Snapshot, txId: Option<string>): (r: Snapshot)
    ensures txId.None? || txId == Some("") ==> r == s
    ensures txId.Some? && txId.value != "" ==> r == s.(appState := s.appState.(isMinting := true))
  {
    if txId.None? || txId.value == "" then s
    else s.(appState := s.appState.(isMinting := true))
  }

  /** While a mint transaction is being followed, a connected user sees a disabled button that does not offer to mint. */
  lemma TransactionLocksMintButton(s: Snapshot, txId: string)
    requires s.isConnected && txId != ""
    ensures var c := MintControlOf(TransactionStep(s, Some(txId)));
            c.MintButton? && c.disabled && c.spinner && c.text != MintLabel
  {
  }

  /** What a timer scheduled after a mint transaction does when it fires. */
  datatype TimerAction = RefetchReads | ClearMinting

  /** A timer: its delay in milliseconds and its action. */
  datatype Timer = Timer(delay: nat, action: TimerAction)

  /**
   * The timers a mint transaction schedules: exactly five re-reads, at
   * strictly increasing delays, then the clearing of the minting indicator at
   * 10000 ms, no earlier than any re-read.
   */
  function MintTimers(): (timers: seq<Timer>)
    ensures |timers| == 6
    ensures forall i :: 0 <= i < |timers| ==> (timers[i].action == RefetchReads <==> i < 5)
    ensures forall i, j :: 0 <= i < j < 5 ==> timers[i].delay < timers[j].delay
    ensures forall i :: 0 <= i < |timers| ==> timers[i].delay <= timers[5].delay
    ensures timers[5] == Timer(10000, ClearMinting)
  {
    seq(|RefetchDelays|, i requires 0 <= i < |RefetchDelays| => Timer(RefetchDelays[i], RefetchReads))
    + [Timer(MintingClearDelay, ClearMinting)]
  }

  /** Builds the timers of a mint transaction, one re-read per delay, then the final clearing timer. */
  method ScheduleMintTimers() returns (timers: seq<Timer>)
    ensures timers == MintTimers()
  {
    timers := [];
    for i := 0 to |RefetchDelays|
      invariant |timers| == i
      invariant forall k :: 0 <= k < i ==> timers[k] == Timer(RefetchDelays[k], RefetchReads)
    {
      timers := timers + [Timer(RefetchDelays[i], RefetchReads)];
    }
    timers := timers + [Timer(MintingClearDelay, ClearMinting)];
  }

  // ---------------------------------------------------------------- token selection

  /** JavaScript truthiness of an optional token id: `undefined` and `0n` are both falsy. */
  predicate IsTruthy(id: Option<nat>)
  {
    id.Some? && id.value != 0
  }

  /** The displayed shape name, colours and artwork are those of token `t`. */
  ghost predicate ShowsToken(shapeType: Option<string>, colors: Option<ColorPair>, image: Option<Image>, t: nat)
  {
    var g := GetGeometry(t);
    shapeType == Some(g.shapeType) && colors == Some(g.colors) && image == Some(GetImage(t, g))
  }

  /** The display is empty, or all of it shows one and the same non-zero token. */
  ghost predicate Coherent(s: Snapshot)
  {
    (s.shapeType.None? && s.colors.None? && s.image.None?)
    || exists t: nat :: t != 0 && ShowsToken(s.shapeType, s.colors, s.image, t)
  }

  /**
   * The selection effect: with no (truthy) selection, select the first owned
   * token if there is one and change nothing else; with a selection, show its
   * geometry and artwork.
   */
  function SelectionStep(s: Snapshot): (r: Snapshot)
    ensures ((s.selectedTokenId == None || s.selectedTokenId == Some(0)) &&
             s.ownedTokens.Some? && |s.ownedTokens.value| > 0) ==>
              r == s.(selectedTokenId := Some(s.ownedTokens.value[0]))
    ensures ((s.selectedTokenId == None || s.selectedTokenId == Some(0)) &&
             (s.ownedTokens.None? || s.ownedTokens.value == [])) ==> r == s
    ensures s.selectedTokenId != None && s.selectedTokenId != Some(0) ==>
              ShowsToken(r.shapeType, r.colors, r.image, s.selectedTokenId.value) &&
              r == s.(shapeType := r.shapeType, colors := r.colors, image := r.image)
  {
    if !IsTruthy(s.selectedTokenId) then
      if s.ownedTokens.Some? && |s.ownedTokens.value| > 0 then s.(selectedTokenId := Some(s.ownedTokens.value[0]))
      else s
    else
      var id := s.selectedTokenId.value;
      var geometry := GetGeometry(id);
      s.(shapeType := Some(geometry.shapeType), colors := Some(geometry.colors), image := Some(GetImage(id, geometry)))
  }

  /** The selection effect keeps the display coherent. */
  lemma SelectionPreservesCoherent(s: Snapshot)
    requires Coherent(s)
    ensures Coherent(SelectionStep(s))
  {
    if IsTruthy(s.selectedTokenId) {
      var t := s.selectedTokenId.value;
      var r := SelectionStep(s);
      assert t != 0 && ShowsToken(r.shapeType, r.colors, r.image, t);
    }
  }

  /** Once a token is selected, re-running the selection effect changes nothing. */
  lemma SelectionIdempotent(s: Snapshot)
    requires IsTruthy(s.selectedTokenId)
    ensures SelectionStep(SelectionStep(s)) == SelectionStep(s)
  {
  }

  /** The selection effect never loops: from any state, a third run changes nothing. */
  lemma SelectionReachesFixpoint(s: Snapshot)
    ensures SelectionStep(SelectionStep(SelectionStep(s))) == SelectionStep(SelectionStep(s))
  {
    if IsTruthy(s.selectedTokenId) {
      SelectionIdempotent(s);
    } else if s.ownedTokens.Some? && |s.ownedTokens.value| > 0 {
      var once := SelectionStep(s);
      if IsTruthy(once.selectedTokenId) {
        SelectionIdempotent(once);
      }
    }
  }

  /**
   * With nothing selected and a non-zero first owned token, two runs of the
   * effect (the second triggered by the new selection) select and show that token.
   */
  lemma SelectionSettlesOnFirstOwned(s: Snapshot)
    requires !IsTruthy(s.selectedTokenId)
    requires s.ownedTokens.Some? && |s.ownedTokens.value| > 0 && s.ownedTokens.value[0] != 0
    ensures var r := SelectionStep(SelectionStep(s));
            r.selectedTokenId == Some(s.ownedTokens.value[0]) && ShowsToken(r.shapeType, r.colors, r.image, s.ownedTokens.value[0])
  {
  }

  /**
   * Selecting token 0 counts as no selection: the effect replaces it by the
   * first owned token (0 again when that is token 0) and the display keeps
   * whatever it showed before.
   */
  lemma TokenZeroIsNoSelection(s: Snapshot)
    requires s.selectedTokenId == Some(0)
    ensures var r := SelectionStep(s);
            r.shapeType == s.shapeType && r.colors == s.colors && r.image == s.image
  {
  }

  // ---------------------------------------------------------------- the component

  /** The page component's state, changed in place by its handlers and effects. */
  class App {
    var isConnected: bool
    var isMintPending: bool
    var ownedTokens: Option<seq<nat>>
    var totalSupply: Option<nat>
    var appState: AppState
    var selectedTokenId: Option<nat>
    var shapeType: Option<string>
    var colors: Option<ColorPair>
    var image: Option<Image>

    /** All fields as one value. */
    function View(): Snapshot
      reads this
    {
      Snapshot(isConnected, isMintPending, ownedTokens, totalSupply, appState,
               selectedTokenId, shapeType, colors, image)
    }

    ghost predicate Valid()
      reads this
    {
      Coherent(View())
    }

    /** The initial state, given the wallet and ledger values the hooks report at mount. */
    constructor (isConnected: bool, isMintPending: bool, ownedTokens: Option<seq<nat>>, totalSupply: Option<nat>)
      ensures Valid()
      ensures View() == Snapshot(isConnected, isMintPending, ownedTokens, totalSupply,
                                 AppState(false, false, None), None, None, None, None)
    {
      this.isConnected := isConnected;
      this.isMintPending := isMintPending;
      this.ownedTokens := ownedTokens;
      this.totalSupply := totalSupply;
      appState := AppState(false, false, None);
      selectedTokenId := None;
      shapeType := None;
      colors := None;
      image := None;
    }

    /** New wallet and ledger values reported by the hooks (connection, pending write, polled reads). */
    method ObserveHooks(isConnected: bool, isMintPending: bool, ownedTokens: Option<seq<nat>>, totalSupply: Option<nat>)
      requires Valid()
      modifies this
      ensures Valid()
      ensures View() == old(View()).(isConnected := isConnected, isMintPending := isMintPending,
                                     ownedTokens := ownedTokens, totalSupply := totalSupply)
    {
      this.isConnected := isConnected;
      this.isMintPending := isMintPending;
      this.ownedTokens := ownedTokens;
      this.totalSupply := totalSupply;
    }

    /** The mint handler, given how `switchChain` and `writeContract` end. */
    method HandleMint(switchChain: Outcome, writeContract: Outcome) returns (writeCalled: bool)
      requires Valid()
      modifies this
      ensures Valid()
      ensures MintOutcome(View(), writeCalled) == HandleMintStep(old(View()), switchChain, writeContract)
    {
      if !isConnected {
        return false;
      }
      appState := appState.(error := None);
      if switchChain.Threw? {
        appState := appState.(error := Some(CaughtMessage(switchChain.thrown)));
        return false;
      }
      writeCalled := true;
      if writeContract.Threw? {
        appState := appState.(error := Some(CaughtMessage(writeContract.thrown)));
      }
    }

    /**
     * The effect on the token read's error flag.  The source runs it only when
     * the flag changes, so an error that persists is not shown again once the
     * mint handler has cleared it; when each effect fires is the caller's choice.
     */
    method OnTokenReadError(isTokenError: bool)
      requires Valid()
      modifies this
      ensures Valid()
      ensures View() == if isTokenError then old(View()).(appState := old(appState).(error := Some(TokenLoadError)))
                        else old(View())
    {
      if isTokenError {
        appState := appState.(error := Some(TokenLoadError));
      }
    }

    /** The effect on a new mint transaction id; returns the timers it schedules. */
    method OnTransaction(txId: Option<string>) returns (timers: seq<Timer>)
      requires Valid()
      modifies this
      ensures Valid()
      ensures View() == TransactionStep(old(View()), txId)
      ensures timers == if txId.None? || txId == Some("") then [] else MintTimers()
    {
      if txId.None? || txId.value == "" {
        return [];
      }
      appState := appState.(isMinting := true);
      timers := ScheduleMintTimers();
    }

    /** The timer that fires `MintingClearDelay` after a transaction and clears the minting indicator. */
    method OnMintingCleared()
      requires Valid()
      modifies this
      ensures Valid()
      ensures View() == old(View()).(appState := old(appState).(isMinting := false))
    {
      appState := appState.(isMinting := false);
    }

    /** A click on an owned token's button. */
    method SelectToken(tokenId: nat)
      requires Valid()
      modifies this
      ensures Valid()
      ensures View() == old(View()).(selectedTokenId := Some(tokenId))
    {
      selectedTokenId := Some(tokenId);
    }

    /** The selection effect, run after the selection or the owned tokens change. */
    method RunSelectionEffect()
      requires Valid()
      modifies this
      ensures Valid()
      ensures View() == SelectionStep(old(View()))
    {
      SelectionPreservesCoherent(View());
      if !IsTruthy(selectedTokenId) {
        if ownedTokens.Some? && |ownedTokens.value| > 0 {
          selectedTokenId := Some(ownedTokens.value[0]);
        }
        return;
      }
      var id := selectedTokenId.value;
      var geometry := GetGeometry(id);
      shapeType := Some(geometry.shapeType);
      colors := Some(geometry.colors);
      image := Some(GetImage(id, geometry));
    }
  }
}
