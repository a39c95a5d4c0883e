/**
 * The onboarding view model: the screen-load state set by the fetch callbacks,
 * the `isOnboarding` flag, and the button-action dispatch. The repository's
 * conversion logging is recorded in a ghost list of screen ids.
 */
module Onboarding {
  import opened Wrappers
  import opened Json
  import opened Models

  /** Why the fetch publisher failed: transport, or the screen did not decode. */
  datatype FetchError = TransportFailure | DecodingFailure(cause: DecodeError)

  /** Combine's completion event. */
  datatype Completion = Finished | Failure(error: FetchError)

  datatype ScreenState = Loading | Loaded(screen: Screen) | Error(error: FetchError)

  /** The closed set of button actions, backed by raw strings. */
  datatype ButtonAction = OnboardingComplete

  function ActionRawValue(a: ButtonAction): string {
    match a
    case OnboardingComplete => "onboardingComplete"
  }

  /** `ButtonAction(rawValue:)`: recognises exactly the raw value of a member. */
  function ParseButtonAction(raw: string): (r: Option<ButtonAction>)
    ensures r.Some? ==> ActionRawValue(r.value) == raw
    ensures r.None? ==> forall a: ButtonAction :: ActionRawValue(a) != raw
  {
    if raw == "onboardingComplete" then Some(OnboardingComplete) else None
  }

  /** Parsing a member's raw value gives back that member. */
  lemma ButtonActionRoundTrip(a: ButtonAction)
    ensures ParseButtonAction(ActionRawValue(a)) == Some(a)
  {
  }

  class OnboardingViewModel {
    var state: ScreenState
    /** The app's onboarding flag, shared with the app through a binding. */
    var isOnboarding: bool
    /** The screen ids passed to the repository's `logConversion`, in call order. */
    ghost var conversions: seq<int>

    /** A new view model is loading; its fetch has been started but has not answered. */
    constructor (isOnboarding: bool)
      ensures state == Loading
      ensures this.isOnboarding == isOnboarding
      ensures conversions == []
    {
      state := Loading;
      this.isOnboarding := isOnboarding;
      conversions := [];
    }

    /** The publisher's value callback: the fetched screen becomes the state. */
    method ReceiveValue(screen: Screen)
      modifies this`state
      ensures state == Loaded(screen)
    {
      state := Loaded(screen);
    }

    /** The publisher's completion callback: a failure becomes the state, `finished` changes nothing. */
    method ReceiveCompletion(completion: Completion)
      modifies this`state
      ensures completion.Finished? ==> state == old(state)
      ensures completion.Failure? ==> state == Error(completion.error)
    {
      match completion
      case Finished =>
      case Failure(error) =>
        state := Error(error);
    }

    /** Leaves onboarding. */
    method ShowAppMain()
      modifies this`isOnboarding
      ensures !isOnboarding
      ensures state == old(state) && conversions == old(conversions)
    {
      isOnboarding := false;
    }

    /** The repository call that reports a conversion for a screen. */
    method LogConversion(screenId: int)
      modifies this`conversions
      ensures conversions == old(conversions) + [screenId]
    {
      conversions := conversions + [screenId];
    }

    /**
     * A recognised action logs one conversion for the screen and then leaves
     * onboarding; any other string does nothing at all. The state is never touched.
     */
    method HandleButtonAction(screenId: int, action: string)
      modifies this`isOnboarding, this`conversions
      ensures state == old(state)
      ensures action == ActionRawValue(OnboardingComplete) ==>
        conversions == old(conversions) + [screenId] && !isOnboarding
      ensures action != ActionRawValue(OnboardingComplete) ==>
        conversions == old(conversions) && isOnboarding == old(isOnboarding)
    {
      match ParseButtonAction(action)
      case Some(OnboardingComplete) =>
        LogConversion(screenId);
        ShowAppMain();
      case None =>
    }
  }

  /**
   * The fetch publisher delivering a screen payload: a payload that decodes is
   * sent as a value followed by `finished`; one that does not decode ends the
   * stream with a decoding failure.
   */
  method Deliver(vm: OnboardingViewModel, v: JValue)
    modifies vm`state
    ensures DecodeScreen(v).Ok? ==> vm.state == Loaded(DecodeScreen(v).value)
    ensures DecodeScreen(v).Err? ==> vm.state == Error(DecodingFailure(DecodeScreen(v).error))
  {
    match DecodeScreen(v)
    case Ok(screen) =>
      vm.ReceiveValue(screen);
      vm.ReceiveCompletion(Finished);
    case Err(error) =>
      vm.ReceiveCompletion(Failure(DecodingFailure(error)));
  }

  /** A failed fetch shows the fallback screen, whose button leaves onboarding without logging. */
  method FailedFetchThenFallback() returns (vm: OnboardingViewModel)
    ensures vm.state == Error(TransportFailure)
    ensures !vm.isOnboarding && vm.conversions == []
  {
    vm := new OnboardingViewModel(true);
    vm.ReceiveCompletion(Failure(TransportFailure));
    vm.ShowAppMain();
    vm.ShowAppMain();
  }

  /**
   * A loaded screen whose button links to "onboardingComplete": pressing it passes
   * the screen's id and the button's link, logs that id once and leaves onboarding.
   */
  method PressCompleteButton(screen: Screen, k: nat) returns (vm: OnboardingViewModel)
    requires k < |screen.content.blocks|
    requires screen.content.blocks[k].data.Button?
    requires screen.content.blocks[k].data.button.link == "onboardingComplete"
    ensures vm.state == Loaded(screen)
    ensures !vm.isOnboarding && vm.conversions == [screen.id]
  {
    vm := new OnboardingViewModel(true);
    vm.ReceiveValue(screen);
    vm.ReceiveCompletion(Finished);
    vm.HandleButtonAction(screen.id, "unknownAction");
    assert vm.isOnboarding && vm.conversions == [];
    vm.HandleButtonAction(screen.id, screen.content.blocks[k].data.button.link);
  }
}
