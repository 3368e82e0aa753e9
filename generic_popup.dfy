/**
 The interaction latches shared by every popup
 (Assets/Runtime/UIScripts/AbstractClases/GenericPopup.cs).

 Only the flags, the stored close action and the event subscriptions are
 modelled. A subscription of one of the popup's handlers to a static event is
 a counter, since `+=` adds one more entry to a delegate's invocation list and
 `-=` removes one if there is any. What the popup asks of the sound loader,
 the tween engine, the animator and the assets loader is recorded, in order,
 in the ghost log `events`.
 */
module Popups {
  import opened Wrappers

  /** A close action, named by the code it stands for. */
  type CloseAction = string

  /** A call the popup makes into another game component. */
  datatype PopupEvent =
    | FxSound(name: string)
    | FadeBackground(fadeIn: bool)
    | StartAnimation
    | EndAnimation
    | BackAction
    | ActionInvoked(action: CloseAction)
    | PopupClosed

  /** The animator state that ends the intro animation. */
  const IntroState: string := "PopupInAnimation"
  /** The animator state that ends the closing animation. */
  const OutroState: string := "PopupOutAnimation"

  /** What Initialize asks for: the woosh sound, the background fade-in and the intro animation. */
  const OpeningEvents: seq<PopupEvent> := [FxSound("Woosh"), FadeBackground(true), StartAnimation]
  /** What ClosePopup asks for: the background fade-out and the closing animation. */
  const ClosingEvents: seq<PopupEvent> := [FadeBackground(false), EndAnimation]

  /** What one opening followed by a close with the back button reports. */
  const BackCycle: seq<PopupEvent> := OpeningEvents + [BackAction] + ClosingEvents + [PopupClosed]

  class GenericPopup {
    /** `_buttonsAreEnabled`. */
    var buttonsAreEnabled: bool
    /** The canvas group's `interactable`. */
    var interactable: bool
    /** Whether the popup's GameObject is active. */
    var active: bool
    /** Whether `_popupBg` holds a live background object. */
    var hasBackground: bool
    /** `_enableInterface`: whether closing hands control back to the interface. */
    var enableInterface: bool
    /** `_backButtonPressed`. */
    var backButtonPressed: bool
    /** `_actionOnDestroy`; None for null. */
    var actionOnDestroy: Option<CloseAction>
    /** Subscriptions of PerformClickActionsPopup to UserInputManager.onButtonUp. */
    var clickHandlers: nat
    /** Subscriptions of PerformBackButtonAction to UserInputManager.onBackButtonPressed. */
    var backHandlers: nat
    /** Subscriptions of LoadingAnimationDone to AnimatorEventsTrigger.onDoneAnimation. */
    var introHandlers: nat
    /** Subscriptions of EndAnimationDone to AnimatorEventsTrigger.onDoneAnimation. */
    var outroHandlers: nat
    /** Every call into other components, in order. */
    ghost var events: seq<PopupEvent>
    /** How many back-button actions ran since the popup was last initialized. */
    ghost var backActions: nat

    /**
     The input handlers are subscribed exactly once while the buttons are
     enabled and not at all otherwise, the canvas group is interactable
     exactly then, and a back-button action that ran since the last opening
     left the latch set.
     */
    ghost predicate Valid()
      reads this
    {
      && clickHandlers == backHandlers == (if buttonsAreEnabled then 1 else 0)
      && interactable == buttonsAreEnabled
      && backActions <= 1
      && (backActions == 1 ==> backButtonPressed)
    }

    /** A popup as created at startup: inactive, every flag cleared, no subscriptions. */
    constructor ()
      ensures Valid()
      ensures !buttonsAreEnabled && !active && !hasBackground && !enableInterface && !backButtonPressed
      ensures actionOnDestroy == None && introHandlers == 0 && outroHandlers == 0
      ensures events == [] && backActions == 0
    {
      buttonsAreEnabled := false;
      interactable := false;
      active := false;
      hasBackground := false;
      enableInterface := false;
      backButtonPressed := false;
      actionOnDestroy := None;
      clickHandlers := 0;
      backHandlers := 0;
      introHandlers := 0;
      outroHandlers := 0;
      events := [];
      backActions := 0;
    }

    /**
     Initialize, run at every opening: a new background, the opening effects,
     and one more subscription of the intro handler. The back-button latch is
     left as it was.
     */
    method Initialize()
      requires Valid()
      modifies this`hasBackground, this`introHandlers, this`events, this`backActions
      ensures Valid()
      ensures hasBackground && introHandlers == old(introHandlers) + 1
      ensures events == old(events) + OpeningEvents
      ensures backButtonPressed == old(backButtonPressed) && backActions == 0
    {
      hasBackground := true;
      events := events + OpeningEvents;
      introHandlers := introHandlers + 1;
      backActions := 0;
    }

    /**
     Initialize as evidently intended: as above, and the back-button latch is
     cleared, so that the back button works again on every opening.
     */
    method InitializeRearmed()
      requires Valid()
      modifies this`hasBackground, this`introHandlers, this`events, this`backActions, this`backButtonPressed
      ensures Valid()
      ensures hasBackground && introHandlers == old(introHandlers) + 1
      ensures events == old(events) + OpeningEvents
      ensures !backButtonPressed && backActions == 0
    {
      Initialize();
      backButtonPressed := false;
    }

    /**
     LoadingAnimationDone: acts only when the intro animation has ended, then
     drops one intro-handler subscription (if any) and enables the popup.
     */
    method LoadingAnimationDone(stateName: string)
      requires Valid()
      modifies this`introHandlers, this`buttonsAreEnabled, this`clickHandlers, this`backHandlers, this`interactable
      ensures Valid()
      ensures stateName != IntroState ==> introHandlers == old(introHandlers) && buttonsAreEnabled == old(buttonsAreEnabled)
      ensures stateName == IntroState ==> introHandlers == (if old(introHandlers) > 0 then old(introHandlers) - 1 else 0)
      ensures stateName == IntroState ==> buttonsAreEnabled
    {
      if stateName == IntroState {
        if introHandlers > 0 {
          introHandlers := introHandlers - 1;
        }
        EnablePopup();
      }
    }

    /**
     EnablePopup: on a disabled popup, subscribes both input handlers and
     makes it interactable; on an enabled one, changes nothing.
     */
    method EnablePopup()
      requires Valid()
      modifies this`buttonsAreEnabled, this`clickHandlers, this`backHandlers, this`interactable
      ensures Valid()
      ensures buttonsAreEnabled && interactable
      ensures clickHandlers == 1 && backHandlers == 1
      ensures old(buttonsAreEnabled) ==> unchanged(this)
    {
      if buttonsAreEnabled == false {
        buttonsAreEnabled := true;
        clickHandlers := clickHandlers + 1;
        backHandlers := backHandlers + 1;
        interactable := true;
      }
    }

    /**
     DisablePopup: on an enabled popup, unsubscribes both input handlers and
     makes it non-interactable; on a disabled one, changes nothing.
     */
    method DisablePopup()
      requires Valid()
      modifies this`buttonsAreEnabled, this`clickHandlers, this`backHandlers, this`interactable
      ensures Valid()
      ensures !buttonsAreEnabled && !interactable
      ensures clickHandlers == 0 && backHandlers == 0
      ensures !old(buttonsAreEnabled) ==> unchanged(this)
    {
      if buttonsAreEnabled {
        buttonsAreEnabled := false;
        clickHandlers := clickHandlers - 1;
        backHandlers := backHandlers - 1;
        interactable := false;
      }
    }

    /** PerformClickActionsPopup: the base reaction to any button is the click sound. */
    method PerformClickActionsPopup()
      modifies this`events
      ensures events == old(events) + [FxSound("Button")]
    {
      events := events + [FxSound("Button")];
    }

    /**
     ClosePopup: a given close action replaces the stored one, no action
     keeps it; the popup is disabled, the interface flag recorded, the
     closing effects started and the outro handler subscribed once more.
     */
    method ClosePopup(enableInterface: bool, actionWhenPopupCloses: Option<CloseAction>)
      requires Valid()
      modifies this
      ensures Valid()
      ensures actionOnDestroy == (if actionWhenPopupCloses.Some? then actionWhenPopupCloses else old(actionOnDestroy))
      ensures !buttonsAreEnabled && !interactable && clickHandlers == 0 && backHandlers == 0
      ensures this.enableInterface == enableInterface
      ensures outroHandlers == old(outroHandlers) + 1 && introHandlers == old(introHandlers)
      ensures events == old(events) + ClosingEvents
      ensures active == old(active) && hasBackground == old(hasBackground)
      ensures backButtonPressed == old(backButtonPressed) && backActions == old(backActions)
    {
      if actionWhenPopupCloses.Some? {
        actionOnDestroy := actionWhenPopupCloses;
      }
      DisablePopup();
      this.enableInterface := enableInterface;
      events := events + ClosingEvents;
      outroHandlers := outroHandlers + 1;
    }

    /**
     EndAnimationDone: acts only when the closing animation has ended, then
     drops one outro-handler subscription (if any) and destroys the popup.
     */
    method EndAnimationDone(stateName: string)
      requires Valid()
      modifies this`outroHandlers, this`actionOnDestroy, this`active, this`hasBackground, this`events
      ensures Valid()
      ensures stateName != OutroState ==> unchanged(this)
      ensures stateName == OutroState ==> outroHandlers == (if old(outroHandlers) > 0 then old(outroHandlers) - 1 else 0)
      ensures stateName == OutroState ==> !active && !hasBackground && actionOnDestroy == None
      ensures stateName == OutroState ==> events == old(events) + DestroyEvents(old(actionOnDestroy), enableInterface)
    {
      if stateName == OutroState {
        if outroHandlers > 0 {
          outroHandlers := outroHandlers - 1;
        }
        DestroyPopup();
      }
    }

    /**
     DestroyPopup: runs the stored close action, if any, and forgets it, so
     it runs at most once; hides the popup, destroys its background, and
     reports the popup closed only when it was to hand back to the interface.
     */
    method DestroyPopup()
      requires Valid()
      modifies this`actionOnDestroy, this`active, this`hasBackground, this`events
      ensures Valid()
      ensures actionOnDestroy == None && !active && !hasBackground
      ensures events == old(events) + DestroyEvents(old(actionOnDestroy), enableInterface)
    {
      if actionOnDestroy.Some? {
        events := events + [ActionInvoked(actionOnDestroy.value)];
        actionOnDestroy := None;
      }
      active := false;
      hasBackground := false;
      if enableInterface {
        events := events + [PopupClosed];
      }
    }

    /**
     PerformBackButtonAction: the back-button reaction runs only while the
     latch is clear; the latch is set either way.
     */
    method PerformBackButtonAction()
      requires Valid()
      modifies this
      ensures Valid()
      ensures backButtonPressed
      ensures old(backButtonPressed) ==> unchanged(this)
      ensures !old(backButtonPressed) ==>
        backActions == 1 && events == old(events) + [BackAction] + ClosingEvents &&
        !buttonsAreEnabled && enableInterface && actionOnDestroy == old(actionOnDestroy) &&
        outroHandlers == old(outroHandlers) + 1 && introHandlers == old(introHandlers) &&
        active == old(active) && hasBackground == old(hasBackground)
    {
      ghost var fires := !backButtonPressed;
      if backButtonPressed == false {
        BackButtonPresssed();
      }
      backButtonPressed := true;
      if fires {
        backActions := backActions + 1;
      }
    }

    /** BackButtonPresssed: the base reaction closes the popup, handing back to the interface, with no new action. */
    method BackButtonPresssed()
      requires Valid() && !backButtonPressed
      modifies this
      ensures Valid()
      ensures backActions == old(backActions)
      ensures events == old(events) + [BackAction] + ClosingEvents
      ensures !buttonsAreEnabled && enableInterface && actionOnDestroy == old(actionOnDestroy)
      ensures outroHandlers == old(outroHandlers) + 1 && introHandlers == old(introHandlers)
      ensures active == old(active) && hasBackground == old(hasBackground) && !backButtonPressed
    {
      events := events + [BackAction];
      ClosePopup(true, None);
    }
  }

  /** What destroying a popup reports: the stored action's run, if any, then the closed event if enabled. */
  function DestroyEvents(action: Option<CloseAction>, enableInterface: bool): (r: seq<PopupEvent>)
    ensures action.Some? ==> ActionInvoked(action.value) in r
    ensures forall a :: ActionInvoked(a) in r ==> action == Some(a)
    ensures forall e :: multiset(r)[e] <= 1
    ensures (PopupClosed in r) <==> enableInterface
  {
    (if action.Some? then [ActionInvoked(action.value)] else []) + (if enableInterface then [PopupClosed] else [])
  }

  /** One opening and closing by the back button, leaving a popup ready to be opened again. */
  method OpenAndCloseByBack(p: GenericPopup)
    requires p.Valid() && !p.buttonsAreEnabled && !p.backButtonPressed
    requires p.actionOnDestroy == None
    modifies p
    ensures p.Valid() && p.backButtonPressed && !p.buttonsAreEnabled && !p.active
    ensures p.actionOnDestroy == None
    ensures p.events == old(p.events) + BackCycle
  {
    p.Initialize();
    p.LoadingAnimationDone(IntroState);
    p.PerformBackButtonAction();
    p.EndAnimationDone(OutroState);
  }

  /**
   One opening with the latch cleared, then a close by the back button: it
   works whatever the latch was before.
   */
  method OpenRearmedAndCloseByBack(p: GenericPopup)
    requires p.Valid() && !p.buttonsAreEnabled && p.actionOnDestroy == None
    modifies p
    ensures p.Valid() && p.backButtonPressed && !p.buttonsAreEnabled && !p.active
    ensures p.actionOnDestroy == None
    ensures p.events == old(p.events) + BackCycle
  {
    p.InitializeRearmed();
    p.LoadingAnimationDone(IntroState);
    p.PerformBackButtonAction();
    p.EndAnimationDone(OutroState);
  }

  /**
   As written: a popup closed once with the back button and opened again
   ignores the back button. The second press runs no back action and the
   popup stays open and interactable.
   */
  method BackIgnoredAfterReopening() returns (p: GenericPopup)
    ensures p.Valid() && p.buttonsAreEnabled && p.interactable && p.backButtonPressed
    ensures p.events == BackCycle + OpeningEvents
    ensures multiset(p.events)[BackAction] == 1
  {
    p := new GenericPopup();
    OpenAndCloseByBack(p);
    p.Initialize();
    p.LoadingAnimationDone(IntroState);
    p.PerformBackButtonAction();
    assert p.events == BackCycle + OpeningEvents;
    assert multiset(BackCycle)[BackAction] == 1 && multiset(OpeningEvents)[BackAction] == 0;
  }

  /**
   Corrected: with the latch cleared at every opening, the back button closes
   the popup on the second opening as on the first.
   */
  method BackClosesAfterReopening() returns (p: GenericPopup)
    ensures p.Valid() && !p.buttonsAreEnabled && !p.active && p.backButtonPressed
    ensures p.events == BackCycle + BackCycle
    ensures multiset(p.events)[BackAction] == 2
  {
    p := new GenericPopup();
    OpenAndCloseByBack(p);
    OpenRearmedAndCloseByBack(p);
    assert p.events == BackCycle + BackCycle;
    assert multiset(BackCycle)[BackAction] == 1;
  }

  /**
   A close action given to ClosePopup runs exactly once, even if the popup is
   destroyed twice, and no popup-closed event is reported when closing does
   not hand back to the interface.
   */
  method CloseActionRunsOnce(action: CloseAction) returns (p: GenericPopup)
    ensures p.Valid() && p.actionOnDestroy == None
    ensures p.events == OpeningEvents + ClosingEvents + [ActionInvoked(action)]
  {
    p := new GenericPopup();
    p.Initialize();
    p.LoadingAnimationDone(IntroState);
    p.ClosePopup(false, Some(action));
    p.EndAnimationDone(OutroState);
    p.DestroyPopup();
  }
}
