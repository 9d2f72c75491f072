/** `PWAInstallPrompt`: the stored `beforeinstallprompt` event and the `showPrompt` flag. The
    install click is asynchronous: the click itself, and the moment the user's choice
    resolves, are two steps, and other events may happen in between. */
module InstallPrompt {
  import opened Common

  /** A deferred `BeforeInstallPromptEvent`. */
  datatype InstallEvent = InstallEvent(platforms: seq<string>)

  class Prompt {
    var deferredPrompt: Option<InstallEvent>
    var showPrompt: bool
    /** Install clicks whose `userChoice` has not resolved yet. */
    var pendingChoices: nat

    /** `if (!showPrompt || !deferredPrompt) return null`: the banner is rendered only with the
        flag set and an event stored. */
    predicate Renders()
      reads this
    {
      showPrompt && deferredPrompt.Some?
    }

    constructor ()
      ensures deferredPrompt.None? && !showPrompt && pendingChoices == 0 && !Renders()
    {
      deferredPrompt := None;
      showPrompt := false;
      pendingChoices := 0;
    }

    /** `handleBeforeInstallPrompt`: the event is kept and the banner shown. */
    method BeforeInstallPrompt(e: InstallEvent)
      modifies this
      ensures deferredPrompt == Some(e) && showPrompt && Renders()
      ensures pendingChoices == old(pendingChoices)
    {
      deferredPrompt := Some(e);
      showPrompt := true;
    }

    /** `handleInstallClick` up to `await deferredPrompt.prompt()`: without a stored event
        nothing happens; otherwise the banner hides at once and the stored event is prompted
        (and returned); it stays stored until the choice resolves. */
    method InstallClick() returns (prompted: Option<InstallEvent>)
      modifies this
      ensures prompted == old(deferredPrompt)
      ensures old(deferredPrompt).None? ==>
        showPrompt == old(showPrompt) && deferredPrompt.None? && pendingChoices == old(pendingChoices)
      ensures old(deferredPrompt).Some? ==>
        !showPrompt && deferredPrompt == old(deferredPrompt) && pendingChoices == old(pendingChoices) + 1
      ensures !Renders()
    {
      prompted := deferredPrompt;
      if deferredPrompt.None? {
        return;
      }
      showPrompt := false;
      pendingChoices := pendingChoices + 1;
    }

    /** The rest of `handleInstallClick`, once `userChoice` resolves: whatever event is stored
        then is cleared. */
    method ChoiceResolved()
      requires pendingChoices > 0
      modifies this
      ensures deferredPrompt.None? && showPrompt == old(showPrompt)
      ensures pendingChoices == old(pendingChoices) - 1
      ensures !Renders()
    {
      deferredPrompt := None;
      pendingChoices := pendingChoices - 1;
    }

    /** `handleDismiss`: both cells cleared. */
    method Dismiss()
      modifies this
      ensures deferredPrompt.None? && !showPrompt && !Renders()
      ensures pendingChoices == old(pendingChoices)
    {
      showPrompt := false;
      deferredPrompt := None;
    }
  }

  /** Install, in order: the event shows the banner, the click hides it, and the resolved
      choice clears the event, after which an install click does nothing. */
  method InstallFlow(e: InstallEvent) returns (p: Prompt)
    ensures p.deferredPrompt.None? && !p.showPrompt && p.pendingChoices == 0 && !p.Renders()
  {
    p := new Prompt();
    p.BeforeInstallPrompt(e);
    assert p.Renders();
    var prompted := p.InstallClick();
    assert prompted == Some(e) && !p.Renders();
    p.ChoiceResolved();
    var again := p.InstallClick();
    assert again.None?;
  }

  /** A second event arriving while a choice is pending is lost when the choice resolves:
      `showPrompt` is left set with no stored event, and only the render guard's second test
      keeps the empty banner from showing. */
  method EventDuringPendingChoice(e1: InstallEvent, e2: InstallEvent) returns (p: Prompt)
    ensures p.showPrompt && p.deferredPrompt.None? && !p.Renders()
  {
    p := new Prompt();
    p.BeforeInstallPrompt(e1);
    var prompted := p.InstallClick();
    p.BeforeInstallPrompt(e2);
    p.ChoiceResolved();
  }
}
