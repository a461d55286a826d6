/** The container controller of the authentication flow: it owns the
    sequencer's state and drives the navigation stack it is the root of. */
module Navigation {
  import opened Sequencer

  /** The container view controller. `stack` holds the screens pushed above
      the container, which is itself the root of its navigation controller;
      `inNavigation` says whether a navigation controller is present at all
      (the optional `navigationController`). */
  class Container {
    var current: Kind
    var stack: seq<Screen>
    const inNavigation: bool

    /** The top of the stack, when there is one, shows the current step. */
    predicate Aligned()
      reads this
    {
      stack != [] ==> KindOf(stack[|stack| - 1]) == current
    }

    /** The stack is aligned and each screen is the successor of the one
        beneath it, as a run of forward navigations leaves it. */
    predicate Consistent()
      reads this
    {
      && Aligned()
      && forall i :: 0 < i < |stack| ==> KindOf(stack[i]) == Succ(KindOf(stack[i - 1]))
    }

    /** A fresh container starts at the name step with nothing pushed. */
    constructor (inNavigation: bool)
      ensures current == Name && stack == []
      ensures this.inNavigation == inNavigation
      ensures Consistent()
    {
      current := Name;
      stack := [];
      this.inNavigation := inNavigation;
    }

    /** `viewWillAppear`: push the screen of the current step without
        animation; the state itself is left alone. With no navigation
        controller nothing happens. */
    method Appear()
      modifies this
      ensures current == old(current)
      ensures inNavigation ==> stack == old(stack) + [Initial(current)]
      ensures !inNavigation ==> stack == old(stack)
      ensures inNavigation || old(Aligned()) ==> Aligned()
      ensures old(stack) == [] ==> Consistent()
    {
      if inNavigation {
        stack := stack + [Initial(current)];
      }
    }

    /** `goToNextViewController`: advance the sequencer once and push the
        screen of the new step, leaving the earlier entries as they were.
        Optional chaining skips the call to `next()` when there is no
        navigation controller, so then the state does not move either. */
    method GoToNext()
      modifies this
      ensures inNavigation ==> current == Succ(old(current))
      ensures inNavigation ==> stack == old(stack) + [Initial(current)]
      ensures !inNavigation ==> current == old(current) && stack == old(stack)
      ensures inNavigation || old(Aligned()) ==> Aligned()
      ensures old(Consistent()) ==> Consistent()
    {
      if inNavigation {
        var step := Next(current);
        current := step.state;
        stack := stack + [step.screen];
      }
    }

    /** `goToPreviousViewController`: pop the top screen. The sequencer's
        state is never touched. Popping with nothing above the root leaves
        the stack as it is. */
    method GoToPrevious()
      modifies this
      ensures current == old(current)
      ensures inNavigation && old(stack) != [] ==> stack == old(stack)[..|old(stack)| - 1]
      ensures !inNavigation || old(stack) == [] ==> stack == old(stack)
    {
      if inNavigation && stack != [] {
        stack := stack[..|stack| - 1];
      }
    }

    /** Backward navigation that also rewinds the sequencer one step when a
        screen is left underneath, so the visible screen and the state stay
        in step. */
    method GoToPreviousRewinding()
      requires Consistent()
      modifies this
      ensures inNavigation && old(stack) != [] ==> stack == old(stack)[..|old(stack)| - 1]
      ensures !inNavigation || old(stack) == [] ==> stack == old(stack)
      ensures current == if inNavigation && |old(stack)| >= 2 then Pred(old(current)) else old(current)
      ensures Consistent()
    {
      if inNavigation && stack != [] {
        if |stack| >= 2 {
          current := Pred(current);
        }
        stack := stack[..|stack| - 1];
      }
    }
  }

  /** The flow as the buttons drive it: the container appears, then forward
      navigation three times. Each step pushes one screen, and the third
      wraps round to the name step. */
  method ForwardCycle() returns (kinds: seq<Kind>, depths: seq<nat>)
    ensures kinds == [Name, Email, Phone, Name]
    ensures depths == [1, 2, 3, 4]
  {
    var c := new Container(true);
    c.Appear();
    kinds, depths := [c.current], [|c.stack|];
    c.GoToNext();
    kinds, depths := kinds + [c.current], depths + [|c.stack|];
    c.GoToNext();
    kinds, depths := kinds + [c.current], depths + [|c.stack|];
    c.GoToNext();
    kinds, depths := kinds + [c.current], depths + [|c.stack|];
  }

  /** Forward, back, forward with the source's backward navigation: the
      state was not rewound, so the second forward step skips the email
      screen and lands on the phone screen, and after the back step the
      visible screen no longer matches the state. */
  method BackThenForward() returns (afterBack: bool, shown: seq<Screen>)
    ensures !afterBack
    ensures shown == [NameScreen, PhoneScreen]
  {
    var c := new Container(true);
    c.Appear();
    c.GoToNext();
    c.GoToPrevious();
    afterBack := c.Aligned();
    c.GoToNext();
    shown := c.stack;
  }

  /** The same taps with the rewinding backward navigation: the second
      forward step shows the email screen again. */
  method BackThenForwardRewinding() returns (afterBack: bool, shown: seq<Screen>)
    ensures afterBack
    ensures shown == [NameScreen, EmailScreen]
  {
    var c := new Container(true);
    c.Appear();
    c.GoToNext();
    c.GoToPreviousRewinding();
    afterBack := c.Aligned();
    c.GoToNext();
    shown := c.stack;
  }
}
