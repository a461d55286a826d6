# AuthTemplate screen sequencer

A model of the navigation logic of the AuthTemplate iOS onboarding template.
The container view controller walks through three screens, name, email and
phone, in a fixed cycle. It pushes a screen onto its navigation stack on
appearance and on every forward tap, and pops one on every backward tap.

- `sequencer.dfy`, module `Sequencer`, covers the `AuthViewControllers`
  enumeration. `Kind` is the enumeration. `Screen` stands for a screen
  instance and is identified by its view-controller type. `Initial` is
  `initial()`. `Next` is the mutating `next()`: it returns the new state
  together with the returned screen. `Succ` is its transition table and
  `Pred` is the inverse of `Succ`. `Run` is `n` successive calls of `next()`.
- `navigation.dfy`, module `Navigation`, covers `ContainerViewController`.
  `Container` is a class. Its fields are `current` (the private
  `currentViewController`) and `stack`. `stack` holds the screens pushed
  above the container, which is the root of its navigation controller. A
  third field, `inNavigation`, says whether `navigationController` is
  present. The methods are `Appear` (`viewWillAppear`), `GoToNext` and
  `GoToPrevious`.

The container starts in the name state. Appearing pushes the screen of the
current state and leaves the state alone. A forward tap advances the state
once and pushes the screen of the new state. A backward tap pops one screen
and never touches the state.

`navigationController` is an optional. Swift's optional chaining skips the
whole call when it is nil, including the evaluation of
`currentViewController.next()`. So with no navigation controller a forward
tap does not advance the state either. The model states this.

Pop floor: pop is an explicit assumption of the model. With nothing pushed
above the container, a pop leaves the stack unchanged. This matches
`popViewController` at the root of a navigation stack.

## Model

| member | source | states |
|---|---|---|
| Sequencer.Index | AuthTemplate/AuthTemplate/ContainerViewController.swift:17-20 | every state has a position in the order name, email, phone, and that position holds the state |
| Sequencer.Initial | AuthTemplate/AuthTemplate/ContainerViewController.swift:22-31 | `initial()` returns a screen of the current state's kind; it is a function of the state, so it changes nothing |
| Sequencer.Succ | AuthTemplate/AuthTemplate/ContainerViewController.swift:33-44 | the transition of `next()` is never a self-loop and is exactly a rotation by one place in the order name → email → phone → name |
| Sequencer.Pred | AuthTemplate/AuthTemplate/ContainerViewController.swift:33-44 | stepping back one place is the inverse of the transition and also never a self-loop |
| Sequencer.Next | AuthTemplate/AuthTemplate/ContainerViewController.swift:33-44 | `next()` moves the state to its successor and returns the screen `initial()` gives for the new state, never one of the old state's kind |
| Sequencer.Run | AuthTemplate/AuthTemplate/ContainerViewController.swift:33-44 | after `n` calls of `next()` from a state, the state is `n` places further along the cyclic order |
| Sequencer.SuccBijective | AuthTemplate/AuthTemplate/ContainerViewController.swift:33-44 | no two states share a successor, and stepping back undoes stepping forward from either side |
| Sequencer.InitialRoundTrip | AuthTemplate/AuthTemplate/ContainerViewController.swift:22-31 | a screen determines its state and a state determines its screen |
| Sequencer.NextNeverRepeats | AuthTemplate/AuthTemplate/ContainerViewController.swift:33-44 | one call of `next()` changes the state, and two consecutive calls give two different states, both different from the start |
| Sequencer.RunAdd | AuthTemplate/AuthTemplate/ContainerViewController.swift:33-44 | `m` calls then `n` calls of `next()` reach the same state as `m + n` calls |
| Sequencer.RunPeriodic | AuthTemplate/AuthTemplate/ContainerViewController.swift:33-44 | three consecutive calls of `next()` restore the state, so only the number of calls modulo three matters |
| Sequencer.FromName | AuthTemplate/AuthTemplate/ContainerViewController.swift:33-48 | from the initial name state, `k` calls of `next()` reach `[name, email, phone][k mod 3]` |
| Navigation.Container.constructor | AuthTemplate/AuthTemplate/ContainerViewController.swift:48 | the container starts in the name state with nothing pushed |
| Navigation.Container.Appear | AuthTemplate/AuthTemplate/ContainerViewController.swift:51-55 | appearing leaves the state alone and appends exactly the current state's screen; on an empty stack the result is consistent, so the first screen is the name screen at depth one |
| Navigation.Container.GoToNext | AuthTemplate/AuthTemplate/ContainerViewController.swift:65-67 | a forward tap advances the state exactly once and appends exactly one screen, of the new state's kind, keeping earlier entries; it keeps the stack consistent; without a navigation controller nothing changes |
| Navigation.Container.GoToPrevious | AuthTemplate/AuthTemplate/ContainerViewController.swift:69-71 | a backward tap never changes the state and removes only the top of the stack |
| Navigation.Container.GoToPreviousRewinding | AuthTemplate/AuthTemplate/ContainerViewController.swift:69-71 | corrected backward tap: removes the top and steps the state back when a screen remains, keeping the stack consistent with the state |
| Navigation.ForwardCycle | AuthTemplate/AuthTemplate/ContainerViewController.swift:48-67 | appear, then three forward taps: states name, email, phone, name at stack depths 1, 2, 3, 4 |
| Navigation.BackThenForward | AuthTemplate/AuthTemplate/ContainerViewController.swift:65-71 | forward, back, forward as written: after the back tap the top screen no longer matches the state, and the stack ends as name, phone |
| Navigation.BackThenForwardRewinding | AuthTemplate/AuthTemplate/ContainerViewController.swift:65-71 | the same taps with the corrected backward tap: the top screen matches the state and the stack ends as name, email |

## Findings

| source | as written | input that shows it | evidently intended | confidence | as-written member | corrected member |
|---|---|---|---|---|---|---|
| AuthTemplate/AuthTemplate/ContainerViewController.swift:69-71 | a backward tap pops the stack but leaves `currentViewController` at the popped screen's state | appear, forward, back, forward: the screens shown are name, email, name, phone, so the email step is skipped | a backward tap also steps the sequencer back, so the next forward tap shows the screen that was popped | medium, not executed | Navigation.BackThenForward | Navigation.Container.GoToPreviousRewinding |

The as-written `GoToPrevious` is kept as the model of the source. The
corrected `GoToPreviousRewinding` keeps `Consistent()`: the top of the stack
shows the current state, and each screen is the successor of the one beneath
it. `Appear` on an empty stack and `GoToNext` keep the same predicate.

## Left out

- Storyboard instantiation (`UIStoryboard+Extensions.swift`): a screen is its type tag. The `fatalError` on a missing storyboard identifier is a configuration failure outside the model.
- The custom transition animation (`UINavigationController+Extensions.swift`): its duration, easing curve and direction do not affect the stack. Only the effect on the stack is modelled: push appends one screen and pop removes the top.
- `ViewController.swift`: only button wiring that forwards taps to the container.
- How often UIKit fires `viewWillAppear` is not modelled. `Appear` is an explicit call. It is not re-fired when a pop returns to the empty container.
- Whether `navigationController` is nil is fixed at construction (`inNavigation`). The model does not let it change over the container's lifetime.
- `viewDidLoad` is empty and has no model.
