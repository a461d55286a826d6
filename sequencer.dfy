/** The screen sequencer of the authentication flow: a three-state cyclic
    enumeration (name, email, phone) that says which screen comes next.
    A screen is represented by its tag; instantiating it from the storyboard
    is a foreign UIKit call and is not modelled. */
module Sequencer {

  /** The sequencer's state: which step of the flow is current. */
  datatype Kind = Name | Email | Phone

  /** A screen instance, identified by its view-controller type. */
  datatype Screen = NameScreen | EmailScreen | PhoneScreen

  /** The order in which the flow visits the steps. */
  const Order: seq<Kind> := [Name, Email, Phone]

  /** The step a screen belongs to. */
  function KindOf(s: Screen): Kind {
    match s
    case NameScreen => Name
    case EmailScreen => Email
    case PhoneScreen => Phone
  }

  /** Position of a step in the flow's order. */
  function Index(k: Kind): (i: nat)
    ensures i < |Order| && Order[i] == k
  {
    match k
    case Name => 0
    case Email => 1
    case Phone => 2
  }

  /** The screen for the current state, without changing the state
      (`initial()`, a non-mutating switch). */
  function Initial(k: Kind): (s: Screen)
    ensures KindOf(s) == k
  {
    match k
    case Name => NameScreen
    case Email => EmailScreen
    case Phone => PhoneScreen
  }

  /** The transition table of `next()`: one step forward in the cyclic order,
      never back to the same state. */
  function Succ(k: Kind): (r: Kind)
    ensures r != k
    ensures Index(r) == (Index(k) + 1) % |Order|
  {
    match k
    case Name => Email
    case Email => Phone
    case Phone => Name
  }

  /** One step back in the cyclic order: the inverse of `Succ`. */
  function Pred(k: Kind): (r: Kind)
    ensures Succ(r) == k
    ensures r != k
  {
    match k
    case Name => Phone
    case Email => Name
    case Phone => Email
  }

  /** What a call of the mutating `next()` leaves behind: the new state of the
      enumeration and the screen it returns. */
  datatype Step = Step(state: Kind, screen: Screen)

  /** `next()`: the state moves to its successor, and the returned screen is
      the one `initial()` would give for the new state. */
  function Next(k: Kind): (r: Step)
    ensures r.state == Succ(k)
    ensures r.screen == Initial(r.state)
    ensures KindOf(r.screen) != k
  {
    match k
    case Name => Step(Email, EmailScreen)
    case Email => Step(Phone, PhoneScreen)
    case Phone => Step(Name, NameScreen)
  }

  /** The state after `n` consecutive calls of `next()` starting from `k`:
      `n` places further along the cyclic order. */
  function Run(k: Kind, n: nat): (r: Kind)
    ensures r == Order[(Index(k) + n) % |Order|]
    decreases n
  {
    if n == 0 then k else Run(Next(k).state, n - 1)
  }

  /** `Succ` is one-to-one and `Pred` undoes it from either side. */
  lemma SuccBijective(a: Kind, b: Kind)
    ensures Succ(a) == Succ(b) ==> a == b
    ensures Pred(Succ(a)) == a && Succ(Pred(a)) == a
  {
  }

  /** A screen determines its step, and the step determines the screen. */
  lemma InitialRoundTrip(s: Screen, k: Kind)
    ensures Initial(KindOf(s)) == s
    ensures KindOf(Initial(k)) == k
    ensures Initial(k) == s <==> KindOf(s) == k
  {
  }

  /** Two consecutive `next()` calls never yield the same state, and none
      yields the state it started from. */
  lemma NextNeverRepeats(k: Kind)
    ensures Next(k).state != k
    ensures Next(Next(k).state).state != Next(k).state
    ensures Next(Next(k).state).state != k
  {
  }

  /** Running `m` steps and then `n` more is running `m + n` steps. */
  lemma {:induction false} RunAdd(k: Kind, m: nat, n: nat)
    ensures Run(Run(k, m), n) == Run(k, m + n)
    decreases m
  {
    if m > 0 {
      RunAdd(Next(k).state, m - 1, n);
    }
  }

  /** Three consecutive `next()` calls restore the original state, so the
      state depends only on the number of steps modulo three. */
  lemma RunPeriodic(k: Kind, n: nat)
    ensures Run(k, 3) == k
    ensures Run(k, n + 3) == Run(k, n)
    ensures Run(k, n) == Run(k, n % 3)
  {
  }

  /** From the starting state, `k` calls of `next()` reach
      `[name, email, phone][k mod 3]`. */
  lemma FromName(n: nat)
    ensures Run(Name, n) == Order[n % 3]
  {
  }
}
