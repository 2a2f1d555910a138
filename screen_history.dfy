/** The back-stack navigator shared by context/NavigationContext.tsx and
    context/SimpleNavigationProvider.tsx: a current screen plus the screens left behind. */
module ScreenHistory {

  /** `currentScreen` and `screenHistory` of a navigator over screen type `S`. */
  datatype Navigator<S> = Navigator(current: S, history: seq<S>)

  /** `navigate(s)`: push the current screen, then make `s` current. */
  function Navigate<S>(n: Navigator<S>, s: S): Navigator<S>
  {
    Navigator(s, n.history + [n.current])
  }

  /** `goBack()`: pop the last history entry into current; a no-op on empty history. */
  function GoBack<S>(n: Navigator<S>): Navigator<S>
  {
    if |n.history| > 0 then Navigator(n.history[|n.history| - 1], n.history[..|n.history| - 1])
    else n
  }

  /** Navigating grows the history by exactly the screen that was current, even when
      the target is the current screen itself. */
  lemma NavigatePushesCurrent<S>(n: Navigator<S>, s: S)
    ensures Navigate(n, s).current == s
    ensures |Navigate(n, s).history| == |n.history| + 1
    ensures Navigate(n, s).history[|n.history|] == n.current
    ensures Navigate(n, s).history[..|n.history|] == n.history
  {
  }

  /** Going back on a non-empty history shrinks it by one and makes its last entry current;
      on an empty history nothing changes. */
  lemma GoBackPops<S>(n: Navigator<S>)
    ensures |n.history| == 0 ==> GoBack(n) == n
    ensures |n.history| > 0 ==>
              && |GoBack(n).history| == |n.history| - 1
              && GoBack(n).current == n.history[|n.history| - 1]
              && GoBack(n).history + [GoBack(n).current] == n.history
  {
  }

  /** `goBack` right after `navigate` restores both the current screen and the history. */
  lemma GoBackUndoesNavigate<S>(n: Navigator<S>, s: S)
    ensures GoBack(Navigate(n, s)) == n
  {
    assert (n.history + [n.current])[..|n.history|] == n.history;
  }

  /** Navigating to the current screen leaves that screen on top of the history as well. */
  lemma NavigateToCurrentDuplicates<S>(n: Navigator<S>)
    ensures var m := Navigate(n, n.current);
      m.history[|m.history| - 1] == m.current
  {
  }

  /** `navigate` to each screen of `targets` in order. */
  function NavigateAll<S>(n: Navigator<S>, targets: seq<S>): Navigator<S>
  {
    if targets == [] then n
    else Navigate(NavigateAll(n, targets[..|targets| - 1]), targets[|targets| - 1])
  }

  /** `goBack` pressed `k` times. */
  function GoBackTimes<S>(n: Navigator<S>, k: nat): Navigator<S>
    decreases k
  {
    if k == 0 then n else GoBackTimes(GoBack(n), k - 1)
  }

  /** Last in, first out: after any run of navigations, as many `goBack`s return to the start. */
  lemma {:induction false} BackTracksNavigations<S>(n: Navigator<S>, targets: seq<S>)
    ensures GoBackTimes(NavigateAll(n, targets), |targets|) == n
  {
    if targets != [] {
      var init := targets[..|targets| - 1];
      GoBackUndoesNavigate(NavigateAll(n, init), targets[|targets| - 1]);
      assert |init| == |targets| - 1;
      BackTracksNavigations(n, init);
    }
  }

  /** A user action on a navigator. */
  datatype Action<S> = Nav(target: S) | Back

  function Step<S>(n: Navigator<S>, a: Action<S>): Navigator<S>
  {
    match a
    case Nav(s) => Navigate(n, s)
    case Back => GoBack(n)
  }

  /** The navigator after a sequence of actions. */
  function Run<S>(n: Navigator<S>, actions: seq<Action<S>>): Navigator<S>
    decreases |actions|
  {
    if actions == [] then n else Run(Step(n, actions[0]), actions[1..])
  }

  /** The number of `navigate` calls among the actions. */
  function NavCount<S>(actions: seq<Action<S>>): nat
  {
    if actions == [] then 0 else (if actions[0].Nav? then 1 else 0) + NavCount(actions[1..])
  }

  /** The number of `goBack` calls that found a non-empty history when run from `n`. */
  function EffectiveBacks<S>(n: Navigator<S>, actions: seq<Action<S>>): nat
    decreases |actions|
  {
    if actions == [] then 0
    else (if actions[0].Back? && |n.history| > 0 then 1 else 0) + EffectiveBacks(Step(n, actions[0]), actions[1..])
  }

  /** History length accounting: every `navigate` adds one entry, every effective `goBack`
      removes one, and nothing else changes the length. */
  lemma {:induction false} HistoryLength<S>(n: Navigator<S>, actions: seq<Action<S>>)
    ensures |Run(n, actions).history| == |n.history| + NavCount(actions) - EffectiveBacks(n, actions)
    decreases |actions|
  {
    if actions != [] {
      HistoryLength(Step(n, actions[0]), actions[1..]);
    }
  }
}
