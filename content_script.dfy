/**
 * The content script: the message handler, the debounced re-application after page
 * mutations, and the start-up load of the saved theme.
 */
module ContentScript {
  import opened Wrappers
  import opened Palette
  import opened ChromeStorage
  import opened PlatformDetector
  import opened StyleInjector
  import opened ThemeApplier
  import StorageManager

  /** A runtime message; either field may be missing. */
  datatype Message = Message(action: Option<string>, theme: Option<Theme>)

  /** What the handler sends back: `{success: true}` or `{success: false, error}`. */
  datatype Response = Succeeded | FailedWith(error: string)

  /** The error text sent when the application itself fails. */
  const ApplyFailedError := "테마 적용 실패"

  /** The listener acts only on an `applyTheme` action that carries a theme. */
  predicate Handles(msg: Message) {
    msg.action == Some("applyTheme") && msg.theme.Some?
  }

  /** The response for a handled message, given whether it applied and how the save ended. */
  function ResponseFor(applied: bool, saveFailure: Option<string>): (r: Response)
    ensures r == Succeeded <==> applied && saveFailure.None?
    ensures !applied ==> r == FailedWith(ApplyFailedError)
    ensures applied && saveFailure.Some? ==> r == FailedWith(saveFailure.value)
  {
    if !applied then FailedWith(ApplyFailedError)
    else if saveFailure.None? then Succeeded
    else FailedWith(saveFailure.value)
  }

  // ---------------------------------------------------------------------------------------
  // The debounce, as a sequence of events
  // ---------------------------------------------------------------------------------------

  /** A page mutation, or the pending timer's expiry. */
  datatype Event = Mutation | TimerFired

  /** Whether a timer is pending after the event: a mutation re-arms it, an expiry consumes it. */
  function Step(armed: bool, e: Event): bool {
    e == Mutation
  }

  /** How many timer callbacks run over the events, starting with a pending timer or not. */
  function Fires(armed: bool, events: seq<Event>): nat
    decreases |events|
  {
    if events == [] then 0
    else (if events[0] == TimerFired && armed then 1 else 0) + Fires(Step(armed, events[0]), events[1..])
  }

  /** The number of bursts: maximal runs of consecutive mutations. */
  function Runs(events: seq<Event>): nat
    decreases |events|
  {
    if events == [] then 0
    else (if events[0] == Mutation && (|events| == 1 || events[1] != Mutation) then 1 else 0) + Runs(events[1..])
  }

  /** `n` copies of one event. */
  function Repeat(e: Event, n: nat): (r: seq<Event>)
    ensures |r| == n && forall i :: 0 <= i < n ==> r[i] == e
  {
    if n == 0 then [] else [e] + Repeat(e, n - 1)
  }

  /**
   * A burst of mutations yields at most one callback: over any event sequence the callbacks
   * that run are at most the bursts, plus one for a timer already pending at the start.
   */
  lemma {:induction false} FiresAtMostRuns(armed: bool, events: seq<Event>)
    ensures Fires(armed, events) <= Runs(events) + (if armed then 1 else 0)
    decreases |events|
  {
    if events != [] {
      var rest := events[1..];
      if events[0] == Mutation && rest != [] && rest[0] == Mutation {
        // the burst goes on: the timer re-armed now is cleared again by the next mutation
        MutationHeadSameFires(rest);
        FiresAtMostRuns(false, rest);
      } else {
        FiresAtMostRuns(Step(armed, events[0]), rest);
      }
    }
  }

  /** Once the next event is a mutation, whether a timer was pending makes no difference. */
  lemma MutationHeadSameFires(events: seq<Event>)
    requires events != [] && events[0] == Mutation
    ensures Fires(true, events) == Fires(false, events)
  {
  }

  /** One burst of `k` mutations followed by `m` expiries runs the callback exactly once. */
  lemma {:induction false} BurstFiresOnce(armed: bool, k: nat, m: nat)
    requires k >= 1 && m >= 1
    ensures Fires(armed, Repeat(Mutation, k) + Repeat(TimerFired, m)) == 1
    decreases k
  {
    var evs := Repeat(Mutation, k) + Repeat(TimerFired, m);
    assert evs[1..] == Repeat(Mutation, k - 1) + Repeat(TimerFired, m);
    if k > 1 {
      BurstFiresOnce(true, k - 1, m);
    } else {
      assert evs[1..] == Repeat(TimerFired, m);
      IdleExpiriesDoNothing(m - 1);
      assert Repeat(TimerFired, m)[1..] == Repeat(TimerFired, m - 1);
    }
  }

  /** Expiries with no timer pending run nothing. */
  lemma {:induction false} IdleExpiriesDoNothing(m: nat)
    ensures Fires(false, Repeat(TimerFired, m)) == 0
  {
    if m > 0 {
      assert Repeat(TimerFired, m)[1..] == Repeat(TimerFired, m - 1);
      IdleExpiriesDoNothing(m - 1);
    }
  }

  class ContentScript {
    const applier: Applier
    /** Whether a re-apply timer is pending (`mutationTimeout`). */
    var timerArmed: bool

    constructor (applier: Applier)
      ensures this.applier == applier && !timerArmed
    {
      this.applier := applier;
      timerArmed := false;
    }

    /**
     * The `onMessage` listener. An unhandled message gets no response, the listener returns
     * `undefined` (here `false`), and nothing changes. A handled one is applied; only if that
     * succeeds is the theme saved, and the response reports the apply and then the save.
     */
    method HandleMessage(msg: Message, saveFailure: Option<string>) returns (response: Option<Response>, keepOpen: bool)
      modifies applier`isApplying, applier.storage`currentTheme, applier.storage.store, applier.doc`head
      ensures !Handles(msg) ==> response.None? && !keepOpen
      ensures !Handles(msg) ==> applier.isApplying == old(applier.isApplying) && applier.doc.head == old(applier.doc.head)
                                && applier.storage.currentTheme == old(applier.storage.currentTheme)
                                && applier.storage.store.data == old(applier.storage.store.data)
      ensures Handles(msg) ==> keepOpen
      ensures Handles(msg) ==>
                var applied := !old(applier.isApplying) && DetectPlatform(applier.hostname).Some? && msg.theme.value.colors.Some?;
                && response == Some(ResponseFor(applied, saveFailure))
                && (applied && saveFailure.None? ==>
                      applier.storage.store.data == old(applier.storage.store.data)[CurrentThemeKey := ThemeValue(msg.theme.value)])
                && (!applied || saveFailure.Some? ==> applier.storage.store.data == old(applier.storage.store.data))
                && (applied ==> applier.storage.currentTheme == Some(msg.theme.value))
                && (applied ==> applier.doc.head == AppliedHead(old(applier.doc.head), DetectPlatform(applier.hostname).value,
                                                                msg.theme.value.colors.value, applier.loaded))
                && (!applied ==> applier.storage.currentTheme == old(applier.storage.currentTheme)
                                 && applier.doc.head == old(applier.doc.head))
      ensures applier.isApplying == old(applier.isApplying)
    {
      if !Handles(msg) {
        return None, false;
      }
      var theme := msg.theme.value;
      var success := applier.ApplyTheme(theme);
      if success {
        var saved := applier.storage.SaveTheme(theme, saveFailure);
        if saved.Resolved? {
          response := Some(Succeeded);
        } else {
          response := Some(FailedWith(saved.message));
        }
      } else {
        response := Some(FailedWith(ApplyFailedError));
      }
      keepOpen := true;
    }

    /** A mutation: any pending timer is cleared and a new one armed. */
    method OnMutation()
      modifies this`timerArmed
      ensures timerArmed == Step(old(timerArmed), Mutation)
    {
      timerArmed := true;
    }

    /**
     * The timer's expiry. With no timer pending nothing happens. Otherwise the timer is spent
     * and the current theme is re-applied if there is one and no application is in progress.
     */
    method OnTimerFired() returns (reapplied: bool)
      modifies this`timerArmed, applier`isApplying, applier.storage`currentTheme, applier.doc`head
      ensures timerArmed == Step(old(timerArmed), TimerFired)
      ensures reapplied <==> old(timerArmed) && old(applier.storage.currentTheme).Some? && !old(applier.isApplying)
      ensures !applier.isApplying == !old(applier.isApplying)
      ensures reapplied ==> applier.storage.currentTheme == old(applier.storage.currentTheme)
      ensures reapplied && DetectPlatform(applier.hostname).Some? && old(applier.storage.currentTheme).value.colors.Some? ==>
                applier.doc.head == AppliedHead(old(applier.doc.head), DetectPlatform(applier.hostname).value,
                                                old(applier.storage.currentTheme).value.colors.value, applier.loaded)
      ensures reapplied && (DetectPlatform(applier.hostname).None? || old(applier.storage.currentTheme).value.colors.None?) ==>
                applier.doc.head == old(applier.doc.head)
      ensures !reapplied ==> applier.storage.currentTheme == old(applier.storage.currentTheme) && applier.doc.head == old(applier.doc.head)
    {
      reapplied := false;
      if !timerArmed {
        return;
      }
      timerArmed := false;
      var current := applier.storage.GetCurrentTheme();
      var busy := applier.IsThemeApplying();
      if current.Some? && !busy {
        var _ := applier.ApplyTheme(current.value);
        reapplied := true;
      }
    }

    /**
     * `loadAndApplySavedTheme()`: apply the saved theme only when the store yields one.
     * Returns `None` when nothing was applied, otherwise the result of the application. The
     * loaded theme stays in memory even when that application is refused.
     */
    method LoadAndApplySavedTheme() returns (applied: Option<bool>)
      modifies applier`isApplying, applier.storage`currentTheme, applier.doc`head
      ensures var stored := old(if CurrentThemeKey in applier.storage.store.data then Some(applier.storage.store.data[CurrentThemeKey]) else None);
              && (applied.None? <==> StorageManager.LoadedTheme(stored).None?)
              && (applied.None? ==> applier.storage.currentTheme == old(applier.storage.currentTheme)
                                    && applier.doc.head == old(applier.doc.head))
              && (applied.Some? ==> applier.storage.currentTheme == StorageManager.LoadedTheme(stored))
              && (applied.Some? ==> (applied.value <==> !old(applier.isApplying) && DetectPlatform(applier.hostname).Some?))
              && (applied == Some(true) ==>
                    applier.doc.head == AppliedHead(old(applier.doc.head), DetectPlatform(applier.hostname).value,
                                                    StorageManager.LoadedTheme(stored).value.colors.value, applier.loaded))
              && (applied == Some(false) ==> applier.doc.head == old(applier.doc.head))
      ensures applier.isApplying == old(applier.isApplying)
    {
      var saved := applier.storage.LoadSavedTheme();
      if saved.Some? {
        var ok := applier.ApplyTheme(saved.value);
        applied := Some(ok);
      } else {
        applied := None;
      }
    }
  }
}
