/** The loading indicator of the chat page, debounced against flicker: it
    appears only after streaming has lasted `ShowDelay` ms and, once shown,
    stays for at least `MinDisplay` ms. Time is a logical millisecond clock;
    the two timer handles are modelled by their deadlines. */
module LoaderDebounce {
  import opened ChatApi

  const ShowDelay: nat := 150
  const MinDisplay: nat := 300

  /** `Math.max(0, 300 - elapsed)`: how long the indicator must still stay. */
  function Remaining(now: nat, shownAt: nat): (r: nat)
    requires shownAt <= now
    ensures r == 0 <==> now >= shownAt + MinDisplay
    ensures r > 0 ==> now + r == shownAt + MinDisplay
  {
    var left := MinDisplay as int - (now - shownAt);
    if left < 0 then 0 else left
  }

  class LoaderDebouncer {
    /** The clock, in milliseconds. */
    var now: nat
    var isStreaming: bool
    var showLoader: bool
    /** `loaderShownAt`: when the indicator was last (re)stamped as shown. */
    var shownAt: Option<nat>
    /** Deadlines of the pending delay and minimum-display timers. */
    var delayTimer: Option<nat>
    var hideTimer: Option<nat>
    /** Whether the effect re-runs, and so re-arms the delay timer, when the
        indicator first shows; `true` is the page as written, where the
        effect depends on `showLoader`. */
    const rearmOnShow: bool
    /** When streaming last started, and when the indicator last appeared. */
    ghost var streamingSince: nat
    ghost var visibleSince: nat

    /** At most one timer is pending; a delay timer only while streaming, a
        hide timer only while shown and idle, due exactly `MinDisplay` after
        the stamp; an idle page with the indicator shown always has its hide
        timer pending, a streaming page without it its delay timer. */
    ghost predicate Valid()
      reads this
    {
      && !(delayTimer.Some? && hideTimer.Some?)
      && (showLoader <==> shownAt.Some?)
      && (shownAt.Some? ==> ShowDelay <= visibleSince <= shownAt.value <= now)
      && (isStreaming ==> streamingSince <= now)
      && (delayTimer.Some? ==> isStreaming && now <= delayTimer.value)
      && (delayTimer.Some? && !showLoader ==> delayTimer.value == streamingSince + ShowDelay)
      && (hideTimer.Some? ==> !isStreaming && showLoader && now <= hideTimer.value == shownAt.value + MinDisplay)
      && (isStreaming && !showLoader ==> delayTimer.Some?)
      && (!isStreaming && showLoader ==> hideTimer.Some?)
    }

    constructor (rearm: bool)
      ensures Valid()
      ensures now == 0 && !isStreaming && !showLoader && shownAt == None
      ensures delayTimer == None && hideTimer == None && rearmOnShow == rearm
    {
      now := 0;
      isStreaming, showLoader := false, false;
      shownAt, delayTimer, hideTimer := None, None, None;
      rearmOnShow := rearm;
      streamingSince, visibleSince := 0, 0;
    }

    /** The effect on `[isStreaming, showLoader]`, after its cleanup has
        cleared both timers. Streaming arms the delay timer; going idle with
        the indicator shown either arms the hide timer for the rest of the
        minimum or hides at once (the re-run that hiding causes finds nothing
        to do). */
    method RunEffect()
      requires showLoader <==> shownAt.Some?
      requires shownAt.Some? ==> ShowDelay <= visibleSince <= shownAt.value <= now
      requires isStreaming ==> streamingSince <= now
      requires isStreaming && !showLoader ==> streamingSince == now
      modifies this`delayTimer, this`hideTimer, this`showLoader, this`shownAt
      ensures Valid()
      ensures delayTimer == if isStreaming then Some(now + ShowDelay) else None
      ensures isStreaming || !old(showLoader) ==>
        showLoader == old(showLoader) && shownAt == old(shownAt) && hideTimer == None
      ensures !isStreaming && old(showLoader) && now >= old(shownAt).value + MinDisplay ==>
        !showLoader && shownAt == None && hideTimer == None
      ensures !isStreaming && old(showLoader) && now < old(shownAt).value + MinDisplay ==>
        showLoader && shownAt == old(shownAt) && hideTimer == Some(old(shownAt).value + MinDisplay)
    {
      delayTimer, hideTimer := None, None;
      if isStreaming {
        delayTimer := Some(now + ShowDelay);
      } else if showLoader && shownAt.Some? && shownAt.value != 0 {
        var remaining := Remaining(now, shownAt.value);
        if remaining > 0 {
          hideTimer := Some(now + remaining);
        } else {
          showLoader := false;
          shownAt := None;
        }
      }
    }

    /** A new value of `isStreaming`; the effect runs only when it differs. */
    method SetStreaming(b: bool)
      requires Valid()
      modifies this
      ensures Valid() && isStreaming == b && now == old(now)
      ensures b == old(isStreaming) ==>
        showLoader == old(showLoader) && shownAt == old(shownAt) &&
        delayTimer == old(delayTimer) && hideTimer == old(hideTimer)
      ensures b && !old(isStreaming) ==>
        delayTimer == Some(now + ShowDelay) && hideTimer == None &&
        showLoader == old(showLoader) && shownAt == old(shownAt) && streamingSince == now
      ensures !b && old(isStreaming) && !old(showLoader) ==>
        !showLoader && delayTimer == None && hideTimer == None
      ensures !b && old(isStreaming) && old(showLoader) && now >= old(shownAt).value + MinDisplay ==>
        !showLoader && delayTimer == None && hideTimer == None
      ensures !b && old(isStreaming) && old(showLoader) && now < old(shownAt).value + MinDisplay ==>
        showLoader && delayTimer == None && hideTimer == Some(old(shownAt).value + MinDisplay)
      ensures old(showLoader) && !showLoader ==> now >= visibleSince + MinDisplay
      ensures !old(showLoader) ==> !showLoader
      ensures visibleSince == old(visibleSince)
    {
      if b == isStreaming {
        return;
      }
      isStreaming := b;
      if b {
        streamingSince := now;
      }
      RunEffect();
    }

    /** Time passes without reaching a pending deadline. */
    method AdvanceClock(t: nat)
      requires Valid() && now <= t
      requires delayTimer.Some? ==> t <= delayTimer.value
      requires hideTimer.Some? ==> t <= hideTimer.value
      modifies this`now
      ensures Valid() && now == t
    {
      now := t;
    }

    /** The pending timer fires: the clock moves to its deadline and its
        callback runs. The delay callback shows the indicator and stamps the
        time; the hide callback hides it and clears the stamp. A change of
        `showLoader` re-runs the effect. */
    method FireTimer()
      requires Valid() && (delayTimer.Some? || hideTimer.Some?)
      modifies this
      ensures Valid() && isStreaming == old(isStreaming)
      ensures now == if old(delayTimer).Some? then old(delayTimer).value else old(hideTimer).value
      ensures old(delayTimer).Some? ==> showLoader && shownAt == Some(now) && hideTimer == None
      ensures old(delayTimer).Some? && !old(showLoader) ==>
        isStreaming && now == streamingSince + ShowDelay && visibleSince == now
      ensures old(delayTimer).Some? ==>
        delayTimer == if !old(showLoader) && rearmOnShow then Some(now + ShowDelay) else None
      ensures old(hideTimer).Some? ==>
        !showLoader && shownAt == None && delayTimer == None && hideTimer == None &&
        now >= visibleSince + MinDisplay
      ensures old(showLoader) ==> visibleSince == old(visibleSince)
    {
      if delayTimer.Some? {
        now := delayTimer.value;
        delayTimer := None;
        var wasShown := showLoader;
        showLoader := true;
        shownAt := Some(now);
        if !wasShown {
          visibleSince := now;
          if rearmOnShow {
            RunEffect();
          }
        }
      } else {
        now := hideTimer.value;
        hideTimer := None;
        showLoader := false;
        shownAt := None;
        RunEffect();
      }
    }
  }

  /** A reply that streams for 100 ms: the indicator never appears, not
      even after the 150 ms mark, since the end of the stream cleared the
      delay timer. */
  method QuickReply() returns (trace: seq<bool>)
    ensures trace == [false, false, false]
  {
    var d := new LoaderDebouncer(true);
    d.SetStreaming(true);
    trace := [d.showLoader];
    d.AdvanceClock(100);
    d.SetStreaming(false);
    trace := trace + [d.showLoader];
    d.AdvanceClock(200);
    trace := trace + [d.showLoader];
  }

  /** A reply that streams for 500 ms on the page as written: the second
      delay timer restamps the indicator at 300, so it stays until 600,
      450 ms in all. Each entry is the clock and the visibility after an
      event. */
  method SlowReplyAsWritten() returns (trace: seq<(nat, bool)>)
    ensures trace == [(0, false), (150, true), (300, true), (500, true), (600, false)]
  {
    var d := new LoaderDebouncer(true);
    d.SetStreaming(true);
    trace := [(d.now, d.showLoader)];
    d.FireTimer();
    trace := trace + [(d.now, d.showLoader)];
    d.FireTimer();
    trace := trace + [(d.now, d.showLoader)];
    d.AdvanceClock(500);
    d.SetStreaming(false);
    trace := trace + [(d.now, d.showLoader)];
    d.FireTimer();
    trace := trace + [(d.now, d.showLoader)];
  }

  /** The same reply when showing does not re-arm the delay timer: shown
      at 150, it has had its 300 ms when streaming ends at 500 and hides at
      once. */
  method SlowReplyIntended() returns (trace: seq<(nat, bool)>)
    ensures trace == [(0, false), (150, true), (500, false)]
  {
    var d := new LoaderDebouncer(false);
    d.SetStreaming(true);
    trace := [(d.now, d.showLoader)];
    d.FireTimer();
    trace := trace + [(d.now, d.showLoader)];
    d.AdvanceClock(500);
    d.SetStreaming(false);
    trace := trace + [(d.now, d.showLoader)];
  }
}
