/**
 * The reverse-captcha widget: a verification status (`idle`, `success`,
 * `failed`) and a `loading` flag, changed by the checkbox click, the
 * timer that `handleVerification` schedules, and `handleReset`. The timer
 * always reports failure, so `success` is never reached.
 */
module RecaptchaWidget {

  datatype Status = Idle | Success | Failed

  /** The widget's state; `timerPending` stands for the callback that
      `handleVerification` scheduled with `setTimeout` and that has not run yet. */
  datatype Widget = Widget(status: Status, loading: bool, timerPending: bool)

  /** What can happen to the widget: a click on the checkbox area, the
      timer firing, a click on "Try Again" (shown in the failed panel) or on
      the footer's "Reset" (shown when the status is `success`). */
  datatype Event = ClickCheckbox | TimerFires | ClickTryAgain | ClickFooterReset

  const Initial := Widget(Idle, false, false)

  /** The effect of one event. The checkbox area only exists in the idle
      panel and has an `onClick` only while not loading; each button only
      exists while its panel is shown; only a scheduled timer can fire. */
  function Step(w: Widget, e: Event): Widget {
    match e
    case ClickCheckbox =>
      if w.status == Idle && !w.loading then w.(loading := true, timerPending := true) else w
    case TimerFires =>
      if w.timerPending then Widget(Failed, false, false) else w
    case ClickTryAgain =>
      if w.status == Failed then w.(status := Idle) else w
    case ClickFooterReset =>
      if w.status == Success then w.(status := Idle) else w
  }

  /** The state after a sequence of events. */
  function Run(w: Widget, events: seq<Event>): Widget
    decreases |events|
  {
    if events == [] then w else Run(Step(w, events[0]), events[1..])
  }

  /** What holds in every reachable state: never `success`, a timer is
      pending exactly while loading, and loading only in the idle panel. */
  predicate Reachable(w: Widget) {
    w.status != Success && w.timerPending == w.loading && (w.loading ==> w.status == Idle)
  }

  lemma StepKeepsReachable(w: Widget, e: Event)
    requires Reachable(w)
    ensures Reachable(Step(w, e))
  {
  }

  lemma {:induction false} RunKeepsReachable(w: Widget, events: seq<Event>)
    requires Reachable(w)
    ensures Reachable(Run(w, events))
    decreases |events|
  {
    if events != [] {
      StepKeepsReachable(w, events[0]);
      RunKeepsReachable(Step(w, events[0]), events[1..]);
    }
  }

  /** No sequence of events ever sets `success`, so the success panel and
      its footer "Reset" are never shown, and clicking that button can
      have no effect. */
  lemma NeverSucceeds(events: seq<Event>)
    ensures Run(Initial, events).status != Success
    ensures Step(Run(Initial, events), ClickFooterReset) == Run(Initial, events)
  {
    RunKeepsReachable(Initial, events);
  }

  /** A click is accepted only while idle and not loading, and then sets
      `loading`; the timer turns it into `failed` with `loading` cleared;
      "Try Again" from `failed` returns to `idle`. */
  lemma ClickTimerTryAgain(w: Widget)
    requires Reachable(w)
    ensures Step(w, ClickCheckbox) != w <==> w.status == Idle && !w.loading
    ensures w.status == Idle && !w.loading ==> Step(w, ClickCheckbox) == Widget(Idle, true, true)
    ensures w.loading ==> Step(w, TimerFires) == Widget(Failed, false, false)
    ensures w.status == Failed ==> Step(w, ClickTryAgain) == w.(status := Idle)
  {
  }

  class Recaptcha {
    var status: Status
    var loading: bool
    var timerPending: bool

    function State(): Widget
      reads this
    {
      Widget(status, loading, timerPending)
    }

    /** `useState("idle")` and `useState(false)` */
    constructor ()
      ensures State() == Initial
    {
      status := Idle;
      loading := false;
      timerPending := false;
    }

    /** `handleVerification`: set `loading` and schedule the timer. */
    method HandleVerification()
      modifies this
      ensures loading && timerPending && status == old(status)
    {
      loading := true;
      timerPending := true;
    }

    /** The timer callback: always `failed`, `loading` cleared. */
    method TimerCallback()
      modifies this
      ensures State() == Widget(Failed, false, false)
    {
      status := Failed;
      loading := false;
      timerPending := false;
    }

    /** `handleReset`: back to `idle`; `loading` is left as it is. */
    method HandleReset()
      modifies this
      ensures status == Idle && loading == old(loading) && timerPending == old(timerPending)
    {
      status := Idle;
    }

    /** Dispatch one event through the rendered handlers. */
    method Handle(e: Event)
      modifies this
      ensures State() == Step(old(State()), e)
    {
      match e
      case ClickCheckbox =>
        if status == Idle && !loading {
          HandleVerification();
        }
      case TimerFires =>
        if timerPending {
          TimerCallback();
        }
      case ClickTryAgain =>
        if status == Failed {
          HandleReset();
        }
      case ClickFooterReset =>
        if status == Success {
          HandleReset();
        }
    }
  }
}
