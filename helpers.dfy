/**
 * The helpers of the sticky-header utility: a rate limiter (`throttle`),
 * the current vertical scroll offset (`getScrollY`) and an element's
 * document-relative vertical position (`getElementYPosition`).
 *
 * The clock (`Date.now`) is a parameter `now`; the timer set by `setTimeout`
 * is a "pending" flag with the time it is due.
 */
module Helpers {
  import opened Wrappers

  // ---------------------------------------------------------------------------
  // throttle
  // ---------------------------------------------------------------------------

  /**
   * The closure variables of one throttled wrapper, as a value.
   *  - previous: when `func` last ran (the start of the current window);
   *  - pending:  a trailing timer is set (`timeout != null`), due at `fireAt`;
   *  - args:     the arguments held for the trailing call (`null` is None);
   *  - result:   what `func` returned when it last ran (`undefined` is None);
   *  - calls:    the arguments of every run of `func`, in order.
   */
  datatype ThrottleState<A, R> = ThrottleState(
    previous: int,
    pending: bool,
    fireAt: int,
    args: Option<A>,
    result: Option<R>,
    calls: seq<A>)

  /** The closure right after `throttle(func, wait)` returns: `previous` is 0. */
  function InitialThrottle<A, R>(): ThrottleState<A, R> {
    ThrottleState(0, false, 0, None, None, [])
  }

  /**
   * What every reachable closure satisfies: a timer is pending exactly when
   * arguments are held for it, and it is due at the end of the current window.
   */
  predicate ThrottleInv<A, R>(s: ThrottleState<A, R>, wait: int) {
    && (s.pending <==> s.args.Some?)
    && (s.pending ==> s.fireAt == s.previous + wait)
  }

  /**
   * One call of the wrapper at time `now` with arguments `a`: run at once when
   * the window since `previous` has elapsed, otherwise hold `a` and set a
   * timer for the rest of the window unless one is already pending.
   */
  function CallStep<A, R>(s: ThrottleState<A, R>, wait: int, func: A -> R, now: int, a: A): (r: ThrottleState<A, R>)
    ensures ThrottleInv(s, wait) ==> ThrottleInv(r, wait)
    ensures |s.calls| <= |r.calls| <= |s.calls| + 1
    ensures |r.calls| > |s.calls| ==> now >= s.previous + wait
  {
    var remaining := wait - (now - s.previous);
    if remaining <= 0 then
      s.(previous := now, pending := false, args := None, result := Some(func(a)), calls := s.calls + [a])
    else if !s.pending then
      s.(pending := true, fireAt := now + remaining, args := Some(a))
    else
      s.(args := Some(a))
  }

  /**
   * The pending timer fires at time `now` (`later`): the window restarts at
   * `now`, the timer is cleared, and `func` runs on the held arguments.
   * The timer only fires when set, and never before it is due.
   */
  function FireStep<A, R>(s: ThrottleState<A, R>, func: A -> R, now: int): (r: ThrottleState<A, R>)
    requires s.pending && s.args.Some? && now >= s.fireAt
    ensures forall wait: int {:trigger ThrottleInv(r, wait)} :: ThrottleInv(r, wait)
    ensures r.previous == now && !r.pending && r.args.None?
    ensures r.calls == s.calls + [s.args.value] && r.result == Some(func(s.args.value))
  {
    s.(previous := now, pending := false, args := None, result := Some(func(s.args.value)), calls := s.calls + [s.args.value])
  }

  /** A series of calls of the wrapper, at `times[i]` with `argss[i]`. */
  function CallAll<A, R>(s: ThrottleState<A, R>, wait: int, func: A -> R, times: seq<int>, argss: seq<A>): ThrottleState<A, R>
    requires |times| == |argss|
    decreases |times|
  {
    if times == [] then s
    else CallAll(CallStep(s, wait, func, times[0], argss[0]), wait, func, times[1..], argss[1..])
  }

  /**
   * The wrapper returned by `throttle(func, wait)`, with its closure variables
   * as fields. `context` (the `this` of a call) is not modelled.
   */
  class Throttle<A, R> {
    const func: A -> R
    const wait: int
    var previous: int
    var pending: bool
    var fireAt: int
    var args: Option<A>
    var result: Option<R>
    var calls: seq<A>

    function State(): ThrottleState<A, R>
      reads this
    {
      ThrottleState(previous, pending, fireAt, args, result, calls)
    }

    ghost predicate Valid()
      reads this
    {
      ThrottleInv(State(), wait)
    }

    constructor (func: A -> R, wait: int)
      ensures Valid()
      ensures this.func == func && this.wait == wait
      ensures State() == InitialThrottle()
    {
      this.func := func;
      this.wait := wait;
      previous := 0;
      pending := false;
      fireAt := 0;
      args := None;
      result := None;
      calls := [];
    }

    /** A call of the wrapper; returns the stored result of the latest run of `func`. */
    method Call(now: int, a: A) returns (r: Option<R>)
      requires Valid()
      modifies this
      ensures Valid()
      ensures State() == CallStep(old(State()), wait, func, now, a)
      ensures r == result
    {
      var remaining := wait - (now - previous);
      args := Some(a);
      if remaining <= 0 {
        pending := false;
        previous := now;
        result := Some(func(a));
        calls := calls + [a];
        args := None;
      } else if !pending {
        pending := true;
        fireAt := now + remaining;
      }
      r := result;
    }

    /**
     * The trailing timer fires (`later`). Nothing here clears the timer when
     * the sticky controller is destroyed: a trailing call set before `destroy`
     * still runs afterwards.
     */
    method Later(now: int)
      requires Valid() && pending && now >= fireAt
      modifies this
      ensures Valid()
      ensures State() == FireStep(old(State()), func, now)
    {
      previous := now;
      pending := false;
      var a := args.value;
      result := Some(func(a));
      calls := calls + [a];
      args := None;
    }
  }

  /** The first call runs at once exactly when the clock has reached `wait`, since `previous` starts at 0. */
  lemma FirstCallRunsWhenClockPastWait<A, R>(wait: int, func: A -> R, now: int, a: A)
    ensures var r := CallStep(InitialThrottle<A, R>(), wait, func, now, a);
      (r.calls == [a] && r.result == Some(func(a))) <==> now >= wait
  {
  }

  /**
   * A call once the window has elapsed runs `func` at once, restarts the
   * window at `now`, clears any pending timer and returns the new result.
   */
  lemma CallAfterWindowRunsNow<A, R>(s: ThrottleState<A, R>, wait: int, func: A -> R, now: int, a: A)
    requires wait - (now - s.previous) <= 0
    ensures var r := CallStep(s, wait, func, now, a);
      && r.calls == s.calls + [a] && r.result == Some(func(a))
      && r.previous == now && !r.pending && r.args.None?
  {
  }

  /**
   * A call inside the window runs nothing and keeps the returned result; it
   * leaves exactly one timer pending, due `remaining` ms after a call that
   * found no timer and unchanged after one that did; its arguments replace
   * any held ones.
   */
  lemma CallInWindowDefers<A, R>(s: ThrottleState<A, R>, wait: int, func: A -> R, now: int, a: A)
    requires wait - (now - s.previous) > 0
    ensures var r := CallStep(s, wait, func, now, a);
      && r.calls == s.calls && r.result == s.result && r.previous == s.previous
      && r.pending && r.args == Some(a)
      && r.fireAt == (if s.pending then s.fireAt else now + (wait - (now - s.previous)))
  {
  }

  /**
   * Any series of calls inside the window: nothing runs, the returned result
   * is unchanged, a single timer is pending at the window's end, and it holds
   * the arguments of the latest call.
   */
  lemma {:induction false} CallsInWindow<A, R>(s: ThrottleState<A, R>, wait: int, func: A -> R, times: seq<int>, argss: seq<A>)
    requires ThrottleInv(s, wait)
    requires |times| == |argss| > 0
    requires forall i :: 0 <= i < |times| ==> times[i] < s.previous + wait
    decreases |times|
    ensures var r := CallAll(s, wait, func, times, argss);
      && r.calls == s.calls && r.result == s.result && r.previous == s.previous
      && r.pending && r.fireAt == s.previous + wait && r.args == Some(argss[|argss| - 1])
  {
    var s' := CallStep(s, wait, func, times[0], argss[0]);
    CallInWindowDefers(s, wait, func, times[0], argss[0]);
    if |times| > 1 {
      CallsInWindow(s', wait, func, times[1..], argss[1..]);
    }
  }

  /**
   * A burst: one call after the window has elapsed and further calls inside
   * the new window, then the trailing timer. `func` runs exactly twice: on the
   * first call's arguments and on the latest call's, and the window restarts
   * when the timer fires.
   */
  lemma {:induction false} BurstRunsFirstAndLast<A, R>(
    s: ThrottleState<A, R>, wait: int, func: A -> R,
    t0: int, a0: A, times: seq<int>, argss: seq<A>, tf: int)
    requires ThrottleInv(s, wait)
    requires t0 >= s.previous + wait
    requires |times| == |argss| > 0
    requires forall i :: 0 <= i < |times| ==> times[i] < t0 + wait
    requires tf >= t0 + wait
    ensures var m := CallAll(CallStep(s, wait, func, t0, a0), wait, func, times, argss);
      m.pending && m.args.Some? && tf >= m.fireAt
    ensures var m := CallAll(CallStep(s, wait, func, t0, a0), wait, func, times, argss);
      var r := FireStep(m, func, tf);
      && r.calls == s.calls + [a0, argss[|argss| - 1]]
      && r.result == Some(func(argss[|argss| - 1]))
      && r.previous == tf && !r.pending
  {
    var s1 := CallStep(s, wait, func, t0, a0);
    CallAfterWindowRunsNow(s, wait, func, t0, a0);
    CallsInWindow(s1, wait, func, times, argss);
  }

  // ---------------------------------------------------------------------------
  // getScrollY
  // ---------------------------------------------------------------------------

  /** A document node, reduced to its `scrollTop`. */
  datatype Node = Node(scrollTop: int)

  /**
   * What `getScrollY` reads: `window.scrollY` (None when it is not a number),
   * `document.documentElement` and `document.body.parentNode` (None when
   * absent) and `document.body`.
   */
  datatype Window = Window(
    scrollY: Option<int>,
    documentElement: Option<Node>,
    bodyParentNode: Option<Node>,
    body: Node)

  /**
   * `window.scrollY` when it is a number; otherwise the `scrollTop` of the
   * first present node among documentElement, body.parentNode and body.
   */
  function GetScrollY(w: Window): (y: int)
    ensures w.scrollY.Some? ==> y == w.scrollY.value
    ensures w.scrollY.None? && w.documentElement.Some? ==> y == w.documentElement.value.scrollTop
    ensures w.scrollY.None? && w.documentElement.None? && w.bodyParentNode.Some? ==> y == w.bodyParentNode.value.scrollTop
    ensures w.scrollY.None? && w.documentElement.None? && w.bodyParentNode.None? ==> y == w.body.scrollTop
  {
    if w.scrollY.Some? then w.scrollY.value
    else w.documentElement.GetOr(w.bodyParentNode.GetOr(w.body)).scrollTop
  }

  // ---------------------------------------------------------------------------
  // getElementYPosition
  // ---------------------------------------------------------------------------

  /**
   * An element, reduced to what the utility reads of it: its class list,
   * `offsetTop`, `offsetHeight` and its `offsetParent` (None at the top).
   * The chain of offset parents is finite.
   */
  datatype Elem = Elem(
    classes: set<string>,
    offsetTop: int,
    offsetHeight: int,
    offsetParent: Option<Elem>)

  /** The sum of `offsetTop` over an element and all its offset parents. */
  function ChainTop(e: Option<Elem>): int
    decreases e
  {
    match e
    case None => 0
    case Some(x) => x.offsetTop + ChainTop(x.offsetParent)
  }

  /** The element's top edge in the document, or its bottom edge when `side` is "bottom". */
  function ElementYPosition(e: Elem, side: string): int {
    ChainTop(Some(e)) + (if side == "bottom" then e.offsetHeight else 0)
  }

  /** Walks the offset-parent chain, summing `offsetTop`; adds the height read up front for "bottom". */
  method GetElementYPosition(elem: Elem, side: string) returns (pos: int)
    ensures pos == ElementYPosition(elem, side)
    ensures side == "bottom" ==> pos == ChainTop(Some(elem)) + elem.offsetHeight
    ensures side != "bottom" ==> pos == ChainTop(Some(elem))
  {
    pos := 0;
    var elemHeight := elem.offsetHeight;
    var currentElem := Some(elem);
    while currentElem.Some?
      invariant pos + ChainTop(currentElem) == ChainTop(Some(elem))
      decreases currentElem
    {
      pos := pos + currentElem.value.offsetTop;
      currentElem := currentElem.value.offsetParent;
    }
    if side == "bottom" {
      pos := pos + elemHeight;
    }
  }
}
