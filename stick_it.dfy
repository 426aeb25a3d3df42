/**
 * The sticky controller: it clones a target element, inserts the clone at
 * the top of the document body and moves it between two states, unstuck
 * and stuck, as the page scrolls past a threshold.
 *
 * The document is an input: `querySelector` is a lookup in a `Document` map,
 * the window's scroll metrics are a `Window` value, and each user callback
 * (`onInit`, `onStick`, `onUnstick`, `onDestroy`) is an entry appended to an
 * event log.
 */
module Sticky {
  import opened Wrappers
  import opened Helpers

  // ---------------------------------------------------------------------------
  // Configuration
  // ---------------------------------------------------------------------------

  /** The `offset` option: a pixel threshold, a selector, or a value of any other type. */
  datatype Offset = Num(n: int) | Sel(selector: string) | Other

  /** The class names applied to the clone, and to it when stuck and unstuck. */
  datatype Classes = Classes(clone: string, stick: string, unstick: string)

  /** The merged options; the four callbacks are the events of the log. */
  datatype Options = Options(offset: Offset, offsetSide: string, classes: Classes, throttle: int)

  /** The options a caller passes; None is an option left out. */
  datatype UserOptions = UserOptions(
    offset: Option<Offset>,
    offsetSide: Option<string>,
    classes: Option<Classes>,
    throttle: Option<int>)

  /** The target: an element reference (None for `null`) or a selector. */
  datatype Target = Direct(elem: Option<Elem>) | Query(selector: string)

  /** The user callbacks, in the order they fire. */
  datatype Event = OnInit | OnStick | OnUnstick | OnDestroy

  /** The error thrown by `_setScrollOffset` (`Invalid offset: …`). */
  datatype Error = InvalidOffset(offset: Offset)

  /** `document.querySelector`: a selector that is present maps to the element it finds. */
  type Document = map<string, Elem>

  /** The threshold used when an offset selector finds nothing. */
  const FallbackOffset: int := 300

  const DefaultClasses: Classes := Classes("stickit", "stickit-stick", "stickit-unstick")

  const DefaultOptions: Options := Options(Num(300), "top", DefaultClasses, 250)

  function QuerySelector(doc: Document, selector: string): (r: Option<Elem>)
    ensures r.Some? <==> selector in doc
    ensures r.Some? ==> r.value == doc[selector]
  {
    if selector in doc then Some(doc[selector]) else None
  }

  /**
   * `Object.assign(defaults, options)`: a shallow merge, so each option the
   * caller supplies replaces the default whole (a supplied `classes` replaces
   * all three default class names) and each one left out keeps its default.
   */
  function MergeOptions(u: UserOptions): (o: Options)
    ensures o.offset == u.offset.GetOr(Num(300))
    ensures o.offsetSide == u.offsetSide.GetOr("top")
    ensures u.classes.Some? ==> o.classes == u.classes.value
    ensures u.classes.None? ==> o.classes == Classes("stickit", "stickit-stick", "stickit-unstick")
    ensures o.throttle == u.throttle.GetOr(250)
    ensures u == UserOptions(None, None, None, None) ==> o == DefaultOptions
  {
    Options(
      u.offset.GetOr(DefaultOptions.offset),
      u.offsetSide.GetOr(DefaultOptions.offsetSide),
      u.classes.GetOr(DefaultOptions.classes),
      u.throttle.GetOr(DefaultOptions.throttle))
  }

  /** The target element: a selector is looked up, a reference is taken as it is. */
  function ResolveTarget(t: Target, doc: Document): (r: Option<Elem>)
    ensures t.Query? ==> (r.Some? <==> t.selector in doc)
    ensures t.Query? && r.Some? ==> r.value == doc[t.selector]
    ensures t.Direct? ==> r == t.elem
  {
    match t
    case Direct(e) => e
    case Query(sel) => QuerySelector(doc, sel)
  }

  /**
   * The threshold `_setScrollOffset` computes: a number as it is; a selector
   * that finds an element gives that element's position on `offsetSide`; a
   * selector that finds nothing gives 300; any other offset is an error.
   */
  function ResolveOffset(o: Options, doc: Document): (r: Result<int, Error>)
    ensures r.Err? <==> o.offset.Other?
    ensures r.Err? ==> r.error == InvalidOffset(o.offset)
    ensures o.offset.Num? ==> r == Ok(o.offset.n)
    ensures o.offset.Sel? && o.offset.selector in doc ==>
      r == Ok(ElementYPosition(doc[o.offset.selector], o.offsetSide))
    ensures o.offset.Sel? && o.offset.selector !in doc ==> r == Ok(FallbackOffset)
  {
    match o.offset
    case Num(n) => Ok(n)
    case Sel(sel) =>
      (match QuerySelector(doc, sel)
       case Some(target) => Ok(ElementYPosition(target, o.offsetSide))
       case None => Ok(FallbackOffset))
    case Other => Err(InvalidOffset(o.offset))
  }

  // ---------------------------------------------------------------------------
  // The two-state machine, as values
  // ---------------------------------------------------------------------------

  /** What `stick`, `unstick` and `update` touch: the flag, the clone's class list, the callbacks fired. */
  datatype StickState = StickState(visible: bool, classes: set<string>, events: seq<Event>)

  /**
   * The flag and the class list agree: the clone carries the stick class
   * exactly when it is stuck, and a stuck clone does not carry the unstick class.
   */
  predicate ClassesAgree(s: StickState, c: Classes) {
    && (s.visible <==> c.stick in s.classes)
    && (s.visible ==> c.unstick !in s.classes)
  }

  /**
   * `scrollY > this.scrollOffset`, where the threshold is `undefined` (None)
   * until `_setScrollOffset` first stores one; a comparison with `undefined`
   * is false.
   */
  predicate PastThreshold(scrollY: int, threshold: Option<int>) {
    threshold.Some? && scrollY > threshold.value
  }

  /**
   * `stick()`: when unstuck, remove the unstick class, add the stick class,
   * become stuck and fire `onStick` once; when already stuck, change nothing.
   */
  function StickStep(s: StickState, c: Classes): (r: StickState)
    ensures r.visible
    ensures s.visible ==> r == s
    ensures !s.visible ==> r.events == s.events + [OnStick]
    ensures !s.visible ==> forall k :: k in r.classes <==> k == c.stick || (k in s.classes && k != c.unstick)
    ensures c.stick != c.unstick && (!s.visible || ClassesAgree(s, c)) ==> ClassesAgree(r, c)
  {
    if s.visible then s
    else StickState(true, s.classes - {c.unstick} + {c.stick}, s.events + [OnStick])
  }

  /**
   * `unstick()`: when stuck, remove the stick class, add the unstick class,
   * become unstuck and fire `onUnstick` once; when already unstuck, change nothing.
   */
  function UnstickStep(s: StickState, c: Classes): (r: StickState)
    ensures !r.visible
    ensures !s.visible ==> r == s
    ensures s.visible ==> r.events == s.events + [OnUnstick]
    ensures s.visible ==> forall k :: k in r.classes <==> k == c.unstick || (k in s.classes && k != c.stick)
    ensures c.stick != c.unstick && s.visible ==> c.unstick in r.classes && c.stick !in r.classes
    ensures c.stick != c.unstick && (s.visible || ClassesAgree(s, c)) ==> ClassesAgree(r, c)
  {
    if !s.visible then s
    else StickState(false, s.classes - {c.stick} + {c.unstick}, s.events + [OnUnstick])
  }

  /**
   * `update()`: stuck exactly when the scroll offset is strictly past the
   * threshold (equality, and a threshold never set, are unstuck); the
   * callback of the new state fires only on a change of state, and the flag
   * and classes keep agreeing.
   */
  function UpdateStep(s: StickState, c: Classes, scrollY: int, threshold: Option<int>): (r: StickState)
    ensures r.visible <==> PastThreshold(scrollY, threshold)
    ensures s.visible == r.visible ==> r == s
    ensures !s.visible && r.visible ==> r.events == s.events + [OnStick]
    ensures s.visible && !r.visible ==> r.events == s.events + [OnUnstick]
    ensures c.stick != c.unstick && ClassesAgree(s, c) ==> ClassesAgree(r, c)
  {
    if PastThreshold(scrollY, threshold) then StickStep(s, c) else UnstickStep(s, c)
  }

  /** `update()` run at each scroll offset of `ys` in turn, against a fixed threshold. */
  function UpdateAll(s: StickState, c: Classes, ys: seq<int>, threshold: Option<int>): StickState
    decreases |ys|
  {
    if ys == [] then s else UpdateAll(UpdateStep(s, c, ys[0], threshold), c, ys[1..], threshold)
  }

  /** The callbacks alternate: `onStick`, `onUnstick`, `onStick`, …, starting from the state `visible`. */
  predicate Alternates(evs: seq<Event>, visible: bool)
    decreases |evs|
  {
    evs == [] || (evs[0] == (if visible then OnUnstick else OnStick) && Alternates(evs[1..], !visible))
  }

  /** A second `stick()` changes nothing: one class change and one `onStick` at most. */
  lemma StickTwiceIsStickOnce(s: StickState, c: Classes)
    ensures StickStep(StickStep(s, c), c) == StickStep(s, c)
    ensures |StickStep(StickStep(s, c), c).events| <= |s.events| + 1
  {
  }

  /** A second `unstick()` changes nothing. */
  lemma UnstickTwiceIsUnstickOnce(s: StickState, c: Classes)
    ensures UnstickStep(UnstickStep(s, c), c) == UnstickStep(s, c)
    ensures |UnstickStep(UnstickStep(s, c), c).events| <= |s.events| + 1
  {
  }

  /**
   * `stick()` then `unstick()` from the unstuck state restores the flag, and
   * restores the class list exactly when it already held the unstick class
   * and not the stick class (a fresh clone holds neither, so it gains the
   * unstick class).
   */
  lemma StickThenUnstick(s: StickState, c: Classes)
    requires !s.visible && c.stick != c.unstick
    ensures var r := UnstickStep(StickStep(s, c), c);
      && !r.visible && r.events == s.events + [OnStick, OnUnstick]
      && (r.classes == s.classes <==> (c.unstick in s.classes && c.stick !in s.classes))
  {
  }

  /**
   * Over any series of updates the callbacks fired alternate, starting with
   * the one that leaves the initial state (never two `onStick` in a row), and
   * the final state is decided by the last scroll offset alone.
   */
  lemma {:induction false} UpdatesAlternate(s: StickState, c: Classes, ys: seq<int>, threshold: Option<int>)
    decreases |ys|
    ensures var r := UpdateAll(s, c, ys, threshold);
      && |s.events| <= |r.events| && r.events[..|s.events|] == s.events
      && Alternates(r.events[|s.events|..], s.visible)
      && r.visible == (if ys == [] then s.visible else PastThreshold(ys[|ys| - 1], threshold))
  {
    if ys == [] {
      assert UpdateAll(s, c, ys, threshold).events[|s.events|..] == [];
    } else {
      var s1 := UpdateStep(s, c, ys[0], threshold);
      var r := UpdateAll(s1, c, ys[1..], threshold);
      assert UpdateAll(s, c, ys, threshold) == r;
      UpdatesAlternate(s1, c, ys[1..], threshold);
      var tail := r.events[|s1.events|..];
      if s1.visible == s.visible {
        assert s1 == s;
      } else {
        var e := if s.visible then OnUnstick else OnStick;
        assert s1.events == s.events + [e];
        assert r.events[|s.events|..] == [e] + tail;
        assert ([e] + tail)[1..] == tail;
      }
      if |ys| > 1 {
        assert ys[1..][|ys[1..]| - 1] == ys[|ys| - 1];
      }
    }
  }

  /**
   * With distinct stick and unstick class names, agreement between the flag
   * and the class list, once it holds, survives any series of updates.
   */
  lemma {:induction false} UpdatesKeepAgreement(s: StickState, c: Classes, ys: seq<int>, threshold: Option<int>)
    requires c.stick != c.unstick && ClassesAgree(s, c)
    decreases |ys|
    ensures ClassesAgree(UpdateAll(s, c, ys, threshold), c)
  {
    if ys != [] {
      UpdatesKeepAgreement(UpdateStep(s, c, ys[0], threshold), c, ys[1..], threshold);
    }
  }

  // ---------------------------------------------------------------------------
  // The controller
  // ---------------------------------------------------------------------------

  /**
   * A StickIt instance. `supported` records the feature test; when it fails
   * the instance is inert. `cloned`, `classes` and `attached` describe the
   * clone: whether it exists, its class list and whether it is in the
   * document. `scrollOffset` is the threshold, None (`undefined`) until
   * `_setScrollOffset` first stores one. `listening` says the scroll and
   * resize listeners are registered.
   */
  class StickIt {
    var supported: bool
    var options: Options
    var elem: Option<Elem>
    var visible: bool
    var cloned: bool
    var classes: set<string>
    var attached: bool
    var scrollOffset: Option<int>
    var listening: bool
    var events: seq<Event>

    function View(): StickState
      reads this
    {
      StickState(visible, classes, events)
    }

    ghost predicate Valid()
      reads this
    {
      && (visible ==> cloned)
      && (cloned ==> elem.Some?)
      && (elem.Some? ==> supported)
      && (attached ==> cloned)
      && (listening ==> cloned)
    }

    /**
     * The JavaScript constructor up to (not including) its call of `init()`:
     * the feature test, the option merge and the target lookup. The instance
     * starts unstuck.
     */
    constructor (target: Target, user: UserOptions, supported: bool, doc: Document)
      ensures Valid()
      ensures this.supported == supported
      ensures !visible && !cloned && !attached && !listening && events == []
      ensures scrollOffset.None?
      ensures supported ==> options == MergeOptions(user) && elem == ResolveTarget(target, doc)
      ensures !supported ==> elem.None?
    {
      this.supported := supported;
      visible := false;
      cloned := false;
      classes := {};
      attached := false;
      scrollOffset := None;
      listening := false;
      events := [];
      if supported {
        options := MergeOptions(user);
        elem := ResolveTarget(target, doc);
      } else {
        options := DefaultOptions;
        elem := None;
      }
    }

    /**
     * `new StickIt(elem, options)`: the constructor, then `init()` when the
     * target resolves. An invalid offset throws out of `init()`, so no
     * instance is returned. The target is looked up in `doc`, the page as it
     * is before construction; the threshold is looked up in `withClone`, the
     * page after `init()` has put the clone first in the body, where a
     * selector matching the target or its subtree finds the clone.
     */
    static method Create(target: Target, user: UserOptions, supported: bool, doc: Document, withClone: Document)
      returns (r: Result<StickIt, Error>)
      ensures r.Err? <==> supported && ResolveTarget(target, doc).Some? && MergeOptions(user).offset.Other?
      ensures r.Err? ==> r.error == InvalidOffset(MergeOptions(user).offset)
      ensures r.Ok? ==> fresh(r.value) && r.value.Valid() && !r.value.visible
      ensures r.Ok? ==> r.value.supported == supported
      ensures r.Ok? && supported ==> r.value.options == MergeOptions(user) && r.value.elem == ResolveTarget(target, doc)
      ensures r.Ok? && r.value.elem.None? ==> r.value.scrollOffset.None?
      ensures r.Ok? ==> (r.value.elem.Some? <==> supported && ResolveTarget(target, doc).Some?)
      ensures r.Ok? && r.value.elem.Some? ==>
        && r.value.cloned && r.value.attached && r.value.listening
        && r.value.classes == r.value.elem.value.classes + {r.value.options.classes.clone}
        && r.value.scrollOffset.Some? && ResolveOffset(r.value.options, withClone) == Ok(r.value.scrollOffset.value)
        && r.value.events == [OnInit]
      ensures r.Ok? && r.value.elem.None? ==> !r.value.cloned && !r.value.listening && r.value.events == []
    {
      var s := new StickIt(target, user, supported, doc);
      if s.elem.Some? {
        var err := s.Init(withClone);
        if err.Some? {
          return Err(err.value);
        }
      }
      r := Ok(s);
    }

    /**
     * `init()`: clone the target with the clone class and put it in the
     * document, compute the threshold, then register the listeners and fire
     * `onInit`. When the threshold throws, the clone is already in place and
     * nothing after it happens.
     */
    method Init(doc: Document) returns (err: Option<Error>)
      requires Valid() && elem.Some?
      modifies this
      ensures Valid()
      ensures supported == old(supported) && options == old(options) && elem == old(elem)
      ensures visible == old(visible)
      ensures cloned && attached && classes == elem.value.classes + {options.classes.clone}
      ensures ResolveOffset(options, doc).Ok? ==>
        && err.None? && scrollOffset == Some(ResolveOffset(options, doc).value)
        && listening && events == old(events) + [OnInit]
      ensures ResolveOffset(options, doc).Err? ==>
        && err == Some(ResolveOffset(options, doc).error) && scrollOffset == old(scrollOffset)
        && listening == old(listening) && events == old(events)
    {
      cloned := true;
      classes := elem.value.classes + {options.classes.clone};
      attached := true;
      err := SetScrollOffset(doc);
      if err.Some? {
        return;
      }
      listening := true;
      events := events + [OnInit];
    }

    /** `_setScrollOffset()`: store the threshold, or report an invalid offset and keep the old one. */
    method SetScrollOffset(doc: Document) returns (err: Option<Error>)
      requires Valid() && supported
      modifies this`scrollOffset
      ensures ResolveOffset(options, doc).Ok? ==> err.None? && scrollOffset == Some(ResolveOffset(options, doc).value)
      ensures ResolveOffset(options, doc).Err? ==>
        err == Some(ResolveOffset(options, doc).error) && scrollOffset == old(scrollOffset)
    {
      err := None;
      match options.offset
      case Num(n) =>
        scrollOffset := Some(n);
      case Sel(sel) =>
        var target := QuerySelector(doc, sel);
        if target.Some? {
          var pos := GetElementYPosition(target.value, options.offsetSide);
          scrollOffset := Some(pos);
        } else {
          scrollOffset := Some(FallbackOffset);
        }
      case Other =>
        err := Some(InvalidOffset(options.offset));
    }

    /**
     * `destroy()`: take the clone out of the document if it is there, remove
     * the listeners and fire `onDestroy`. A trailing throttled call set before
     * this still runs afterwards: the throttle's timer is not cleared.
     */
    method Destroy()
      requires Valid() && supported
      modifies this`attached, this`listening, this`events
      ensures Valid()
      ensures !attached && !listening
      ensures events == old(events) + [OnDestroy]
    {
      if cloned && attached {
        attached := false;
      }
      listening := false;
      events := events + [OnDestroy];
    }

    /** `stick()`; an unstuck instance needs its clone. */
    method Stick()
      requires Valid() && cloned
      modifies this`visible, this`classes, this`events
      ensures Valid()
      ensures View() == StickStep(old(View()), options.classes)
    {
      if !visible {
        classes := classes - {options.classes.unstick};
        classes := classes + {options.classes.stick};
        visible := true;
        events := events + [OnStick];
      }
    }

    /** `unstick()`; an unstuck instance is left alone, clone or not. */
    method Unstick()
      requires Valid()
      modifies this`visible, this`classes, this`events
      ensures Valid()
      ensures View() == UnstickStep(old(View()), options.classes)
    {
      if visible {
        classes := classes - {options.classes.stick};
        classes := classes + {options.classes.unstick};
        visible := false;
        events := events + [OnUnstick];
      }
    }

    /**
     * `update()`: stick when the page is scrolled strictly past the threshold,
     * unstick otherwise. Without a clone only the unstick branch is safe; on an
     * instance whose threshold was never set that is the branch taken, and it
     * does nothing.
     */
    method Update(w: Window)
      requires Valid() && (cloned || !PastThreshold(GetScrollY(w), scrollOffset))
      modifies this`visible, this`classes, this`events
      ensures Valid()
      ensures View() == UpdateStep(old(View()), options.classes, GetScrollY(w), scrollOffset)
      ensures visible <==> PastThreshold(GetScrollY(w), scrollOffset)
    {
      if PastThreshold(GetScrollY(w), scrollOffset) {
        Stick();
      } else {
        Unstick();
      }
    }
  }
}
