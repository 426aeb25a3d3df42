# StickIt sticky-header utility, modelled in Dafny

StickIt clones a target element and puts the clone at the top of the document body. It then switches the clone between two states, *unstuck* and *stuck*, as the page scrolls past a threshold. The threshold is either a pixel offset or the top or bottom edge of another element. Scroll and resize handlers are rate-limited by a `throttle` helper.

The project has three modules:

- `Wrappers` (`wrappers.dfy`): `Option` and `Result`.
- `Helpers` (`helpers.dfy`), for `src/helpers.js`:
  - `throttle` is the class `Throttle`. Its fields are the closure variables `previous`, `timeout` (split into `pending` and the due time `fireAt`), `args` and `result`, plus a log `calls` of every run of `func`.
  - The pure specification of the class is `ThrottleState`, with `CallStep` for a call of the wrapper and `FireStep` for `later`. The methods `Call` and `Later` are proved to produce exactly the state these functions give, and the lemmas about the two functions carry the rate-limiting properties.
  - The clock is the parameter `now`.
  - `getScrollY` is the function `GetScrollY` over a `Window` value.
  - `getElementYPosition` is the method `GetElementYPosition`. Its loop walks the `offsetParent` chain of an `Elem`. It is proved equal to the recursive `ElementYPosition`.
- `Sticky` (`stick_it.dfy`), for `src/stick-it.js`:
  - The controller is the class `StickIt`. Its fields are `visible`, the clone's class list `classes`, `scrollOffset`, the clone's presence (`cloned`) and attachment (`attached`), the listener registration `listening`, and a log `events` of the four user callbacks.
  - `stick`, `unstick` and `update` are proved against the value-level functions `StickStep`, `UnstickStep` and `UpdateStep`. The properties of the state machine are proved about those three functions.
  - `document.querySelector` is a lookup in a `Document` map passed in.
  - The feature test is a boolean parameter `supported`.

The JavaScript constructor calls `init()`, and `init()` can throw. A Dafny constructor cannot return an error, so the JavaScript constructor is modelled in two parts:

- the Dafny `constructor` does the feature test, merges the options and looks up the target;
- `StickIt.Create` runs that constructor and then `Init` when the target resolves, and returns `Err(InvalidOffset(...))` when `init()` throws.

Behaviour of the code worth knowing when reading the model:

- **Round trip.** `stick()` then `unstick()` does not in general restore the class set. It restores it only when the clone already had the unstick class and not the stick class. `StickThenUnstick` proves that condition in both directions. A fresh clone has neither class, so it ends up with the unstick class added.
- **Timers on teardown.** `destroy()` does not clear pending throttle timers, so a trailing throttled call set before `destroy()` still runs afterwards. This is noted in comments on `Throttle.Later` and `StickIt.Destroy`; no property is proved about it.
- **Teardown after a failed feature test.** `destroy()` throws on an instance that failed the feature test, because `options` is then undefined. The model therefore has `Destroy` require `supported`.
- **Unset threshold.** Until `_setScrollOffset()` stores a threshold, `scrollOffset` is `undefined` (None in the model). `update()` then compares against `undefined`, which is false, so it takes the `unstick()` branch, and that does nothing on an unstuck instance.
- **Calling `init()` again.** A second call to `init()` while the instance is stuck builds a fresh clone without the stick class, and `visible` stays true. Agreement between the flag and the classes is therefore not part of `StickIt.Valid()`. Instead, it is proved about the value-level steps:
  - `StickStep` establishes it from any unstuck state, and `UnstickStep` from any stuck state;
  - `UpdateStep` preserves it, and `UpdatesKeepAgreement` extends that to any series of updates.

## Model

| member | source | states |
|---|---|---|
| `Helpers.CallStep` | src/helpers.js:21-37 | A call keeps the closure invariant: a timer is pending exactly when arguments are held, and it is due at the end of the window. It runs `func` at most once, and only when at least `wait` ms have passed since the last run. |
| `Helpers.FireStep` | src/helpers.js:14-19 | The firing timer restarts the window at the firing time, runs `func` on the held arguments and stores the result. It clears the timer and the held arguments, so the invariant holds for every `wait`. |
| `Helpers.Throttle.constructor` | src/helpers.js:10-12 | A fresh wrapper has `previous` 0, no timer, no held arguments and no result. |
| `Helpers.Throttle.Call` | src/helpers.js:21-37 | The wrapper updates its closure variables exactly as `CallStep` says and returns the stored result of the latest run. It keeps the invariant. |
| `Helpers.Throttle.Later` | src/helpers.js:14-19 | The timer callback (it fires only when set and due) updates the closure exactly as `FireStep` says. It keeps the invariant. |
| `Helpers.FirstCallRunsWhenClockPastWait` | src/helpers.js:12-31 | Because `previous` starts at 0, the first call runs `func` at once if and only if `now >= wait`. |
| `Helpers.CallAfterWindowRunsNow` | src/helpers.js:22-32 | When `remaining <= 0`, the call runs `func` now, restarts the window at `now`, clears any timer and returns the new result. |
| `Helpers.CallInWindowDefers` | src/helpers.js:22-36 | When `remaining > 0`, the call runs nothing and returns the old result. Its arguments replace the held ones. A timer is pending afterwards: set for `remaining` ms if none was pending, otherwise left as it was. |
| `Helpers.CallsInWindow` | src/helpers.js:21-37 | Any series of calls inside one window runs nothing and leaves the result unchanged. Exactly one timer is pending, due at the window's end, holding the latest call's arguments. |
| `Helpers.BurstRunsFirstAndLast` | src/helpers.js:10-38 | A burst is a call after the window, further calls inside the new window, then the timer. `func` runs exactly twice: on the first and on the latest arguments. The window restarts at the firing time. |
| `Helpers.GetScrollY` | src/helpers.js:45-51 | Returns `window.scrollY` when it is a number. Otherwise returns the `scrollTop` of the first present node among documentElement, body.parentNode and body. |
| `Helpers.GetElementYPosition` | src/helpers.js:60-75 | The loop over the offset-parent chain returns the sum of `offsetTop` over the element and all its offset parents. For "bottom" it adds the element's own height; for any other side it adds nothing. |
| `Sticky.QuerySelector` | src/stick-it.js:128 | The stand-in for `document.querySelector`: a selector finds an element exactly when the document has a match for it, and then finds that match. |
| `Sticky.MergeOptions` | src/stick-it.js:63-76 | The merge is shallow. Each supplied option wins whole, and a supplied `classes` replaces all three default names. Each omitted option takes its default: offset 300, side "top", throttle 250, classes stickit/stickit-stick/stickit-unstick. |
| `Sticky.ResolveTarget` | src/stick-it.js:81 | A selector target resolves exactly when the document has a match, and resolves to that match. A direct reference is kept as given. |
| `Sticky.ResolveOffset` | src/stick-it.js:123-137 | The threshold is an error exactly when the offset is neither number nor string. A number is used as is. A selector that is found gives that element's position on `offsetSide`. A selector that is not found gives 300. |
| `Sticky.StickStep` | src/stick-it.js:159-166 | After `stick()` the state is stuck. From unstuck, it removes the unstick class, adds the stick class, changes no other class and fires `onStick` once. From stuck, it changes nothing. With distinct names, the flag and classes agree afterwards (the stick class present exactly when stuck, the unstick class absent when stuck), from any unstuck state or any stuck state that already agreed. |
| `Sticky.UnstickStep` | src/stick-it.js:172-179 | The mirror of `StickStep`. With distinct names, a stuck clone ends up with the unstick class and without the stick class, so the flag and classes agree. From unstuck, nothing changes. |
| `Sticky.UpdateStep` | src/stick-it.js:185-191 | After `update()` the state is stuck if and only if a threshold is set and `scrollY` is strictly greater, so equality and an unset threshold count as unstuck. Only on a change of state does a callback fire: `onStick` on becoming stuck, `onUnstick` on becoming unstuck. With distinct names, agreement between flag and classes is kept. |
| `Sticky.StickTwiceIsStickOnce` | src/stick-it.js:159-166 | A second `stick()` changes nothing, so two calls make at most one class change and fire one callback. |
| `Sticky.UnstickTwiceIsUnstickOnce` | src/stick-it.js:172-179 | A second `unstick()` changes nothing. |
| `Sticky.StickThenUnstick` | src/stick-it.js:159-179 | From unstuck, with distinct names, `stick()` then `unstick()` restores the flag and fires `onStick` then `onUnstick`. It restores the class set if and only if that set had the unstick class and not the stick class. |
| `Sticky.UpdatesAlternate` | src/stick-it.js:159-191 | Over any series of updates, the callbacks fired alternate between `onStick` and `onUnstick`, starting with the one that leaves the initial state. The final state depends only on the last scroll offset. |
| `Sticky.UpdatesKeepAgreement` | src/stick-it.js:159-191 | With distinct names, once the flag and classes agree, they agree after any series of updates. |
| `Sticky.StickIt.constructor` | src/stick-it.js:49-82 | When the feature test passes, the instance has the merged options and the resolved target. In every case the instance starts unstuck, with no clone, no threshold, no listeners and no callbacks fired. |
| `Sticky.StickIt.Create` | src/stick-it.js:49-87 | Construction throws exactly when the target resolves and the offset is invalid. Otherwise the instance records the feature test and, when it passed, carries the merged options and the resolved target. With a resolved target it is initialised: the clone is in place, the threshold is the one `ResolveOffset` gives for the merged options on the page as it stands once the clone is inserted (a second `Document` argument), the listeners are on and `onInit` has fired once. Without one it is inert: no clone, no threshold, no listeners, no callbacks. |
| `Sticky.StickIt.Init` | src/stick-it.js:96-115 | The clone gets the target's classes plus the clone class and is put in the document. The threshold is computed. Only when that succeeds are the listeners registered and `onInit` fired. A throwing offset leaves the clone in place and fires nothing. |
| `Sticky.StickIt.SetScrollOffset` | src/stick-it.js:123-137 | Stores the threshold `ResolveOffset` gives. For an invalid offset it reports the error and keeps the old threshold. |
| `Sticky.StickIt.Destroy` | src/stick-it.js:145-153 | Takes the clone out of the document (only if it is there), removes the listeners, and always fires `onDestroy` exactly once. |
| `Sticky.StickIt.Stick` | src/stick-it.js:159-166 | Changes the flag, classes and callback log exactly as `StickStep` says, and nothing else. |
| `Sticky.StickIt.Unstick` | src/stick-it.js:172-179 | Changes the flag, classes and callback log exactly as `UnstickStep` says, and nothing else. |
| `Sticky.StickIt.Update` | src/stick-it.js:185-191 | Reads the scroll offset with `GetScrollY` and moves the state exactly as `UpdateStep` says. Afterwards `visible` holds exactly when the threshold is set and `scrollY` is greater than it. It is callable on an inert instance, where it does nothing; only the stick branch needs the clone. |

## Left out

- **Event plumbing.** `addEventListener`/`removeEventListener` and the browser event loop are not modelled. Registration is the `listening` flag.
  - The two throttled wrappers that `init()` builds are not tied to `Update` and `SetScrollOffset`. The `Throttle` model takes a pure `func`, and those two change the controller.
  - So the race between the resize-driven threshold update and the scroll-driven update is not modelled either.
- **Clock and timers.** `Date.now`, `setTimeout` and `clearTimeout` become the parameter `now` and the pending timer (`pending`, `fireAt`). The timer is assumed never to fire early.
- **`this` binding.** The throttle's `context` is not modelled, and neither is the `this` passed to callbacks.
- **User callbacks.** A callback is an entry in the event log. What it does is not modelled, and it is assumed not to call back into the instance.
- **DOM mutation.** `cloneNode`, `insertBefore` and `removeChild` become the `cloned`, `classes` and `attached` fields. The clone's subtree and its place among the body's children are not modelled. `removeChild` throws when the clone's parent is not the body, and that case is not modelled.
- **Invalid selectors.** `querySelector` throws a syntax error for a malformed selector. That case is not modelled: a `Document` lookup either finds an element or does not.
- **Feature test.** The test is the `supported` parameter. On an instance that failed it, `options` is undefined, so the source throws from `destroy` and `_setScrollOffset`; those two require `supported`. Without a clone, `stick` on an unstuck instance throws, so `StickIt.Stick` requires the clone, and `StickIt.Update` requires it only when it would take the stick branch.
- StickIt.Init: a second `init()` leaves the first clone in the document and the first two throttled listeners registered, and `destroy()` can no longer remove those listeners. The model overwrites the clone fields and keeps no record of the leaked clone or listeners.
- StickIt.Create: the page before the clone is inserted and the page after it are two independent `Document` arguments. The model does not derive the second from the first. It does not record that the clone comes first in document order, so that an offset selector matching the target or its subtree finds the clone. Nor does it record that a clone in the page flow shifts the positions of the elements after it.
- StickIt.Init: `init()` on an instance without a target throws a TypeError at `this.elem.cloneNode`. This happens when the target selector found nothing or the feature test failed. The model requires the target instead.
- StickIt.Create: when `init()` throws, the clone has already been inserted into the document. The failed construction leaves that clone behind, and the model does not record it.
- StickIt.Init, StickIt.Stick and StickIt.Unstick: `classList.add` and `classList.remove` throw when a class name is empty or contains whitespace. Class names are not checked, so these members never fail on such names.
- Helpers.GetScrollY: when `scrollY` is not a number and both `documentElement` and `body` are null, the source throws. `body` is always present in the model, so this case is not represented.
- **Partial `classes` option.** A supplied `classes` is modelled with all three names. In the source, a partial object leaves the missing names `undefined`.
- **Options set to `undefined`.** An option passed explicitly as `undefined` overrides its default in the source; the model has no way to express that.
- **Error message.** The `Invalid offset` message text is reduced to `InvalidOffset(offset)`.
- **Pixel values.** They are integers. Fractional scroll values and `NaN` are not modelled.
- **Bundle and build.** `dist/stick-it.js` is a generated bundle that repeats `src/`. `rollup.config.mjs` is build configuration with no runtime behaviour.
