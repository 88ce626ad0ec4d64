# MyMenu: a conditional-mount container widget

This project models `MyMenu<T>` from druid's `examples/mytest.rs`. It is a widget that owns zero or one
child. Whether the child exists follows a presence predicate `show(data)`. The child is built by a factory
`popup(data)`. `MyMenu` is a two-state machine, Unmounted and Mounted, and only `update(old_data, data)`
moves it between the two states:

- false→true edge of `show`: build the child from the new data and signal `children_changed`;
- true→false edge: drop the child and signal `children_changed`;
- no edge: forward the update to the child, if there is one.

`event`, `lifecycle` and `paint` only forward to the child when it is present. `layout` returns the zero
size without a child. With a child, it passes the constraints on unchanged, returns the child's size and
places the child at the origin.

Files:

- `widget.dfy` (module `Widget`): stand-ins for the toolkit types. `Pod` is the `WidgetPod` around a
  mounted child: it records the protocol calls it receives (`Received`) and caches its geometry. `UpdateCtx`
  counts `children_changed` signals. `Size`, `Point` and `BoxConstraints` are the geometry types, with
  integers in place of floats.
- `mount.dfy` (module `Mount`): the update decision on values. `Step` is one `update`. `Run` is a host
  calling `update` on each consecutive pair of a sequence of data snapshots. The lemmas state what one
  update and a whole run of updates guarantee.
- `menu.dfy` (module `Menu`): the class `MyMenu`. Its `handle` field holds the optional `Pod`, and a ghost
  counter tracks factory calls. Its `Update` is proved against `Mount.Step`: the slot, the factory-call count
  and the signal count after an update are those of one `Step`, so the lemmas about `Run` apply to a sequence
  of calls on the class.
- `scenarios.dfy` (module `Scenarios`): hosts that drive a `MyMenu` through a few passes. Each one proves
  what it observes from the container's contracts alone.

`show` and `popup` are pure Dafny functions. The source evaluates `show` up to four times per `update`
(lines 46 and 49). With a pure predicate, that is the same as evaluating it once on each snapshot.
`MyMenu.Update` evaluates it once per snapshot.

The factory cannot allocate objects because it is a Dafny function. It returns the child widget as a value
of type `W`, and `Update` wraps that value in a fresh `Pod`. This mirrors `WidgetPod::new((self.popup)(data, env))`.

In two places the code does less than one might expect, and the model follows the code:

- The update forwarded to a kept child carries only the new data (line 53), not the old/new pair.
- "The handle is present iff `show` holds of the latest data" is not unconditional. It holds after an update
  only if it held before (`Mount.StepKeepsAgreement`, `Mount.RunKeepsAgreement`). Take a new container, whose
  handle is empty, and give it `update(s, s)` with `show(s)` true: it stays empty
  (`Mount.EmptyStaysEmptyOnSameData`).

## Model

| member | source | states |
|---|---|---|
| `Menu.MyMenu.constructor` | druid/examples/mytest.rs:20-29 | a new container keeps the given predicate and factory, holds no child, and has called the factory zero times |
| `Menu.MyMenu.Event` | druid/examples/mytest.rs:33-37 | the handle is unchanged; a present child receives exactly one event and nothing else about it changes; with no child, nothing is touched |
| `Menu.MyMenu.Lifecycle` | druid/examples/mytest.rs:39-43 | the handle is unchanged; a present child receives exactly one lifecycle call and nothing else about it changes; with no child, nothing is touched |
| `Menu.MyMenu.Update` | druid/examples/mytest.rs:45-55 | false→true: a fresh child built by `popup(data)` that has received no calls and has zero size, no origin and no constraints, one factory call, one `children_changed`. true→false: no child and one `children_changed`, even if there was no child before. No edge: the same handle, no factory call, no signal, and a present child gets exactly one update carrying `data`. A replaced or dropped child receives nothing. The mounted widget equals `Mount.Step`'s slot, and the factory-call and signal counters grow by `Step`'s `built` and `changed`. Agreement of the handle with `show` carries from the old data to the new |
| `Menu.MyMenu.Layout` | druid/examples/mytest.rs:57-66 | the handle is unchanged; with no child the result is the zero size for any constraints; with a child, the child gets the constraints unchanged and one layout call, the result is the child's own size, and the child's origin is set to `ORIGIN` |
| `Menu.MyMenu.Paint` | druid/examples/mytest.rs:68-72 | the handle is unchanged; a present child receives exactly one paint and its geometry is unchanged; with no child, nothing is touched |
| `Mount.Step` | druid/examples/mytest.rs:45-55 | `children_changed` is signalled iff `show(old) != show(new)`; the factory is called iff `show` rises, and then the slot holds `popup(new)`; the update is forwarded iff there is no signal and a child is present, and then the slot is kept; after a signal a child is present iff `show(new)`, and without one, presence is unchanged |
| `Mount.SameDataIsQuiet` | druid/examples/mytest.rs:45-55 | `update(s, s)` never changes the slot and never signals |
| `Mount.StepKeepsAgreement` | druid/examples/mytest.rs:45-55 | if "child present iff `show(old)`" holds before an update, "child present iff `show(new)`" holds after it |
| `Mount.EmptyStaysEmptyOnSameData` | druid/examples/mytest.rs:45-55 | an empty container given `update(s, s)` with `show(s)` true stays empty, so the agreement invariant is not unconditional |
| `Mount.RunBuildsOncePerRise` | druid/examples/mytest.rs:46-48 | over any run of updates, the factory is called exactly as many times as `show` rises from false to true |
| `Mount.RunSignalsOncePerFlip` | druid/examples/mytest.rs:45-55 | over any run, `children_changed` is signalled exactly as many times as `show` changes value, and never otherwise |
| `Mount.RunKeepsAgreement` | druid/examples/mytest.rs:45-55 | if the container agrees with `show` on the first snapshot, then after the run it holds a child iff `show` holds of the last snapshot |
| `Mount.RunPresentImpliesShown` | druid/examples/mytest.rs:45-55 | if the container holds a child only when `show` holds of the first snapshot, then after any run it holds a child only when `show` holds of the last snapshot |
| `Mount.RunWhileShownKeepsChild` | druid/examples/mytest.rs:52-54 | while `show` holds of every snapshot, the slot is never rebuilt: same child, every update forwarded to it, no signal, no factory call |
| `Mount.RunChildComesFromARise` | druid/examples/mytest.rs:46-54 | the child held after a run is either the one held at the start or `popup(s)` for a snapshot `s` at which `show` rose; the factory is never replayed on a true→true update |
| `Mount.RunNeverShownStaysEmpty` | druid/examples/mytest.rs:45-55 | when `show` holds of no snapshot, an empty container stays empty, with no factory call, signal or forwarded update |
| `Scenarios.MountOnThirdUpdate` | druid/examples/mytest.rs:45-55 | with `show` false, false, false, true over four snapshots, the three updates signal 0, 0 and 1 times and call the factory 0, 0 and 1 times, and the child is present only after the third |
| `Scenarios.UnmountOnThirdUpdate` | druid/examples/mytest.rs:45-55 | after a mount, updates that go true→true, true→true, true→false signal 0, 0 and 1 times; the child receives exactly the updates carrying `s1` and `s2`, in that order, and is gone after the third |
| `Scenarios.PaintReachesOnlyMountedChild` | druid/examples/mytest.rs:68-72 | one paint after mounting reaches the child once; after unmounting, a paint reaches the dropped child zero times |
| `Scenarios.LayoutFollowsChild` | druid/examples/mytest.rs:57-66 | an empty container lays out to zero; once mounted, layout returns the size the child cached and places the child at `ORIGIN` |

## Left out

- `main` and `build_root_widget` (lines 75-117): window and application bootstrap, and the `Flex`/`Label` composition with its click handlers, belong to the toolkit.
- `Env` is dropped from every call: the predicate and factory in the source ignore it, and a pure predicate over `(data, env)` with a fixed environment is a predicate over `data`.
- The update context is not passed on to the child (the source hands it to `child.update` at line 53, where the child may call `children_changed` itself). `UpdateCtx.childrenChanged` therefore counts only the container's own `children_changed` calls, and the "no signal" of `Menu.MyMenu.Update` and the "never otherwise" of `Mount.RunSignalsOncePerFlip` are about those calls only.
- Event and lifecycle payloads, and the event, lifecycle, layout and paint contexts, are not modelled. The child only records that it received each call. A child's event handler can mutate `data` through `&mut T`; that is the child's business and is not modelled.
- `WidgetPod` internals (its lifecycle bookkeeping and its needs-layout and needs-paint flags) are not part of this model. `Pod` keeps only the calls received and the cached size, origin and constraints.
- The size a child picks during layout is left open (`Pod.Layout` may return any size). The container's contract relates its result to that choice.
- Sizes and points are integers, not floats. No floating-point arithmetic happens in the modelled code.
- The factory-call counter is ghost state: the source counts nothing, so the counter only observes.
