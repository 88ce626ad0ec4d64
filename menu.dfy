/**
 * `MyMenu`: a container that owns zero or one child. Whether the child is
 * there follows the presence predicate `show` across `update`; the child is
 * built by the factory `popup` from the new data. Every other phase only
 * forwards to the child when it is there.
 */
module Menu {
  import opened Widget
  import opened Mount

  class MyMenu<T, W> {
    const show: T -> bool
    const popup: T -> W
    var handle: Option<Pod<T, W>>
    /** How many times the factory has been called. */
    ghost var factoryCalls: nat

    /** The widget in the handle, if any. */
    ghost function Mounted(): (w: Option<W>)
      reads this
    {
      match handle
      case None => None
      case Some(child) => Some(child.widget)
    }

    /** The objects a phase may touch: the child, when there is one. */
    ghost function Footprint(): (objs: set<object>)
      reads this
    {
      match handle
      case None => {}
      case Some(child) => {child}
    }

    /** The container holds a child exactly when `show` holds of `data`. */
    ghost predicate Agrees(data: T)
      reads this
    {
      handle.Some? <==> show(data)
    }

    /** A new container holds no child and has not called its factory. */
    constructor (show: T -> bool, popup: T -> W)
      ensures this.show == show && this.popup == popup
      ensures handle == None && factoryCalls == 0
    {
      this.show := show;
      this.popup := popup;
      handle := None;
      factoryCalls := 0;
    }

    method Event()
      modifies Footprint()
      ensures handle == old(handle)
      ensures handle.Some? ==>
        handle.value.received == old(handle.value.received).(events := old(handle.value.received.events) + 1) &&
        handle.value.Geometry() == old(handle.value.Geometry())
    {
      if handle.Some? {
        handle.value.Event();
      }
    }

    method Lifecycle()
      modifies Footprint()
      ensures handle == old(handle)
      ensures handle.Some? ==>
        handle.value.received == old(handle.value.received).(lifecycles := old(handle.value.received.lifecycles) + 1) &&
        handle.value.Geometry() == old(handle.value.Geometry())
    {
      if handle.Some? {
        handle.value.Lifecycle();
      }
    }

    /** The mount state machine. `show` is pure, so it is evaluated once on
        each snapshot. */
    method Update(ctx: UpdateCtx, oldData: T, data: T)
      modifies this, ctx, Footprint()
      // false to true: a fresh child built from the new data, one factory call, one signal
      ensures !show(oldData) && show(data) ==>
        handle.Some? && fresh(handle.value) &&
        handle.value.widget == popup(data) && handle.value.received == NoCalls() &&
        handle.value.Geometry() == (ZERO, None, None) &&
        factoryCalls == old(factoryCalls) + 1 &&
        ctx.childrenChanged == old(ctx.childrenChanged) + 1
      // true to false: no child, one signal, also when there was no child before
      ensures show(oldData) && !show(data) ==>
        handle.None? &&
        factoryCalls == old(factoryCalls) &&
        ctx.childrenChanged == old(ctx.childrenChanged) + 1
      // no edge: the same child, if any, receives exactly this update
      ensures show(oldData) == show(data) ==>
        handle == old(handle) &&
        factoryCalls == old(factoryCalls) &&
        ctx.childrenChanged == old(ctx.childrenChanged) &&
        (handle.Some? ==>
          handle.value.received == old(handle.value.received).(updates := old(handle.value.received.updates) + [data]) &&
          handle.value.Geometry() == old(handle.value.Geometry()))
      // a child that is replaced or dropped receives nothing
      ensures show(oldData) != show(data) && old(handle).Some? ==> unchanged(old(handle).value)
      // the effect on the slot and on both counters is one step of the value model
      ensures Mounted() == Step(show, popup, old(Mounted()), oldData, data).slot
      ensures factoryCalls == old(factoryCalls) + Count(Step(show, popup, old(Mounted()), oldData, data).built)
      ensures ctx.childrenChanged == old(ctx.childrenChanged) + Count(Step(show, popup, old(Mounted()), oldData, data).changed)
      ensures old(Agrees(oldData)) ==> Agrees(data)
    {
      var wasShown, isShown := show(oldData), show(data);
      if !wasShown && isShown {
        var child := new Pod(popup(data));
        factoryCalls := factoryCalls + 1;
        handle := Some(child);
        ctx.ChildrenChanged();
      } else if wasShown && !isShown {
        handle := None;
        ctx.ChildrenChanged();
      } else if handle.Some? {
        handle.value.Update(data);
      }
    }

    /** With no child the size is zero whatever the constraints; with a child
        the constraints go to it unchanged, its size comes back unchanged, and
        it is placed at the origin. */
    method Layout(bc: BoxConstraints) returns (size: Size)
      modifies Footprint()
      ensures handle == old(handle)
      ensures handle.None? ==> size == ZERO
      ensures handle.Some? ==>
        size == handle.value.size &&
        handle.value.constraints == Some(bc) &&
        handle.value.origin == Some(ORIGIN) &&
        handle.value.received == old(handle.value.received).(layouts := old(handle.value.received.layouts) + 1)
    {
      match handle
      case Some(child) =>
        size := child.Layout(bc);
        child.SetOrigin(ORIGIN);
      case None =>
        size := ZERO;
    }

    method Paint()
      modifies Footprint()
      ensures handle == old(handle)
      ensures handle.Some? ==>
        handle.value.received == old(handle.value.received).(paints := old(handle.value.received.paints) + 1) &&
        handle.value.Geometry() == old(handle.value.Geometry())
    {
      if handle.Some? {
        handle.value.Paint();
      }
    }
  }
}
