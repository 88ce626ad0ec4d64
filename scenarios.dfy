/**
 * Hosts that drive a `MyMenu` through a few update passes and report what
 * they observe, using only the contracts of the container's methods.
 */
module Scenarios {
  import opened Widget
  import opened Menu

  /** `show` is false on the first three snapshots and true on the fourth:
      the third update mounts the child, and only that update signals and
      calls the factory. */
  method MountOnThirdUpdate<T, W>(show: T -> bool, popup: T -> W, s0: T, s1: T, s2: T, s3: T)
    returns (signals: seq<nat>, mounted: seq<bool>, ghost builds: seq<nat>)
    requires !show(s0) && !show(s1) && !show(s2) && show(s3)
    ensures signals == [0, 0, 1]
    ensures mounted == [false, false, true]
    ensures builds == [0, 0, 1]
  {
    var menu := new MyMenu(show, popup);
    var ctx := new UpdateCtx();
    signals, mounted, builds := [], [], [];
    var before := ctx.childrenChanged;
    ghost var built := menu.factoryCalls;
    menu.Update(ctx, s0, s1);
    signals, mounted := signals + [ctx.childrenChanged - before], mounted + [menu.handle.Some?];
    builds := builds + [menu.factoryCalls - built];
    before, built := ctx.childrenChanged, menu.factoryCalls;
    menu.Update(ctx, s1, s2);
    signals, mounted := signals + [ctx.childrenChanged - before], mounted + [menu.handle.Some?];
    builds := builds + [menu.factoryCalls - built];
    before, built := ctx.childrenChanged, menu.factoryCalls;
    menu.Update(ctx, s2, s3);
    signals, mounted := signals + [ctx.childrenChanged - before], mounted + [menu.handle.Some?];
    builds := builds + [menu.factoryCalls - built];
  }

  /** Once mounted by `update(s0, s1)`, the next three updates see `show`
      go true to true, true to true, then true to false: only the last one
      signals, the first two reach the child with their new data, and the
      child is gone after the last. */
  method UnmountOnThirdUpdate<T, W>(show: T -> bool, popup: T -> W, s0: T, s1: T, s2: T, s3: T)
    returns (signals: seq<nat>, childUpdates: seq<T>, mountedAfter: bool)
    requires !show(s0) && show(s1) && show(s2) && !show(s3)
    ensures signals == [0, 0, 1]
    ensures childUpdates == [s1, s2]
    ensures !mountedAfter
  {
    var menu := new MyMenu(show, popup);
    var ctx := new UpdateCtx();
    menu.Update(ctx, s0, s1);
    var child := menu.handle.value;
    signals := [];
    var before := ctx.childrenChanged;
    menu.Update(ctx, s1, s1);
    signals := signals + [ctx.childrenChanged - before];
    before := ctx.childrenChanged;
    menu.Update(ctx, s1, s2);
    signals := signals + [ctx.childrenChanged - before];
    before := ctx.childrenChanged;
    menu.Update(ctx, s2, s3);
    signals := signals + [ctx.childrenChanged - before];
    childUpdates := child.received.updates;
    mountedAfter := menu.handle.Some?;
  }

  /** One paint after mounting reaches the child once; after unmounting, a
      paint reaches the dropped child no more. */
  method PaintReachesOnlyMountedChild<T, W>(show: T -> bool, popup: T -> W, off: T, on: T)
    returns (paintsWhileMounted: nat, paintsAfterUnmount: nat)
    requires !show(off) && show(on)
    ensures paintsWhileMounted == 1
    ensures paintsAfterUnmount == 0
  {
    var menu := new MyMenu(show, popup);
    var ctx := new UpdateCtx();
    menu.Update(ctx, off, on);
    var child := menu.handle.value;
    menu.Paint();
    paintsWhileMounted := child.received.paints;
    menu.Update(ctx, on, off);
    menu.Paint();
    paintsAfterUnmount := child.received.paints - paintsWhileMounted;
  }

  /** Layout of an empty container is zero for any constraints; once a
      child is mounted, layout returns the size the child chose and places
      it at the origin. */
  method LayoutFollowsChild<T, W>(show: T -> bool, popup: T -> W, off: T, on: T, bc: BoxConstraints)
    returns (emptySize: Size, childSize: Size, cachedSize: Size, childOrigin: Option<Point>)
    requires !show(off) && show(on)
    ensures emptySize == ZERO
    ensures childSize == cachedSize
    ensures childOrigin == Some(ORIGIN)
  {
    var menu := new MyMenu(show, popup);
    var ctx := new UpdateCtx();
    emptySize := menu.Layout(bc);
    menu.Update(ctx, off, on);
    var child := menu.handle.value;
    childSize := menu.Layout(bc);
    cachedSize, childOrigin := child.size, child.origin;
  }
}
