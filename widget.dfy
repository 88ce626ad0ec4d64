/**
 * The widget protocol as a container sees it: the pod that wraps a mounted
 * child, the update context through which a container reports that its
 * children changed, and the geometry exchanged during layout.
 *
 * The child itself is foreign code. Here it is an object that records every
 * protocol call it receives and caches the geometry layout gives it, which is
 * all a container can observe of it.
 */
module Widget {

  datatype Option<T> = None | Some(value: T)

  /** Integer stand-in for the toolkit's floating-point size. */
  datatype Size = Size(width: int, height: int)

  const ZERO: Size := Size(0, 0)

  /** Integer stand-in for the toolkit's floating-point point. */
  datatype Point = Point(x: int, y: int)

  const ORIGIN: Point := Point(0, 0)

  /** Minimum and maximum size a parent allows its child during layout. */
  datatype BoxConstraints = BoxConstraints(min: Size, max: Size)

  /** The protocol calls a child has received, phase by phase; the data of
      each forwarded `update` is kept in order. */
  datatype Received<T> = Received(events: nat, lifecycles: nat, updates: seq<T>, layouts: nat, paints: nat)

  function NoCalls<T>(): (r: Received<T>) {
    Received(0, 0, [], 0, 0)
  }

  /** The update-phase context; it counts the structural-change notifications
      a widget sends through it. The container does not pass it on to its
      child, so the count is of the container's own notifications only. */
  class UpdateCtx {
    var childrenChanged: nat

    constructor ()
      ensures childrenChanged == 0
    {
      childrenChanged := 0;
    }

    method ChildrenChanged()
      modifies this
      ensures childrenChanged == old(childrenChanged) + 1
    {
      childrenChanged := childrenChanged + 1;
    }
  }

  /** A mounted child: the widget a factory built, wrapped with the calls it
      has received and its cached geometry (size, origin and the constraints
      of its last layout). */
  class Pod<T, W> {
    const widget: W
    var received: Received<T>
    var size: Size
    var origin: Option<Point>
    var constraints: Option<BoxConstraints>

    /** The cached geometry, which only layout and placement change. */
    ghost function Geometry(): (Size, Option<Point>, Option<BoxConstraints>)
      reads this
    {
      (size, origin, constraints)
    }

    constructor (widget: W)
      ensures this.widget == widget && received == NoCalls()
      ensures size == ZERO && origin == None && constraints == None
    {
      this.widget := widget;
      received := NoCalls();
      size := ZERO;
      origin := None;
      constraints := None;
    }

    method Event()
      modifies this`received
      ensures received == old(received).(events := old(received).events + 1)
    {
      received := received.(events := received.events + 1);
    }

    method Lifecycle()
      modifies this`received
      ensures received == old(received).(lifecycles := old(received).lifecycles + 1)
    {
      received := received.(lifecycles := received.lifecycles + 1);
    }

    method Update(data: T)
      modifies this`received
      ensures received == old(received).(updates := old(received).updates + [data])
    {
      received := received.(updates := received.updates + [data]);
    }

    /** The child's own layout: what size it picks is up to the child, so the
        model leaves it open; the pod caches it. */
    method Layout(bc: BoxConstraints) returns (sz: Size)
      modifies this`received, this`size, this`constraints
      ensures received == old(received).(layouts := old(received).layouts + 1)
      ensures size == sz && constraints == Some(bc)
    {
      sz := *;
      received := received.(layouts := received.layouts + 1);
      size := sz;
      constraints := Some(bc);
    }

    method SetOrigin(p: Point)
      modifies this`origin
      ensures origin == Some(p)
    {
      origin := Some(p);
    }

    method Paint()
      modifies this`received
      ensures received == old(received).(paints := old(received).paints + 1)
    {
      received := received.(paints := received.paints + 1);
    }
  }
}
