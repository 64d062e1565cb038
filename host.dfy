/** The host scroll view, as far as the refresh components read and write it.
    Lengths are CGFloat values, modelled as reals; only the vertical axis is kept. */
module Host {

  /** A value snapshot of everything the components read or write on the host. */
  datatype Metrics = Metrics(
    offsetY: real,
    contentHeight: real,
    boundsHeight: real,
    frameHeight: real,
    insetTop: real,
    insetBottom: real,
    dragging: bool,
    decelerating: bool,
    scrollEnabled: bool,
    bounces: bool)

  function Max(a: real, b: real): (r: real)
    ensures r >= a && r >= b && (r == a || r == b)
  {
    if a >= b then a else b
  }

  function Min(a: real, b: real): (r: real)
    ensures r <= a && r <= b && (r == a || r == b)
  {
    if a <= b then a else b
  }

  /** The UIScrollView the header and footer are attached to. Its fields are
      written by the user's gestures (offset, dragging, decelerating), by the
      table's content (content height) and by the refresh components. */
  class ScrollView {
    var offsetY: real
    var contentHeight: real
    var boundsHeight: real
    var frameHeight: real
    var insetTop: real
    var insetBottom: real
    var dragging: bool
    var decelerating: bool
    var scrollEnabled: bool
    var bounces: bool

    constructor (m: Metrics)
      ensures Snapshot() == m
    {
      offsetY, contentHeight := m.offsetY, m.contentHeight;
      boundsHeight, frameHeight := m.boundsHeight, m.frameHeight;
      insetTop, insetBottom := m.insetTop, m.insetBottom;
      dragging, decelerating := m.dragging, m.decelerating;
      scrollEnabled, bounces := m.scrollEnabled, m.bounces;
    }

    function Snapshot(): Metrics
      reads this
    {
      Metrics(offsetY, contentHeight, boundsHeight, frameHeight, insetTop, insetBottom,
              dragging, decelerating, scrollEnabled, bounces)
    }
  }
}
