/** Commands as objects: `set_rectangle` mutates the command it is called on
    and returns a reference to that same command, so calls can be chained.
    Objects live in a store keyed by reference; a setter updates one entry
    and hands back the reference it was called through. */
module CommandObjects {
  import opened Rectangles
  import opened GraphicsApi

  /** A reference to a command object. */
  type Ref = nat

  /** Every live command object, by reference. */
  type Store = map<Ref, Command>

  /** `self` names a live viewport or scissor command, so `set_rectangle`
      may be called through it. */
  predicate Settable(store: Store, self: Ref)
  {
    self in store && HasRectangle(store[self])
  }

  /** `self->set_rectangle(rect)`: returns `*this`, i.e. the same reference;
      only that object changes, it keeps its kind (and a viewport its name),
      and its rectangle becomes the one given. */
  function SetRectangleAt(store: Store, self: Ref, rect: Rectangle): (r: (Store, Ref))
    requires Settable(store, self)
    ensures r.1 == self
    ensures r.0.Keys == store.Keys && Settable(r.0, self)
    ensures KindOf(r.0[self]) == KindOf(store[self])
    ensures RectangleOf(r.0[self]) == rect
    ensures store[self].Viewport? ==> r.0[self].viewport.name == store[self].viewport.name
    ensures forall o :: o in store && o != self ==> r.0[o] == store[o]
  {
    (store[self := SetCommandRectangle(store[self], rect)], self)
  }

  /** A fluent chain `self->set_rectangle(rects[0]).set_rectangle(rects[1])...`:
      each call goes through the reference the previous call returned. The
      chain ends on the object it started from, with the last rectangle
      written; every other object is untouched. */
  function Chain(store: Store, self: Ref, rects: seq<Rectangle>): (r: (Store, Ref))
    requires Settable(store, self)
    ensures r.1 == self
    ensures r.0.Keys == store.Keys && Settable(r.0, self)
    ensures KindOf(r.0[self]) == KindOf(store[self])
    ensures store[self].Viewport? ==> r.0[self].viewport.name == store[self].viewport.name
    ensures forall o :: o in store && o != self ==> r.0[o] == store[o]
    ensures rects == [] ==> r.0 == store
    ensures rects != [] ==> RectangleOf(r.0[self]) == rects[|rects| - 1]
    decreases |rects|
  {
    if rects == [] then (store, self)
    else
      var step := SetRectangleAt(store, self, rects[0]);
      Chain(step.0, step.1, rects[1..])
  }

  /** Setting the same rectangle twice through a reference is the same as
      setting it once. */
  lemma SetRectangleAtIdempotent(store: Store, self: Ref, rect: Rectangle)
    requires Settable(store, self)
    ensures var once := SetRectangleAt(store, self, rect);
            SetRectangleAt(once.0, once.1, rect) == once
  {
    var once := SetRectangleAt(store, self, rect);
    SetCommandRectangleOverwrites(store[self], rect, rect);
    assert once.0[self := SetCommandRectangle(once.0[self], rect)] == once.0;
  }

  /** Chaining is associative: continuing a finished chain with more calls
      is the same as one chain over all the rectangles. */
  lemma {:induction false} ChainConcat(store: Store, self: Ref, a: seq<Rectangle>, b: seq<Rectangle>)
    requires Settable(store, self)
    ensures var first := Chain(store, self, a);
            Chain(first.0, first.1, b) == Chain(store, self, a + b)
  {
    if a == [] {
      assert a + b == b;
    } else {
      var step := SetRectangleAt(store, self, a[0]);
      assert (a + b)[0] == a[0];
      assert (a + b)[1..] == a[1..] + b;
      ChainConcat(step.0, step.1, a[1..], b);
    }
  }

  /** Last write wins over a chain of any length: the result depends only on
      the last rectangle, not on the ones written before it. */
  lemma {:induction false} ChainLastWriteWins(store: Store, self: Ref, a: seq<Rectangle>, rect: Rectangle)
    requires Settable(store, self)
    ensures Chain(store, self, a + [rect]) == SetRectangleAt(store, self, rect)
  {
    if a == [] {
      assert a + [rect] == [rect];
    } else {
      var step := SetRectangleAt(store, self, a[0]);
      assert (a + [rect])[1..] == a[1..] + [rect];
      ChainLastWriteWins(step.0, step.1, a[1..], rect);
      SetCommandRectangleOverwrites(store[self], a[0], rect);
      assert step.0[self := SetCommandRectangle(step.0[self], rect)]
          == store[self := SetCommandRectangle(store[self], rect)];
    }
  }

  /** Writing a rectangle erases any rectangle written before it. */
  lemma SetCommandRectangleOverwrites(c: Command, prev: Rectangle, rect: Rectangle)
    requires HasRectangle(c)
    ensures SetCommandRectangle(SetCommandRectangle(c, prev), rect) == SetCommandRectangle(c, rect)
  {
  }
}
