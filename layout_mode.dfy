// The Blackboard panel's layout mode as values: the abstract facts the
// `scrollable` setter reads and writes, the transition it performs, and the
// properties that hold of every sequence of calls to it.
module LayoutMode {

  /** Which resize axes the Resizer manipulator may change. */
  datatype ResizeRestriction = None | FlexDirection

  /** The panel's `style.position`. */
  datatype Position = Relative | Absolute

  /** An inline style entry: either never assigned, or assigned a value. */
  datatype Style<T> = Unset | Set(value: T)

  /** A measured layout dimension; `Invalid` stands for NaN (not measured yet). */
  datatype Dimension = Invalid | Valid(size: real)

  /** The width and height of the panel's measured layout rectangle. */
  datatype Rect = Rect(width: Dimension, height: Dimension)

  /** Where an element sits in the panel's hierarchy. */
  datatype Host = Detached | Root | ScrollView | Elsewhere

  /** One assignment `scrollable = value`, made while the layout measures `layout`. */
  datatype Call = Call(value: bool, layout: Rect)

  /**
   * The facts the setter touches: the flag, whether the lazily created scroll
   * view exists, the parents of the content container and of the scroll view,
   * the resize restriction, the inline position/width/height styles and the
   * class list.
   */
  datatype PanelState = PanelState(
    scrollable: bool,
    hasScrollView: bool,
    contentParent: Host,
    scrollViewParent: Host,
    resize: ResizeRestriction,
    position: Style<Position>,
    width: Style<real>,
    height: Style<real>,
    classes: set<string>)

  const DefaultWidth: real := 200.0
  const DefaultHeight: real := 400.0
  const ScrollableClass: string := "scrollable"

  /** The measured size, or `default` when the dimension is NaN. */
  function SizeOr(d: Dimension, default: real): real
  {
    if d.Invalid? then default else d.size
  }

  /** What one assignment `scrollable = value` does to the panel. */
  function Transition(s: PanelState, value: bool, layout: Rect): (r: PanelState)
    ensures r.scrollable == value
    ensures s.hasScrollView ==> r.hasScrollView
    ensures r.scrollable != s.scrollable ==> r.position == Set(Absolute)
    ensures r.scrollable == s.scrollable ==> r == s
  {
    if s.scrollable == value then s
    else if value then
      var sized :=
        if layout.width.Invalid? || layout.height.Invalid? then
          s.(width := Set(SizeOr(layout.width, DefaultWidth)),
             height := Set(SizeOr(layout.height, DefaultHeight)))
        else s;
      sized.(scrollable := true, position := Set(Absolute),
             hasScrollView := true, contentParent := ScrollView,
             scrollViewParent := Root, resize := None,
             classes := s.classes + {ScrollableClass})
    else if s.hasScrollView then
      s.(scrollable := false, position := Set(Absolute),
         resize := FlexDirection, scrollViewParent := Detached,
         contentParent := Root, classes := s.classes - {ScrollableClass})
    else
      s.(scrollable := false, position := Set(Absolute),
         classes := s.classes - {ScrollableClass})
  }

  /** The state after the assignments `calls`, in order. */
  function Run(s: PanelState, calls: seq<Call>): PanelState
    decreases |calls|
  {
    if calls == [] then s
    else Run(Transition(s, calls[0].value, calls[0].layout), calls[1..])
  }

  /** How many of the assignments `calls` allocate a new scroll view. */
  function Creations(s: PanelState, calls: seq<Call>): nat
    decreases |calls|
  {
    if calls == [] then 0
    else
      var t := Transition(s, calls[0].value, calls[0].layout);
      (if !s.hasScrollView && t.hasScrollView then 1 else 0) + Creations(t, calls[1..])
  }

  /**
   * The panel's consistency: in scrollable mode the content container hangs
   * under the scroll view, which hangs under the root, both axes resize and the
   * "scrollable" class is present; in fixed mode the content container hangs
   * under the root, the scroll view (if any) is detached, the class is absent,
   * and once a scroll view exists only the width may be resized.
   */
  ghost predicate Inv(s: PanelState)
  {
    (s.scrollable ==>
       s.hasScrollView && s.contentParent == ScrollView && s.scrollViewParent == Root &&
       s.resize == None && s.position == Set(Absolute) && ScrollableClass in s.classes) &&
    (!s.scrollable ==>
       s.contentParent == Root && s.scrollViewParent == Detached &&
       ScrollableClass !in s.classes &&
       (s.hasScrollView ==> s.resize == FlexDirection))
  }

  /**
   * The state the constructor hands to the setter: the field initialiser leaves
   * the flag `true`, the template puts the content container under the root,
   * no scroll view exists yet, the class list holds only "blackboard", and the
   * resize restriction is whatever the base element left (`inherited`).
   */
  function Initial(inherited: ResizeRestriction): (s: PanelState)
    ensures s.scrollable && !s.hasScrollView && s.contentParent == Root
    ensures !Inv(s)
  {
    PanelState(true, false, Root, Detached, inherited, Unset, Unset, Unset, {"blackboard"})
  }

  /** The state after the constructor's `scrollable = false`. */
  function Constructed(inherited: ResizeRestriction): (s: PanelState)
    ensures Inv(s)
    ensures !s.scrollable && !s.hasScrollView && s.contentParent == Root
    ensures s.resize == inherited && s.classes == {"blackboard"}
  {
    Transition(Initial(inherited), false, Rect(Invalid, Invalid))
  }

  // ---------------------------------------------------------------------
  // One assignment

  /** Assigning the current value returns at once and changes nothing. */
  lemma SameValueIsNoOp(s: PanelState, layout: Rect)
    ensures Transition(s, s.scrollable, layout) == s
  {
  }

  /** A change to `true` leaves the panel in its scrollable layout. */
  lemma EnterScrollable(s: PanelState, layout: Rect)
    requires !s.scrollable
    ensures var t := Transition(s, true, layout);
      t.scrollable && t.hasScrollView &&
      t.contentParent == ScrollView && t.scrollViewParent == Root &&
      t.resize == None && t.position == Set(Absolute) &&
      t.classes == s.classes + {ScrollableClass}
  {
  }

  /**
   * A change to `false` always removes the "scrollable" class; only when a
   * scroll view exists does it lock the resize axis and move the content
   * container back under the root, detaching the scroll view.
   */
  lemma LeaveScrollable(s: PanelState, layout: Rect)
    requires s.scrollable
    ensures var t := Transition(s, false, layout);
      !t.scrollable && t.position == Set(Absolute) &&
      t.classes == s.classes - {ScrollableClass} &&
      t.hasScrollView == s.hasScrollView &&
      t.width == s.width && t.height == s.height &&
      (s.hasScrollView ==>
         t.resize == FlexDirection && t.scrollViewParent == Detached && t.contentParent == Root) &&
      (!s.hasScrollView ==>
         t.resize == s.resize && t.scrollViewParent == s.scrollViewParent &&
         t.contentParent == s.contentParent)
  {
  }

  /**
   * Default sizing on a change to `true`: when either measured dimension is
   * NaN, each style dimension becomes its default if its own measurement is
   * NaN and the measurement otherwise; when both are measured, the styles are
   * left as they were.
   */
  lemma DefaultSizing(s: PanelState, layout: Rect)
    requires !s.scrollable
    ensures var t := Transition(s, true, layout);
      (layout.width.Invalid? || layout.height.Invalid? ==>
         t.width == Set(if layout.width.Invalid? then DefaultWidth else layout.width.size) &&
         t.height == Set(if layout.height.Invalid? then DefaultHeight else layout.height.size)) &&
      (layout.width.Valid? && layout.height.Valid? ==>
         t.width == s.width && t.height == s.height)
  {
  }

  /** An unmeasured width with a measured height of 350 gives a 200 x 350 style. */
  lemma DefaultSizingPerAxis(s: PanelState)
    requires !s.scrollable
    ensures var t := Transition(s, true, Rect(Invalid, Valid(350.0)));
      t.width == Set(200.0) && t.height == Set(350.0)
  {
  }

  /** Changes to `false` never touch the inline width and height. */
  lemma FixedKeepsSize(s: PanelState, layout: Rect)
    ensures Transition(s, false, layout).width == s.width
    ensures Transition(s, false, layout).height == s.height
  {
  }

  /**
   * The scroll view is brought into existence only by a change to `true`, and
   * once it exists no assignment removes it.
   */
  lemma ScrollViewCreatedOnlyOnEnter(s: PanelState, value: bool, layout: Rect)
    ensures !s.hasScrollView && Transition(s, value, layout).hasScrollView ==>
      value && !s.scrollable
    ensures s.hasScrollView ==> Transition(s, value, layout).hasScrollView
  {
  }

  /** Every assignment keeps the panel consistent. */
  lemma TransitionKeepsInv(s: PanelState, value: bool, layout: Rect)
    requires Inv(s)
    ensures Inv(Transition(s, value, layout))
  {
  }

  /**
   * Toggling fixed, then scrollable, then fixed again puts the content
   * container and the class list back as they were and keeps the scroll view
   * for reuse.
   */
  lemma ToggleTwiceRestoresHierarchy(s: PanelState, l1: Rect, l2: Rect)
    requires Inv(s) && !s.scrollable
    ensures var t := Transition(Transition(s, true, l1), false, l2);
      !t.scrollable && t.hasScrollView &&
      t.contentParent == s.contentParent && t.scrollViewParent == s.scrollViewParent &&
      t.classes == s.classes && t.resize == FlexDirection
  {
  }

  // ---------------------------------------------------------------------
  // Any sequence of assignments

  /** Every sequence of assignments keeps the panel consistent. */
  lemma {:induction false} RunKeepsInv(s: PanelState, calls: seq<Call>)
    requires Inv(s)
    ensures Inv(Run(s, calls))
    decreases |calls|
  {
    if calls != [] {
      TransitionKeepsInv(s, calls[0].value, calls[0].layout);
      RunKeepsInv(Transition(s, calls[0].value, calls[0].layout), calls[1..]);
    }
  }

  /** Once a scroll view exists, it exists after any further assignments. */
  lemma {:induction false} ScrollViewPersists(s: PanelState, calls: seq<Call>)
    requires s.hasScrollView
    ensures Run(s, calls).hasScrollView
    decreases |calls|
  {
    if calls != [] {
      ScrollViewPersists(Transition(s, calls[0].value, calls[0].layout), calls[1..]);
    }
  }

  /**
   * A scroll view is allocated at most once over any sequence of assignments,
   * and never again once one exists.
   */
  lemma {:induction false} AtMostOneCreation(s: PanelState, calls: seq<Call>)
    ensures Creations(s, calls) <= 1
    ensures s.hasScrollView ==> Creations(s, calls) == 0
    decreases |calls|
  {
    if calls != [] {
      var t := Transition(s, calls[0].value, calls[0].layout);
      AtMostOneCreation(t, calls[1..]);
      if !s.hasScrollView && t.hasScrollView {
        assert Creations(t, calls[1..]) == 0;
      }
    }
  }

  /**
   * From the constructed panel, after any sequence of assignments the content
   * container has exactly one parent, and that parent is the scroll view
   * exactly when the panel is scrollable (the root otherwise).
   */
  lemma ContentHasOneParent(inherited: ResizeRestriction, calls: seq<Call>)
    ensures var t := Run(Constructed(inherited), calls);
      t.contentParent != Detached && t.contentParent != Elsewhere &&
      (t.contentParent == ScrollView <==> t.scrollable) &&
      (t.contentParent == Root <==> !t.scrollable)
  {
    RunKeepsInv(Constructed(inherited), calls);
  }

  /**
   * From the constructed panel, the resize restriction is `FlexDirection` in
   * fixed mode only once a scroll view exists: until then it stays what the
   * base element left.
   */
  lemma {:induction false} RestrictionBeforeFirstScroll(inherited: ResizeRestriction, calls: seq<Call>)
    ensures var t := Run(Constructed(inherited), calls);
      !t.hasScrollView ==> !t.scrollable && t.resize == inherited
    ensures var t := Run(Constructed(inherited), calls);
      t.hasScrollView && !t.scrollable ==> t.resize == FlexDirection
  {
    RunKeepsInv(Constructed(inherited), calls);
    NoScrollViewKeepsRestriction(Constructed(inherited), calls);
  }

  /** While no scroll view exists the panel stays fixed and keeps its restriction. */
  lemma {:induction false} NoScrollViewKeepsRestriction(s: PanelState, calls: seq<Call>)
    requires !s.scrollable
    ensures !Run(s, calls).hasScrollView ==> !Run(s, calls).scrollable && Run(s, calls).resize == s.resize
    decreases |calls|
  {
    if calls != [] {
      var t := Transition(s, calls[0].value, calls[0].layout);
      if t.hasScrollView {
        ScrollViewPersists(t, calls[1..]);
      } else {
        NoScrollViewKeepsRestriction(t, calls[1..]);
      }
    }
  }
}
