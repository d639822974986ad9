// The Blackboard panel as an object: the element tree it rearranges, the
// `scrollable` setter that rearranges it, the constructor that drives the
// setter once, the add button's click guard, and the three event handlers
// that stop propagation.
module Panel {
  import opened LayoutMode

  /** A visual element, reduced to the one fact the panel rearranges: its parent. */
  class Element {
    var parent: Element?

    constructor ()
      ensures parent == null
    {
      parent := null;
    }

    /** Detaches this element from whatever parent it has. */
    method RemoveFromHierarchy()
      modifies this
      ensures parent == null
    {
      parent := null;
    }

    /** Makes this element the parent of `child`, detaching it from its previous parent. */
    method Add(child: Element)
      modifies child
      ensures child.parent == this
    {
      child.parent := this;
    }
  }

  /** A text label of the header. */
  class Label {
    var text: string

    constructor ()
    {
      text := "";
    }
  }

  /** A callback supplied by the panel's owner; only its identity matters here. */
  class Callback {
  }

  /** One call the panel makes into its owner's code. */
  datatype Invocation = AddItemRequested(callback: Callback, sender: Blackboard)

  /** The kinds of input event the panel can receive. */
  datatype EventKind = DragUpdated | Wheel | MouseDown | OtherEvent(name: string)

  /** An event being dispatched; handlers may mark it as stopped. */
  class Event {
    const kind: EventKind
    var propagationStopped: bool

    constructor (kind: EventKind)
      ensures this.kind == kind && !propagationStopped
    {
      this.kind := kind;
      propagationStopped := false;
    }
  }

  /** The event kinds for which the panel registers a stop-propagation handler. */
  predicate Intercepted(kind: EventKind)
  {
    kind.DragUpdated? || kind.Wheel? || kind.MouseDown?
  }

  class Blackboard {
    const root: Element
    const contentContainer: Element
    const titleLabel: Label
    const subTitleLabel: Label
    var scrollView: Element?
    var scrollableFlag: bool
    var resizeRestriction: ResizeRestriction
    var position: Style<Position>
    var width: Style<real>
    var height: Style<real>
    var classList: set<string>
    var addItemRequested: Callback?

    /** The objects are distinct, so moving one never moves another. */
    ghost predicate Wellformed()
      reads this
    {
      root != contentContainer && titleLabel != subTitleLabel &&
      (scrollView != null ==> scrollView != root && scrollView != contentContainer)
    }

    /** Where `e` sits relative to the panel's own elements. */
    function HostOf(e: Element?): Host
      reads this
    {
      if e == null then Detached
      else if e == root then Root
      else if e == scrollView then ScrollView
      else Elsewhere
    }

    /** The abstract layout state of the panel. */
    ghost function State(): PanelState
      reads this, contentContainer, scrollView
    {
      PanelState(
        scrollableFlag, scrollView != null,
        HostOf(contentContainer.parent),
        if scrollView == null then Detached else HostOf(scrollView.parent),
        resizeRestriction, position, width, height, classList)
    }

    ghost predicate Valid()
      reads this, contentContainer, scrollView
    {
      Wellformed() && Inv(State())
    }

    /**
     * Builds the panel from its template and runs `scrollable = false` once.
     * The template's root region, content container and labels are fresh
     * elements, with the content container placed under the root region;
     * `inherited` is the resize restriction the base element leaves.
     */
    constructor (inherited: ResizeRestriction)
      ensures Valid()
      ensures State() == Constructed(inherited)
      ensures scrollView == null && addItemRequested == null
      ensures fresh(root) && fresh(contentContainer)
      ensures fresh(titleLabel) && fresh(subTitleLabel)
    {
      var r := new Element();
      var c := new Element();
      r.Add(c);
      root := r;
      contentContainer := c;
      titleLabel := new Label();
      subTitleLabel := new Label();
      scrollView := null;
      scrollableFlag := true;
      resizeRestriction := inherited;
      position := Unset;
      width := Unset;
      height := Unset;
      addItemRequested := null;
      classList := {};
      new;
      ClearClassList();
      AddToClassList("blackboard");
      assert State() == Initial(inherited);
      SetScrollable(false, Rect(Invalid, Invalid));
    }

    /**
     * The `scrollable` getter. On a consistent panel its answer says where the
     * content container hangs and whether the "scrollable" class is present.
     */
    function Scrollable(): (b: bool)
      reads this, contentContainer, scrollView
      ensures Valid() ==> (b <==> State().contentParent == ScrollView)
      ensures Valid() ==> (b <==> ScrollableClass in classList)
    {
      scrollableFlag
    }

    /**
     * `scrollable = value`, with `layout` the panel's measured rectangle at the
     * time. The scroll view is allocated on the first change to `true` and the
     * same object is reused afterwards.
     */
    method SetScrollable(value: bool, layout: Rect)
      requires Wellformed()
      modifies this, contentContainer, scrollView
      ensures Wellformed()
      ensures State() == Transition(old(State()), value, layout)
      ensures Scrollable() == value
      ensures old(Valid()) ==> Valid()
      ensures old(scrollView) != null ==> scrollView == old(scrollView)
      ensures old(scrollView) == null && scrollView != null ==> fresh(scrollView)
      ensures addItemRequested == old(addItemRequested)
      ensures unchanged(titleLabel, subTitleLabel)
    {
      ghost var before := State();
      if Inv(before) {
        TransitionKeepsInv(before, value, layout);
      }
      if scrollableFlag == value {
        return;
      }
      scrollableFlag := value;
      position := Set(Absolute);
      if scrollableFlag {
        if scrollView == null {
          scrollView := new Element();
        }
        contentContainer.RemoveFromHierarchy();
        root.Add(scrollView);
        scrollView.Add(contentContainer);
        resizeRestriction := None;
        if layout.width.Invalid? || layout.height.Invalid? {
          width := Set(SizeOr(layout.width, DefaultWidth));
          height := Set(SizeOr(layout.height, DefaultHeight));
        }
        AddToClassList(ScrollableClass);
      } else {
        if scrollView != null {
          resizeRestriction := FlexDirection;
          scrollView.RemoveFromHierarchy();
          contentContainer.RemoveFromHierarchy();
          root.Add(contentContainer);
        }
        RemoveFromClassList(ScrollableClass);
      }
    }

    method AddToClassList(c: string)
      modifies this`classList
      ensures classList == old(classList) + {c}
    {
      classList := classList + {c};
    }

    method RemoveFromClassList(c: string)
      modifies this`classList
      ensures classList == old(classList) - {c}
    {
      classList := classList - {c};
    }

    method ClearClassList()
      modifies this`classList
      ensures classList == {}
    {
      classList := {};
    }

    function Title(): string
      reads this, titleLabel
    {
      titleLabel.text
    }

    function SubTitle(): string
      reads this, subTitleLabel
    {
      subTitleLabel.text
    }

    /** `title = value`: the title reads back as `value`; the subtitle is untouched. */
    method SetTitle(value: string)
      requires Wellformed()
      modifies titleLabel
      ensures Title() == value && SubTitle() == old(SubTitle())
    {
      titleLabel.text := value;
    }

    /** `subTitle = value`: the subtitle reads back as `value`; the title is untouched. */
    method SetSubTitle(value: string)
      requires Wellformed()
      modifies subTitleLabel
      ensures SubTitle() == value && Title() == old(Title())
    {
      subTitleLabel.text := value;
    }

    /**
     * The add button's click handler: the calls it makes into the owner's code.
     * It invokes `addItemRequested(this)` exactly once when the callback is set
     * and nothing when it is null.
     */
    method OnAddButtonClicked() returns (calls: seq<Invocation>)
      ensures |calls| == if addItemRequested == null then 0 else 1
      ensures forall k :: 0 <= k < |calls| ==>
        calls[k].callback == addItemRequested && calls[k].sender == this
    {
      calls := [];
      if addItemRequested != null {
        calls := calls + [AddItemRequested(addItemRequested, this)];
      }
    }

    /**
     * The handlers the panel registers for drag-updated, wheel and mouse-down
     * events: each stops propagation whatever the panel's state; other events
     * are left as they arrive.
     */
    method HandleEvent(e: Event)
      modifies e
      ensures e.propagationStopped == (old(e.propagationStopped) || Intercepted(e.kind))
    {
      match e.kind {
        case DragUpdated => e.propagationStopped := true;
        case Wheel => e.propagationStopped := true;
        case MouseDown => e.propagationStopped := true;
        case OtherEvent(_) =>
      }
    }
  }
}
