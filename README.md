# Blackboard layout mode

The GraphView `Blackboard` is a side panel that floats over a node-graph
canvas. This project models the panel's layout state machine and proves
properties of it. The panel switches between two modes:

- fixed mode: the content container sits directly under the root region, and
  once a scroll view exists only the width may be resized;
- scrollable mode: the content container sits inside a lazily created
  `ScrollView`, and both axes may be resized.

The model also covers the rest of the constructor's wiring: the add button's
click guard, the `title`/`subTitle` accessors, and the handlers that stop
drag-updated, wheel and mouse-down events from reaching the canvas.

Two modules:

- `LayoutMode` (`layout_mode.dfy`) holds the abstract facts the setter
  touches (`PanelState`), the transition one assignment `scrollable = value`
  performs (`Transition`), its iteration over a sequence of assignments
  (`Run`), the consistency invariant (`Inv`), and the lemmas about them.
- `Panel` (`blackboard.dfy`) holds the class `Blackboard`. It holds the fields
  that the setter, the accessors and the click guard use, including the state
  the C# class inherits from its element base (resize restriction, inline
  styles, class list). Its elements are objects with parent pointers, and
  `SetScrollable` rearranges them step by step with `RemoveFromHierarchy`/`Add`
  as the setter does. The setter is proved to perform exactly
  `LayoutMode.Transition` on the abstract state, to allocate the scroll view
  only once and to reuse it afterwards. The constructor starts from the field
  initialiser's `true` and runs `scrollable = false`, as the C# constructor does.

Assumptions about code outside the model:

- The UXML template places the content container under the root region.
- The measured layout (`layout.width`/`layout.height`, NaN before the first
  layout pass) belongs to the layout engine. It is a parameter of
  `SetScrollable`, and NaN is the `Invalid` dimension.
- The resize restriction the `GraphElement` base leaves is a constructor
  parameter (`inherited`). The base element's inline styles start unset.

Two behaviours of the setter are worth noting:

- A change to `false` sets `resizeRestriction = FlexDirection` only when a
  scroll view exists. So, until the panel has first been made scrollable, fixed
  mode keeps the inherited restriction. `RestrictionBeforeFirstScroll` states
  this.
- When only the height is NaN, the setter still writes `style.width` (from the
  measured width), and likewise for the height. The defaults replace only the
  NaN dimensions, but both style entries are assigned. `DefaultSizing` states
  this.

## Model

| member | source | states |
|---|---|---|
| Panel.Blackboard.SetScrollable | Modules/GraphViewEditor/Elements/Blackboard/Blackboard.cs:44-93 | The setter's effect on the flag, scroll view, parents, restriction, position, size styles and class list is exactly one `Transition`. The getter then reads back the value assigned. It keeps the panel consistent. A scroll view that already exists is reused; one that is created is fresh. The labels and callback are untouched. |
| Panel.Blackboard.constructor | Modules/GraphViewEditor/Elements/Blackboard/Blackboard.cs:95-131 | Starting from the flag `true`, with the content container under the root, the constructor clears the class list, adds "blackboard" and runs `scrollable = false`. The result is the consistent `Constructed` state: fixed mode, no scroll view, no callback. The root, content container and both labels are fresh, so callers may set the title and subtitle. |
| LayoutMode.Transition | Modules/GraphViewEditor/Elements/Blackboard/Blackboard.cs:52-91 | One assignment always leaves the flag equal to the value assigned. A real change sets position Absolute, and assigning the current value changes nothing. An existing scroll view survives every assignment. |
| LayoutMode.Initial | Modules/GraphViewEditor/Elements/Blackboard/Blackboard.cs:23 | Before the constructor's assignment, the flag is `true` (field initialiser), no scroll view exists, and the content container is under the root (the template's placement). This state is not consistent, which is why the constructor runs the setter. |
| Panel.Blackboard.Scrollable | Modules/GraphViewEditor/Elements/Blackboard/Blackboard.cs:46-49 | On a consistent panel, the getter answers `true` exactly when the content container hangs under the scroll view, and exactly when the "scrollable" class is present. `SetScrollable` ensures it reads back the value assigned. |
| LayoutMode.Constructed | Modules/GraphViewEditor/Elements/Blackboard/Blackboard.cs:126-131 | After construction the panel is consistent and fixed. It has no scroll view, its content container is under the root, its classes are {"blackboard"}, and it keeps the inherited resize restriction. |
| LayoutMode.SameValueIsNoOp | Modules/GraphViewEditor/Elements/Blackboard/Blackboard.cs:52-53 | Assigning the current value changes nothing. |
| LayoutMode.EnterScrollable | Modules/GraphViewEditor/Elements/Blackboard/Blackboard.cs:55-79 | After a change to `true`: the content container's parent is the scroll view; the scroll view's parent is the root; the restriction is `None`; position is Absolute; "scrollable" is added to the classes. |
| LayoutMode.LeaveScrollable | Modules/GraphViewEditor/Elements/Blackboard/Blackboard.cs:80-91 | A change to `false` always removes "scrollable" and sets position Absolute. With a scroll view, it locks the restriction to `FlexDirection`, detaches the scroll view and puts the content container under the root. Without one, the parents and restriction are untouched. The size is never touched. |
| LayoutMode.DefaultSizing | Modules/GraphViewEditor/Elements/Blackboard/Blackboard.cs:71-76 | On a change to `true` with either dimension NaN, the style width is 200 if the width is NaN and the measured width otherwise; likewise the height with 400. With both dimensions measured, the styles are untouched. |
| LayoutMode.DefaultSizingPerAxis | Modules/GraphViewEditor/Elements/Blackboard/Blackboard.cs:72-76 | A NaN width with a measured height of 350 gives the style 200 x 350: the two axes default independently. |
| LayoutMode.FixedKeepsSize | Modules/GraphViewEditor/Elements/Blackboard/Blackboard.cs:80-91 | A change to `false` never writes the width or height style. |
| LayoutMode.ScrollViewCreatedOnlyOnEnter | Modules/GraphViewEditor/Elements/Blackboard/Blackboard.cs:58-63 | A scroll view comes into existence only on a change to `true`. No assignment removes an existing one. |
| LayoutMode.TransitionKeepsInv | Modules/GraphViewEditor/Elements/Blackboard/Blackboard.cs:52-91 | Every assignment keeps the mode, the parents, the restriction and the class list consistent. |
| LayoutMode.ToggleTwiceRestoresHierarchy | Modules/GraphViewEditor/Elements/Blackboard/Blackboard.cs:55-91 | Fixed, then scrollable, then fixed again restores the parents and the class list. It keeps the scroll view for reuse and leaves the restriction at `FlexDirection`. |
| LayoutMode.RunKeepsInv | Modules/GraphViewEditor/Elements/Blackboard/Blackboard.cs:44-93 | Any sequence of assignments keeps the panel consistent. |
| LayoutMode.ScrollViewPersists | Modules/GraphViewEditor/Elements/Blackboard/Blackboard.cs:82-89 | Once a scroll view exists, it still exists after any further assignments. |
| LayoutMode.AtMostOneCreation | Modules/GraphViewEditor/Elements/Blackboard/Blackboard.cs:60-63 | Across any sequence of assignments, a scroll view is allocated at most once, and never once one exists. |
| LayoutMode.ContentHasOneParent | Modules/GraphViewEditor/Elements/Blackboard/Blackboard.cs:55-91 | From the constructed panel, after any sequence of assignments, the content container has exactly one parent. That parent is the scroll view if and only if the panel is scrollable, and the root otherwise. |
| LayoutMode.RestrictionBeforeFirstScroll | Modules/GraphViewEditor/Elements/Blackboard/Blackboard.cs:82-90 | From the constructed panel, while no scroll view exists, the panel stays fixed with the inherited restriction. Once a scroll view exists, fixed mode means `FlexDirection`. |
| LayoutMode.NoScrollViewKeepsRestriction | Modules/GraphViewEditor/Elements/Blackboard/Blackboard.cs:82-90 | Starting fixed, if no scroll view exists at the end of a sequence of assignments, the panel is still fixed with its original restriction. |
| Panel.Blackboard.SetTitle | Modules/GraphViewEditor/Elements/Blackboard/Blackboard.cs:30-34 | The title reads back as the value set, and the subtitle is untouched. |
| Panel.Blackboard.SetSubTitle | Modules/GraphViewEditor/Elements/Blackboard/Blackboard.cs:36-40 | The subtitle reads back as the value set, and the title is untouched. |
| Panel.Blackboard.OnAddButtonClicked | Modules/GraphViewEditor/Elements/Blackboard/Blackboard.cs:109-114 | A click invokes `addItemRequested(this)` exactly once when the callback is set, and nothing when it is null. |
| Panel.Blackboard.HandleEvent | Modules/GraphViewEditor/Elements/Blackboard/Blackboard.cs:135-152 | Drag-updated, wheel and mouse-down events always come out with propagation stopped, whatever the panel's state. Other events keep their flag. |

## Left out

- Template and style sheet loading (`EditorGUIUtility.Load`, `CloneTree`, `Q(...)`, `AddStyleSheetPath`): the loaded elements are fresh objects, and the template's initial label texts are not modelled.
- The main container and header wiring (`hierarchy.Add(m_MainContainer)`, the "mainContainer" and "blackboardHeader" classes): these are external elements that the layout mode never touches.
- `capabilities`, `cacheAsBitmap`, `style.overflow`, the `Dragger` and the `Resizer`: these are foreign GraphView collaborators, and this file holds no logic for them.
- The `ScrollView`'s mode (`VerticalAndHorizontal`) and its inner content viewport: in the model, the scroll view is the content container's parent.
- Child order inside the root region: the model records only each element's parent.
- Event dispatch and bubbling through ancestors: the model records only the event's propagation-stopped flag as the panel's handlers leave it.
- `moveItemRequested` and `editTextRequested`: they are declared but never invoked in this file.
- What the owner's callback does when invoked: `OnAddButtonClicked` returns the invocation rather than running foreign code.
- Float arithmetic: sizes are reals, and NaN is the `Invalid` dimension.
