/**
 * The parts of the host UI framework (.NET MAUI) that the popup reads and
 * rearranges: a snapshot of the visual tree's geometry, the views the popup
 * creates and the grids it adds them to, the page, and the single-use result
 * slot (a TaskCompletionSource) the caller awaits.
 */
module Host {

  datatype Option<T> = None | Some(value: T)

  /** A point in device-independent units (MAUI's Point). */
  datatype Point = Point(x: real, y: real) {
    function Plus(other: Point): Point {
      Point(x + other.x, y + other.y)
    }
  }

  /** Identifies a VisualElement of the host's visual tree. */
  type NodeId = nat

  /** A ScrollView also exposes how far its content is scrolled. */
  datatype ElementKind = Plain | ScrollView(scrollX: real, scrollY: real)

  /**
   * The geometry of one VisualElement: its position relative to its parent,
   * its size, and its parent when that parent is itself a VisualElement
   * (`None` when the parent is null or not a VisualElement, e.g. a Window).
   */
  datatype Element = Element(
    x: real, y: real,
    width: real, height: real,
    kind: ElementKind,
    parent: Option<NodeId>)

  /**
   * A snapshot of the visual tree's geometry. `depth` counts the
   * VisualElement ancestors of each node; it exists to make the parent
   * links of a well-formed tree finite and acyclic, as they are in MAUI.
   */
  datatype Tree = Tree(nodes: map<NodeId, Element>, depth: map<NodeId, nat>) {
    ghost predicate WellFormed() {
      && nodes.Keys <= depth.Keys
      && forall n {:trigger nodes[n]} | n in nodes ::
           match nodes[n].parent
           case None => depth[n] == 0
           case Some(p) => p in nodes && depth[n] == depth[p] + 1
    }
  }

  /** The kinds of view the popup creates or inspects. */
  datatype ViewKind = Grid | BoxView | Button | Border | ContentView | OtherView

  datatype LayoutOptions = Fill | Start | Center

  /** The size MAUI reports for a view that has not been laid out yet. */
  const Unmeasured: real := -1.0

  /**
   * A view of the page. For a Grid `children` are its children in paint
   * order; for a ContentView it is its single `Content`. Width and height are
   * written by the host's layout pass; translations and layout options by
   * the popup.
   */
  class View {
    const kind: ViewKind
    var children: seq<View>
    var width: real
    var height: real
    var translationX: real
    var translationY: real
    var horizontalOptions: LayoutOptions
    var verticalOptions: LayoutOptions

    constructor (kind: ViewKind)
      ensures this.kind == kind && children == []
      ensures width == Unmeasured && height == Unmeasured
      ensures translationX == 0.0 && translationY == 0.0
      ensures horizontalOptions == Fill && verticalOptions == Fill
    {
      this.kind := kind;
      children := [];
      width, height := Unmeasured, Unmeasured;
      translationX, translationY := 0.0, 0.0;
      horizontalOptions, verticalOptions := Fill, Fill;
    }

    /** Grid.Add: the child goes on top of the existing ones. */
    method Add(child: View)
      modifies this`children
      ensures children == old(children) + [child]
    {
      children := children + [child];
    }

    /** Grid.Remove: removes the first occurrence of `child`, if any. */
    method Remove(child: View)
      modifies this`children
      ensures children == RemoveFirst(old(children), child)
    {
      children := RemoveFirst(children, child);
    }
  }

  /** A ContentPage: its content view and its laid-out height. */
  class Page {
    var content: View?
    var height: real

    constructor (content: View?, height: real)
      ensures this.content == content && this.height == height
    {
      this.content := content;
      this.height := height;
    }
  }

  predicate IsGrid(v: View?) {
    v != null && v.kind == Grid
  }

  /** The page's content when it is a Grid: the only view of the page a popup adds to. */
  function LayeringGrid(page: Page): set<View>
    reads page
  {
    if IsGrid(page.content) then {page.content} else {}
  }

  /** The value a popup is closed with: null or some object. */
  datatype PopupResult = Null | Object(id: nat)

  datatype SlotState = Pending | Resolved(result: PopupResult)

  /** A TaskCompletionSource<object?>: resolved at most once. */
  class ResultSlot {
    var state: SlotState

    constructor ()
      ensures state == Pending
    {
      state := Pending;
    }

    /** SetResult throws when the slot is already resolved; callers must not let that happen. */
    method SetResult(result: PopupResult)
      requires state == Pending
      modifies this
      ensures state == Resolved(result)
    {
      state := Resolved(result);
    }
  }

  /** The PropertyName of a PropertyChanged event. */
  /**
   * The name a PropertyChanged event carries, as the handlers tell it apart:
   * "Width", "Height", or any other name.
   */
  datatype PropertyName = WidthProperty | HeightProperty | OtherProperty

  /** The position of the first occurrence of `x` in `s`. */
  function IndexOf<T(==)>(s: seq<T>, x: T): (i: nat)
    requires x in s
    ensures i < |s| && s[i] == x && x !in s[..i]
  {
    if s[0] == x then 0
    else
      assert s == [s[0]] + s[1..];
      var j := IndexOf(s[1..], x);
      assert s[..j + 1] == [s[0]] + s[1..][..j];
      j + 1
  }

  /**
   * `s` without the first occurrence of `x`; `s` itself when `x` does not
   * occur. This is what List.Remove does to a grid's children.
   */
  function RemoveFirst<T(==)>(s: seq<T>, x: T): (r: seq<T>)
    ensures x !in s ==> r == s
    ensures x in s ==> |r| == |s| - 1
  {
    if s == [] then []
    else if s[0] == x then s[1..]
    else [s[0]] + RemoveFirst(s[1..], x)
  }

  /** RemoveFirst cuts out exactly the element at IndexOf, and one copy of `x` from the multiset. */
  lemma {:induction false} RemoveFirstAtIndex<T>(s: seq<T>, x: T)
    requires x in s
    ensures RemoveFirst(s, x) == s[..IndexOf(s, x)] + s[IndexOf(s, x) + 1..]
    ensures multiset(RemoveFirst(s, x)) == multiset(s) - multiset{x}
  {
    assert s == [s[0]] + s[1..];
    if s[0] != x {
      RemoveFirstAtIndex(s[1..], x);
      var j := IndexOf(s[1..], x);
      assert s[..j + 1] == [s[0]] + s[1..][..j];
      assert s[j + 2..] == s[1..][j + 1..];
    }
  }

  /** Removing an element that was appended to a sequence not containing it gives the sequence back. */
  lemma {:induction false} RemoveFirstAppended<T>(s: seq<T>, x: T)
    requires x !in s
    ensures RemoveFirst(s + [x], x) == s
  {
    if s != [] {
      assert (s + [x])[1..] == s[1..] + [x];
      RemoveFirstAppended(s[1..], x);
    }
  }
}
