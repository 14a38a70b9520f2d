/** RAMReel's collection view wrapper: the data it shows, the viewport it
    scrolls, the delegate that snaps that viewport to item boundaries, the data
    source that reports the wrapper's rows, and the pass-through of layout
    attributes.

    UIKit is not modelled. The viewport keeps only what the snapping and
    centering read and write; `reloadData` followed by `layoutIfNeeded` becomes
    "the viewport's item count is what the data source reports"; the 0.1 s
    animated offset change becomes an immediate assignment; a cell is the data
    item it was configured with.
 */
module ReelWrapper {
  import opened ScrollSnap

  datatype Option<T> = None | Some(value: T)

  /** A cell configured with one data item; the rest of the cell is opaque. */
  datatype Cell<T> = Cell(item: T)

  /** An element of the array a layout returns: either a layout-attributes
      object or some other object, on which a cast to attributes fails. */
  datatype LayoutObject<A> = Attributes(attributes: A) | OtherObject

  /** The cast `as? [UICollectionViewLayoutAttributes]`: it succeeds exactly when
      every element is an attributes object, and then keeps them all in order. */
  function CastToAttributes<A>(objects: seq<LayoutObject<A>>): (r: Option<seq<A>>)
    ensures r.Some? <==> forall i :: 0 <= i < |objects| ==> objects[i].Attributes?
    ensures r.Some? ==> |r.value| == |objects|
    ensures r.Some? ==> forall i :: 0 <= i < |objects| ==> r.value[i] == objects[i].attributes
  {
    if objects == [] then Some([])
    else match objects[0]
      case OtherObject => None
      case Attributes(a) =>
        match CastToAttributes(objects[1..])
        case None => None
        case Some(rest) => Some([a] + rest)
  }

  /** `cellAttributes`: the layout's attributes for a rectangle, or no attributes
      at all when the layout answers nil or the cast fails. `reply` is the
      layout's answer for the rectangle asked about. */
  function CellAttributes<A>(reply: Option<seq<LayoutObject<A>>>): (r: seq<A>)
    ensures reply.None? ==> r == []
    ensures reply.Some? && (forall i :: 0 <= i < |reply.value| ==> reply.value[i].Attributes?) ==>
              |r| == |reply.value| && forall i :: 0 <= i < |r| ==> r[i] == reply.value[i].attributes
    ensures reply.Some? && (exists i :: 0 <= i < |reply.value| && reply.value[i].OtherObject?) ==> r == []
  {
    match reply
    case None => []
    case Some(objects) =>
      match CastToAttributes(objects)
      case None => []
      case Some(attributes) => attributes
  }

  /** The part of the scroll view that snapping and centering use. */
  class ScrollView {
    var offsetX: real
    var offsetY: real
    var insetTop: real
    /** The number of items the view shows after its last reload. */
    var itemCount: nat

    constructor (offsetY: real, insetTop: real)
      ensures this.offsetX == 0.0 && this.offsetY == offsetY
      ensures this.insetTop == insetTop && itemCount == 0
    {
      this.offsetX := 0.0;
      this.offsetY := offsetY;
      this.insetTop := insetTop;
      this.itemCount := 0;
    }
  }

  /** `ScrollViewDelegate`: snaps a scroll view to the item grid. */
  class ScrollViewDelegate {
    const itemHeight: real

    predicate Valid() {
      itemHeight > 0.0
    }

    constructor (itemHeight: real)
      requires itemHeight > 0.0
      ensures Valid() && this.itemHeight == itemHeight
    {
      this.itemHeight := itemHeight;
    }

    /** Moves the viewport to `(0, round((y + inset) / h) * h - inset)`: the
        grid position nearest to where it was, never more than half an item away. */
    method AdjustScroll(scrollView: ScrollView)
      requires Valid()
      modifies scrollView`offsetX, scrollView`offsetY
      ensures scrollView.offsetX == 0.0
      ensures scrollView.offsetY == SnapTarget(old(scrollView.offsetY), scrollView.insetTop, itemHeight)
      ensures OnGrid(scrollView.offsetY, scrollView.insetTop, itemHeight)
      ensures Abs(scrollView.offsetY - old(scrollView.offsetY)) <= itemHeight / 2.0
    {
      var inset := scrollView.insetTop;
      var currentOffsetY := scrollView.offsetY + inset;
      var itemIndex := RoundHalfAway(currentOffsetY / itemHeight);
      var adjustedOffsetY := itemIndex as real * itemHeight - inset;
      SnapOnGrid(scrollView.offsetY, inset, itemHeight);
      SnapWithinHalfItem(scrollView.offsetY, inset, itemHeight);
      scrollView.offsetX, scrollView.offsetY := 0.0, adjustedOffsetY;
    }

    /** Deceleration end always snaps. */
    method DidEndDecelerating(scrollView: ScrollView)
      requires Valid()
      modifies scrollView`offsetX, scrollView`offsetY
      ensures scrollView.offsetX == 0.0
      ensures scrollView.offsetY == SnapTarget(old(scrollView.offsetY), scrollView.insetTop, itemHeight)
    {
      AdjustScroll(scrollView);
    }

    /** Drag end snaps only when no deceleration follows; otherwise the snap
        waits for the deceleration to end. */
    method DidEndDragging(scrollView: ScrollView, decelerate: bool)
      requires Valid()
      modifies scrollView`offsetX, scrollView`offsetY
      ensures decelerate ==> scrollView.offsetX == old(scrollView.offsetX) && scrollView.offsetY == old(scrollView.offsetY)
      ensures !decelerate ==> (scrollView.offsetX == 0.0 &&
                               scrollView.offsetY == SnapTarget(old(scrollView.offsetY), scrollView.insetTop, itemHeight))
    {
      if !decelerate {
        AdjustScroll(scrollView);
      }
    }
  }

  /** `CollectionViewDataSource`: answers the view's questions by asking the
      wrapper, which it refers to without owning. */
  class CollectionViewDataSource<T> {
    var wrapper: CollectionViewWrapper?<T>

    constructor ()
      ensures wrapper == null
    {
      wrapper := null;
    }

    /** `numberOfItemsInSection`: the wrapper's number of cells. */
    function NumberOfItems(): (n: nat)
      requires wrapper != null
      reads this, wrapper
      ensures n == |wrapper.data|
    {
      wrapper.NumberOfCells()
    }

    /** `cellForItemAtIndexPath`: the wrapper's cell for the row. */
    function CellForItem(row: int): (c: Cell<T>)
      requires wrapper != null && 0 <= row < NumberOfItems()
      reads this, wrapper
      ensures c.item == wrapper.data[row]
    {
      wrapper.CreateCell(row)
    }
  }

  /** `CollectionViewWrapper`: owns the data, the viewport's delegate and data
      source, and recentres the viewport whenever the data is replaced. */
  class CollectionViewWrapper<T> {
    var data: seq<T>
    const collectionView: ScrollView
    const dataSource: CollectionViewDataSource<T>
    const scrollDelegate: ScrollViewDelegate

    ghost predicate Valid()
      reads this, dataSource
    {
      scrollDelegate.Valid() && dataSource.wrapper == this
    }

    /** The layout's fixed item height, which the delegate snaps by. */
    function ItemHeight(): real {
      scrollDelegate.itemHeight
    }

    constructor (collectionView: ScrollView, itemHeight: real)
      requires itemHeight > 0.0
      ensures Valid()
      ensures this.collectionView == collectionView && ItemHeight() == itemHeight && data == []
      ensures fresh(dataSource) && fresh(scrollDelegate)
    {
      this.collectionView := collectionView;
      data := [];
      dataSource := new CollectionViewDataSource();
      scrollDelegate := new ScrollViewDelegate(itemHeight);
      new;
      dataSource.wrapper := this;
    }

    /** `numberOfCells`: one cell per data item. */
    function NumberOfCells(): (n: nat)
      reads this
      ensures n == |data|
    {
      |data|
    }

    /** `createCell`: a cell configured with the row's data item; the row must
        be one the view was told about. */
    function CreateCell(row: int): (c: Cell<T>)
      requires 0 <= row < NumberOfCells()
      reads this
      ensures c.item == data[row]
    {
      Cell(data[row])
    }

    /** Assigning `data`: its `didSet` observer runs `updateOffset`. */
    method SetData(newData: seq<T>)
      requires Valid()
      modifies this`data, collectionView`offsetX, collectionView`offsetY, collectionView`itemCount
      ensures Valid() && data == newData
      ensures collectionView.itemCount == |newData|
      ensures |newData| > 0 ==> (collectionView.offsetX == 0.0 &&
                                 collectionView.offsetY == MiddleOffset(|newData|, collectionView.insetTop, ItemHeight()))
      ensures |newData| == 0 ==> (collectionView.offsetX == old(collectionView.offsetX) &&
                                  collectionView.offsetY == old(collectionView.offsetY))
    {
      data := newData;
      UpdateOffset();
    }

    /** `processData`: replaces the data, so the viewport is recentred. */
    method ProcessData(newData: seq<T>)
      requires Valid()
      modifies this`data, collectionView`offsetX, collectionView`offsetY, collectionView`itemCount
      ensures Valid() && data == newData
      ensures collectionView.itemCount == |newData|
      ensures |newData| > 0 ==> (collectionView.offsetX == 0.0 &&
                                 collectionView.offsetY == MiddleOffset(|newData|, collectionView.insetTop, ItemHeight()))
      ensures |newData| == 0 ==> (collectionView.offsetX == old(collectionView.offsetX) &&
                                  collectionView.offsetY == old(collectionView.offsetY))
    {
      SetData(newData);
    }

    /** `updateOffset`: reloads the view, then, when there is at least one item,
        puts the middle item at the top inset and lets the delegate snap, which
        leaves it there. With no items the offset is not touched. */
    method UpdateOffset()
      requires Valid()
      modifies collectionView`offsetX, collectionView`offsetY, collectionView`itemCount
      ensures collectionView.itemCount == |data|
      ensures |data| > 0 ==> (collectionView.offsetX == 0.0 &&
                              collectionView.offsetY == MiddleOffset(|data|, collectionView.insetTop, ItemHeight()) &&
                              SnapIndex(collectionView.offsetY, collectionView.insetTop, ItemHeight()) == |data| / 2)
      ensures |data| == 0 ==> (collectionView.offsetX == old(collectionView.offsetX) &&
                               collectionView.offsetY == old(collectionView.offsetY))
    {
      collectionView.itemCount := dataSource.NumberOfItems();
      var number := collectionView.itemCount;
      if number > 0 {
        var inset := collectionView.insetTop;
        var item := (number / 2) as real;
        var itemHeight := ItemHeight();
        collectionView.offsetX, collectionView.offsetY := 0.0, item * itemHeight - inset;
        assert collectionView.offsetY == MiddleOffset(number, inset, itemHeight);
        SnapKeepsMiddle(number, inset, itemHeight);
        scrollDelegate.AdjustScroll(collectionView);
      }
    }

    /** `adjustScroll`: snap only, no reload and no recentring. */
    method AdjustScroll()
      requires Valid()
      modifies collectionView`offsetX, collectionView`offsetY
      ensures collectionView.offsetX == 0.0
      ensures collectionView.offsetY == SnapTarget(old(collectionView.offsetY), collectionView.insetTop, ItemHeight())
    {
      scrollDelegate.AdjustScroll(collectionView);
    }

    /** The device-orientation callback is `updateOffset`. */
    method OrientationDidChange()
      requires Valid()
      modifies collectionView`offsetX, collectionView`offsetY, collectionView`itemCount
      ensures collectionView.itemCount == |data|
      ensures |data| > 0 ==> (collectionView.offsetX == 0.0 &&
                              collectionView.offsetY == MiddleOffset(|data|, collectionView.insetTop, ItemHeight()))
      ensures |data| == 0 ==> (collectionView.offsetX == old(collectionView.offsetX) &&
                               collectionView.offsetY == old(collectionView.offsetY))
    {
      UpdateOffset();
    }

    /** The keyboard-frame callback is `adjustScroll`. */
    method KeyboardWillChangeFrame()
      requires Valid()
      modifies collectionView`offsetX, collectionView`offsetY
      ensures collectionView.offsetX == 0.0
      ensures collectionView.offsetY == SnapTarget(old(collectionView.offsetY), collectionView.insetTop, ItemHeight())
    {
      AdjustScroll();
    }
  }

  /** Replacing the data with seven items, under an inset of 10 and items 50
      high, leaves the viewport at offset 140; replacing it with none leaves
      the offset alone. */
  method CenteringExample()
  {
    var view := new ScrollView(33.0, 10.0);
    var wrapper := new CollectionViewWrapper<int>(view, 50.0);
    wrapper.ProcessData([]);
    assert view.offsetY == 33.0;
    wrapper.ProcessData([1, 2, 3, 4, 5, 6, 7]);
    MiddleOffsetOfSeven();
    assert view.offsetY == 140.0;
    assert wrapper.dataSource.CellForItem(6).item == 7;
  }
}
