# RAMReel scroll snapping and centering, in Dafny

RAMReel is a picker-style list control for iOS. `CollectionViewWrapper` holds the
data the control shows and recentres the list on the middle item whenever the
data is replaced. `ScrollViewDelegate` snaps the scroll view to item boundaries
when a drag or a deceleration ends. This project models that arithmetic and the
small amount of state around it, and proves what the code promises about it.

- `scroll_snap.dfy`, module `ScrollSnap`: pure arithmetic.
  - Swift's `round`, which sends halfway cases away from zero.
  - The snap target `round((y + inset) / h) * h - inset`.
  - The middle row `count / 2` and its offset `(count / 2) * h - inset`.
  - Lemmas: the grid invariant, idempotence, nearest item, ties, and that the
    snap after centering keeps the middle row.
- `reel_wrapper.dfy`, module `ReelWrapper`:
  - The classes `ScrollView` (the viewport state that is read and written),
    `ScrollViewDelegate`, `CollectionViewDataSource` and `CollectionViewWrapper`,
    with methods that change the viewport in place.
  - The nil-or-failed-cast handling of `cellAttributes`, as functions.

CGFloat is modelled as exact `real`. The item height comes from the layout and is
a constructor argument that must be positive. The code has no guard for a zero
height: dividing by it and converting the result with `Int(...)` traps.

Facts about the code that the model follows:
- Swift's `round` (line 157) sends halfway cases away from zero. So a tie at
  -0.5 items goes to index -1, not 0 (`ScrollSnap.SnapTieAwayFromZero`).
- The keyboard callback (line 68) is `adjustScroll`, which snaps without
  recentring. Only the rotation callback (line 67) runs `updateOffset`.
- `topBorder` is the constant `0` (line 160), and `bottomBorder` reads
  `scrollView.bounds.height` (line 161). Neither is used, so nothing is clamped.

`ReelWrapper.CenteringExample` is an example run of `ProcessData` with empty
and then seven-item data. It does not model any source function.

## Model

| member | source | states |
|---|---|---|
| `ScrollSnap.RoundHalfAway` | RAMReel/Framework/CollectionViewWrapper.swift:157 | the result is within half a unit of the argument; at exactly half a unit it is the neighbour farther from zero |
| `ScrollSnap.RoundHalfAwayUnique` | RAMReel/Framework/CollectionViewWrapper.swift:157 | only one integer meets that reference definition, so it determines `round` completely |
| `ScrollSnap.RoundHalfAwayOdd` | RAMReel/Framework/CollectionViewWrapper.swift:157 | `round(-x) == -round(x)`: ties are symmetric about zero |
| `ScrollSnap.RoundHalfAwayIntegral` | RAMReel/Framework/CollectionViewWrapper.swift:157 | a whole number rounds to itself |
| `ScrollSnap.RoundHalfAwayNearest` | RAMReel/Framework/CollectionViewWrapper.swift:157 | no integer is closer to the argument than its rounding |
| `ScrollSnap.GridOffset` | RAMReel/Framework/CollectionViewWrapper.swift:111-113 | item `k`'s offset `k * itemHeight - inset`, whose fractional item position `(offset + inset) / itemHeight` is exactly `k` |
| `ScrollSnap.SnapIndex` | RAMReel/Framework/CollectionViewWrapper.swift:155-157 | the index `round((y + inset) / itemHeight)`: the item position nearest the offset, with ties away from zero |
| `ScrollSnap.SnapTarget` | RAMReel/Framework/CollectionViewWrapper.swift:156-158 | the adjusted offset `itemIndex * itemHeight - inset`, which lies exactly on row `SnapIndex` |
| `ScrollSnap.SnapOnGrid` | RAMReel/Framework/CollectionViewWrapper.swift:155-158 | grid invariant: the snapped offset is `k * itemHeight - inset` for some integer `k` |
| `ScrollSnap.SnapFixesGridPoints` | RAMReel/Framework/CollectionViewWrapper.swift:155-158 | an offset already on the grid is left unchanged by the snap |
| `ScrollSnap.SnapIdempotent` | RAMReel/Framework/CollectionViewWrapper.swift:155-158 | snapping an offset the snap just produced gives the same offset |
| `ScrollSnap.SnapWithinHalfItem` | RAMReel/Framework/CollectionViewWrapper.swift:156-158 | the snap moves the offset by at most `itemHeight / 2` |
| `ScrollSnap.SnapIsNearest` | RAMReel/Framework/CollectionViewWrapper.swift:156-158 | no item's grid position is closer to the input offset than the snapped one |
| `ScrollSnap.SnapTieAwayFromZero` | RAMReel/Framework/CollectionViewWrapper.swift:156-157 | an offset halfway between items `j` and `j + 1` goes to `j + 1` when `j >= 0` and to `j` otherwise |
| `ScrollSnap.MiddleIndex` | RAMReel/Framework/CollectionViewWrapper.swift:108-111 | `count / 2` is a valid row with as many rows before it as after it, or one more before it when the count is even |
| `ScrollSnap.MiddleOffset` | RAMReel/Framework/CollectionViewWrapper.swift:110-113 | the centring offset `(count / 2) * itemHeight - inset`, which lies exactly on row `count / 2` |
| `ScrollSnap.SnapKeepsMiddle` | RAMReel/Framework/CollectionViewWrapper.swift:108-117 | the snap after centering leaves the offset at `(count / 2) * itemHeight - inset`, with index `count / 2` |
| `ScrollSnap.MiddleOffsetOfSeven` | RAMReel/Framework/CollectionViewWrapper.swift:108-117 | 7 items, height 50 and inset 10 centre on row 3 at offset 140, and the snap keeps 140 |
| `ReelWrapper.CastToAttributes` | RAMReel/Framework/CollectionViewWrapper.swift:93-94 | the cast succeeds exactly when every element is an attributes object; it then keeps them all, in order |
| `ReelWrapper.CellAttributes` | RAMReel/Framework/CollectionViewWrapper.swift:90-100 | with a nil reply the result is `[]`; with all attributes, those attributes; with any other object, `[]`; it never fails |
| `ReelWrapper.ScrollView.constructor` | RAMReel/Framework/CollectionViewWrapper.swift:155-156 | the viewport state that is read and written: `contentOffset` (x and y) and `contentInset.top`, plus the item count after a reload; a new view starts at x = 0 with no items |
| `ReelWrapper.ScrollViewDelegate.constructor` | RAMReel/Framework/CollectionViewWrapper.swift:147-152 | the delegate keeps the positive item height it is given |
| `ReelWrapper.ScrollViewDelegate.AdjustScroll` | RAMReel/Framework/CollectionViewWrapper.swift:154-167 | the new offset is `(0, round((y + inset) / h) * h - inset)`; it is on the grid, at most half an item from the old offset, and nothing is clamped |
| `ReelWrapper.ScrollViewDelegate.DidEndDecelerating` | RAMReel/Framework/CollectionViewWrapper.swift:169-171 | deceleration end always applies the snap |
| `ReelWrapper.ScrollViewDelegate.DidEndDragging` | RAMReel/Framework/CollectionViewWrapper.swift:173-177 | drag end with `decelerate` leaves the offset unchanged; without it, the snap is applied |
| `ReelWrapper.CollectionViewDataSource.NumberOfItems` | RAMReel/Framework/CollectionViewWrapper.swift:131-135 | the item count reported to the view equals the wrapper's `data.count` |
| `ReelWrapper.CollectionViewDataSource.CellForItem` | RAMReel/Framework/CollectionViewWrapper.swift:137-141 | only rows below the reported count can be asked for; the cell holds that row's data item |
| `ReelWrapper.CollectionViewWrapper.constructor` | RAMReel/Framework/CollectionViewWrapper.swift:50-69 | the wrapper starts with no data; its data source refers back to it; its delegate snaps by the layout's item height |
| `ReelWrapper.CollectionViewWrapper.NumberOfCells` | RAMReel/Framework/CollectionViewWrapper.swift:86-88 | the number of cells is `data.count` |
| `ReelWrapper.CollectionViewWrapper.CreateCell` | RAMReel/Framework/CollectionViewWrapper.swift:75-84 | defined only for `0 <= row < data.count`; configures the cell with `data[row]` |
| `ReelWrapper.CollectionViewWrapper.SetData` | RAMReel/Framework/CollectionViewWrapper.swift:30-34 | every assignment of `data` runs `updateOffset`: non-empty data is centred, and empty data leaves the offset unchanged |
| `ReelWrapper.CollectionViewWrapper.ProcessData` | RAMReel/Framework/CollectionViewWrapper.swift:36-38 | `processData` assigns `data`, with the same effect on the viewport |
| `ReelWrapper.CollectionViewWrapper.UpdateOffset` | RAMReel/Framework/CollectionViewWrapper.swift:104-119 | after the reload the item count is `data.count`; if it is positive the offset ends at `(0, (count / 2) * h - inset)` with the snap index at `count / 2`; if it is zero the offset is unchanged |
| `ReelWrapper.CollectionViewWrapper.AdjustScroll` | RAMReel/Framework/CollectionViewWrapper.swift:121-123 | snaps the viewport with no reload and no recentring |
| `ReelWrapper.CollectionViewWrapper.OrientationDidChange` | RAMReel/Framework/CollectionViewWrapper.swift:67 | the rotation callback reloads and recentres on the middle row |
| `ReelWrapper.CollectionViewWrapper.KeyboardWillChangeFrame` | RAMReel/Framework/CollectionViewWrapper.swift:68 | the keyboard callback only snaps |

## Left out

- UIKit calls (`registerClass`, `dequeueReusableCellWithReuseIdentifier`, `configureCell`): these are foreign framework calls. A cell is modelled as the data item it is configured with.
- `reloadData` and `layoutIfNeeded`: these are modelled only as "the viewport's item count becomes what the data source reports".
- `UIView.animateWithDuration(0.1)`: animation timing is platform behaviour. The offset change is an immediate assignment.
- `NotificationCallbackWrapper`, `NSNotificationCenter` observer registration and removal, and both `deinit`s: this is OS event plumbing. The two callbacks are the methods `OrientationDidChange` and `KeyboardWillChangeFrame`.
- `RAMCollectionViewLayout`, `FlowDataDestination` and `ConfigurableCell` are not part of this model. The item height is a positive constructor argument. The layout's answer to `layoutAttributesForElementsInRect` is an argument of `CellAttributes`.
- IEEE floating-point rounding of CGFloat, and the trap of `Int(...)` on NaN, infinities or out-of-range values: the model uses exact real arithmetic and unbounded integers.
- `scrollView.bounds.height`, `topBorder` and `bottomBorder`: these are computed and never used, so the viewport model has no bounds height.
- The `weak` qualifier of the data source's back-reference is a memory-management detail. The reference is modelled as a plain non-owning field.
