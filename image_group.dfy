/**
 * `ImageGroupController`: a grid of captioned images. Building the view stores the image
 * records in the value store one prefix at a time, sending one validation notification per
 * record; clicking an image hands its position and record to the click listener. The grid
 * cell spacing (`GridSpacingItemDecoration.getItemOffsets`) is plain integer arithmetic.
 */
module ImageGroup {
  import opened Wrappers
  import opened Values
  import Services
  import BaseLine

  // ---------------------------------------------------------------------------
  // Java integer division

  /** Java's `/` on `int`: the quotient rounded toward zero. */
  function JavaDiv(a: int, b: int): (q: int)
    requires b != 0
    ensures a >= 0 && b > 0 ==> q == a / b
    ensures a < 0 && b > 0 ==> q == -((-a) / b)
  {
    var n := if a < 0 then -a else a;
    var d := if b < 0 then -b else b;
    if (a < 0) != (b < 0) then -(n / d) else n / d
  }

  /** Java's `%` on `int`: the remainder takes the sign of the dividend. */
  function JavaRem(a: int, b: int): (r: int)
    requires b != 0
    ensures a >= 0 && b > 0 ==> r == a % b
    ensures a < 0 && b > 0 ==> r == -((-a) % b) && -b < r <= 0
  {
    a - b * JavaDiv(a, b)
  }

  // ---------------------------------------------------------------------------
  // Grid spacing

  /** `android.graphics.Rect`, the offsets of one grid cell. */
  datatype Rect = Rect(left: int, top: int, right: int, bottom: int)

  /**
   * `getItemOffsets`: the offsets of the cell at adapter `position` in a grid of `spanCount`
   * columns with `spacing` pixels between cells. A side the branch does not assign keeps
   * the value it had in `outRect`.
   */
  function ItemOffsets(outRect: Rect, position: int, spanCount: int, spacing: int, includeEdge: bool): (r: Rect)
    requires spanCount != 0
    ensures r.top == (if (position < spanCount) == includeEdge then spacing else outRect.top)
    ensures r.bottom == (if includeEdge then spacing else outRect.bottom)
  {
    var column := JavaRem(position, spanCount);
    if includeEdge then
      Rect(spacing - JavaDiv(column * spacing, spanCount),
           if position < spanCount then spacing else outRect.top,
           JavaDiv((column + 1) * spacing, spanCount),
           spacing)
    else
      Rect(JavaDiv(column * spacing, spanCount),
           if position >= spanCount then spacing else outRect.top,
           spacing - JavaDiv((column + 1) * spacing, spanCount),
           outRect.bottom)
  }

  lemma MulNonneg(a: int, b: int)
    requires 0 <= a && 0 <= b
    ensures 0 <= a * b
  {
  }

  lemma MulMonotone(k: int, n: int, s: int)
    requires 0 <= k <= n && 0 <= s
    ensures k * s <= n * s
  {
    assert n * s - k * s == (n - k) * s;
    MulNonneg(n - k, s);
  }

  /** A quotient by `n` of a number between 0 and `n * s` lies between 0 and `s`. */
  lemma DivBounded(x: int, n: int, s: int)
    requires 0 <= x <= n * s && 0 < n && 0 <= s
    ensures 0 <= x / n <= s
  {
    var q := x / n;
    var r := x % n;
    assert x == n * q + r && 0 <= r < n;
    if q > s {
      MulMonotone(s + 1, q, n);
      assert false;
    }
    if q < 0 {
      MulMonotone(1, -q, n);
      assert false;
    }
  }

  /** `k * s / n` lies in `[0, s]` for a column count `k` of at most `n`. */
  lemma ShareBounded(k: int, s: int, n: int)
    requires 0 <= k <= n && 0 <= s && 0 < n
    ensures 0 <= (k * s) / n <= s
  {
    MulMonotone(k, n, s);
    MulNonneg(k, s);
    DivBounded(k * s, n, s);
  }

  /** All `n` columns' share of the spacing is the whole spacing. */
  lemma FullShare(s: int, n: int)
    requires 0 <= s && 0 < n
    ensures (n * s) / n == s
  {
    var q := (n * s) / n;
    var r := (n * s) % n;
    assert n * s == n * q + r && 0 <= r < n;
    assert n * (s - q) == r;
    if s - q > 0 {
      MulMonotone(1, s - q, n);
      assert false;
    }
    if s - q < 0 {
      MulMonotone(1, q - s, n);
      assert false;
    }
  }

  /** Quotient and remainder are unique. */
  lemma ModUnique(x: int, n: int, q: int, c: int)
    requires 0 < n && 0 <= c < n && x == n * q + c
    ensures x % n == c
  {
    var q' := x / n;
    var c' := x % n;
    assert x == n * q' + c' && 0 <= c' < n;
    assert n * (q - q') == c' - c;
    if q - q' > 0 {
      MulMonotone(1, q - q', n);
      assert false;
    }
    if q - q' < 0 {
      MulMonotone(1, q' - q, n);
      assert false;
    }
  }

  /** The cell after one that is not in the last column sits in the next column. */
  lemma NextColumn(position: int, n: int)
    requires 0 <= position && 0 < n && position % n + 1 < n
    ensures (position + 1) % n == position % n + 1
  {
    var q := position / n;
    var c := position % n;
    assert position == n * q + c;
    assert position + 1 == n * q + (c + 1);
    ModUnique(position + 1, n, q, c + 1);
  }

  /** The offsets for a cell at a real position (at least 0, as Android supplies): one formula per mode. */
  lemma ItemOffsetsByColumn(outRect: Rect, position: int, spanCount: int, spacing: int, includeEdge: bool)
    requires 0 <= position && 0 < spanCount && 0 <= spacing
    ensures var c := position % spanCount;
            var r := ItemOffsets(outRect, position, spanCount, spacing, includeEdge);
            if includeEdge then
              && r.left == spacing - c * spacing / spanCount && r.right == (c + 1) * spacing / spanCount
              && (position < spanCount ==> r.top == spacing) && (position >= spanCount ==> r.top == outRect.top)
              && r.bottom == spacing
            else
              && r.left == c * spacing / spanCount && r.right == spacing - (c + 1) * spacing / spanCount
              && (position >= spanCount ==> r.top == spacing) && (position < spanCount ==> r.top == outRect.top)
              && r.bottom == outRect.bottom
  {
    var c := position % spanCount;
    MulNonneg(c, spacing);
    MulNonneg(c + 1, spacing);
  }

  /** Every assigned offset lies between 0 and the spacing; untouched sides keep their value. */
  lemma OffsetsAreBounded(outRect: Rect, position: int, spanCount: int, spacing: int, includeEdge: bool)
    requires 0 <= position && 0 < spanCount && 0 <= spacing
    ensures var r := ItemOffsets(outRect, position, spanCount, spacing, includeEdge);
            && 0 <= r.left <= spacing && 0 <= r.right <= spacing
            && (r.top == spacing || r.top == outRect.top)
            && (r.bottom == spacing || r.bottom == outRect.bottom)
  {
    ItemOffsetsByColumn(outRect, position, spanCount, spacing, includeEdge);
    var c := position % spanCount;
    ShareBounded(c, spacing, spanCount);
    ShareBounded(c + 1, spacing, spanCount);
  }

  /**
   * Two neighbouring cells of one row together leave exactly one spacing between them:
   * the right offset of column c plus the left offset of column c + 1 is the spacing.
   */
  lemma NeighboursShareOneSpacing(outRect: Rect, position: int, spanCount: int, spacing: int, includeEdge: bool)
    requires 0 <= position && 0 < spanCount && 0 <= spacing
    requires position % spanCount + 1 < spanCount
    ensures ItemOffsets(outRect, position, spanCount, spacing, includeEdge).right
            + ItemOffsets(outRect, position + 1, spanCount, spacing, includeEdge).left == spacing
  {
    ItemOffsetsByColumn(outRect, position, spanCount, spacing, includeEdge);
    ItemOffsetsByColumn(outRect, position + 1, spanCount, spacing, includeEdge);
    NextColumn(position, spanCount);
  }

  /** The outer edges: full spacing with `includeEdge`, none without it. */
  lemma OuterEdges(outRect: Rect, position: int, spanCount: int, spacing: int, includeEdge: bool)
    requires 0 <= position && 0 < spanCount && 0 <= spacing
    ensures position % spanCount == 0 ==>
              ItemOffsets(outRect, position, spanCount, spacing, includeEdge).left == (if includeEdge then spacing else 0)
    ensures position % spanCount == spanCount - 1 ==>
              ItemOffsets(outRect, position, spanCount, spacing, includeEdge).right == (if includeEdge then spacing else 0)
  {
    ItemOffsetsByColumn(outRect, position, spanCount, spacing, includeEdge);
    var c := position % spanCount;
    if c == 0 {
      assert c * spacing == 0;
    }
    if c == spanCount - 1 {
      assert (c + 1) * spacing == spanCount * spacing;
      FullShare(spacing, spanCount);
    }
  }

  /**
   * `RecyclerView.NO_POSITION` (-1) is not a cell: the truncating remainder gives column -1,
   * and without edges the left offset comes out negative.
   */
  lemma NoPositionOffsets(outRect: Rect)
    ensures JavaRem(-1, 2) == -1 && JavaDiv(-7, 2) == -3
    ensures ItemOffsets(outRect, -1, 2, 50, false) == Rect(-25, outRect.top, 50, outRect.bottom)
  {
  }

  /** The grid this controller installs: two columns, 50 px apart, no outer edges. */
  lemma TwoColumnGrid(outRect: Rect)
    ensures ItemOffsets(outRect, 0, 2, 50, false) == Rect(0, outRect.top, 25, outRect.bottom)
    ensures ItemOffsets(outRect, 1, 2, 50, false) == Rect(25, outRect.top, 0, outRect.bottom)
    ensures ItemOffsets(outRect, 2, 2, 50, false) == Rect(0, 50, 25, outRect.bottom)
    ensures ItemOffsets(outRect, 5, 2, 50, false) == Rect(25, 50, 0, outRect.bottom)
  {
  }

  // ---------------------------------------------------------------------------
  // The controller

  /** Why construction fails: the size check, or the null-items dereference it makes on the way. */
  datatype ConstructionError = SizeMismatch | NullItems

  /** The `ArrayList` entries holding the given image records, in order. */
  function ItemsAsEntries(items: seq<ImageRecord>): (r: seq<Entry>)
    ensures |r| == |items|
    ensures forall i :: 0 <= i < |items| ==> r[i] == Image(items[i])
  {
    if items == [] then [] else ItemsAsEntries(items[..|items| - 1]) + [Image(items[|items| - 1])]
  }

  /** `retrieveModelValues()` casts the stored object to a `Set`; anything else stored there throws. */
  datatype CastError = ClassCast

  /** `retrieveModelValues()`: the stored set, the empty set when nothing is stored, or a failed cast. */
  function RetrieveModelValues(m: map<string, Value>, name: string): (r: Result<set<Elem>, CastError>)
    ensures r.Failure? <==> name in m && !m[name].Selection?
    ensures r.Success? && name in m ==> r.value == m[name].elems
    ensures name !in m ==> r == Success({})
  {
    if name !in m then Success({})
    else if m[name].Selection? then Success(m[name].elems)
    else Failure(ClassCast)
  }

  class ImageGroupController {
    const imageId: int
    const base: BaseLine.BaseLineController
    const model: Services.FormModel
    const listener: Services.ValidationListener
    const clickListener: Services.ClickListener
    const items: Option<seq<ImageRecord>>
    const values: Option<seq<Entry>>
    var created: bool
    ghost var createCalls: nat

    function Name(): string {
      base.name
    }

    ghost predicate Valid()
      reads this
    {
      && (values.Some? ==> items.Some? && |values.value| == |items.value|)
      && createCalls == (if created then 1 else 0)
    }

    constructor (imageId: int, base: BaseLine.BaseLineController, model: Services.FormModel,
                 listener: Services.ValidationListener, clickListener: Services.ClickListener,
                 items: Option<seq<ImageRecord>>, values: Option<seq<Entry>>)
      requires values.Some? ==> items.Some? && |values.value| == |items.value|
      ensures Valid() && !created
      ensures this.imageId == imageId && this.base == base && this.model == model
      ensures this.listener == listener && this.clickListener == clickListener
      ensures this.items == items && this.values == values
    {
      this.imageId := imageId;
      this.base := base;
      this.model := model;
      this.listener := listener;
      this.clickListener := clickListener;
      this.items := items;
      this.values := values;
      created := false;
      createCalls := 0;
    }

    /**
     * The constructors taking `values`: the image id is reserved first (a field
     * initialiser), then a `values` list whose size differs from `items` is rejected.
     */
    static method Create(ids: Services.IdAllocator, base: BaseLine.BaseLineController, model: Services.FormModel,
                         listener: Services.ValidationListener, clickListener: Services.ClickListener,
                         items: Option<seq<ImageRecord>>, values: Option<seq<Entry>>)
      returns (r: Result<ImageGroupController, ConstructionError>)
      requires ids.Valid()
      modifies ids
      ensures ids.Valid() && ids.next == old(ids.next) + 1
      ensures r.Failure? <==> values.Some? && (items.None? || |values.value| != |items.value|)
      ensures r.Failure? ==> r.error == if items.None? then NullItems else SizeMismatch
      ensures r.Success? ==> fresh(r.value) && r.value.Valid() && !r.value.created && r.value.imageId == old(ids.next)
      ensures r.Success? ==> r.value.base == base && r.value.model == model && r.value.listener == listener
      ensures r.Success? ==> r.value.clickListener == clickListener && r.value.items == items && r.value.values == values
    {
      var id := ids.GenerateViewId();
      if values.Some? {
        if items.None? {
          return Failure(NullItems);
        }
        if |items.value| != |values.value| {
          return Failure(SizeMismatch);
        }
      }
      var c := new ImageGroupController(id, base, model, listener, clickListener, items, values);
      return Success(c);
    }

    /** The `useItemsAsValues` constructors: the values are the items themselves, so construction never fails. */
    static method CreateUsingItems(ids: Services.IdAllocator, base: BaseLine.BaseLineController, model: Services.FormModel,
                                   listener: Services.ValidationListener, clickListener: Services.ClickListener,
                                   items: Option<seq<ImageRecord>>, useItemsAsValues: bool)
      returns (r: Result<ImageGroupController, ConstructionError>)
      requires ids.Valid()
      modifies ids
      ensures ids.Valid() && ids.next == old(ids.next) + 1
      ensures r.Success? && fresh(r.value) && r.value.Valid() && !r.value.created && r.value.items == items
      ensures r.value.values == if useItemsAsValues && items.Some? then Some(ItemsAsEntries(items.value)) else None
    {
      var values := if useItemsAsValues && items.Some? then Some(ItemsAsEntries(items.value)) else None;
      r := Create(ids, base, model, listener, clickListener, items, values);
    }

    /**
     * `createFieldView()`: for each record in turn, the list so far is stored under the
     * field's name and one notification is sent; nothing happens when there are no records.
     */
    method CreateFieldView()
      requires Valid() && !created
      modifies this, model, listener
      ensures Valid() && created
      ensures items.Some? && |items.value| > 0 ==>
                model.values == old(model.values)[Name() := List(ItemsAsEntries(items.value))]
      ensures items.None? || |items.value| == 0 ==> model.values == old(model.values)
      ensures listener.calls == old(listener.calls) + (if items.Some? then |items.value| else 0)
    {
      ghost var m0 := model.values;
      if items.Some? && |items.value| > 0 {
        var records := items.value;
        var arrayList: seq<ImageRecord> := [];
        var i := 0;
        while i < |records|
          invariant 0 <= i <= |records|
          invariant arrayList == records[..i]
          invariant model.values == if i == 0 then m0 else m0[Name() := List(ItemsAsEntries(records[..i]))]
          invariant listener.calls == old(listener.calls) + i
          invariant !created && createCalls == 0
        {
          arrayList := arrayList + [records[i]];
          model.SetValue(Name(), List(ItemsAsEntries(arrayList)));
          listener.OnValidateInput();
          i := i + 1;
          assert arrayList == records[..i];
        }
        assert records[..|records|] == records;
      }
      created := true;
      createCalls := createCalls + 1;
    }

    /** `getFieldView()`: builds the view on the first call only. */
    method GetFieldView()
      requires Valid()
      modifies this, model, listener
      ensures Valid() && created && createCalls == 1
      ensures old(created) ==> model.values == old(model.values) && listener.calls == old(listener.calls)
      ensures !old(created) && items.Some? && |items.value| > 0 ==>
                model.values == old(model.values)[Name() := List(ItemsAsEntries(items.value))]
      ensures !old(created) ==> listener.calls == old(listener.calls) + (if items.Some? then |items.value| else 0)
    {
      if !created {
        CreateFieldView();
      }
    }

    /** The adapter's item listener: a click on cell `position` reports that record, once. */
    method OnItemClick(position: nat)
      requires created && items.Some? && position < |items.value|
      modifies clickListener`imageClicks
      ensures clickListener.imageClicks == old(clickListener.imageClicks) + [(position, items.value[position])]
    {
      clickListener.OnImageClicked(position, items.value[position]);
    }

    /**
     * `refresh(imageView, index)`: its only remaining work is `retrieveModelValues()`,
     * whose result goes unused; it changes nothing, but the cast fails once a list is stored.
     */
    method RefreshImage(index: int) returns (r: Result<set<Elem>, CastError>)
      ensures r == RetrieveModelValues(model.values, Name())
    {
      r := RetrieveModelValues(model.values, Name());
    }
  }

  /** Once the view is built over at least one record, `refresh(imageView, index)` can only throw. */
  lemma SeededListDefeatsRefresh(m: map<string, Value>, name: string, records: seq<ImageRecord>)
    ensures RetrieveModelValues(m[name := List(ItemsAsEntries(records))], name) == Failure(ClassCast)
  {
  }

  /** Every stored prefix of the record list holds those records in their original order. */
  lemma {:induction false} EntriesPrefix(records: seq<ImageRecord>, i: nat)
    requires i <= |records|
    ensures ItemsAsEntries(records[..i]) == ItemsAsEntries(records)[..i]
  {
    var a := ItemsAsEntries(records[..i]);
    var b := ItemsAsEntries(records)[..i];
    assert |a| == |b|;
    forall k | 0 <= k < i
      ensures a[k] == b[k]
    {
      assert records[..i][k] == records[k];
    }
  }
}
