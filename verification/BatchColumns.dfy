/** One collection of a batch in its two layouts: ragged, a flat array with offsets, and padded,
    a rectangle with a mask. Every collection of a batch is an instance. */
module BatchColumns {
  import opened Bytes
  import opened Sorting
  import opened Writers
  import opened EncodedState

  datatype Column<T> = Column(values: seq<T>, offsets: seq<nat>)

  datatype Block<T> = Block(values: seq<T>, mask: seq<Byte>)

  datatype LayoutError =
    | EmptyBatch | InvalidEncodedSample | InvalidRaggedLayout | CapacityTooSmall | InvalidPaddedLayout | MaskMismatch
    | PaddingValueMismatch | OptionalPresenceMismatch | CountOverflow

  datatype Layout<T> = Laid(value: T) | LayoutFailed(error: LayoutError) {
    predicate IsFailure() {
      LayoutFailed?
    }

    function PropagateFailure<U>(): Layout<U>
      requires LayoutFailed?
    {
      LayoutFailed(error)
    }

    function Extract(): T
      requires Laid?
    {
      value
    }
  }

  // ---------------------------------------------------------------- ragged

  /** Where the runs of `part` end when they are laid one after another. */
  function Ends<A, T>(part: A -> seq<T>, xs: seq<A>): (ends: seq<nat>)
    ensures |ends| == |xs| + 1 && ends[|xs|] == |Flat(part, xs)|
  {
    if xs == [] then [0] else Ends(part, xs[..|xs| - 1]) + [|Flat(part, xs)|]
  }

  function ColumnOf<A, T>(part: A -> seq<T>, xs: seq<A>): Column<T> {
    Column(Flat(part, xs), Ends(part, xs))
  }

  /** What the layout validation asks of a column. */
  predicate ColumnOk<T>(c: Column<T>, n: nat) {
    && |c.offsets| == n + 1 && c.offsets[0] == 0 && c.offsets[n] == |c.values|
    && forall i :: 0 < i <= n ==> c.offsets[i - 1] <= c.offsets[i]
  }

  lemma {:induction false} OffsetsAscend<T>(c: Column<T>, n: nat, i: nat, j: nat)
    requires ColumnOk(c, n) && i <= j <= n
    ensures c.offsets[i] <= c.offsets[j]
  {
    if i < j {
      OffsetsAscend(c, n, i, j - 1);
    }
  }

  function Row<T>(c: Column<T>, i: nat): seq<T> {
    if i + 1 < |c.offsets| && c.offsets[i] <= c.offsets[i + 1] <= |c.values| then
      c.values[c.offsets[i]..c.offsets[i + 1]]
    else []
  }

  function Rows<T>(c: Column<T>, n: nat): (rows: seq<seq<T>>)
    ensures |rows| == n && forall i :: 0 <= i < n ==> rows[i] == Row(c, i)
  {
    seq(n, i requires 0 <= i < n => Row(c, i))
  }

  function Same<T>(): seq<T> -> seq<T> {
    (row: seq<T>) => row
  }

  lemma {:induction false} EndAt<A, T>(part: A -> seq<T>, xs: seq<A>, k: nat)
    requires k <= |xs|
    ensures Ends(part, xs)[k] == |Flat(part, xs[..k])| <= |Flat(part, xs)|
    ensures Flat(part, xs)[..|Flat(part, xs[..k])|] == Flat(part, xs[..k])
  {
    if k < |xs| {
      var init := xs[..|xs| - 1];
      EndAt(part, init, k);
      assert init[..k] == xs[..k];
    } else {
      assert xs[..k] == xs;
    }
  }

  /** Every run is found again between its two offsets. */
  lemma RunIsRow<A, T>(part: A -> seq<T>, xs: seq<A>, i: nat)
    requires i < |xs|
    ensures Row(ColumnOf(part, xs), i) == part(xs[i])
  {
    EndAt(part, xs, i);
    EndAt(part, xs, i + 1);
    assert xs[..i + 1][..i] == xs[..i];
    var all, before := Flat(part, xs), Flat(part, xs[..i]);
    assert all[..|before| + |part(xs[i])|] == before + part(xs[i]);
    assert all[|before|..|before| + |part(xs[i])|] == (before + part(xs[i]))[|before|..];
  }

  lemma {:induction false} LaidIsOk<A, T>(part: A -> seq<T>, xs: seq<A>)
    ensures ColumnOk(ColumnOf(part, xs), |xs|)
  {
    if xs != [] {
      var init := xs[..|xs| - 1];
      LaidIsOk(part, init);
      EndAt(part, init, |init|);
    }
  }

  lemma PrefixJoins<T>(xs: seq<T>, i: nat, j: nat)
    requires i <= j <= |xs|
    ensures xs[..j] == xs[..i] + xs[i..j]
  {
  }

  lemma {:induction false} RowsCover<T>(c: Column<T>, n: nat, k: nat)
    requires ColumnOk(c, n) && k <= n
    ensures c.offsets[k] <= |c.values| && Flat(Same(), Rows(c, n)[..k]) == c.values[..c.offsets[k]]
    ensures Ends(Same(), Rows(c, n)[..k]) == c.offsets[..k + 1]
  {
    OffsetsAscend(c, n, k, n);
    if k > 0 {
      RowsCover(c, n, k - 1);
      OffsetsAscend(c, n, k - 1, k);
      hide Flat, Ends;
      OneMoreRow(Rows(c, n), k - 1);
      PrefixJoins(c.values, c.offsets[k - 1], c.offsets[k]);
      PrefixJoins(c.offsets, k, k + 1);
    } else {
      StartOfColumn(Rows(c, n));
    }
  }

  /** A valid column is its rows laid one after another. */
  lemma ColumnIsRows<T>(c: Column<T>, n: nat)
    requires ColumnOk(c, n)
    ensures ColumnOf(Same(), Rows(c, n)) == c
  {
    hide Rows;
    RowsCover(c, n, n);
    assert Rows(c, n)[..n] == Rows(c, n) && c.offsets[..n + 1] == c.offsets;
  }

  lemma RowsOfLaid<T>(rows: seq<seq<T>>)
    ensures Rows(ColumnOf(Same(), rows), |rows|) == rows
  {
    forall i | 0 <= i < |rows| ensures Row(ColumnOf(Same(), rows), i) == rows[i] {
      RunIsRow(Same(), rows, i);
    }
  }

  // ---------------------------------------------------------------- padded

  function Repeat<T>(x: T, n: nat): (xs: seq<T>)
    ensures |xs| == n && forall i :: 0 <= i < n ==> xs[i] == x
  {
    seq(n, i => x)
  }

  function PadRow<T>(width: nat, padding: T, row: seq<T>): seq<T> {
    if |row| <= width then row + Repeat(padding, width - |row|) else row[..width]
  }

  function Padder<T>(width: nat, padding: T): seq<T> -> seq<T> {
    (row: seq<T>) => PadRow(width, padding, row)
  }

  function MaskRow<T>(width: nat, row: seq<T>): seq<Byte> {
    if |row| <= width then Repeat(1, |row|) + Repeat(0, width - |row|) else Repeat(1, width)
  }

  function Masker<T>(width: nat): seq<T> -> seq<Byte> {
    (row: seq<T>) => MaskRow(width, row)
  }

  function BlockOf<T>(width: nat, padding: T, rows: seq<seq<T>>): Block<T> {
    Block(Flat(Padder(width, padding), rows), Flat(Masker(width), rows))
  }

  predicate Fit<T>(width: nat, rows: seq<seq<T>>) {
    forall i :: 0 <= i < |rows| ==> |rows[i]| <= width
  }

  lemma {:induction false} BlockSize<T>(width: nat, padding: T, rows: seq<seq<T>>)
    ensures |Flat(Padder(width, padding), rows)| == |rows| * width
  {
    if rows != [] {
      BlockSize(width, padding, rows[..|rows| - 1]);
      assert |rows| * width == (|rows| - 1) * width + width;
    }
  }

  lemma {:induction false} MaskSize<T>(width: nat, rows: seq<seq<T>>)
    ensures |Flat(Masker<T>(width), rows)| == |rows| * width
  {
    if rows != [] {
      MaskSize(width, rows[..|rows| - 1]);
      assert |rows| * width == (|rows| - 1) * width + width;
    }
  }

  lemma {:induction false} FlatSplit<A, B>(f: A -> seq<B>, xs: seq<A>, i: nat)
    requires i < |xs|
    ensures Flat(f, xs) == Flat(f, xs[..i]) + f(xs[i]) + Flat(f, xs[i + 1..])
  {
    if i == |xs| - 1 {
      assert Flat(f, xs[i + 1..]) == [];
    } else {
      var init := xs[..|xs| - 1];
      FlatSplit(f, init, i);
      assert init[..i] == xs[..i] && xs[i + 1..][..|xs| - i - 2] == init[i + 1..];
      assert Flat(f, xs[i + 1..]) == Flat(f, init[i + 1..]) + f(xs[|xs| - 1]);
    }
  }

  /** The i-th row of a block: its slice of the rectangle. */
  lemma BlockRow<T>(width: nat, padding: T, rows: seq<seq<T>>, i: nat)
    requires i < |rows|
    ensures i * width + width <= |rows| * width
    ensures |BlockOf(width, padding, rows).values| == |rows| * width == |BlockOf(width, padding, rows).mask|
    ensures BlockOf(width, padding, rows).values[i * width..i * width + width] == PadRow(width, padding, rows[i])
    ensures BlockOf(width, padding, rows).mask[i * width..i * width + width] == MaskRow(width, rows[i])
  {
    BlockSize(width, padding, rows);
    BlockSize(width, padding, rows[..i]);
    MaskSize(width, rows);
    MaskSize(width, rows[..i]);
    FlatSplit(Padder(width, padding), rows, i);
    FlatSplit(Masker<T>(width), rows, i);
    RowsFit(i, |rows|, width);
  }

  lemma RowsFit(i: nat, n: nat, width: nat)
    requires i < n
    ensures i * width + width <= n * width
  {
    assert n * width == i * width + width + (n - i - 1) * width;
    assert (n - i - 1) * width >= 0;
  }

  /** A block holds its rows whole: even rows of padding values are told from padding. */
  lemma BlockIsInjective<T>(width: nat, padding: T, rows: seq<seq<T>>, others: seq<seq<T>>)
    requires Fit(width, rows) && Fit(width, others) && |rows| == |others|
    requires BlockOf(width, padding, rows) == BlockOf(width, padding, others)
    ensures rows == others
  {
    hide BlockOf;
    forall i | 0 <= i < |rows| ensures rows[i] == others[i] {
      BlockRow(width, padding, rows, i);
      BlockRow(width, padding, others, i);
      SameRow(width, padding, rows[i], others[i]);
    }
  }

  /** How many marks a mask starts with. */
  function Ones(mask: seq<Byte>): (n: nat)
    ensures n <= |mask| && (forall i :: 0 <= i < n ==> mask[i] == 1) && (n < |mask| ==> mask[n] != 1)
  {
    if mask == [] || mask[0] != 1 then 0 else 1 + Ones(mask[1..])
  }

  lemma {:induction false} OnesThenZeros(ones: nat, zeros: nat)
    ensures Ones(Repeat(1, ones) + Repeat(0, zeros)) == ones
  {
    var mask: seq<Byte> := Repeat(1, ones) + Repeat(0, zeros);
    if ones > 0 {
      var tail: seq<Byte> := Repeat(1, ones - 1) + Repeat(0, zeros);
      assert mask[0] == 1 && mask[1..] == tail;
      OnesThenZeros(ones - 1, zeros);
    } else {
      assert zeros > 0 ==> mask[0] == 0;
    }
  }

  lemma OnesOfMask<T>(width: nat, row: seq<T>)
    requires |row| <= width
    ensures Ones(MaskRow(width, row)) == |row|
  {
    OnesThenZeros(|row|, width - |row|);
  }

  lemma SameRow<T>(width: nat, padding: T, row: seq<T>, other: seq<T>)
    requires |row| <= width && |other| <= width
    requires PadRow(width, padding, row) == PadRow(width, padding, other)
      && MaskRow(width, row) == MaskRow(width, other)
    ensures row == other
  {
    OnesOfMask(width, row);
    OnesOfMask(width, other);
    assert PadRow(width, padding, row)[..|row|] == row && PadRow(width, padding, other)[..|other|] == other;
  }

  // ---------------------------------------------------------------- sizes

  /** The machine's size type holds the width and its product with the count. */
  predicate SizeOk(batchSize: nat, width: nat) {
    width <= U64_MAX && batchSize * width <= U64_MAX
  }

  method CheckedProduct(batchSize: U32, width: nat) returns (r: Layout<nat>)
    ensures r == if SizeOk(batchSize, width) then Laid(batchSize * width) else LayoutFailed(CountOverflow)
  {
    if width > U64_MAX {
      return LayoutFailed(CountOverflow);
    }
    if batchSize != 0 {
      ProductFits(batchSize, width, U64_MAX);
      if width > U64_MAX / batchSize {
        return LayoutFailed(CountOverflow);
      }
    }
    return Laid(batchSize * width);
  }

  lemma ProductFits(n: nat, width: nat, limit: nat)
    requires n > 0
    ensures width > limit / n <==> n * width > limit
  {
    var q := limit / n;
    assert limit == q * n + limit % n;
    if width > q {
      Scaled(q + 1, width, n);
    } else {
      Scaled(width, q, n);
    }
  }

  function Larger(a: nat, b: int): nat {
    if b > a then b else a
  }

  /** The longest row. */
  function Longest(offsets: seq<nat>): nat {
    var n := |offsets|;
    if n < 2 then 0
    else
      var start: int, end: int := offsets[n - 2], offsets[n - 1];
      Larger(Longest(offsets[..n - 1]), end - start)
  }

  lemma {:induction false} LongestBounds(offsets: seq<nat>, width: nat)
    ensures Longest(offsets) <= width <==> forall i :: 0 < i < |offsets| ==> offsets[i] - offsets[i - 1] <= width
  {
    var n := |offsets|;
    if n >= 2 {
      var init := offsets[..n - 1];
      LongestBounds(init, width);
      if forall i :: 0 < i < n - 1 ==> init[i] - init[i - 1] <= width {
        forall i | 0 < i < n - 1 ensures offsets[i] - offsets[i - 1] <= width {
          assert init[i] - init[i - 1] <= width;
        }
      }
      if forall i :: 0 < i < n ==> offsets[i] - offsets[i - 1] <= width {
        forall i | 0 < i < n - 1 ensures init[i] - init[i - 1] <= width {
          assert offsets[i] - offsets[i - 1] <= width;
        }
      }
    }
  }

  predicate Ascending(offsets: seq<nat>) {
    forall i :: 0 < i < |offsets| ==> offsets[i - 1] <= offsets[i]
  }

  /** The longest row between offsets that ascend; no offsets of any row, or descending ones, are
      refused. */
  method MaxCollectionLength(offsets: seq<nat>) returns (r: Layout<nat>)
    ensures r == if |offsets| < 2 || !Ascending(offsets) then LayoutFailed(InvalidRaggedLayout)
      else Laid(Longest(offsets))
  {
    if |offsets| < 2 {
      return LayoutFailed(InvalidRaggedLayout);
    }
    var maximum := 0;
    assert offsets[..1] == [offsets[0]];
    for index := 1 to |offsets|
      invariant maximum == Longest(offsets[..index]) && Ascending(offsets[..index])
    {
      if offsets[index - 1] > offsets[index] {
        return LayoutFailed(InvalidRaggedLayout);
      }
      assert offsets[..index + 1][..index] == offsets[..index];
      var length := offsets[index] - offsets[index - 1];
      maximum := Larger(maximum, length);
    }
    assert offsets[..|offsets|] == offsets;
    return Laid(maximum);
  }

  function ChosenWidth(requested: Option<U64>, maximum: nat): nat {
    if requested.Some? then requested.value else maximum
  }

  /** A width every row fits in is exactly one not below the longest row. */
  lemma WideEnough<T>(c: Column<T>, n: nat, width: nat)
    requires ColumnOk(c, n)
    ensures Longest(c.offsets) <= width <==> Fit(width, Rows(c, n))
  {
    forall i | 0 <= i < n ensures c.offsets[i] + |Row(c, i)| == c.offsets[i + 1] {
      OffsetsAscend(c, n, i, i + 1);
      OffsetsAscend(c, n, i + 1, n);
    }
    LongestBounds(c.offsets, width);
    FitByLengths(c, n, width);
  }

  lemma FitByLengths<T>(c: Column<T>, n: nat, width: nat)
    requires |c.offsets| == n + 1 && forall i :: 0 <= i < n ==> c.offsets[i] + |Row(c, i)| == c.offsets[i + 1]
    ensures Fit(width, Rows(c, n)) <==> forall i :: 0 < i < |c.offsets| ==> c.offsets[i] - c.offsets[i - 1] <= width
  {
    hide Row;
    if Fit(width, Rows(c, n)) {
      forall i | 0 < i < |c.offsets| ensures c.offsets[i] - c.offsets[i - 1] <= width {
        assert |Rows(c, n)[i - 1]| <= width;
      }
    }
    if forall i :: 0 < i < |c.offsets| ==> c.offsets[i] - c.offsets[i - 1] <= width {
      forall i | 0 <= i < n ensures |Rows(c, n)[i]| <= width {
        assert c.offsets[i + 1] - c.offsets[i + 1 - 1] <= width;
      }
    }
  }

  // ---------------------------------------------------------------- filling the rectangle

  /** Copies a row to its place in the rectangle. */
  method CopyRow<T>(target: array<T>, destination: nat, row: seq<T>)
    requires destination + |row| <= target.Length
    modifies target
    ensures target[..] == old(target[..destination]) + row + old(target[destination + |row|..])
  {
    for i := 0 to |row|
      invariant forall j :: 0 <= j < destination || destination + i <= j < target.Length ==> target[j] == old(target[j])
      invariant forall j :: 0 <= j < i ==> target[destination + j] == row[j]
    {
      target[destination + i] := row[i];
    }
    assert target[..destination] == old(target[..destination]) && target[destination..destination + |row|] == row;
    assert target[destination + |row|..] == old(target[destination + |row|..]);
  }

  function Cells(rows: nat, width: nat): nat {
    rows * width
  }

  /** The first `k` rows are in place and the cells after them are padding. */
  ghost predicate Filled<A, T>(f: A -> seq<T>, rows: seq<A>, k: nat, width: nat, padding: T, cells: seq<T>)
    requires k <= |rows|
  {
    cells == Flat(f, rows[..k]) + Repeat(padding, Cells(|rows| - k, width))
  }

  lemma NothingFilled<A, T>(f: A -> seq<T>, rows: seq<A>, width: nat, padding: T, cells: seq<T>)
    requires cells == Repeat(padding, |rows| * width)
    ensures Filled(f, rows, 0, width, padding, cells)
  {
    assert Flat(f, rows[..0]) == [];
  }

  lemma AllFilled<A, T>(f: A -> seq<T>, rows: seq<A>, width: nat, padding: T, cells: seq<T>)
    requires Filled(f, rows, |rows|, width, padding, cells)
    ensures cells == Flat(f, rows)
  {
    assert rows[..|rows|] == rows;
    assert Cells(0, width) == 0;
  }

  /** A row copied over padding puts one more row in place. */
  lemma RowPlaced<A, T>(f: A -> seq<T>, rows: seq<A>, k: nat, width: nat, padding: T, row: seq<T>, before: seq<T>,
    cells: seq<T>)
    requires k < |rows| && Filled(f, rows, k, width, padding, before)
    requires |row| <= width && f(rows[k]) == row + Repeat(padding, width - |row|)
    requires |Flat(f, rows[..k])| == k * width && k * width + |row| <= |before|
    requires cells == before[..k * width] + row + before[k * width + |row|..]
    ensures Filled(f, rows, k + 1, width, padding, cells)
  {
    assert rows[..k + 1][..k] == rows[..k];
    var left, after := Cells(|rows| - k, width), Cells(|rows| - (k + 1), width);
    assert left == width + after;
    var rest := Repeat(padding, left);
    var done := Flat(f, rows[..k]);
    hide Flat, Cells;
    assert before[..|done|] == done && before[|done| + |row|..] == rest[|row|..];
    assert rest[|row|..] == Repeat(padding, width - |row|) + Repeat(padding, after);
  }

  lemma RoomLeft<A, T>(f: A -> seq<T>, rows: seq<A>, k: nat, width: nat, padding: T, cells: seq<T>)
    requires k < |rows| && Filled(f, rows, k, width, padding, cells) && |Flat(f, rows[..k])| == k * width
    ensures k * width + width <= |cells|
  {
    assert Cells(|rows| - k, width) == width + Cells(|rows| - (k + 1), width);
  }

  /** The rectangle of a column at a width: an assignment of padding, then each row copied over
      it and marked. */
  method FillPadded<T>(c: Column<T>, batchSize: U32, width: nat, padding: T) returns (r: Layout<Block<T>>)
    requires ColumnOk(c, batchSize)
    ensures !SizeOk(batchSize, width) ==> r == LayoutFailed(CountOverflow)
    ensures SizeOk(batchSize, width) ==>
      r == if Fit(width, Rows(c, batchSize)) then Laid(BlockOf(width, padding, Rows(c, batchSize)))
           else LayoutFailed(CapacityTooSmall)
  {
    hide ColumnOk, Row, PadRow, MaskRow, Flat, Filled;
    var size :- CheckedProduct(batchSize, width);
    var values := new T[size](_ => padding);
    var mask := new Byte[size](_ => 0);
    ghost var rows := Rows(c, batchSize);
    assert values[..] == Repeat(padding, size) && mask[..] == Repeat(0, size);
    NothingFilled(Padder(width, padding), rows, width, padding, values[..]);
    NothingFilled(Masker<T>(width), rows, width, 0, mask[..]);
    for sample := 0 to batchSize
      invariant forall i :: 0 <= i < sample ==> |rows[i]| <= width
      invariant Filled(Padder(width, padding), rows, sample, width, padding, values[..])
      invariant Filled(Masker<T>(width), rows, sample, width, 0, mask[..])
    {
      var row := RowOf(c, batchSize, sample);
      if |row| > width {
        assert rows[sample] == row;
        return LayoutFailed(CapacityTooSmall);
      }
      PlaceRow(values, sample, width, padding, row, rows);
      MarkRow(mask, sample, width, row, rows);
    }
    AllFilled(Padder(width, padding), rows, width, padding, values[..]);
    AllFilled(Masker<T>(width), rows, width, 0, mask[..]);
    r := Laid(Block(values[..], mask[..]));
  }

  method RowOf<T>(c: Column<T>, n: nat, i: nat) returns (row: seq<T>)
    requires ColumnOk(c, n) && i < n
    ensures row == Rows(c, n)[i]
  {
    OffsetsAscend(c, n, i, i + 1);
    OffsetsAscend(c, n, i + 1, n);
    var begin, end := c.offsets[i], c.offsets[i + 1];
    row := c.values[begin..end];
  }

  method PlaceRow<T>(values: array<T>, k: nat, width: nat, padding: T, row: seq<T>, ghost rows: seq<seq<T>>)
    requires k < |rows| && rows[k] == row && |row| <= width
    requires Filled(Padder(width, padding), rows, k, width, padding, values[..])
    modifies values
    ensures Filled(Padder(width, padding), rows, k + 1, width, padding, values[..])
  {
    hide Filled, Flat;
    ghost var before := values[..];
    BlockSize(width, padding, rows[..k]);
    RoomLeft(Padder(width, padding), rows, k, width, padding, before);
    CopyRow(values, k * width, row);
    RowPlaced(Padder(width, padding), rows, k, width, padding, row, before, values[..]);
  }

  method MarkRow<T>(mask: array<Byte>, k: nat, width: nat, row: seq<T>, ghost rows: seq<seq<T>>)
    requires k < |rows| && rows[k] == row && |row| <= width
    requires Filled(Masker<T>(width), rows, k, width, 0, mask[..])
    modifies mask
    ensures Filled(Masker<T>(width), rows, k + 1, width, 0, mask[..])
  {
    hide Filled, Flat;
    ghost var before := mask[..];
    MaskSize(width, rows[..k]);
    RoomLeft(Masker<T>(width), rows, k, width, 0, before);
    var ones: seq<Byte> := Repeat(1, |row|);
    CopyRow(mask, k * width, ones);
    RowPlaced(Masker<T>(width), rows, k, width, 0, ones, before, mask[..]);
  }

  // ---------------------------------------------------------------- collecting the rows again

  /** The rows a rectangle shows: each as long as its run of marks. */
  function RowShown<T>(b: Block<T>, width: nat, i: nat): seq<T> {
    if i * width + width <= |b.values| == |b.mask| then
      b.values[i * width..i * width + width][..Ones(b.mask[i * width..i * width + width])]
    else []
  }

  function RowsShown<T>(b: Block<T>, width: nat, n: nat): (rows: seq<seq<T>>)
    ensures |rows| == n && forall i :: 0 <= i < n ==> rows[i] == RowShown(b, width, i)
  {
    seq(n, i requires 0 <= i < n => RowShown(b, width, i))
  }

  /** A rectangle some rows fill. */
  predicate BlockOk<T(==)>(b: Block<T>, n: nat, width: nat, padding: T) {
    Fit(width, RowsShown(b, width, n)) && BlockOf(width, padding, RowsShown(b, width, n)) == b
  }

  lemma ShownOfFilled<T>(width: nat, padding: T, rows: seq<seq<T>>)
    requires Fit(width, rows)
    ensures RowsShown(BlockOf(width, padding, rows), width, |rows|) == rows
    ensures BlockOk(BlockOf(width, padding, rows), |rows|, width, padding)
  {
    hide BlockOf, PadRow, MaskRow;
    var b := BlockOf(width, padding, rows);
    forall i | 0 <= i < |rows| ensures RowShown(b, width, i) == rows[i] {
      BlockRow(width, padding, rows, i);
      OnesOfMask(width, rows[i]);
      RowIsPrefix(width, padding, rows[i]);
    }
    assert RowsShown(b, width, |rows|) == rows;
  }

  lemma RowIsPrefix<T>(width: nat, padding: T, row: seq<T>)
    requires |row| <= width
    ensures |PadRow(width, padding, row)| == width && PadRow(width, padding, row)[..|row|] == row
  {
  }

  /** One row of a rectangle: marks, then unmarked padding. */
  predicate RowOk<T>(values: seq<T>, mask: seq<Byte>, isPadding: T -> bool)
    requires |values| == |mask|
  {
    forall j :: Ones(mask) <= j < |mask| ==> mask[j] == 0 && isPadding(values[j])
  }

  ghost predicate Recognises<T(!new)>(isPadding: T -> bool, padding: T) {
    forall v :: isPadding(v) <==> v == padding
  }

  /** The cells of a padded row, one by one. */
  lemma PaddedCells<T>(values: seq<T>, width: nat, padding: T, row: seq<T>)
    requires |values| == width && |row| <= width && values[..|row|] == row
    ensures values == PadRow(width, padding, row) <==> forall j :: |row| <= j < width ==> values[j] == padding
  {
    var padded := PadRow(width, padding, row);
    forall j | 0 <= j < width ensures padded[j] == if j < |row| then row[j] else padding {
    }
    if forall j :: |row| <= j < width ==> values[j] == padding {
      forall j | 0 <= j < width ensures values[j] == padded[j] {
        assert j < |row| ==> values[j] == values[..|row|][j];
      }
    }
  }

  lemma MaskedCells<T>(mask: seq<Byte>, width: nat, row: seq<T>)
    requires |mask| == width && |row| <= width && forall j :: 0 <= j < |row| ==> mask[j] == 1
    ensures mask == MaskRow(width, row) <==> forall j :: |row| <= j < width ==> mask[j] == 0
  {
    var marked := MaskRow(width, row);
    forall j | 0 <= j < width ensures marked[j] == if j < |row| then 1 else 0 {
    }
    if forall j :: |row| <= j < width ==> mask[j] == 0 {
      forall j | 0 <= j < width ensures mask[j] == marked[j] {
      }
    }
  }

  lemma RowOkIsPadded<T(!new)>(values: seq<T>, mask: seq<Byte>, isPadding: T -> bool, padding: T)
    requires |values| == |mask| && Recognises(isPadding, padding)
    ensures var row := values[..Ones(mask)];
      RowOk(values, mask, isPadding) <==> values == PadRow(|values|, padding, row) && mask == MaskRow(|values|, row)
  {
    hide Ones, PadRow, MaskRow;
    var row := values[..Ones(mask)];
    PaddedCells(values, |values|, padding, row);
    MaskedCells(mask, |values|, row);
  }

  /** What is wrong with one cell of a row, given where its leading marks end. */
  function CellFault<T>(values: seq<T>, mask: seq<Byte>, isPadding: T -> bool, j: nat): Option<LayoutError>
    requires |values| == |mask| && j < |mask|
  {
    if mask[j] > 1 || (mask[j] == 1 && j > Ones(mask)) then Some(MaskMismatch)
    else if mask[j] == 0 && !isPadding(values[j]) then Some(PaddingValueMismatch)
    else None
  }

  /** The first thing wrong with a row, reading on from a cell. */
  function RowFault<T>(values: seq<T>, mask: seq<Byte>, isPadding: T -> bool, j: nat): Option<LayoutError>
    requires |values| == |mask|
    decreases |mask| - j
  {
    if j >= |mask| then None
    else if CellFault(values, mask, isPadding, j).Some? then CellFault(values, mask, isPadding, j)
    else RowFault(values, mask, isPadding, j + 1)
  }

  lemma {:induction false} FaultlessFrom<T>(values: seq<T>, mask: seq<Byte>, isPadding: T -> bool, j: nat)
    requires |values| == |mask|
    ensures RowFault(values, mask, isPadding, j).None? <==>
      forall i :: j <= i < |mask| ==> CellFault(values, mask, isPadding, i).None?
    decreases |mask| - j
  {
    hide CellFault;
    if j < |mask| {
      FaultlessFrom(values, mask, isPadding, j + 1);
    }
  }

  /** Nothing is wrong with a row exactly when it is marks, then unmarked padding. */
  lemma FaultlessRow<T>(values: seq<T>, mask: seq<Byte>, isPadding: T -> bool)
    requires |values| == |mask|
    ensures RowFault(values, mask, isPadding, 0).None? <==> RowOk(values, mask, isPadding)
  {
    hide Ones;
    FaultlessFrom(values, mask, isPadding, 0);
    hide RowFault;
    if RowOk(values, mask, isPadding) {
      forall i | 0 <= i < |mask| ensures CellFault(values, mask, isPadding, i).None? {
      }
    } else {
      var j :| Ones(mask) <= j < |mask| && !(mask[j] == 0 && isPadding(values[j]));
      if mask[j] == 1 {
        assert j > Ones(mask);
      }
      assert CellFault(values, mask, isPadding, j).Some?;
    }
  }

  /** Reads one row, column by column. */
  method CollectRow<T>(values: seq<T>, mask: seq<Byte>, isPadding: T -> bool) returns (r: Layout<seq<T>>)
    requires |values| == |mask|
    ensures r == match RowFault(values, mask, isPadding, 0)
      case None => Laid(values[..Ones(mask)])
      case Some(error) => LayoutFailed(error)
  {
    var row: seq<T> := [];
    var paddingStarted := false;
    hide Ones;
    for column := 0 to |values|
      invariant |row| <= column && row == values[..|row|] && (paddingStarted <==> |row| < column)
      invariant |row| <= Ones(mask) && (paddingStarted ==> |row| == Ones(mask))
      invariant RowFault(values, mask, isPadding, 0) == RowFault(values, mask, isPadding, column)
    {
      if mask[column] > 1 {
        assert column >= Ones(mask);
        return LayoutFailed(MaskMismatch);
      }
      if mask[column] == 1 {
        if paddingStarted {
          return LayoutFailed(MaskMismatch);
        }
        row := row + [values[column]];
      } else {
        paddingStarted := true;
        if !isPadding(values[column]) {
          return LayoutFailed(PaddingValueMismatch);
        }
      }
    }
    return Laid(row);
  }

  function Slice<T>(xs: seq<T>, i: nat, width: nat): seq<T>
    requires i * width + width <= |xs|
  {
    xs[i * width..i * width + width]
  }

  predicate Sized<T>(b: Block<T>, n: nat, width: nat) {
    |b.values| == n * width == |b.mask|
  }

  /** The first thing wrong with a rectangle, reading on from a row. */
  function RowsFault<T>(b: Block<T>, n: nat, width: nat, isPadding: T -> bool, i: nat): Option<LayoutError>
    requires Sized(b, n, width)
    decreases n - i
  {
    if i >= n then None
    else
      RowsFit(i, n, width);
      var fault := RowFault(Slice(b.values, i, width), Slice(b.mask, i, width), isPadding, 0);
      if fault.Some? then fault else RowsFault(b, n, width, isPadding, i + 1)
  }

  /** Why a rectangle is refused, if it is. */
  function BlockFault<T>(b: Block<T>, n: nat, width: nat, isPadding: T -> bool): Option<LayoutError> {
    if !SizeOk(n, width) then Some(CountOverflow)
    else if !Sized(b, n, width) then Some(InvalidPaddedLayout)
    else RowsFault(b, n, width, isPadding, 0)
  }

  lemma {:induction false} FaultlessRows<T>(b: Block<T>, n: nat, width: nat, isPadding: T -> bool, i: nat)
    requires Sized(b, n, width)
    ensures RowsFault(b, n, width, isPadding, i).None? <==> forall j :: i <= j < n ==>
      RowOkAt(b, n, width, isPadding, j)
    decreases n - i
  {
    hide RowOk, RowFault;
    if i < n {
      RowsFit(i, n, width);
      FaultlessRow(Slice(b.values, i, width), Slice(b.mask, i, width), isPadding);
      assert RowOkAt(b, n, width, isPadding, i) <==> RowOk(Slice(b.values, i, width), Slice(b.mask, i, width),
        isPadding);
      hide RowOkAt;
      FaultlessRows(b, n, width, isPadding, i + 1);
    }
  }

  predicate RowsOk<T>(b: Block<T>, n: nat, width: nat, isPadding: T -> bool, k: nat)
    requires Sized(b, n, width) && k <= n
  {
    forall i :: 0 <= i < k ==> RowOkAt(b, n, width, isPadding, i)
  }

  predicate RowOkAt<T>(b: Block<T>, n: nat, width: nat, isPadding: T -> bool, i: nat)
    requires Sized(b, n, width) && i < n
  {
    RowsFit(i, n, width);
    RowOk(Slice(b.values, i, width), Slice(b.mask, i, width), isPadding)
  }

  lemma ShownRow<T(!new)>(b: Block<T>, n: nat, width: nat, isPadding: T -> bool, padding: T, i: nat)
    requires Sized(b, n, width) && i < n && Recognises(isPadding, padding)
    ensures i * width + width <= n * width && |RowShown(b, width, i)| <= width
    ensures RowOkAt(b, n, width, isPadding, i) <==>
      && Slice(b.values, i, width) == PadRow(width, padding, RowShown(b, width, i))
      && Slice(b.mask, i, width) == MaskRow(width, RowShown(b, width, i))
  {
    hide Recognises, Ones, RowOk, PadRow, MaskRow;
    RowsFit(i, n, width);
    RowOkIsPadded(Slice(b.values, i, width), Slice(b.mask, i, width), isPadding, padding);
  }

  lemma {:induction false} RowsFill<T(!new)>(b: Block<T>, n: nat, width: nat, isPadding: T -> bool, padding: T, k: nat)
    requires Sized(b, n, width) && k <= n && Recognises(isPadding, padding) && RowsOk(b, n, width, isPadding, k)
    ensures k * width <= n * width
    ensures Flat(Padder(width, padding), RowsShown(b, width, n)[..k]) == b.values[..k * width]
    ensures Flat(Masker<T>(width), RowsShown(b, width, n)[..k]) == b.mask[..k * width]
  {
    hide Recognises, RowOkAt, RowShown, PadRow, MaskRow, Flat, Slice;
    var rows := RowsShown(b, width, n);
    if k > 0 {
      RowsFill(b, n, width, isPadding, padding, k - 1);
      ShownRow(b, n, width, isPadding, padding, k - 1);
      FlatGrows(Padder(width, padding), rows, k - 1);
      FlatGrows(Masker<T>(width), rows, k - 1);
      SliceJoins(b.values, k - 1, width);
      SliceJoins(b.mask, k - 1, width);
    } else {
      NoneFlat(Padder(width, padding), rows);
      NoneFlat(Masker<T>(width), rows);
    }
  }

  lemma SliceJoins<T>(xs: seq<T>, i: nat, width: nat)
    requires i * width + width <= |xs|
    ensures (i + 1) * width == i * width + width
    ensures xs[..(i + 1) * width] == xs[..i * width] + Slice(xs, i, width)
  {
  }

  /** A rectangle is filled by rows exactly when each of its rows is marks, then padding. */
  lemma BlockOkByRows<T(!new)>(b: Block<T>, n: nat, width: nat, isPadding: T -> bool, padding: T)
    requires Sized(b, n, width) && Recognises(isPadding, padding)
    ensures BlockOk(b, n, width, padding) <==> RowsOk(b, n, width, isPadding, n)
  {
    hide Recognises, RowOkAt, RowShown, BlockOf, Sized;
    var rows := RowsShown(b, width, n);
    forall i | 0 <= i < n ensures |rows[i]| <= width {
      ShownRow(b, n, width, isPadding, padding, i);
    }
    if RowsOk(b, n, width, isPadding, n) {
      RowsFill(b, n, width, isPadding, padding, n);
      WholeBlock(b, n, width, padding);
    }
    if BlockOf(width, padding, rows) == b {
      forall i | 0 <= i < n ensures RowOkAt(b, n, width, isPadding, i) {
        BlockRow(width, padding, rows, i);
        ShownRow(b, n, width, isPadding, padding, i);
      }
    }
  }

  lemma WholeBlock<T>(b: Block<T>, n: nat, width: nat, padding: T)
    requires Sized(b, n, width)
    requires Flat(Padder(width, padding), RowsShown(b, width, n)[..n]) == b.values[..n * width]
    requires Flat(Masker<T>(width), RowsShown(b, width, n)[..n]) == b.mask[..n * width]
    ensures BlockOf(width, padding, RowsShown(b, width, n)) == b
  {
    hide RowShown, Flat;
    assert RowsShown(b, width, n)[..n] == RowsShown(b, width, n);
    assert b.values[..n * width] == b.values && b.mask[..n * width] == b.mask;
  }

  lemma BlockOkIsSized<T>(b: Block<T>, n: nat, width: nat, padding: T)
    requires BlockOk(b, n, width, padding)
    ensures Sized(b, n, width)
  {
    BlockSize(width, padding, RowsShown(b, width, n));
    MaskSize(width, RowsShown(b, width, n));
  }

  method AppendOffset(offsets: seq<nat>, total: nat) returns (r: Layout<seq<nat>>)
    ensures r == if total > U64_MAX || offsets == [] || total < offsets[|offsets| - 1] then LayoutFailed(CountOverflow)
      else Laid(offsets + [total])
  {
    if total > U64_MAX || offsets == [] || total < offsets[|offsets| - 1] {
      return LayoutFailed(CountOverflow);
    }
    return Laid(offsets + [total]);
  }

  /** Nothing is wrong with a rectangle exactly when rows fill it. */
  lemma FaultlessBlock<T(!new)>(b: Block<T>, n: nat, width: nat, isPadding: T -> bool, padding: T)
    requires Recognises(isPadding, padding)
    ensures BlockFault(b, n, width, isPadding).None? <==> SizeOk(n, width) && BlockOk(b, n, width, padding)
  {
    hide Recognises, RowOkAt, RowFault, BlockOk, Sized;
    if BlockOk(b, n, width, padding) {
      BlockOkIsSized(b, n, width, padding);
    }
    if Sized(b, n, width) {
      FaultlessRows(b, n, width, isPadding, 0);
      BlockOkByRows(b, n, width, isPadding, padding);
    }
  }

  /** The column of a rectangle, or the first thing wrong with it. The count checks on the way
      never fail. */
  method CollectPadded<T(!new)>(b: Block<T>, batchSize: U32, width: nat, isPadding: T -> bool)
    returns (r: Layout<Column<T>>)
    ensures r == match BlockFault(b, batchSize, width, isPadding)
      case None => Laid(ColumnOf(Same(), RowsShown(b, width, batchSize)))
      case Some(error) => LayoutFailed(error)
  {
    hide RowShown, Flat, Ones, RowFault;
    var size :- CheckedProduct(batchSize, width);
    if |b.values| != size || |b.mask| != size {
      return LayoutFailed(InvalidPaddedLayout);
    }
    ghost var rows := RowsShown(b, width, batchSize);
    var flat: seq<T> := [];
    var offsets: seq<nat> := [0];
    StartOfColumn(rows);
    for sample := 0 to batchSize
      invariant RowsFault(b, batchSize, width, isPadding, 0) == RowsFault(b, batchSize, width, isPadding, sample)
      invariant flat == Flat(Same(), rows[..sample]) && offsets == Ends(Same(), rows[..sample])
      invariant |flat| <= sample * width
    {
      RowsFit(sample, batchSize, width);
      ShownIsPrefix(b, batchSize, width, isPadding, sample);
      var row := CollectRow(Slice(b.values, sample, width), Slice(b.mask, sample, width), isPadding);
      if row.LayoutFailed? {
        return LayoutFailed(row.error);
      }
      OneMoreRow(rows, sample);
      flat := flat + row.value;
      var next := AppendOffset(offsets, |flat|);
      offsets := next.value;
      NextCell(sample, width);
    }
    assert rows[..batchSize] == rows;
    return Laid(Column(flat, offsets));
  }

  lemma NextCell(i: nat, width: nat)
    ensures (i + 1) * width == i * width + width
  {
  }

  lemma StartOfColumn<T>(rows: seq<seq<T>>)
    ensures Flat(Same(), rows[..0]) == [] && Ends(Same(), rows[..0]) == [0]
  {
  }

  lemma OneMoreRow<T>(rows: seq<seq<T>>, i: nat)
    requires i < |rows|
    ensures Flat(Same(), rows[..i + 1]) == Flat(Same(), rows[..i]) + rows[i]
    ensures Ends(Same(), rows[..i + 1]) == Ends(Same(), rows[..i]) + [|Flat(Same(), rows[..i + 1])|]
  {
    FlatGrows(Same(), rows, i);
    assert rows[..i + 1][..i] == rows[..i];
  }

  lemma ShownIsPrefix<T>(b: Block<T>, n: nat, width: nat, isPadding: T -> bool, i: nat)
    requires Sized(b, n, width) && i < n
    ensures i * width + width <= n * width
    ensures RowOkAt(b, n, width, isPadding, i) <==> RowOk(Slice(b.values, i, width), Slice(b.mask, i, width), isPadding)
    ensures RowShown(b, width, i) == Slice(b.values, i, width)[..Ones(Slice(b.mask, i, width))]
    ensures |RowShown(b, width, i)| <= width
  {
    hide Ones, RowOk;
    RowsFit(i, n, width);
  }

  // ---------------------------------------------------------------- there and back

  function Padded<T>(c: Column<T>, n: nat, width: nat, padding: T): Block<T> {
    BlockOf(width, padding, Rows(c, n))
  }

  function Unpadded<T>(b: Block<T>, n: nat, width: nat): Column<T> {
    ColumnOf(Same(), RowsShown(b, width, n))
  }

  /** Unpadding undoes padding, even when rows hold the padding value. */
  lemma PaddingUndone<T>(c: Column<T>, n: nat, width: nat, padding: T)
    requires ColumnOk(c, n) && Fit(width, Rows(c, n))
    ensures Unpadded(Padded(c, n, width, padding), n, width) == c
      && BlockOk(Padded(c, n, width, padding), n, width, padding)
  {
    hide ColumnOk, BlockOf, RowShown, BlockOk, ColumnOf;
    ShownOfFilled(width, padding, Rows(c, n));
    ColumnIsRows(c, n);
  }

  /** Padding undoes unpadding of whatever was accepted. */
  lemma UnpaddingUndone<T>(b: Block<T>, n: nat, width: nat, padding: T)
    requires BlockOk(b, n, width, padding)
    ensures var c := Unpadded(b, n, width);
      ColumnOk(c, n) && Fit(width, Rows(c, n)) && Padded(c, n, width, padding) == b
  {
    hide ColumnOk, BlockOf, RowShown, ColumnOf;
    LaidIsOk(Same(), RowsShown(b, width, n));
    RowsOfLaid(RowsShown(b, width, n));
  }

  lemma {:induction false} FlatOfParts<A, T>(part: A -> seq<T>, xs: seq<A>)
    ensures Flat(part, xs) == Flat(Same(), Map(part, xs)) && Ends(part, xs) == Ends(Same(), Map(part, xs))
  {
    if xs != [] {
      var init := xs[..|xs| - 1];
      FlatOfParts(part, init);
      assert Map(part, xs)[..|xs| - 1] == Map(part, init);
    }
  }

  /** A valid column is laid out from whatever has its rows as parts. */
  lemma ColumnFromParts<A, T>(part: A -> seq<T>, xs: seq<A>, c: Column<T>)
    requires ColumnOk(c, |xs|) && forall i :: 0 <= i < |xs| ==> part(xs[i]) == Row(c, i)
    ensures ColumnOf(part, xs) == c
  {
    hide ColumnOk, Row, Flat, Ends;
    FlatOfParts(part, xs);
    assert Map(part, xs) == Rows(c, |xs|);
    ColumnIsRows(c, |xs|);
  }

  /** The columns of records with as many parts of one kind as of another have the same offsets. */
  lemma {:induction false} SameEnds<A, T, U>(part: A -> seq<T>, other: A -> seq<U>, xs: seq<A>)
    requires forall i :: 0 <= i < |xs| ==> |part(xs[i])| == |other(xs[i])|
    ensures Ends(part, xs) == Ends(other, xs) && |Flat(part, xs)| == |Flat(other, xs)|
  {
    if xs != [] {
      SameEnds(part, other, xs[..|xs| - 1]);
    }
  }
}
