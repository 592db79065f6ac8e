/**
 * The arithmetic of setupScale: how many keys go in a row, how many rows
 * there are, the padding and spacings derived from the canvas size, and the
 * position of every key line and of the musical spawner above it.
 */
module Layout {
  import opened Config
  import opened World

  const MIN_HORIZONTAL_PADDING: real := 100.0
  const MAX_HORIZONTAL_PADDING: real := 300.0
  const MIN_VERTICAL_SPACING: real := 180.0
  const MAX_VERTICAL_SPACING: real := 250.0
  /** How far above its key line a musical spawner sits. */
  const SPAWNER_OFFSET_Y: real := 150.0

  /** Math.ceil(a / b) on naturals: the least q with q * b >= a. */
  function CeilDiv(a: nat, b: nat): (q: nat)
    requires b > 0
    ensures q * b >= a
    ensures a > 0 ==> q >= 1 && (q - 1) * b < a
    ensures a == 0 ==> q == 0
  {
    var q := (a + b - 1) / b;
    var r := (a + b - 1) % b;
    assert q * b + r == a + b - 1 && 0 <= r < b;
    q
  }

  /** getOptimalLayout: keys per row. None for no notes, at most six, never more than there are notes. */
  function NotesPerRow(count: nat): (k: nat)
    ensures count == 0 <==> k == 0
    ensures k <= 6 && k <= count
  {
    if count <= 6 then count
    else if count <= 12 then CeilDiv(count, 2)
    else 6
  }

  /**
   * actualRows: the fewest rows of NotesPerRow keys that hold every note.
   * The source divides 0 by 0 for an empty scale; no key is then placed, and the model says 0.
   */
  function Rows(count: nat): (rows: nat)
    ensures count > 0 ==> rows >= 1
    ensures rows * NotesPerRow(count) >= count
    ensures count > 0 ==> (rows - 1) * NotesPerRow(count) < count
  {
    if count == 0 then 0 else CeilDiv(count, NotesPerRow(count))
  }

  /** Up to six notes make one row, up to twelve make two, more make rows of six. */
  lemma RowsByCount(count: nat)
    ensures 1 <= count <= 6 ==> Rows(count) == 1
    ensures 7 <= count <= 12 ==> Rows(count) == 2
    ensures count > 12 ==> NotesPerRow(count) == 6 && Rows(count) == CeilDiv(count, 6)
  {
    if 7 <= count <= 12 {
      var k := NotesPerRow(count);
      assert 2 * k >= count && 2 * (k - 1) < count;
      assert k < count;
      var rows := Rows(count);
      MulMonoNat(rows, 1, k);
      MulMonoNat(2, rows - 1, k);
    }
  }

  /** The horizontal padding: a tenth of the width, clamped to [100, 300]; no wider than a canvas of 100 or more. */
  function HorizontalPadding(width: real): (p: real)
    ensures MIN_HORIZONTAL_PADDING <= p <= MAX_HORIZONTAL_PADDING
    ensures width >= MIN_HORIZONTAL_PADDING ==> p <= width
    ensures width > MIN_HORIZONTAL_PADDING ==> p < width
  {
    var tenth := width * 0.1;
    var atLeast := if MIN_HORIZONTAL_PADDING > tenth then MIN_HORIZONTAL_PADDING else tenth;
    if MAX_HORIZONTAL_PADDING < atLeast then MAX_HORIZONTAL_PADDING else atLeast
  }

  /** The gap between neighbouring keys of a row: the width less the padding, shared among the gaps of a full row. */
  function HorizontalSpacing(count: nat, width: real): (h: real)
    ensures NotesPerRow(count) > 1 ==> h * ((NotesPerRow(count) - 1) as real) == width - HorizontalPadding(width)
    ensures NotesPerRow(count) <= 1 ==> h == 0.0
    ensures width >= MIN_HORIZONTAL_PADDING ==> h >= 0.0
  {
    var k := NotesPerRow(count);
    if k > 1 then (width - HorizontalPadding(width)) / ((k - 1) as real) else 0.0
  }

  /** The gap between rows: 60% of the height shared among the row gaps, clamped to [180, 250]. */
  function VerticalSpacing(count: nat, height: real): (v: real)
    ensures MIN_VERTICAL_SPACING <= v <= MAX_VERTICAL_SPACING
  {
    var rows := Rows(count);
    var available := height * 0.6;
    var base := if rows > 1 then available / ((rows - 1) as real) else 0.0;
    var atMost := if MAX_VERTICAL_SPACING < base then MAX_VERTICAL_SPACING else base;
    if MIN_VERTICAL_SPACING > atMost then MIN_VERTICAL_SPACING else atMost
  }

  /** The y of the first row, chosen so that the grid of rows is centred vertically. */
  function StartY(count: nat, height: real): real {
    (height - ((Rows(count) - 1) as real) * VerticalSpacing(count, height)) / 2.0
  }

  /** Math.floor(i / notesPerRow): the row of the i-th note. */
  function Row(i: nat, count: nat): (row: nat)
    requires i < count
    ensures row < Rows(count)
  {
    var k := NotesPerRow(count);
    assert i / k < Rows(count) by { QuotientBelow(i, k, Rows(count)); }
    i / k
  }

  /** i % notesPerRow: the column of the i-th note; row and column spell out i. */
  function Column(i: nat, count: nat): (col: nat)
    requires i < count
    ensures col < NotesPerRow(count)
    ensures i == Row(i, count) * NotesPerRow(count) + col
  {
    i % NotesPerRow(count)
  }

  /** notesInThisRow: every row but the last is full; the last holds what is left, at least one note. */
  function NotesInRow(row: nat, count: nat): (m: nat)
    requires row < Rows(count)
    ensures 1 <= m <= NotesPerRow(count)
    ensures row < Rows(count) - 1 ==> m == NotesPerRow(count)
  {
    var k := NotesPerRow(count);
    var rows := Rows(count);
    if row == rows - 1 then
      assert 1 <= count - row * k <= k by { LastBlockSize(count, k, rows); }
      count - row * k
    else k
  }

  /** Whether a row is re-centred: a last row that is not full, in a grid of several rows. */
  predicate Recentred(row: nat, count: nat)
    requires row < Rows(count)
  {
    NotesInRow(row, count) < NotesPerRow(count) && Rows(count) > 1
  }

  /** The x of the first key of a row: half a padding in from the left, or centring the row when it is re-centred. */
  function RowStart(row: nat, count: nat, width: real): real
    requires row < Rows(count)
  {
    if Recentred(row, count) then
      CentredStart(width, HorizontalSpacing(count, width), NotesInRow(row, count))
    else
      HorizontalPadding(width) / 2.0
  }

  /** The coordinate `a` steps of `step` on from `base`. */
  function Offset(base: real, step: real, a: nat): real {
    base + (a as real) * step
  }

  /** The x of the first of m keys `spacing` apart that puts the middle of the row at the middle of the canvas. */
  function CentredStart(width: real, spacing: real, m: nat): real {
    (width - ((m - 1) as real) * spacing) / 2.0
  }

  /** The x at which the i-th of `count` notes is placed on a canvas `width` wide. */
  function SlotX(i: nat, count: nat, width: real): real
    requires i < count
  {
    Offset(RowStart(Row(i, count), count, width), HorizontalSpacing(count, width), Column(i, count))
  }

  /** The y of the i-th note's key line on a canvas `height` high. */
  function SlotY(i: nat, count: nat, height: real): real
    requires i < count
  {
    Offset(StartY(count, height), VerticalSpacing(count, height), Row(i, count))
  }

  // ---- Arithmetic helpers ----

  lemma MulMonoNat(a: nat, b: nat, c: nat)
    ensures a <= b ==> a * c <= b * c
  {
    if a <= b { assert b * c == a * c + (b - a) * c; }
  }

  /** What the last of `rows` blocks of k holds of n: at least one, at most k. */
  lemma LastBlockSize(n: nat, k: nat, rows: nat)
    requires k > 0 && rows >= 1 && rows * k >= n && (rows - 1) * k < n
    ensures 1 <= n - (rows - 1) * k <= k
  {
    assert (rows - 1) * k + k == rows * k;
  }

  /** Below `rows` blocks of k, the block of i is one of them. */
  lemma QuotientBelow(i: nat, k: nat, rows: nat)
    requires k > 0 && i < rows * k
    ensures i / k < rows
  {
    assert i == (i / k) * k + i % k;
    MulMonoNat(rows, i / k, k);
  }

  lemma MulMono(a: real, b: real, c: real)
    requires c >= 0.0
    ensures a <= b ==> a * c <= b * c
  {
    assert b * c - a * c == (b - a) * c;
  }

  lemma MulDiff(a: real, b: real, c: real)
    ensures a * c - b * c == (a - b) * c
    ensures a * c + b * c == (a + b) * c
  {
  }

  lemma MulNonZero(a: real, b: real)
    ensures a != 0.0 && b != 0.0 ==> a * b != 0.0
  {
  }

  /** The position arithmetic of a row on the grid's columns. */
  lemma GridArithmetic(width: real, pad: real, spacing: real, k: nat, col: nat)
    requires pad <= width && spacing >= 0.0 && col < k
    requires ((k - 1) as real) * spacing <= width - pad
    ensures pad / 2.0 <= Offset(pad / 2.0, spacing, col) <= width - pad / 2.0
  {
    var c, k1 := col as real, (k - 1) as real;
    MulMono(0.0, c, spacing);
    MulMono(c, k1, spacing);
  }

  /** The position arithmetic of a re-centred row of m keys, free of the grid's integer division. */
  lemma CentredArithmetic(width: real, pad: real, spacing: real, k: nat, m: nat, col: nat)
    requires pad <= width && spacing >= 0.0 && 1 <= m <= k && col < m
    requires ((k - 1) as real) * spacing <= width - pad
    ensures pad / 2.0 <= Offset(CentredStart(width, spacing, m), spacing, col) <= width - pad / 2.0
  {
    var c, m1, k1 := col as real, (m - 1) as real, (k - 1) as real;
    MulMono(0.0, c, spacing);
    MulMono(c, m1, spacing);
    MulMono(m1, k1, spacing);
    assert 0.0 <= c * spacing <= m1 * spacing <= k1 * spacing;
    assert Offset(CentredStart(width, spacing, m), spacing, col) == (width - m1 * spacing) / 2.0 + c * spacing;
    CentredBounds(width, pad, c * spacing, m1 * spacing);
  }

  /** The linear step of CentredArithmetic, over the two products as plain numbers. */
  lemma CentredBounds(width: real, pad: real, offset: real, span: real)
    requires 0.0 <= offset <= span <= width - pad
    ensures pad / 2.0 <= (width - span) / 2.0 + offset <= width - pad / 2.0
  {
  }

  /** Two notes of one row sit in different columns, so that row holds more than one key. */
  lemma SameRowColumns(i: nat, j: nat, count: nat)
    requires i < count && j < count && i != j && Row(i, count) == Row(j, count)
    ensures Column(i, count) != Column(j, count) && NotesPerRow(count) > 1
  {
  }

  /** Two different steps from one base land on different points. */
  lemma OffsetsDiffer(base: real, step: real, a: nat, b: nat)
    requires a != b && step != 0.0
    ensures Offset(base, step, a) != Offset(base, step, b)
  {
    MulDiff(a as real, b as real, step);
    MulNonZero((a as real) - (b as real), step);
  }

  /** Steps a and b from one base add up to `total` when twice the base and a + b steps do. */
  lemma MirroredOffsets(base: real, step: real, a: nat, b: nat, n: nat, total: real)
    requires a + b == n && 2.0 * base + (n as real) * step == total
    ensures Offset(base, step, a) + Offset(base, step, b) == total
  {
    MulDiff(a as real, b as real, step);
    assert (a as real) + (b as real) == n as real;
  }

  /** With more than one key in a row and a canvas wider than the padding, keys are a positive distance apart. */
  lemma PositiveSpacing(count: nat, width: real)
    requires NotesPerRow(count) > 1 && width > MIN_HORIZONTAL_PADDING
    ensures HorizontalSpacing(count, width) > 0.0
  {
    MulMono(HorizontalSpacing(count, width), 0.0, (NotesPerRow(count) - 1) as real);
  }

  /** Keys at mirrored columns a and b of a row (a + b + 1 keys in the row) add up to the canvas width. */
  lemma RowMirror(row: nat, count: nat, width: real, a: nat, b: nat)
    requires row < Rows(count) && NotesPerRow(count) > 1
    requires a + b + 1 == NotesInRow(row, count)
    ensures Offset(RowStart(row, count, width), HorizontalSpacing(count, width), a)
            + Offset(RowStart(row, count, width), HorizontalSpacing(count, width), b) == width
  {
    var h := HorizontalSpacing(count, width);
    if Recentred(row, count) {
      MirroredOffsets(RowStart(row, count, width), h, a, b, NotesInRow(row, count) - 1, width);
    } else {
      FullRow(row, count);
      MirroredOffsets(RowStart(row, count, width), h, a, b, NotesPerRow(count) - 1, width);
    }
  }

  /** A full row of keys, spaced as the canvas asks, fits between the paddings. */
  lemma SpacingFits(count: nat, width: real)
    requires width >= MIN_HORIZONTAL_PADDING
    ensures HorizontalSpacing(count, width) >= 0.0
    ensures ((NotesPerRow(count) - 1) as real) * HorizontalSpacing(count, width) <= width - HorizontalPadding(width)
  {
  }

  /** Every key of a row lies between the margins. */
  lemma RowBounds(row: nat, count: nat, width: real, col: nat)
    requires row < Rows(count) && col < NotesInRow(row, count) && width >= MIN_HORIZONTAL_PADDING
    ensures HorizontalPadding(width) / 2.0 <= Offset(RowStart(row, count, width), HorizontalSpacing(count, width), col)
    ensures Offset(RowStart(row, count, width), HorizontalSpacing(count, width), col) <= width - HorizontalPadding(width) / 2.0
  {
    if Recentred(row, count) {
      RecentredRowBounds(count, width, NotesInRow(row, count), col);
    } else {
      GridRowBounds(count, width, col);
    }
  }

  /** A key of a re-centred row of m keys lies between the margins. */
  lemma RecentredRowBounds(count: nat, width: real, m: nat, col: nat)
    requires 1 <= m <= NotesPerRow(count) && col < m && width >= MIN_HORIZONTAL_PADDING
    ensures var start := CentredStart(width, HorizontalSpacing(count, width), m);
            HorizontalPadding(width) / 2.0 <= Offset(start, HorizontalSpacing(count, width), col) <= width - HorizontalPadding(width) / 2.0
  {
    var pad, h, k := HorizontalPadding(width), HorizontalSpacing(count, width), NotesPerRow(count);
    assert ((k - 1) as real) * h <= width - pad by { SpacingFits(count, width); }
    CentredArithmetic(width, pad, h, k, m, col);
  }

  /** A key on the grid's columns lies between the margins. */
  lemma GridRowBounds(count: nat, width: real, col: nat)
    requires col < NotesPerRow(count) && width >= MIN_HORIZONTAL_PADDING
    ensures var start := HorizontalPadding(width) / 2.0;
            HorizontalPadding(width) / 2.0 <= Offset(start, HorizontalSpacing(count, width), col) <= width - HorizontalPadding(width) / 2.0
  {
    var pad, h, k := HorizontalPadding(width), HorizontalSpacing(count, width), NotesPerRow(count);
    assert ((k - 1) as real) * h <= width - pad by { SpacingFits(count, width); }
    GridArithmetic(width, pad, h, k, col);
  }

  /** A note's column lies within the keys its row holds. */
  lemma ColumnInRow(i: nat, count: nat)
    requires i < count
    ensures Column(i, count) < NotesInRow(Row(i, count), count)
  {
  }

  /** A count of rows whose products with k bracket q·k from above is q. */
  lemma ExactMultiple(q: nat, rows: nat, k: nat)
    requires k > 0 && rows >= 1 && rows * k >= q * k && (rows - 1) * k < q * k
    ensures rows == q
  {
    MulMonoNat(q, rows - 1, k);
    MulMonoNat(rows + 1, q, k);
    assert (rows + 1) * k == rows * k + k;
  }

  /** A row is full when it is the only row, or when the notes fill whole rows. */
  lemma FullRow(row: nat, count: nat)
    requires row < Rows(count)
    ensures Rows(count) == 1 ==> NotesInRow(row, count) == NotesPerRow(count)
    ensures count % NotesPerRow(count) == 0 ==> NotesInRow(row, count) == NotesPerRow(count)
  {
    var k := NotesPerRow(count);
    var rows := Rows(count);
    if row == rows - 1 && count % k == 0 {
      var q := count / k;
      assert count == q * k;
      ExactMultiple(q, rows, k);
      assert (rows - 1) * k + k == rows * k;
    }
  }

  /**
   * On a canvas at least 100 wide every key stays inside the horizontal
   * margins: no nearer to either edge than half the padding.
   */
  lemma {:induction false} XWithinMargins(i: nat, count: nat, width: real)
    requires i < count && width >= MIN_HORIZONTAL_PADDING
    ensures HorizontalPadding(width) / 2.0 <= SlotX(i, count, width) <= width - HorizontalPadding(width) / 2.0
  {
    ColumnInRow(i, count);
    RowBounds(Row(i, count), count, width, Column(i, count));
  }

  /**
   * On a canvas wider than 100 no two keys share a position: notes in
   * different rows differ in y, notes in one row differ in x. Width 100 is
   * the only width at which keys of one row collide: the spacing is 0 there,
   * and on a narrower canvas it is negative, so the keys stay apart but run
   * right to left.
   */
  lemma {:induction false} SlotsDistinct(i: nat, j: nat, count: nat, width: real, height: real)
    requires i < count && j < count && i != j && width > MIN_HORIZONTAL_PADDING
    ensures SlotX(i, count, width) != SlotX(j, count, width) || SlotY(i, count, height) != SlotY(j, count, height)
  {
    var ri, rj := Row(i, count), Row(j, count);
    if ri != rj {
      OffsetsDiffer(StartY(count, height), VerticalSpacing(count, height), ri, rj);
    } else {
      SameRowColumns(i, j, count);
      PositiveSpacing(count, width);
      OffsetsDiffer(RowStart(ri, count, width), HorizontalSpacing(count, width), Column(i, count), Column(j, count));
    }
  }

  /**
   * Every row of more than one key is symmetric about the middle of the
   * canvas: the keys at mirrored columns of a row add up to the width.
   */
  lemma {:induction false} RowsCentred(i: nat, j: nat, count: nat, width: real)
    requires i < count && j < count && Row(i, count) == Row(j, count)
    requires Column(i, count) + Column(j, count) + 1 == NotesInRow(Row(i, count), count)
    requires NotesPerRow(count) > 1
    ensures SlotX(i, count, width) + SlotX(j, count, width) == width
  {
    RowMirror(Row(i, count), count, width, Column(i, count), Column(j, count));
  }

  /** A single note is not centred: it is placed half a padding from the left edge. */
  lemma SingleNoteAtLeftMargin(width: real)
    ensures SlotX(0, 1, width) == HorizontalPadding(width) / 2.0
    ensures width > MIN_HORIZONTAL_PADDING ==> SlotX(0, 1, width) < width / 2.0
  {
    assert NotesPerRow(1) == 1 && Rows(1) == 1;
    assert Column(0, 1) == 0;
  }

  /** Only a partial last row of a grid of several rows leaves the grid's column positions. */
  lemma RecentredOnlyInPartialLastRow(i: nat, count: nat, width: real)
    requires i < count
    requires SlotX(i, count, width) != Offset(HorizontalPadding(width) / 2.0, HorizontalSpacing(count, width), Column(i, count))
    ensures Rows(count) > 1 && Row(i, count) == Rows(count) - 1
    ensures count % NotesPerRow(count) != 0
  {
    FullRow(Row(i, count), count);
  }

  /** n lies in the last of `rows` blocks of k, so n / k is the last block. */
  lemma QuotientInLastBlock(n: nat, k: nat, rows: nat)
    requires k > 0 && rows >= 1 && rows * k > n && (rows - 1) * k <= n
    ensures n / k == rows - 1
  {
    var d := n / k;
    assert n == d * k + n % k;
    MulMonoNat(rows, d, k);
    MulMonoNat(d + 1, rows - 1, k);
    assert (d + 1) * k == d * k + k;
  }

  /** The first row is as far below the top as the last row is above the bottom. */
  lemma StartYCentres(count: nat, height: real)
    requires count > 0
    ensures 2.0 * StartY(count, height) + ((Rows(count) - 1) as real) * VerticalSpacing(count, height) == height
  {
  }

  /** The last note is in the last row and the first note in the first. */
  lemma LastNoteInLastRow(count: nat)
    requires count > 0
    ensures Row(count - 1, count) == Rows(count) - 1 && Row(0, count) == 0
  {
    QuotientInLastBlock(count - 1, NotesPerRow(count), Rows(count));
  }

  /** The first and the last row are equally far from the top and the bottom of the canvas. */
  lemma RowsCentredVertically(count: nat, height: real)
    requires count > 0
    ensures SlotY(0, count, height) + SlotY(count - 1, count, height) == height
  {
    var rows := Rows(count) - 1;
    LastNoteInLastRow(count);
    StartYCentres(count, height);
    MirroredOffsets(StartY(count, height), VerticalSpacing(count, height), 0, rows, rows, height);
  }

  // ---- The keys of a scale ----

  /** The key line setupScale adds for the i-th note: horizontal, as long as the note's frequency asks, tagged with the note. */
  function KeyLine(notes: seq<Note>, i: nat, width: real, height: real, id: nat): Body
    requires i < |notes|
  {
    var count := |notes|;
    Line(id, Vec(SlotX(i, count, width), SlotY(i, count, height)),
         FrequencyToLineLength(Frequency(notes[i])), Vec(1.0, 0.0), Template(notes[i]))
  }

  /** The musical spawner setupScale adds for the i-th note, 150 above its key line. */
  function KeySpawner(notes: seq<Note>, i: nat, width: real, height: real, id: nat): MusicalSpawner
    requires i < |notes|
  {
    var count := |notes|;
    MusicalSpawner(id, Vec(SlotX(i, count, width), SlotY(i, count, height) - SPAWNER_OFFSET_Y), notes[i])
  }

  /** The key lines of a scale, the i-th with identity firstId + i. */
  function ScaleLines(notes: seq<Note>, width: real, height: real, firstId: nat): (lines: seq<Body>)
    ensures |lines| == |notes|
    ensures forall i :: 0 <= i < |notes| ==> lines[i] == KeyLine(notes, i, width, height, firstId + i)
  {
    seq(|notes|, i requires 0 <= i < |notes| => KeyLine(notes, i, width, height, firstId + i))
  }

  /** The musical spawners of a scale, the i-th with identity firstId + i. */
  function ScaleSpawners(notes: seq<Note>, width: real, height: real, firstId: nat): (spawners: seq<MusicalSpawner>)
    ensures |spawners| == |notes|
    ensures forall i :: 0 <= i < |notes| ==> spawners[i] == KeySpawner(notes, i, width, height, firstId + i)
  {
    seq(|notes|, i requires 0 <= i < |notes| => KeySpawner(notes, i, width, height, firstId + i))
  }

  /**
   * One key line and one spawner per note: the spawner sits 150 straight
   * above its line and carries the line's note, and a ball dropped on the
   * line sounds exactly that note's frequency.
   */
  lemma KeysMatchSpawners(notes: seq<Note>, width: real, height: real, lineId: nat, spawnerId: nat, i: nat)
    requires i < |notes|
    ensures var line := ScaleLines(notes, width, height, lineId)[i];
            var spawner := ScaleSpawners(notes, width, height, spawnerId)[i];
            && line.Line? && line.template == Template(spawner.note) && spawner.note == notes[i]
            && spawner.position == Vec(line.center.x, line.center.y - SPAWNER_OFFSET_Y)
            && line.id == lineId + i && spawner.id == spawnerId + i
            && line.length > 0.0 && PitchOfLength(line.length) == Frequency(notes[i])
  {
    PitchOfLineLength(Frequency(notes[i]));
  }
}
