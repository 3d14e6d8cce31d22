/** The gallery wall of loadPaintings / createPlaceholder: paintings are laid
    out row by row, 11 to a row, the grid centred horizontally on x = 0 and
    vertically on the height of the painting centres; every loaded image is
    fitted into a 1 x 0.8 box keeping its aspect ratio, and gets a
    passepartout and a frame just in front of it. */
module GalleryLayout {
  import opened Vectors

  /** paintingBaseSize */
  const BaseWidth: real := 1.0
  const BaseHeight: real := 0.8
  /** spacing between neighbouring paintings */
  const Spacing: real := 0.5
  const PaintingsPerRow: nat := 11
  /** createFrameGeometry arguments of the two decorations */
  const PasspartoutThickness: real := 0.1
  const PasspartoutDepth: real := 0.005
  const FrameThickness: real := 0.04
  const FrameDepth: real := 0.05

  // ---------------------------------------------------------------------
  // Grid
  // ---------------------------------------------------------------------

  /** numRows = Math.ceil(totalPaintings / paintingsPerRow): the least row
      count that holds every painting. */
  function NumRows(total: nat): (rows: nat)
    ensures rows * PaintingsPerRow >= total
    ensures rows > 0 ==> (rows - 1) * PaintingsPerRow < total
    ensures rows == 0 <==> total == 0
  {
    (total + PaintingsPerRow - 1) / PaintingsPerRow
  }

  function Row(index: nat): nat { index / PaintingsPerRow }

  function Col(index: nat): nat { index % PaintingsPerRow }

  /** The position of painting `index` on a wall of numRows rows. */
  function GridPosition(index: nat, numRows: nat): (p: Vec3)
    ensures p.z == 0.0
    ensures -7.5 <= p.x <= 7.5
    ensures p.x == (Col(index) as real - 5.0) * 1.5
    ensures p.y == ((numRows as real - 1.0) / 2.0 - Row(index) as real) * 1.3 + 0.4
  {
    var x := (Col(index) as real - (PaintingsPerRow as real - 1.0) / 2.0) * (BaseWidth + Spacing);
    var y := ((numRows as real - 1.0) / 2.0 - Row(index) as real) * (BaseHeight + Spacing) + BaseHeight / 2.0;
    Vec3(x, y, 0.0)
  }

  /** Every painting of the wall falls in one of its rows, and (row, col)
      gives the index back. */
  lemma RowColRoundTrip(index: nat, total: nat)
    requires index < total
    ensures Row(index) < NumRows(total) && Col(index) < PaintingsPerRow
    ensures index == Row(index) * PaintingsPerRow + Col(index)
  {
  }

  /** The rows of the wall span 1.3 * (numRows - 1) and the grid is
      symmetric about y = 0.4. */
  lemma GridBounds(index: nat, total: nat)
    requires index < total
    ensures var p := GridPosition(index, NumRows(total));
            0.4 - 0.65 * (NumRows(total) as real - 1.0) <= p.y <= 0.4 + 0.65 * (NumRows(total) as real - 1.0)
    ensures var top := GridPosition(0, NumRows(total));
            var bottom := GridPosition((NumRows(total) - 1) * PaintingsPerRow, NumRows(total));
            top.y + bottom.y == 2.0 * 0.4
  {
    RowColRoundTrip(index, total);
  }

  /** Neighbouring slots are a full pitch apart: 1.5 along a row, 1.3 between rows. */
  lemma GridPitch(index: nat, numRows: nat)
    ensures Col(index) + 1 < PaintingsPerRow ==>
              GridPosition(index + 1, numRows).x - GridPosition(index, numRows).x == 1.5
              && GridPosition(index + 1, numRows).y == GridPosition(index, numRows).y
    ensures GridPosition(index, numRows).y - GridPosition(index + PaintingsPerRow, numRows).y == 1.3
            && GridPosition(index + PaintingsPerRow, numRows).x == GridPosition(index, numRows).x
  {
    assert Row(index + PaintingsPerRow) == Row(index) + 1;
    assert Col(index + PaintingsPerRow) == Col(index);
    if Col(index) + 1 < PaintingsPerRow {
      assert Row(index + 1) == Row(index) && Col(index + 1) == Col(index) + 1;
    }
  }

  /** Two different paintings never share a position. */
  lemma GridPositionInjective(i: nat, j: nat, numRows: nat)
    requires i != j
    ensures GridPosition(i, numRows) != GridPosition(j, numRows)
  {
    if Row(i) == Row(j) {
      assert Col(i) != Col(j);
    }
  }

  /** Index 11 of 23 paintings opens the second of three rows, at the wall's
      left edge and at the height of the grid centre. */
  lemma GridExample()
    ensures NumRows(23) == 3 && Row(11) == 1 && Col(11) == 0
    ensures GridPosition(11, NumRows(23)) == Vec3(-7.5, 0.4, 0.0)
  {
  }

  // ---------------------------------------------------------------------
  // Aspect fit
  // ---------------------------------------------------------------------

  datatype PlaneSize = PlaneSize(width: real, height: real)

  /** planeWidth / planeHeight for an image of aspect ratio ar: full base width,
      unless the height would then exceed the base height. */
  function AspectFit(aspectRatio: real): (size: PlaneSize)
    requires aspectRatio > 0.0
    ensures size.width == aspectRatio * size.height
    ensures 0.0 < size.width <= BaseWidth && 0.0 < size.height <= BaseHeight
    ensures size.width == BaseWidth || size.height == BaseHeight
    ensures size.width == BaseWidth <==> BaseWidth / aspectRatio <= BaseHeight
  {
    var planeWidth := BaseWidth;
    var planeHeight := BaseWidth / aspectRatio;
    if planeHeight > BaseHeight then
      PlaneSize(BaseHeight * aspectRatio, BaseHeight)
    else
      PlaneSize(planeWidth, planeHeight)
  }

  /** The fitted plane is the largest of the aspect ratio that fits the base box. */
  lemma AspectFitIsLargest(aspectRatio: real, other: PlaneSize)
    requires aspectRatio > 0.0
    requires other.width == aspectRatio * other.height && other.height > 0.0
    requires other.width <= BaseWidth && other.height <= BaseHeight
    ensures other.width <= AspectFit(aspectRatio).width && other.height <= AspectFit(aspectRatio).height
  {
    var size := AspectFit(aspectRatio);
    if size.width == BaseWidth {
      assert aspectRatio * other.height <= aspectRatio * size.height;
    } else {
      assert size.height == BaseHeight;
      assert aspectRatio * other.height <= aspectRatio * size.height;
    }
  }

  // ---------------------------------------------------------------------
  // Paintings and placeholders
  // ---------------------------------------------------------------------

  /** One entry of the painting JSON; a missing field is None. */
  datatype PaintingData = PaintingData(
    image: Option<string>, name: Option<string>, description: Option<string>,
    video: Option<string>, data: Option<string>)

  datatype Option<T> = None | Some(value: T)

  /** What textureLoader.load reported for an entry that has an Image URL. */
  datatype LoadOutcome = Loaded(imageWidth: real, imageHeight: real) | LoadFailed

  /** A createFrameGeometry mesh placed in the scene. */
  datatype Mount = Mount(width: real, height: real, thickness: real, depth: real, position: Vec3)

  /** A painting or placeholder mesh: its name, position, plane size, userData
      and (for a loaded image only) its passepartout and frame. */
  datatype PaintingMesh = PaintingMesh(
    name: string, position: Vec3, size: PlaneSize, data: PaintingData,
    passpartout: Option<Mount>, frame: Option<Mount>)

  /** JavaScript's `value || fallback` on an optional string: an empty string
      is falsy too. */
  function OrDefault(value: Option<string>, fallback: string): (s: string)
    ensures value.Some? && value.value != "" ==> s == value.value
    ensures value.None? || value.value == "" ==> s == fallback
  {
    if value.Some? && value.value != "" then value.value else fallback
  }

  function DigitChar(d: nat): (c: char)
    requires d < 10
    ensures '0' <= c <= '9' && c as int - '0' as int == d
  {
    (d + '0' as int) as char
  }

  /** The decimal form of n, as a template literal prints it. */
  function NatToString(n: nat): (s: string)
    ensures |s| > 0 && forall i :: 0 <= i < |s| ==> '0' <= s[i] <= '9'
    ensures n > 0 ==> s[0] != '0'
  {
    if n < 10 then [DigitChar(n)] else NatToString(n / 10) + [DigitChar(n % 10)]
  }

  /** The number a string of decimal digits denotes. */
  function DigitsValue(s: string): nat
    requires forall i :: 0 <= i < |s| ==> '0' <= s[i] <= '9'
  {
    if |s| == 0 then 0 else DigitsValue(s[..|s| - 1]) * 10 + (s[|s| - 1] as int - '0' as int)
  }

  /** Reading the printed number back gives n: the default names
      "Painting k" / "Placeholder k" of different indices differ. */
  lemma {:induction false} NatToStringRoundTrip(n: nat)
    ensures DigitsValue(NatToString(n)) == n
  {
    if n >= 10 {
      NatToStringRoundTrip(n / 10);
      var s := NatToString(n);
      assert s[..|s| - 1] == NatToString(n / 10);
    }
  }

  /** createPlaceholder: a bare 1 x 0.8 plane on the grid, named after the
      entry or "Placeholder k", whose userData says the image is not available. */
  function Placeholder(index: nat, numRows: nat, item: PaintingData): (m: PaintingMesh)
    ensures m.position == GridPosition(index, numRows)
    ensures m.size == PlaneSize(1.0, 0.8) && m.passpartout.None? && m.frame.None?
    ensures item.name.Some? && item.name.value != "" ==> m.name == item.name.value
    ensures item.name.None? || item.name.value == "" ==> m.name == "Placeholder " + NatToString(index + 1)
    ensures m.data == item.(name := Some(m.name), description := Some("Image not available."))
  {
    var placeholderName := OrDefault(item.name, "Placeholder " + NatToString(index + 1));
    PaintingMesh(placeholderName, GridPosition(index, numRows), PlaneSize(BaseWidth, BaseHeight),
                 item.(name := Some(placeholderName), description := Some("Image not available.")),
                 None, None)
  }

  /** A loaded painting: the aspect-fitted plane on the grid, with the
      passepartout 0.005 and the frame 0.05 in front of it, the frame sized to
      the plane plus the passepartout on both sides. */
  function LoadedPainting(index: nat, numRows: nat, item: PaintingData, imageWidth: real, imageHeight: real): (m: PaintingMesh)
    requires imageWidth > 0.0 && imageHeight > 0.0
    ensures m.name == OrDefault(item.name, "Painting " + NatToString(index + 1)) && m.data == item
    ensures m.position == GridPosition(index, numRows)
    ensures m.size == AspectFit(imageWidth / imageHeight)
    ensures m.passpartout == Some(Mount(m.size.width, m.size.height, 0.1, 0.005, Add(m.position, Vec3(0.0, 0.0, 0.005))))
    ensures m.frame == Some(Mount(m.size.width + 0.2, m.size.height + 0.2, 0.04, 0.05, Add(m.position, Vec3(0.0, 0.0, 0.05))))
  {
    var size := AspectFit(imageWidth / imageHeight);
    var position := GridPosition(index, numRows);
    var passpartout := Mount(size.width, size.height, PasspartoutThickness, PasspartoutDepth,
                             Vec3(position.x, position.y, position.z + PasspartoutDepth));
    var frame := Mount(size.width + PasspartoutThickness * 2.0, size.height + PasspartoutThickness * 2.0,
                       FrameThickness, FrameDepth, Vec3(position.x, position.y, position.z + FrameDepth));
    PaintingMesh(OrDefault(item.name, "Painting " + NatToString(index + 1)), position, size, item,
                 Some(passpartout), Some(frame))
  }

  /** `if (!imageUrl)`: a missing or empty Image takes the placeholder path. */
  predicate HasImage(item: PaintingData) {
    item.image.Some? && item.image.value != ""
  }

  predicate ValidOutcome(outcome: LoadOutcome) {
    outcome.Loaded? ==> outcome.imageWidth > 0.0 && outcome.imageHeight > 0.0
  }

  /** The mesh loadPaintings ends up with for entry `index`: a placeholder when
      the entry has no Image or its texture failed to load. */
  function PaintingFor(index: nat, numRows: nat, item: PaintingData, outcome: LoadOutcome): (m: PaintingMesh)
    requires ValidOutcome(outcome)
    ensures m.position == GridPosition(index, numRows)
    ensures m.frame.Some? <==> HasImage(item) && outcome.Loaded?
    ensures m.frame.None? ==> m == Placeholder(index, numRows, item)
    ensures m.frame.Some? ==> m.data == item && m.size == AspectFit(outcome.imageWidth / outcome.imageHeight)
    ensures m.frame.Some? ==> m.name == OrDefault(item.name, "Painting " + NatToString(index + 1))
  {
    if !HasImage(item) then Placeholder(index, numRows, item)
    else if outcome.LoadFailed? then Placeholder(index, numRows, item)
    else LoadedPainting(index, numRows, item, outcome.imageWidth, outcome.imageHeight)
  }

  /** Every painting sits on its grid slot; a loaded one is aspect-fitted and
      framed, its decorations centred on it; a placeholder is the full base
      size with no frame and says the image is not available. */
  lemma PaintingForShape(index: nat, numRows: nat, item: PaintingData, outcome: LoadOutcome)
    requires ValidOutcome(outcome)
    ensures var m := PaintingFor(index, numRows, item, outcome);
            && m.position == GridPosition(index, numRows)
            && m.size.width <= BaseWidth && m.size.height <= BaseHeight
            && (m.frame.Some? <==> HasImage(item) && outcome.Loaded?)
            && (m.frame.Some? ==>
                 && m.passpartout.Some?
                 && m.size == AspectFit(outcome.imageWidth / outcome.imageHeight)
                 && m.passpartout.value.position == Add(m.position, Vec3(0.0, 0.0, 0.005))
                 && m.frame.value.position == Add(m.position, Vec3(0.0, 0.0, 0.05))
                 && m.frame.value.width == m.size.width + 0.2
                 && m.frame.value.height == m.size.height + 0.2
                 && m.passpartout.value.width == m.size.width && m.passpartout.value.height == m.size.height)
            && (m.frame.None? ==>
                 && m.passpartout.None?
                 && m.size == PlaneSize(1.0, 0.8)
                 && m.data.description == Some("Image not available.")
                 && m.data.name == Some(m.name))
  {
  }

  /** The outer edge of a frame, plane plus 2 x 0.1 passepartout plus 2 x 0.04
      frame, stays inside the grid pitch, so neighbouring frames never touch. */
  lemma FramesDoNotOverlap(index: nat, numRows: nat, item: PaintingData, outcome: LoadOutcome)
    requires ValidOutcome(outcome)
    ensures var m := PaintingFor(index, numRows, item, outcome);
            m.frame.Some? ==>
              m.frame.value.width + 2.0 * m.frame.value.thickness < BaseWidth + Spacing
              && m.frame.value.height + 2.0 * m.frame.value.thickness < BaseHeight + Spacing
  {
  }

  /** The forEach of loadPaintings, with every texture load already settled. */
  method LoadPaintings(items: seq<PaintingData>, outcomes: seq<LoadOutcome>) returns (paintings: seq<PaintingMesh>)
    requires |outcomes| == |items|
    requires forall i :: 0 <= i < |outcomes| ==> ValidOutcome(outcomes[i])
    ensures |paintings| == |items|
    ensures forall i :: 0 <= i < |items| ==> paintings[i] == PaintingFor(i, NumRows(|items|), items[i], outcomes[i])
  {
    var totalPaintings := |items|;
    var numRows := (totalPaintings + PaintingsPerRow - 1) / PaintingsPerRow;
    paintings := [];
    var index := 0;
    while index < |items|
      invariant 0 <= index <= |items|
      invariant |paintings| == index
      invariant forall i :: 0 <= i < index ==> paintings[i] == PaintingFor(i, numRows, items[i], outcomes[i])
    {
      var item := items[index];
      var mesh;
      if item.image.None? || item.image.value == "" {
        mesh := Placeholder(index, numRows, item);
      } else if outcomes[index].LoadFailed? {
        mesh := Placeholder(index, numRows, item);
      } else {
        var aspectRatio := outcomes[index].imageWidth / outcomes[index].imageHeight;
        var planeWidth := BaseWidth;
        var planeHeight := BaseWidth / aspectRatio;
        if planeHeight > BaseHeight {
          planeHeight := BaseHeight;
          planeWidth := BaseHeight * aspectRatio;
        }
        var position := GridPosition(index, numRows);
        var passpartout := Mount(planeWidth, planeHeight, PasspartoutThickness, PasspartoutDepth,
                                 Vec3(position.x, position.y, position.z + PasspartoutDepth));
        var frame := Mount(planeWidth + PasspartoutThickness * 2.0, planeHeight + PasspartoutThickness * 2.0,
                           FrameThickness, FrameDepth, Vec3(position.x, position.y, position.z + FrameDepth));
        mesh := PaintingMesh(OrDefault(item.name, "Painting " + NatToString(index + 1)), position,
                             PlaneSize(planeWidth, planeHeight), item, Some(passpartout), Some(frame));
      }
      paintings := paintings + [mesh];
      index := index + 1;
    }
  }

  // ---------------------------------------------------------------------
  // Load counter
  // ---------------------------------------------------------------------

  /** How many texture callbacks (success or error) reach onTextureLoadOrError:
      one per entry with an Image; the placeholder path returns before it. */
  function ImagedCount(items: seq<PaintingData>): (n: nat)
    ensures n <= |items|
  {
    if |items| == 0 then 0
    else ImagedCount(items[..|items| - 1]) + (if HasImage(items[|items| - 1]) then 1 else 0)
  }

  /** The counter takes the values 1, 2, ..., settled; createBackgroundScene
      runs when one of them equals totalToLoad. */
  predicate RoomCreated(totalToLoad: nat, settled: nat) {
    0 < totalToLoad <= settled
  }

  /** As written, the counter's target is the number of entries while only the
      entries with an image are counted. */
  predicate RoomCreatedAsWritten(items: seq<PaintingData>) {
    RoomCreated(|items|, ImagedCount(items))
  }

  /** The corrected callback count: the placeholder path settles its entry
      too, so every entry reaches the counter exactly once. */
  function SettledCount(items: seq<PaintingData>): (n: nat)
    ensures n == |items|
  {
    if |items| == 0 then 0 else SettledCount(items[..|items| - 1]) + 1
  }

  /** Counting every settled entry, placeholders included. */
  predicate RoomCreatedCorrected(items: seq<PaintingData>) {
    RoomCreated(|items|, SettledCount(items))
  }

  /** The counter of loadPaintings run over the settled entries:
      paintingsLoadedCount is incremented for every entry with an Image (and,
      when countPlaceholders, for every placeholder too), and
      createBackgroundScene runs when it reaches totalPaintingsToLoad. */
  method CountSettled(items: seq<PaintingData>, countPlaceholders: bool)
    returns (paintingsLoadedCount: nat, roomCreated: bool)
    ensures paintingsLoadedCount == (if countPlaceholders then SettledCount(items) else ImagedCount(items))
    ensures roomCreated == (if countPlaceholders then RoomCreatedCorrected(items) else RoomCreatedAsWritten(items))
  {
    var totalPaintingsToLoad := |items|;
    paintingsLoadedCount, roomCreated := 0, false;
    var index := 0;
    while index < |items|
      invariant 0 <= index <= |items|
      invariant paintingsLoadedCount ==
                  (if countPlaceholders then SettledCount(items[..index]) else ImagedCount(items[..index]))
      invariant roomCreated == RoomCreated(totalPaintingsToLoad, paintingsLoadedCount)
    {
      assert items[..index + 1][..index] == items[..index];
      if HasImage(items[index]) || countPlaceholders {
        paintingsLoadedCount := paintingsLoadedCount + 1;
        if paintingsLoadedCount == totalPaintingsToLoad {
          roomCreated := true;
        }
      }
      index := index + 1;
    }
    assert items[..index] == items;
  }

  lemma {:induction false} ImagedCountAll(items: seq<PaintingData>)
    ensures ImagedCount(items) == |items| <==> forall i :: 0 <= i < |items| ==> HasImage(items[i])
  {
    if |items| > 0 {
      var init := items[..|items| - 1];
      ImagedCountAll(init);
      assert forall i :: 0 <= i < |init| ==> init[i] == items[i];
    }
  }

  /** As written, the room appears only when every entry has an image. */
  lemma RoomCreatedAsWrittenIff(items: seq<PaintingData>)
    ensures RoomCreatedAsWritten(items) <==> |items| > 0 && forall i :: 0 <= i < |items| ==> HasImage(items[i])
  {
    ImagedCountAll(items);
  }

  /** One entry without an Image next to one with: the counter stops at 1 of 2. */
  lemma MissingImageBlocksRoom()
    ensures !RoomCreatedAsWritten([PaintingData(None, None, None, None, None),
                                   PaintingData(Some("a.jpg"), None, None, None, None)])
  {
    var items := [PaintingData(None, None, None, None, None),
                  PaintingData(Some("a.jpg"), None, None, None, None)];
    assert ImagedCount(items[..1]) == 0;
  }

  /** Counted on every path, the room appears for any non-empty gallery. */
  lemma RoomCreatedCorrectedIff(items: seq<PaintingData>)
    ensures RoomCreatedCorrected(items) <==> |items| > 0
    ensures RoomCreatedAsWritten(items) ==> RoomCreatedCorrected(items)
  {
  }
}
