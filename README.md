# Gallery core, modelled in Dafny

A model of the core of `gallery_component_script.js`, a three.js picture gallery.
Paintings from a JSON list hang on a wall in a grid of rows of 11. Each loaded image is
aspect-fitted into a 1 x 0.8 box and sits behind a passepartout and a frame. Those two
are meshes built by `createFrameGeometry`: a four-point cross-section is swept around a
rectangle into 16 flat quads, and every vertex gets texture coordinates by projecting it
onto the plane of its normal's dominant axis. Clicking a painting flies the camera in
front of it. Clicking it again, or the empty wall, flies the camera back. Once the camera
has arrived, an action panel appears with Info, Video and Data buttons. An inactivity
timeout hides the panel again.

Files and modules:

- `vectors.dfy` (`Vectors`): 3-vectors over the reals and `computeMaxAbsComponentIdx`.
- `uv_mapping.dfy` (`UVMapping`): `computeUVs`.
- `frame_geometry.dfy` (`FrameGeometry`): `createFrameGeometry`, that is the profile, the sweep and the flattening.
- `layout.dfy` (`GalleryLayout`): `loadPaintings` / `createPlaceholder`, meaning the grid, the aspect fit, the placeholders and the load counter.
- `session.dfy` (`GallerySession`): the click / flight / panel state machine.

The geometry builders are imperative. Each is a method with its loops, proved equal to a
closed-form specification function, and the properties are lemmas about that function.

The session works in two layers:

- **Specification layer.** A value `SessionState` holds everything the handlers read and
  write. Pure transition functions (`OnClick`, `OnAnimationDone`, ...) and an invariant
  `Inv` say what the handlers do.
- **Class layer.** `Session` holds the same state in fields and has one method per
  handler. Each method is proved to perform exactly that handler's transition. The seven
  event methods (`CanvasClick`, `CompleteAnimation`, `CanvasMouseMove`, `Wheel`,
  `CanvasMouseLeave`, `InactivityTimeoutFired`, `UserOrbit`) also require and keep `Inv`,
  through `Valid()`. `HandleAction` requires it and changes nothing. The five helpers they
  call (`UpdateActionsPanelVisibility`, `StartTimer`, `ShowPanel`, `FocusOn`,
  `ResetCamera`) run on the intermediate states of a handler. They only perform their
  transition and promise nothing about `Inv`.

The raycast, the tween's completion and the timer's expiry become inputs:

- the index of the painting under the pointer;
- a `CompleteAnimation` call;
- an `InactivityTimeoutFired` call.

The model follows the code:

- A flight home always returns to the camera position and orbit target captured once at
  start-up (`originalCameraPosition` / `originalControlsTarget`).
- The focus position is the painting's position plus 0.8 along +z.
- Clicking another painting while one is focused flies straight to the new one.
- Placeholders get no passepartout or frame.

## Model

| member | source | states |
|---|---|---|
| Vectors.MaxAbsComponentIdx | source/gallery_component_script.js:502-513 | the axis returned has a largest absolute coordinate; a tie goes to x before y before z |
| Vectors.MaxAbsComponentIdxScaleInvariant | source/gallery_component_script.js:680 | rescaling a normal by any positive factor (as normalize() does) keeps its dominant axis |
| Vectors.CrossOrthogonal | source/gallery_component_script.js:678-680 | the cross product of the two quad edges is orthogonal to both edges |
| UVMapping.Lower | source/gallery_component_script.js:526-529 | the running componentwise minimum is below every unique vertex |
| UVMapping.Upper | source/gallery_component_script.js:526-529 | the running componentwise maximum is above every unique vertex |
| UVMapping.LowerAttained | source/gallery_component_script.js:526-529 | each coordinate of the minimum is the coordinate of some vertex, so the box is tight |
| UVMapping.UpperAttained | source/gallery_component_script.js:526-529 | each coordinate of the maximum is the coordinate of some vertex |
| UVMapping.BoundingBox | source/gallery_component_script.js:523-543 | with no unique vertices the box is the unit box (0,0,0)-(1,1,1); otherwise it is exactly the componentwise minimum and maximum of the vertices, so it is ordered and contains every one of them |
| UVMapping.RepetitionSize | source/gallery_component_script.js:546-551 | the repetition size is one of the three extents of the box, so the largest of them, or 1 when the box is a single point; it is positive |
| UVMapping.ComputeBoundingBox | source/gallery_component_script.js:523-543 | the min/max loop yields exactly the bounding box above |
| UVMapping.UVs | source/gallery_component_script.js:516-520 | an empty vertex array, or one whose length differs from the normals', gives an empty UV array; otherwise there are two entries per vertex |
| UVMapping.PlaneUV | source/gallery_component_script.js:563-584 | a face whose normal points mostly along x is textured with (z, y), mostly along y with (x, z), otherwise with (x, y); each measured from the box minimum and divided by the repetition size; ties go to x, then y |
| UVMapping.Swapped | source/gallery_component_script.js:587-589 | vertex i is swapped exactly when it lies in the second half of its period of 2 * numVerticesPerSide; never when numVerticesPerSide is not positive |
| UVMapping.UVsIndex | source/gallery_component_script.js:557-594 | entries 2i and 2i+1 are the coordinate pair computed for vertex i |
| UVMapping.UVAt | source/gallery_component_script.js:563-594 | vertex i is projected onto the plane of its normal's dominant axis, offset by the box minimum and divided by the repetition size; the pair is exchanged when trunc(i / numVerticesPerSide) is odd |
| UVMapping.PairInUnitSquare | source/gallery_component_script.js:566 | a vertex inside the box gets both coordinates in [0, 1] |
| UVMapping.UVInUnitSquare | source/gallery_component_script.js:546-594 | every UV entry of a vertex inside the box lies in [0, 1] |
| UVMapping.UVsIgnoreNormalLength | source/gallery_component_script.js:563 | scaling each normal by its own positive factor leaves the UV array unchanged |
| UVMapping.LowerTranslate | source/gallery_component_script.js:526-529 | translating all vertices translates the box minimum and maximum by the same vector |
| UVMapping.UVsTranslationInvariant | source/gallery_component_script.js:546-594 | translating the unique and mesh vertices together leaves every UV unchanged |
| UVMapping.VertexUVStep | source/gallery_component_script.js:563-593 | the switch on the dominant axis, then the vertical swap, gives the specified pair for one vertex |
| UVMapping.ComputeUVs | source/gallery_component_script.js:516-598 | the computeUVs loop produces exactly the specified UV array, including the empty error result |
| FrameGeometry.ProfilePrefixAt | source/gallery_component_script.js:625-642 | after n corners the profile holds 4n points; point 4i+s is slot s of corner i |
| FrameGeometry.ProfilePoint | source/gallery_component_script.js:603-641 | the two front points lie at z = 0 and the two back points at z = -depth; the inner points sit at the rectangle corner (+-w/2, +-h/2) on the side signs[i] points to, the outer points thickness further out along both axes |
| FrameGeometry.ProfileShape | source/gallery_component_script.js:603-642 | the 16 profile points are, per corner: the inner front corner, that corner pushed out by thickness along its diagonal signs, the same point at z = -depth, and the inner corner at z = -depth |
| FrameGeometry.BuildProfile | source/gallery_component_script.js:620-642 | the profile loop yields exactly the specified 16 points |
| FrameGeometry.Corners | source/gallery_component_script.js:657-663 | the quad's four profile indices wrap modulo the side and face counts and stay below 16 |
| FrameGeometry.QuadNormal | source/gallery_component_script.js:676-680 | the quad normal is orthogonal to both edges p1 - p0 and p2 - p0 |
| FrameGeometry.TriangleCorner | source/gallery_component_script.js:690-696 | the two triangles of a quad use only its corners 0..3 |
| FrameGeometry.MeshQuadAt | source/gallery_component_script.js:653-687 | mesh vertex 4(4·side + face) + k is profile point Corners(side, face, k), and its normal is that quad's normal |
| FrameGeometry.MeshIndicesInRange | source/gallery_component_script.js:690-698 | every index is below the vertex count, lies within its own quad's four vertices, and all three corners of a triangle share one normal |
| FrameGeometry.SweepIsClosed | source/gallery_component_script.js:657-663 | neighbouring quads along the sides and along the profile share an edge, so the swept surface closes |
| FrameGeometry.FlatNormal | source/gallery_component_script.js:678-680 | three points in one z-plane have a cross product along z |
| FrameGeometry.FrontFace | source/gallery_component_script.js:625-680 | for positive sizes the front quad of every side faces +z, so its UVs come from (x, y) |
| FrameGeometry.BackFace | source/gallery_component_script.js:625-680 | the back quad of every side faces -z |
| FrameGeometry.OuterFace | source/gallery_component_script.js:625-680 | with positive sizes, the outer quad of each side points away from the opening: up, right, down, left. Its normal is the outer edge times the depth, so the top and bottom sides take their UVs from (x, z) and the left and right sides from (z, y) |
| FrameGeometry.InnerFace | source/gallery_component_script.js:625-680 | with positive sizes, the inner quad of each side points into the opening. Its normal is the opening's edge times the depth, and it picks the same UV plane as the outer quad |
| FrameGeometry.PushQuad | source/gallery_component_script.js:665-698 | one loop step appends the quad's 4 vertices, 4 copies of its normal and 6 indices offset by currentVertexOffset |
| FrameGeometry.SweepProfile | source/gallery_component_script.js:645-700 | the nested side/face loops produce exactly the 64 vertices, 64 normals and 96 indices of the specification |
| FrameGeometry.FlattenAt | source/gallery_component_script.js:708-715 | flattened entries 3i, 3i+1 and 3i+2 are x, y and z of vector i |
| FrameGeometry.Flatten | source/gallery_component_script.js:708-715 | the flat array has three entries per vector |
| FrameGeometry.FlattenRoundTrip | source/gallery_component_script.js:708-715 | the flat attribute array regroups into the original vectors |
| FrameGeometry.FlattenVectors | source/gallery_component_script.js:708-711 | the push loop produces the flattened array |
| FrameGeometry.CreateFrameGeometry | source/gallery_component_script.js:601-728 | the whole builder returns the specified positions, normals, UVs and indices |
| FrameGeometry.FrameGeometryWellFormed | source/gallery_component_script.js:704-722 | the buffers hold 192 position and 192 normal floats, 128 UV floats and 96 indices; every index addresses a vertex; every UV lies in [0, 1] |
| FrameGeometry.FramePositionAt | source/gallery_component_script.js:708-719 | position floats 3j..3j+2 of vertex j = 4q + k are the coordinates of corner k of quad q |
| GalleryLayout.NumRows | source/gallery_component_script.js:735 | the row count is the ceiling of total / 11: enough rows, no spare row, and no rows only for an empty list |
| GalleryLayout.RowColRoundTrip | source/gallery_component_script.js:781-782 | every painting falls in an existing row and column, and row·11 + col gives the index back |
| GalleryLayout.GridPosition | source/gallery_component_script.js:781-786 | the slot lies at z = 0, its x = (col - 5) * 1.5 is within [-7.5, 7.5], and its y = ((rows - 1)/2 - row) * 1.3 + 0.4 |
| GalleryLayout.GridBounds | source/gallery_component_script.js:784-786 | the rows of a wall span 0.65 * (rows - 1) either side of y = 0.4, and the top and bottom rows are symmetric about it |
| GalleryLayout.GridPitch | source/gallery_component_script.js:784-785 | neighbours along a row are 1.5 apart at the same height; neighbours between rows are 1.3 apart in the same column |
| GalleryLayout.GridPositionInjective | source/gallery_component_script.js:781-786 | two different indices never get the same position |
| GalleryLayout.GridExample | source/gallery_component_script.js:781-786 | painting 11 of 23 opens the middle of 3 rows at (-7.5, 0.4, 0) |
| GalleryLayout.AspectFit | source/gallery_component_script.js:763-769 | the plane keeps the image's aspect ratio and fits 1 x 0.8; it has full width exactly when 1/ratio <= 0.8, and full height otherwise |
| GalleryLayout.AspectFitIsLargest | source/gallery_component_script.js:763-769 | no plane of that aspect ratio fitting the box is wider or taller |
| GalleryLayout.OrDefault | source/gallery_component_script.js:743 | JavaScript's logical or with a fallback string: the value when present and non-empty, else the fallback |
| GalleryLayout.NatToString | source/gallery_component_script.js:743 | the number in a default name is a non-empty string of decimal digits with no leading zero |
| GalleryLayout.NatToStringRoundTrip | source/gallery_component_script.js:743 | the printed number reads back as the number, so default names of different indices differ |
| GalleryLayout.Placeholder | source/gallery_component_script.js:842-859 | a placeholder is a bare 1 x 0.8 plane on its grid slot with no passepartout or frame, named after the entry or "Placeholder k" for index k - 1; its userData is the entry with that name and the description "Image not available." |
| GalleryLayout.LoadedPainting | source/gallery_component_script.js:742-809 | a loaded image gives the aspect-fitted plane on its grid slot, named after the entry or "Painting k" for index k - 1, keeping the entry as userData. It carries a 0.1-wide passepartout 0.005 deep and a 0.04-wide frame 0.05 deep, each that far in front of the plane. The passepartout is the plane's size and the frame is 0.2 larger |
| GalleryLayout.PaintingFor | source/gallery_component_script.js:742-838 | the mesh for an entry sits on its grid slot. It is framed exactly when it has an Image that loaded, and then keeps the entry as userData, the aspect-fitted size and the name from the entry or "Painting k". Otherwise it is that entry's placeholder |
| GalleryLayout.PaintingForShape | source/gallery_component_script.js:759-809 | every painting is on its grid slot. A framed painting is aspect-fitted, with the passepartout 0.005 and the frame 0.05 in front of it, the frame 0.2 larger. It is framed exactly when it has an Image that loaded. Otherwise it is a bare 1 x 0.8 placeholder whose userData carries its name and "Image not available." |
| GalleryLayout.FramesDoNotOverlap | source/gallery_component_script.js:792-809 | a frame's outer edge is narrower than the 1.5 grid pitch and lower than the 1.3 row pitch |
| GalleryLayout.LoadPaintings | source/gallery_component_script.js:731-838 | the forEach yields one mesh per entry: the framed painting or the placeholder, as specified, with names defaulted |
| GalleryLayout.ImagedCount | source/gallery_component_script.js:745-761 | the number of entries that reach onTextureLoadOrError is at most the number of entries |
| GalleryLayout.ImagedCountAll | source/gallery_component_script.js:745-761 | that count equals the number of entries exactly when every entry has an Image |
| GalleryLayout.RoomCreatedAsWrittenIff | source/gallery_component_script.js:737-761 | as written, createBackgroundScene runs exactly when the list is non-empty and every entry has an Image |
| GalleryLayout.MissingImageBlocksRoom | source/gallery_component_script.js:737-761 | with one entry without and one with an Image, the counter stops at 1 of 2 and the room is never built |
| GalleryLayout.RoomCreatedCorrectedIff | source/gallery_component_script.js:737-761 | counting the placeholder path too, the room is built for every non-empty list |
| GalleryLayout.SettledCount | source/gallery_component_script.js:745-761 | counting the placeholder path too, every entry reaches the counter exactly once, so it ends at the number of entries |
| GalleryLayout.CountSettled | source/gallery_component_script.js:737-761 | the counter loop ends at the number of imaged entries as written, or of all entries when placeholders are counted; createBackgroundScene runs exactly when the corresponding room predicate holds |
| GallerySession.LowerChar | source/gallery_component_script.js:1114-1115 | toLowerCase on one character: an upper-case letter maps to the letter 32 code points later, every other character is unchanged, and the result is never upper case |
| GallerySession.LowerIsNoneIff | source/gallery_component_script.js:1114-1115 | a link lower-cases to "none" exactly when it is one of the 16 letter-case spellings of none |
| GallerySession.LinkEnabled | source/gallery_component_script.js:1114-1115 | a link enables its button exactly when it is present, non-empty and not one of the 16 letter-case spellings of none |
| GallerySession.LinkExamples | source/gallery_component_script.js:1114-1115 | a missing link, "", "None" and "NONE" disable a button; a URL enables it |
| GallerySession.ActionEffect | source/gallery_component_script.js:1147-1171 | with no focus, or for Info, nothing happens. Video opens the link exactly when it is usable, Data downloads exactly when usable, and each alerts its own message exactly when its link is not usable |
| GallerySession.UpdatePanelVisibility | source/gallery_component_script.js:1104-1145 | the panel is shown exactly when asked to with a painting focused at rest, and then labels the Info button with the name (or "Info") and disables Video and Data exactly when their links are unusable; hiding touches only the visibility, and nothing but the panel and its buttons ever changes |
| GallerySession.OnInactivityTimeout | source/gallery_component_script.js:958-968 | an armed timeout hides the panel and the tooltip and disarms itself, and nothing else changes. A cleared one changes nothing |
| GallerySession.StartInactivityTimer | source/gallery_component_script.js:954-970 | the previous timeout is cleared and a new one is armed exactly when a painting is focused at rest; nothing else changes |
| GallerySession.ShowActionPanel | source/gallery_component_script.js:995-1006 | with a painting focused at rest, the panel shows that painting's buttons and description and the timeout is armed; otherwise nothing changes; focus, flight, camera, controls and tooltip never change |
| GallerySession.FocusCameraOnPainting | source/gallery_component_script.js:1009-1042 | during a flight nothing changes; otherwise a flight starts to 0.8 in front of the painting, looking at it, with the controls off and the panel and tooltip hidden, the camera not yet moved |
| GallerySession.ResetCameraPosition | source/gallery_component_script.js:1044-1066 | unless flying with nothing focused, a flight home to the start-up camera and target starts, with the controls off, the panel hidden and the timeout cleared, the camera not yet moved |
| GallerySession.OnClick | source/gallery_component_script.js:912-942 | a click during a flight, or on the wall with nothing focused, changes nothing; a click on a painting that is not focused focuses it and starts a flight to it; a click on the focused painting or the wall starts a flight home; the camera does not move on a click |
| GallerySession.OnAnimationDone | source/gallery_component_script.js:1033-1064 | with no flight nothing changes; otherwise the camera and target reach the flight's ends, the flight ends and the controls are on; a flight home leaves nothing focused, a focus flight shows the focused painting's panel with the timeout armed |
| GallerySession.OnMouseMove | source/gallery_component_script.js:870-910 | a pointer move keeps focus, flight and camera; the tooltip is the hovered painting's name only with nothing focused and no flight; over a focused painting at rest the panel is shown with the timeout armed; otherwise nothing but the tooltip changes |
| GallerySession.InitialStateInv | source/gallery_component_script.js:28-33 | the start-up state, with nothing focused, no flight and the controls on, satisfies the invariant |
| GallerySession.ShowActionPanelInv | source/gallery_component_script.js:995-1006 | showActionPanel keeps the invariant |
| GallerySession.OnClickInv | source/gallery_component_script.js:912-942 | a click keeps the invariant |
| GallerySession.OnAnimationDoneInv | source/gallery_component_script.js:1033-1064 | the end of either flight keeps the invariant |
| GallerySession.OnMouseMoveInv | source/gallery_component_script.js:869-910 | a pointer move keeps the invariant |
| GallerySession.StepInv | source/gallery_component_script.js:196-208 | every event keeps the invariant. A flight has a focused painting and heads for it or home. The controls are off exactly during a flight. No timeout is pending on the way home. The panel is visible only for the focused painting at rest, with its buttons and a timeout pending. No tooltip shows while focused or moving |
| GallerySession.ClickIgnoredWhileAnimating | source/gallery_component_script.js:914 | a click during a flight changes nothing |
| GallerySession.FocusLands | source/gallery_component_script.js:1009-1042 | clicking a painting that is not focused starts a flight to it, with the controls, panel and tooltip off. On arrival the camera is 0.8 in front of it, looking at it, the controls are on, and the panel shows its buttons with the timeout armed |
| GallerySession.ResetRestoresView | source/gallery_component_script.js:1044-1066 | clicking the focused painting, or the wall, hides the panel and clears the timeout at once. On arrival the camera and target are back at the start-up values, nothing is focused and the controls are on |
| GallerySession.ClickOnWallAtHome | source/gallery_component_script.js:937-941 | a click on the wall with nothing focused does nothing |
| GallerySession.FocusChangesOnlyByClickOrArrival | source/gallery_component_script.js:862-970 | no event other than a click or a flight's end changes the focus or the pending flight |
| GallerySession.CameraMovesOnlyByTweenOrControls | source/gallery_component_script.js:1013 | the camera or target moves only when a flight ends, or when the user orbits with the controls enabled |
| GallerySession.FocusThenResetRoundTrip | source/gallery_component_script.js:1009-1066 | focus, arrive, click again, arrive: the state equals the start-up state except for the hidden panel's button texts |
| GallerySession.PanelButtonsMatchActions | source/gallery_component_script.js:1113-1169 | with the panel visible, a button is disabled exactly when its action would alert; enabled buttons open or download the painting's own link |
| GallerySession.HidingEvents | source/gallery_component_script.js:954-970 | the timeout hides the panel and tooltip, and the wheel hides the panel, neither touching the focus or the camera. A timeout that was cleared changes nothing |
| GallerySession.MouseMoveShows | source/gallery_component_script.js:869-910 | moving over a focused painting at rest re-shows the panel and re-arms the timeout; with nothing focused, the tooltip is the hovered painting's name or hidden |
| GallerySession.Session.constructor | source/gallery_component_script.js:113-165 | the session starts in the start-up state and satisfies the invariant |
| GallerySession.Session.UpdateActionsPanelVisibility | source/gallery_component_script.js:1104-1145 | performs updateActionsPanelVisibility's transition: labels and shows the panel only for a focused painting at rest, else hides it |
| GallerySession.Session.StartTimer | source/gallery_component_script.js:954-970 | performs startInactivityTimer's transition: clears the old timeout and arms a new one only while focused at rest |
| GallerySession.Session.ShowPanel | source/gallery_component_script.js:995-1006 | performs showActionPanel's transition |
| GallerySession.Session.FocusOn | source/gallery_component_script.js:1009-1031 | performs focusCameraOnPainting's transition |
| GallerySession.Session.ResetCamera | source/gallery_component_script.js:1044-1057 | performs resetCameraPosition's transition |
| GallerySession.Session.CanvasClick | source/gallery_component_script.js:912-942 | performs onCanvasClick's transition and keeps the invariant |
| GallerySession.Session.CompleteAnimation | source/gallery_component_script.js:1033-1064 | performs the two onComplete callbacks (focus arrival and home arrival) and keeps the invariant |
| GallerySession.Session.CanvasMouseMove | source/gallery_component_script.js:869-910 | performs onCanvasMouseMove's transition and keeps the invariant |
| GallerySession.Session.Wheel | source/gallery_component_script.js:862-867 | hides the panel and keeps the invariant |
| GallerySession.Session.CanvasMouseLeave | source/gallery_component_script.js:945-950 | hides the tooltip and keeps the invariant |
| GallerySession.Session.InactivityTimeoutFired | source/gallery_component_script.js:960-968 | performs the timeout callback and keeps the invariant |
| GallerySession.Session.UserOrbit | source/gallery_component_script.js:1013 | orbiting moves the camera only while the controls are enabled, and keeps the invariant |
| GallerySession.Session.HandleAction | source/gallery_component_script.js:1147-1171 | returns handleAction's effect. Nothing happens without a focus. With the panel visible, it alerts exactly for a disabled button |

## Left out

- Rendering is not modelled: the scene graph, materials, shadows, lights, the headlight and its intensity, the resize handler, and the background room (`createBackgroundScene`) apart from whether it is built.
- Texture loading is an input. Each entry's outcome (loaded with a size, or failed) is given up front. `scene.add` / `paintings.push` happen in load-completion order in the page. `LoadPaintings` returns the meshes in entry order, so that order is not modelled.
- The JSON fetch is not modelled. The painting list is a parameter.
- Raycasting is an input: the index of the hit painting, or none. Only paintings are pickable, as in the page.
- Tweens run as one step. Their easing, their duration and the intermediate camera positions are not modelled. `CompleteAnimation` moves the camera and the target to their end points at once.
- OrbitControls internals (damping inertia, zoom limits) are not modelled. `UserOrbit` stands for any user camera move and is gated by `controls.enabled`.
- Timers are events. The 1000 ms inactivity duration and the clock are not modelled: `InactivityTimeoutFired` is the callback firing.
- The panel's fade tweens, its opacity and `updateActionsPanelPosition` (projecting the painting's corners to pixels) are not modelled. `panelVisible` is the shown / hidden decision.
- The tooltip's pixel position is not modelled. The description is kept as the optional string assigned to `innerHTML`; HTML parsing is not modelled.
- Auto-panning (`isAutoPanning`, `currentPanSpeedX`) is not modelled. It is set in `onCanvasMouseLeave` but never drives the camera in the modelled code.
- Floating point: coordinates and sizes are exact reals. Float32 rounding of the buffers is not modelled.
- `normalize()` needs a square root, which is not modelled. The quad normals are the raw cross products. `Vectors.MaxAbsComponentIdxScaleInvariant` and `UVMapping.UVsIgnoreNormalLength` show that this changes no UV; the `normal` attribute's length is not captured.
- UVMapping.BoundingBox: the page starts the box at +/-Infinity and falls back to the unit box when it stays infinite. With real coordinates that happens exactly when there are no unique vertices, so the model tests for an empty list. The re-scan inside the fallback is unreachable and is not modelled.
- GallerySession.LowerChar: lower-cases ASCII letters only. Other Unicode case mappings are not modelled.
- GallerySession.ResetCameraPosition: if it were called during a focus flight, the page would run two tween pairs at once; the model replaces the pending flight instead. No handler can reach this, because clicks return early while animating.
- The initial button texts come from the page's HTML, which is not part of this model. The model starts with "Info" and enabled buttons; the panel is hidden until a painting is focused, and every showing overwrites them.
- GalleryLayout.LoadPaintings: a loaded texture is required to have a positive width and height (`ValidOutcome`, and `AspectFit`'s positive ratio). The page divides by them unchecked, so a zero-sized image would give an infinite or NaN plane size; that case is not modelled.

## Findings

| source | as written | input that shows it | evidently intended | confidence | as-written member | corrected member |
|---|---|---|---|---|---|---|
| source/gallery_component_script.js:737-761 | the load counter's target is the number of entries, but an entry without an Image returns before `onTextureLoadOrError` is called | two entries, the first without an Image: the counter reaches 1 of 2, so `createBackgroundScene` never runs | count the placeholder path too (or target only the entries with an Image), so the room is built once every entry has settled | high, not executed | GalleryLayout.RoomCreatedAsWrittenIff | GalleryLayout.RoomCreatedCorrectedIff |
