# Shape-drawing canvas: a Dafny model

This project models the core of a small JavaFX drawing program (`kp-lab5`).
The user picks a tool (circle, rectangle, polygon or edit) and draws on a canvas.
It covers five parts:

- **`Utils.Canvas`** (`canvas.dfy`): the pointer-event state machine.
  - The canvas holds its child shapes in draw order and at most one *preview*, the shape still following the pointer.
  - A move event resizes the preview to the cursor. If the preview is of another kind than the tool makes, the move discards it.
  - A primary press creates a preview, commits it, or adds a polygon vertex. A press at most 10 units from the polygon's first vertex closes the polygon.
  - A secondary press cancels the preview. With the edit tool it instead recolours the topmost shape under the cursor.
  - `Utils.distance` and the private `PivotingRectangle` are part of this core. Their Dafny counterparts are in `geometry.dfy` and `canvas.dfy`.
- **`Circle`, `Rectangle`, `Polygon`** (`circle.dfy`, `rectangle.dfy`, `polygon.dfy`): the three shape classes and their move, resize and preview operations.
  - The polygon also has its near-start test and `finish`, which sets the centre to the centroid of the vertices.
- **`Buttons`** (`buttons.dfy`): the tool enumeration with its labels and classes, and `ButtonSelector`.
- `geometry.dfy` holds distance, squared distance and the rectangle-preview box.
- `pointlist.dfy` holds the flat `x0, y0, x1, y1, …` vertex lists a polygon keeps, with their translation, sums and centroid.

Objects whose fields the program updates in place are Dafny classes:

- the three shape classes;
- the canvas;
- the selector.

The canvas's children are JavaFX nodes. Here they are `Shape` datatype values held in a `seq` field.

The program aliases the preview with the last child. The model states this as the invariant `Canvas.Valid`, and each method keeps it. For example, recolouring the last child while it is the preview updates the preview as well.

`Math.sqrt` is not expressible over Dafny's reals. Every distance therefore takes a square-root function `sqrt` as a parameter. `IsSqrt` requires it to return the non-negative root.

The shape hit test is also a parameter, `contains`. It stands for JavaFX's `Shape.contains`. Fill colours are the opaque type `Color`.

Where the program's comments or documentation and its code differ, the model follows the code:

- Changing tools does not discard a pending preview. Under another drawing tool, the next move event discards it, because its kind no longer matches. Under the edit tool a move leaves it pending (the handler takes its default branch), and a secondary press can recolour it. A primary press with the circle or rectangle tool commits any pending preview, whatever its kind.
- With the polygon tool, a press within 10 units of the start vertex right after the first press closes a polygon with a single vertex.
- A polygon press while a circle or rectangle preview is pending fails on the cast to `Polygon` before anything changes. The model returns `thrown`.
- `Circle.resize` and `Rectangle.resize` do not clamp at zero.
- `Polygon.finish` adds the vertices to the *current* centre. That is the centroid only when the centre is still at the origin.
- `Polygon.isNearStartPoint` uses a strict `< 10`. The canvas closes polygons with `<= 10`.
- `ButtonSelector.getShape` is documented to return null when nothing is selected. It actually dereferences the selection, so the call fails. The model returns `thrown`.

## Model

| member | source | states |
|---|---|---|
| Geometry.SqDist | src/Utils.java:37-39 | the squared distance under the root of `distance` is never negative |
| Geometry.Distance | src/Utils.java:37-39 | `distance` is non-negative and its square is the squared Euclidean distance |
| Geometry.DistanceSymmetric | src/Utils.java:37-39 | the distance from A to B is the distance from B to A |
| Geometry.DistanceZeroIff | src/Utils.java:37-39 | the distance is zero exactly when the two points coincide |
| Geometry.WithinIff | src/Utils.java:222 | a distance of at most (or less than) 10 is the same as a squared distance of at most (or less than) 100 |
| Geometry.PreviewBox | src/Rectangle.java:93-98 | the previewed box has non-negative width and height, and its edges are exactly the pivot's and the cursor's coordinates, whichever side the cursor is on |
| PointList.WithLastVertex | src/Polygon.java:85-88 | overwriting the last vertex keeps the length and every other vertex, and puts the cursor in the last vertex |
| PointList.Translated | src/Polygon.java:50-53 | shifting the vertices keeps the length and adds dx to every abscissa and dy to every ordinate |
| PointList.TranslatedInverse | src/Polygon.java:44-54 | moving by an offset and then by its opposite restores every vertex |
| PointList.SumsExtend | src/Polygon.java:104-107 | one step of the front-to-back accumulation in `finish` adds that vertex to the sums |
| PointList.TranslatedStep | src/Polygon.java:50-53 | translating a list translates its prefix and shifts its last vertex |
| PointList.SumXTranslated | src/Polygon.java:44-54 | a move adds dx once per vertex to the sum of abscissas |
| PointList.SumYTranslated | src/Polygon.java:44-54 | a move adds dy once per vertex to the sum of ordinates |
| PointList.MeanXTranslated | src/Polygon.java:44-54 | moving a polygon shifts the abscissa of its centroid by dx |
| PointList.MeanYTranslated | src/Polygon.java:44-54 | moving a polygon shifts the ordinate of its centroid by dy |
| PointList.MeanOfOneVertex | src/Polygon.java:101-111 | a single-vertex polygon is its own centroid |
| CircleShape.Circle.constructor | src/Circle.java:23-25 | a new circle is centred on the press point with radius zero |
| CircleShape.Circle.Move | src/Circle.java:34-37 | the centre goes to the target and the radius is kept |
| CircleShape.Circle.Resize | src/Circle.java:45-47 | the radius changes by a tenth of the amount, without clamping, and the centre stays |
| CircleShape.Circle.Preview | src/Circle.java:57-59 | the radius becomes the distance from the unchanged centre to the cursor |
| CircleShape.ResizeRoundTrip | src/Circle.java:45-47 | resizing by an amount and then by its opposite restores the circle |
| CircleShape.PreviewAtCentre | src/Circle.java:57-59 | previewing at the centre gives radius zero and keeps the centre |
| CircleShape.PreviewTwice | src/Circle.java:57-59 | previewing twice at any one point gives the same radius as previewing once, and keeps the centre |
| RectangleShape.Rectangle.constructor | src/Rectangle.java:41-45 | a new rectangle is an empty box at the press point, which is also its fixed pivot |
| RectangleShape.Rectangle.Move | src/Rectangle.java:54-59 | the box's centre lands on the target, the size is kept, and the target becomes the rotation reference |
| RectangleShape.Rectangle.Resize | src/Rectangle.java:68-73 | both sides grow by a tenth of the amount while the centre of the box stays put |
| RectangleShape.Rectangle.Preview | src/Rectangle.java:93-98 | the bounds become the box spanned by the pivot and the cursor; the rotation reference is untouched |
| PolygonShape.Polygon.constructor | src/Polygon.java:33-35 | a new polygon holds the start vertex and a cursor vertex, both at the press point, with its centre at the origin |
| PolygonShape.Polygon.Move | src/Polygon.java:44-54 | every vertex moves by the offset from the old centre to the target, which becomes the centre |
| PolygonShape.Polygon.Resize | src/Polygon.java:63-65 | resizing changes nothing |
| PolygonShape.Polygon.Preview | src/Polygon.java:85-88 | only the last vertex changes, to the cursor |
| PolygonShape.Polygon.IsNearStartPoint | src/Polygon.java:97-99 | the point is near exactly when its squared distance to the start vertex is below 100 |
| PolygonShape.Polygon.Finish | src/Polygon.java:101-111 | the cursor vertex is dropped and the centre becomes (old centre + vertex sums) / vertex count, which is the centroid when the centre was at the origin |
| PolygonShape.MoveKeepsCentroid | src/Polygon.java:44-54 | a polygon whose centre is its centroid keeps that property under every move |
| PolygonShape.HalfCount | src/Polygon.java:108-109 | dividing by the list length and doubling is dividing by the vertex count |
| Buttons.ToString | src/Buttons.java:7-16 | CIRCLE is labelled "circle", RECTANGLE "rect", POLYGON "poly" and EDIT "edit", and each label belongs to that button only |
| Buttons.LabelsDistinct | src/Buttons.java:7-16 | two buttons have the same label exactly when they are the same button |
| Buttons.Shape | src/Buttons.java:50-52 | each drawing button maps to its own shape class, and only the edit button maps to a non-shape class |
| Buttons.ButtonSelector.constructor | src/Buttons.java:65-67 | a new selector has nothing selected |
| Buttons.ButtonSelector.Set | src/Buttons.java:74-76 | the argument, possibly null, becomes the selection |
| Buttons.ButtonSelector.Get | src/Buttons.java:83-85 | the selection is returned, possibly null |
| Buttons.ButtonSelector.GetShape | src/Buttons.java:92-94 | with nothing selected the call fails; otherwise it returns the selected button's class |
| Buttons.LastSetWins | src/Buttons.java:57-95 | a fresh selector reports nothing and fails to give a class; after two selections the later one wins; clearing it brings the failure back |
| Canvas.Previewed | src/Utils.java:142-184 | sizing a preview to the cursor keeps its kind, fill and well-formedness |
| Canvas.TopmostHit | src/Utils.java:246-252 | the index found is the highest whose shape contains the point, and none is found exactly when no shape contains it |
| Canvas.Canvas.constructor | src/Utils.java:127-140 | a new canvas has no children and no preview |
| Canvas.Canvas.AddPreview | src/Utils.java:198-201 | a new preview shape is appended and becomes the preview |
| Canvas.Canvas.UpdatePreview | src/Utils.java:150 | changing the preview changes the last child with it and nothing else |
| Canvas.Canvas.DiscardPreview | src/Utils.java:151-154 | the preview is removed from the end of the children and forgotten |
| Canvas.Canvas.PointerMoved | src/Utils.java:142-186 | the cursor is recorded; a preview of the tool's kind follows the cursor; a preview of another kind is discarded under a drawing tool; otherwise nothing changes |
| Canvas.Canvas.PointerExited | src/Utils.java:188-191 | the cursor becomes (-1, -1) and nothing else changes |
| Canvas.Canvas.PrimaryPressed | src/Utils.java:193-234 | each tool and preview case has its exact outcome: start a shape, commit the preview, close a polygon within 10 units, append a polygon vertex, or fail on the cast with nothing changed |
| Canvas.Canvas.SecondaryPressed | src/Utils.java:236-254 | a drawing tool cancels the preview; the edit tool recolours exactly the topmost child containing the point, and the preview too when that child is the preview |
| Canvas.Canvas.Recolour | src/Utils.java:248-249 | one child gets the new fill, and the preview shows it when that child is the preview |
| Canvas.StartThenCancel | src/Utils.java:193-244 | starting a shape and cancelling it with the secondary button leaves the children unchanged |
| Canvas.DrawCircle | src/Utils.java:193-234 | press, move 5 units away, press: one circle of radius 5 is committed |
| Canvas.DrawRectangleBackwards | src/Utils.java:142-234 | dragging up and to the left commits the box normalised to its top-left corner, with the pivot at the first press |
| Canvas.DrawTriangle | src/Utils.java:218-228 | three far presses and a press near the start commit exactly the three pressed vertices |
| Canvas.OneVertexPolygon | src/Utils.java:222-225 | a second press near the start commits a one-vertex polygon |
| Canvas.PolygonPressOverCircle | src/Utils.java:222 | a polygon press over a pending circle fails and leaves the circle pending |

## Left out

- `rotate` of `Rectangle` and `Polygon` is not modelled: it is trigonometry (`atan`, degrees) on floating point.
- Doubles are modelled as exact reals, so IEEE rounding, NaN and infinities are not modelled.
- Geometry.Distance: `Math.sqrt` is a parameter constrained to return the non-negative root. The model is exact wherever such a root exists.
- PolygonShape.Polygon.Finish: requires at least two vertices, the start vertex plus the cursor vertex. With fewer, the source removes from an empty list or divides the centre by zero, which gives NaN from the origin and an infinity after a move. The canvas never builds such a polygon.
- PolygonShape.Polygon.Preview and PolygonShape.Polygon.IsNearStartPoint: require at least one vertex. The source would throw an index error, and every constructed polygon has two vertices.
- Canvas.Canvas.SecondaryPressed: the hit test `Shape.contains` is a parameter. JavaFX's geometry for circles, rectangles and polygons is not modelled.
- The canvas tool is the integer the source switches on. Values other than 0 to 3 do nothing, as in the source.
- Colours are opaque values. `ColorPicker` is left out.
- Listener wiring and property bindings are not modelled: the `mouseX`/`mouseY` properties become fields of the canvas.
- `MenuButton`, `InfoButton`, `ChildStage` and `Cords` are left out. They are UI widgets, and `InfoButton` reads a file.
- `App.java` and `Repr.java` are not part of this model.
- Canvas children are plain values. The program's `Circle`, `Rectangle` and `Polygon` classes are separate classes of their own. They are modelled with their own methods, because the canvas uses JavaFX's shapes rather than these classes.
