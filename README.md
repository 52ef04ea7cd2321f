# Bento link manager: a Dafny model

This project models the core of a personal link manager written as a React
application. Its centre piece is the pannable perspective grid
(`src/components/SphericalGrid.tsx`). The grid repeats the link list over a
20 x 20 lattice of 200-pixel tiles. It projects each tile with a
distance-dependent scale, tilt, depth, opacity and stacking order. It culls
the tiles outside a padded window, and it pans with pointer drags, momentum
and the mouse wheel.

Around the grid the model covers:

- the page's link list, with the search and category filter and the add, edit
  and delete handlers (`src/pages/Index.tsx`);
- the card display rules (`src/components/LinkCard.tsx`);
- the add/edit dialog's form (`src/components/AddLinkDialog.tsx`);
- the priority panel (`src/components/PrioritySlider.tsx`);
- the search bar (`src/components/SearchBar.tsx`).

The record types come from `src/types/link.ts`.

## How the model is built

Code that computes a value becomes a Dafny function on datatypes. Code that
updates state in place becomes a class. There are four such classes:

- `PanController.GridPan` holds the grid's pan state;
- `AddLinkDialog.Dialog` holds the form fields;
- `PrioritySlider.Panel` and `SearchBar.Bar` each hold a panel's open/closed flag.

Each method of `GridPan` and `Dialog` is proved to perform exactly the
transition of a specification function, and the properties are proved as
lemmas about those functions. The methods of `Panel` and `Bar` flip a single
flag, and their contracts state the flip directly.

The lattice is built by a method with the source's two nested loops. It is
proved equal to the row-major specification `Lattice`.

Numbers are exact. Pixel coordinates, velocities and transforms are `real`.
Priorities are `int`. The effective priority test
`priority * (globalPriority / 100) >= 90` is written `priority * globalPriority >= 9000`.

The browser's square root is not computed. The distance from the viewport
centre and the corner distance are parameters of the projection, each fixed
by its square: `d >= 0 && d*d == dx*dx + dy*dy`, and `m*m == 720000`.
`Math.round(v)` is `Floor(v + 0.5)`.

The momentum loop reschedules itself once per animation frame. Here it is one
frame per call of `GridPan.ApplyMomentum`. `GridPan.RunMomentum` runs frames
until none is scheduled, and its termination is proved.

Details of the code's behaviour the model keeps:

- The lattice does not wrap around as the scroll offset grows. It is a fixed
  20 x 20 block from the origin, and the scroll offset is never clamped.
  Scrolled far enough, nothing is rendered (`Culling.FarScrollShowsNothing`).
- When the momentum loop stops, the velocity is not reset to zero. It keeps
  its last decayed value, below the rest threshold. Releasing a drag that is
  not moving fast enough also leaves the velocity as it was.
- Culling tests each tile's top-left corner with strict inequalities. It does
  not test the tile's bounding box.

## Model

| member | source | states |
|---|---|---|
| LinkTypes.CategoryName | src/types/link.ts:1-9 | every category has a non-empty name, so a selected category is always truthy |
| LinkTypes.WithIdentity | src/pages/Index.tsx:144-148 | a new link carries the given id and creation time, and its other fields are exactly the form data |
| Text.Trim | src/components/AddLinkDialog.tsx:83 | the result is a contiguous piece of the input with only white space cut before and after it; it has no white space at either end, and it is empty exactly when the input is all white space |
| Text.TrimIdempotent | src/components/AddLinkDialog.tsx:53-55 | trimming a trimmed string changes nothing |
| Text.ToLower | src/pages/Index.tsx:130-135 | lower-casing keeps the length and maps each character on its own (ASCII letters only) |
| Text.IncludesAt | src/pages/Index.tsx:132-135 | `includes` holds exactly when the needle occurs at some offset |
| Text.DecimalRoundTrip | src/components/SphericalGrid.tsx:53 | the decimal rendering of a coordinate reads back as the coordinate |
| LatticeBuilder.TileKeyInjective | src/components/SphericalGrid.tsx:53 | a tile key determines the link id and both coordinates, whatever the id contains |
| LatticeBuilder.Lattice | src/components/SphericalGrid.tsx:42-57 | no links give no tiles; otherwise there are 400 tiles, and tile k sits at (k mod 20, k div 20) and shows link k mod L |
| LatticeBuilder.BuildLattice | src/components/SphericalGrid.tsx:42-57 | the nested loops build exactly the row-major lattice |
| LatticeBuilder.LatticeCoversGrid | src/components/SphericalGrid.tsx:45-47 | every position (x, y) of the 20 x 20 lattice holds a tile, at index x + 20y |
| LatticeBuilder.LatticePositionsDistinct | src/components/SphericalGrid.tsx:45-54 | no two tiles share a position |
| LatticeBuilder.LatticeKeysDistinct | src/components/SphericalGrid.tsx:53 | no two tiles share a render key, even when link ids repeat |
| LatticeBuilder.EightLinksScenario | src/components/SphericalGrid.tsx:45-50 | eight links fill all 400 tiles, and the first tile shows the first link at (0, 0) |
| Projection.ViewportCenter | src/components/SphericalGrid.tsx:182-183 | the optical centre is 600 pixels right of and below the scroll offset |
| Projection.CenteredScrollIsUndistorted | src/components/SphericalGrid.tsx:182-183 | at scroll offset (200x - 500, 200y - 500) the viewport centre is the centre of tile (x, y), and that tile, given this centre as every tile is, is then drawn at scale 1, opacity 1 and z-index 100 |
| Projection.Round | src/components/SphericalGrid.tsx:96 | rounding gives the integer within half a unit, with halves rounded up |
| Projection.NormalizedDistance | src/components/SphericalGrid.tsx:70-73 | the normalised distance lies in [0, 1]; it is the plain ratio up to the corner distance and 1 beyond it |
| Projection.GetItemTransform | src/components/SphericalGrid.tsx:60-98 | translation is the tile's corner; scale lies in [0.3, 1], depth in [-80, 0], opacity in [0.6, 1] and z-index in [0, 100] |
| Projection.CenteredTileIsUndistorted | src/components/SphericalGrid.tsx:60-97 | a tile centred on the viewport gets scale 1, no rotation, depth 0, opacity 1 and z-index 100 |
| Projection.NormalizedDistanceMonotone | src/components/SphericalGrid.tsx:73 | the normalised distance never falls as the distance grows |
| Projection.FartherIsSmallerDeeperDimmer | src/components/SphericalGrid.tsx:73-96 | a farther tile is never larger, more opaque, nearer in depth or higher in stacking order |
| Projection.OpacityFloorNeverApplies | src/components/SphericalGrid.tsx:86-95 | opacity is always 1 - 0.4 x the normalised distance, above 0.3, so the floor never applies |
| Projection.RotationFacesCenter | src/components/SphericalGrid.tsx:79-80 | rotation about x has the sign of the vertical offset; rotation about y has the opposite sign of the horizontal offset |
| Projection.RotationBoundedByDistance | src/components/SphericalGrid.tsx:79-80 | each rotation is at most 12 degrees per corner distance, and it is not capped |
| Culling.VisibleItems | src/components/SphericalGrid.tsx:186-197 | the rendered tiles keep the lattice order, each one is visible, and each visible tile appears exactly as often as in the lattice |
| Culling.VisibleItemsMembership | src/components/SphericalGrid.tsx:186-197 | a tile is rendered exactly when it is in the lattice and its corner is strictly inside the padded window |
| Culling.VisibleItemsIdempotent | src/components/SphericalGrid.tsx:186-197 | culling an already culled list changes nothing |
| Culling.FarScrollShowsNothing | src/components/SphericalGrid.tsx:186-197 | at a scroll of 4200 or more, or -1600 or less, on either axis, nothing is rendered |
| Culling.VisibleAtOrigin | src/components/SphericalGrid.tsx:191-196 | at the initial offset a tile is visible exactly when x <= 7 and y <= 7 |
| Culling.SixtyFourTilesAtOrigin | src/components/SphericalGrid.tsx:186-197 | at the initial offset, with links, exactly the 64 tiles of the first 8 rows and columns are rendered |
| PanController.HandlersKeepValid | src/components/SphericalGrid.tsx:101-164 | every handler keeps a momentum frame scheduled only while the grid is moving and not dragged |
| PanController.MomentumFrameShrinksMeasure | src/components/SphericalGrid.tsx:130-148 | each frame of friction lowers the momentum measure by at least one |
| PanController.Coast | src/components/SphericalGrid.tsx:126-153 | the momentum loop always ends with no frame pending; if it ran, the velocity is at rest; drag state is untouched |
| PanController.CoastFramesBounded | src/components/SphericalGrid.tsx:130-153 | the number of frames is at most 200 x (abs(vx) + abs(vy)) |
| PanController.CoastDecaysGeometrically | src/components/SphericalGrid.tsx:131-136 | after n frames the velocity is 0.95^n times the starting velocity |
| PanController.CoastDistanceBounded | src/components/SphericalGrid.tsx:138-142 | momentum moves the view in the direction of the velocity, by at most 19 times it on each axis |
| PanController.PointerMoveNeedsDrag | src/components/SphericalGrid.tsx:112 | pointer movement changes nothing unless a drag is in progress |
| PanController.DragScenario | src/components/SphericalGrid.tsx:111-124 | a drag from (100, 100) to (150, 120) scrolls by (-25, -10) and leaves velocity (-5, -2) |
| PanController.DragScrollTelescopes | src/components/SphericalGrid.tsx:111-124 | however a drag is split into moves, it scrolls by minus half the distance from the anchor to the last position |
| PanController.ClickDoesNotPan | src/components/SphericalGrid.tsx:101-154 | press and release without moving does not scroll and starts no momentum |
| PanController.ReleaseDriftBounded | src/components/SphericalGrid.tsx:126-154 | after a drag is released and its momentum runs out, the view has moved from where the drag left it in the direction of the last velocity, by at most 19 times that velocity on each axis, and no frame is pending |
| PanController.ReleaseStartsMomentumOnlyWhenMoving | src/components/SphericalGrid.tsx:126-154 | release clears dragging; it runs a momentum frame only if a velocity component exceeds 0.1 |
| PanController.WheelScenario | src/components/SphericalGrid.tsx:157-164 | a wheel delta of (10, 0) scrolls 5 pixels right and changes nothing else |
| PanController.WheelCommutesWithMomentum | src/components/SphericalGrid.tsx:157-164 | wheel panning and a momentum frame give the same state in either order |
| PanController.GridPan.constructor | src/components/SphericalGrid.tsx:35-38 | the grid starts at the origin, not dragging, with no velocity |
| PanController.GridPan.HandlePointerDown | src/components/SphericalGrid.tsx:101-109 | press starts a drag at the pointer, zeroes velocity and cancels momentum |
| PanController.GridPan.HandlePointerMove | src/components/SphericalGrid.tsx:111-124 | a move while dragging scrolls by -0.5 x delta, sets velocity to -0.1 x delta and re-anchors |
| PanController.GridPan.ApplyMomentum | src/components/SphericalGrid.tsx:130-149 | one frame multiplies velocity by 0.95 and scrolls by it while still moving |
| PanController.GridPan.HandlePointerUp | src/components/SphericalGrid.tsx:126-154 | release performs the pointer-up transition |
| PanController.GridPan.HandleWheel | src/components/SphericalGrid.tsx:157-164 | a wheel event scrolls by 0.5 x delta |
| PanController.GridPan.RunMomentum | src/components/SphericalGrid.tsx:130-153 | running frames until none is scheduled reaches the end state of the momentum loop and counts its frames |
| LinkManager.FilterLinks | src/pages/Index.tsx:121-141 | the shown links keep the list's order and pass the filter; with a category selected, all have it; each passing link appears exactly as often as in the list |
| LinkManager.FilterLinksMembership | src/pages/Index.tsx:122-140 | a link is shown exactly when it is in the list and passes the filter |
| LinkManager.NoFilterShowsAll | src/pages/Index.tsx:124-139 | with no category and an empty query every link is shown, in order |
| LinkManager.QuerySelectsMatches | src/pages/Index.tsx:129-137 | with a query, a link of the right category is shown iff the lower-cased query is in its title, url, description or a tag |
| LinkManager.FilterIdempotent | src/pages/Index.tsx:121-141 | filtering the filtered list again changes nothing |
| LinkManager.HandleAddLink | src/pages/Index.tsx:143-153 | the new link, with the clock's decimal id and the given creation time, is appended; all else is unchanged |
| LinkManager.ReplaceById | src/pages/Index.tsx:164-166 | each link with the updated id is replaced by it, and every other link stays in place |
| LinkManager.HandleEditLink | src/pages/Index.tsx:161-169 | the new list is the list with the updated id replaced, edit mode is cleared, and nothing else in the state changes |
| LinkManager.EditReplacesOnlyThatId | src/pages/Index.tsx:161-169 | saving an edit keeps length and the other links, puts the update where its id was, and clears edit mode; saving again changes nothing |
| LinkManager.EditOfMissingIdKeepsLinks | src/pages/Index.tsx:161-167 | editing an id not in the list leaves the list unchanged |
| LinkManager.RemoveById | src/pages/Index.tsx:181 | the remaining links keep their order, and a link remains exactly when its id is another one |
| LinkManager.RemoveByIdCounts | src/pages/Index.tsx:181 | each link with another id remains exactly as often as the list has it, and none with the id remains |
| LinkManager.HandleDeleteLink | src/pages/Index.tsx:176-182 | the new list is the list with that id removed, no link has the id, and the rest of the state is unchanged |
| LinkManager.DeleteIdempotent | src/pages/Index.tsx:181 | deleting an id twice is the same as deleting it once |
| LinkManager.RemoveMissingId | src/pages/Index.tsx:181 | deleting an id no link has leaves the list unchanged |
| LinkManager.AddThenDeleteRestores | src/pages/Index.tsx:143-182 | adding a link with a fresh id, then deleting that id, restores the state |
| LinkCard.SizeClass | src/components/LinkCard.tsx:38-67 | each of the eleven sizes has a `card-` class |
| LinkCard.SizeClassInjective | src/components/LinkCard.tsx:38-67 | the eleven class names are distinct |
| LinkCard.SizeVariant | src/components/LinkCard.tsx:42-43 | the variant lies in [0, 12) and depends only on the id |
| LinkCard.IdHashAppend | src/components/LinkCard.tsx:42 | the hash of a concatenation is the sum of the hashes |
| LinkCard.IdHashRotation | src/components/LinkCard.tsx:42 | rotating an id leaves its hash, so its size variant, unchanged |
| LinkCard.GetCardSize | src/components/LinkCard.tsx:38-66 | hero or feature exactly from effective priority 90, hero exactly when also the variant is below 2; wide-large and tall only from 75 to 89, square-large and wide only from 60 to 74, large only from 60 to 89, medium-wide and medium-tall only from 40 to 59, medium only below 60, small exactly below 40 with variant 4 or more |
| LinkCard.ZeroGlobalPriorityIsLow | src/components/LinkCard.tsx:39 | with global priority 0 every card is medium or small |
| LinkCard.GetPriorityColor | src/components/LinkCard.tsx:69-73 | high exactly from 80, medium exactly from 40 to 79, low exactly below 40 |
| LinkCard.GetCategoryGradient | src/components/LinkCard.tsx:24-36 | the gradient is `gradient-` followed by the category's name |
| LinkCard.GradientInjective | src/components/LinkCard.tsx:24-36 | distinct categories get distinct gradients |
| LinkCard.TagBadges | src/components/LinkCard.tsx:174-189 | badges only for tagged hero, feature, wide-large, large and square-large cards; exactly the first min(tag count, 5 on hero, else 3) tags; a `+n` badge exactly when tags are left out, with n the number left out |
| LinkCard.ShowDescription | src/components/LinkCard.tsx:164-168 | the description shows iff present, non-empty and the card is not small or medium; 3 lines on hero and feature, else 2 |
| LinkCard.LowPriorityCardsAreBare | src/components/LinkCard.tsx:164-174 | below effective priority 40 a card shows no description and no tags |
| LinkCard.HighPriorityCardsShowDetails | src/components/LinkCard.tsx:164-174 | from effective priority 60 a non-empty description always shows, and tags show unless the card is tall or wide |
| AddLinkDialog.InitialForm | src/components/AddLinkDialog.tsx:33-41 | the form starts from the edited link's values, keeping any nonzero priority, else empty, personal and 50; a priority of 0 also becomes 50 |
| AddLinkDialog.AddTag | src/components/AddLinkDialog.tsx:82-88 | a blank, duplicate or sixth tag changes nothing; otherwise the trimmed tag is appended and the input cleared |
| AddLinkDialog.Without | src/components/AddLinkDialog.tsx:91 | the remaining tags keep their order, and each tag other than the removed one remains exactly as often as the list has it |
| AddLinkDialog.RemoveTag | src/components/AddLinkDialog.tsx:90-92 | the new tags are the old ones without the removed tag, which is gone, and nothing else in the form changes |
| AddLinkDialog.AddTagKeepsWellFormed | src/components/AddLinkDialog.tsx:82-88 | adding keeps the tags distinct, trimmed, non-empty and at most five |
| AddLinkDialog.WithoutKeepsWellFormed | src/components/AddLinkDialog.tsx:90-92 | removing keeps the tags well formed |
| AddLinkDialog.TagEditsKeepWellFormed | src/components/AddLinkDialog.tsx:82-92 | any series of adds and removes keeps a well-formed tag list well formed |
| AddLinkDialog.NewLinkTagsWellFormed | src/components/AddLinkDialog.tsx:82-92 | a new link's tags, from none, stay duplicate-free and at most five under any edits |
| AddLinkDialog.NonBlank | src/components/AddLinkDialog.tsx:58 | submitted tags keep their order, and each tag that is not blank remains exactly as often as the list has it |
| AddLinkDialog.NonBlankKeepsWellFormed | src/components/AddLinkDialog.tsx:58 | a tag list with no blank tag is submitted whole |
| AddLinkDialog.ShapeData | src/components/AddLinkDialog.tsx:50-62 | submitted data has trimmed title, url and description, the non-blank tags in order and with their repetitions, the favicon for the host, and the edited link's last visit and folder |
| AddLinkDialog.BlankIsTrimmedEmpty | src/components/AddLinkDialog.tsx:45 | a field counts as blank exactly when trimming leaves nothing |
| AddLinkDialog.Submit | src/components/AddLinkDialog.tsx:43-80 | blank title or url does nothing; a rejected url leaves the form loading; otherwise it adds, or edits keeping id and creation time, and resets the form |
| AddLinkDialog.SubmittedTextIsClean | src/components/AddLinkDialog.tsx:45-65 | the title and url of a new or edited link are never blank and carry no surrounding white space |
| AddLinkDialog.SaveUnchangedIsIdentity | src/components/AddLinkDialog.tsx:34-65 | opening a clean link in the editor and saving it unchanged gives the same link back |
| AddLinkDialog.GetPriorityLevel | src/components/AddLinkDialog.tsx:101-105 | High exactly from 80, Medium exactly from 40 to 79, Low exactly below 40 |
| AddLinkDialog.Dialog.constructor | src/components/AddLinkDialog.tsx:33-41 | the dialog's fields start as the initial form |
| AddLinkDialog.Dialog.HandleAddTag | src/components/AddLinkDialog.tsx:82-88 | the add button performs the tag-adding transition |
| AddLinkDialog.Dialog.HandleRemoveTag | src/components/AddLinkDialog.tsx:90-92 | a badge's remove button performs the tag-removing transition |
| AddLinkDialog.Dialog.HandleSubmit | src/components/AddLinkDialog.tsx:43-80 | submit changes the fields and returns the outcome exactly as the submit specification says |
| AddLinkDialog.Dialog.Load | src/components/AddLinkDialog.tsx:71-79 | the reset writes every form field |
| PrioritySlider.GetPriorityLevel | src/components/PrioritySlider.tsx:13-17 | star exactly from 80, target exactly from 40 to 79, bolt exactly below 40 |
| PrioritySlider.LegendAgreesWithLevels | src/components/PrioritySlider.tsx:79-94 | for values 0 to 100, the level shown is the legend column whose range holds the value, and no other |
| PrioritySlider.ClassifiersAgree | src/components/PrioritySlider.tsx:13-17 | the panel, the card's priority dot and the dialog's readout give the same level for every value |
| PrioritySlider.SliderPositionsAreValues | src/components/PrioritySlider.tsx:61-67 | the slider's 21 positions are exactly the multiples of 5 from 0 to 100 |
| PrioritySlider.Panel.constructor | src/components/PrioritySlider.tsx:20 | the panel starts collapsed |
| PrioritySlider.Panel.ToggleExpanded | src/components/PrioritySlider.tsx:34 | the settings button flips the panel |
| PrioritySlider.PressTwice | src/components/PrioritySlider.tsx:34 | two presses leave the panel as it was |
| SearchBar.ToggleCategory | src/components/SearchBar.tsx:119-123 | clicking the selected chip deselects; any other chip selects its category |
| SearchBar.ToggleTwice | src/components/SearchBar.tsx:119-123 | two clicks on one chip restore the selection exactly when nothing or that chip was selected; otherwise nothing ends selected |
| SearchBar.ClickChip | src/components/SearchBar.tsx:119-123 | a chip click changes only the category |
| SearchBar.ClearSearch | src/components/SearchBar.tsx:45-50 | the clear button empties the query and deselects, so no filter remains active |
| SearchBar.ClearQueryBadge | src/components/SearchBar.tsx:144 | the query badge's button empties only the query |
| SearchBar.ClearCategoryBadge | src/components/SearchBar.tsx:156 | the category badge's button deselects only the category |
| SearchBar.BadgesTogetherClearAll | src/components/SearchBar.tsx:144-156 | clearing both badges, in either order, equals the clear button |
| SearchBar.InactiveFiltersShowAll | src/components/SearchBar.tsx:50 | with no active filter the page shows every link |
| SearchBar.ClearShowsAll | src/components/SearchBar.tsx:45-48 | after the clear button every link is shown |
| SearchBar.DeselectShowsAll | src/components/SearchBar.tsx:119-123 | deselecting the only filter shows every link again |
| SearchBar.Bar.constructor | src/components/SearchBar.tsx:43 | the category panel starts closed |
| SearchBar.Bar.ToggleFilters | src/components/SearchBar.tsx:76 | the filter button flips the category panel |

## Left out

- Rendering: JSX, CSS classes beyond the ones the model names, the transform string, the bento layout and `tailwind.config.ts`.
- Animation-frame scheduling: one momentum frame is one method call. Cancellation of a pending frame is `framePending := false` on pointer-down. The wheel listener's setup and teardown are not modelled.
- React's asynchronous state updates: handlers run one after another on the current state. The second momentum chain that the pointer-leave binding can start while one is running is not modelled.
- Floating point: all arithmetic is exact (`real`, `int`). `Math.sqrt` is replaced by distance parameters that satisfy their squares. The on-screen debug coordinates are not modelled.
- Browser and library calls: toasts, clipboard copy, `window.open`, `Intl.RelativeTimeFormat` dates, and the `www.` stripping of the card's domain label.
- Clock readings: the clock reading for a new link's id and its creation time are parameters of `LinkManager.HandleAddLink`. Date objects are integer timestamps.
- URL parsing: the host name is a parameter of `AddLinkDialog.Submit`. A url the parser rejects is the `UrlRejected` outcome.
- Text.ToLower: lower-cases ASCII letters only, not the full Unicode case mapping of `toLowerCase`.
- LinkCard.IdHash: counts one code per Dafny character. For characters outside the Basic Multilingual Plane JavaScript's `charCodeAt` sums two UTF-16 code units instead.
- Folders: the state's folder list and the `Folder` record play no part in the core and are not modelled.
- Plain setters: the page's priority, query and category handlers and the dialog's field setters each assign one field and are not modelled separately. The chip and badge functions of `SearchBar` produce the values they pass.
- The slider's change callback (`src/components/PrioritySlider.tsx:63`) passes the first value the slider reports on to the page unchanged. It has no logic of its own and is not modelled; the values the slider can report are `PrioritySlider.SliderPositions`.
- Hover and focus flags (`isHovered`, `isFocused`) and the card's edit button, which only stores the link to edit.
- AddLinkDialog.InitialForm: React evaluates the form's initial values only when the dialog first mounts. A later change of the edited link does not refill the form, and that is not modelled.
- The sample link data of the page.
