# Tool-kit kiosk: synthetic dataset generator and frontend decision rules

This project models the core of a tool-issuing kiosk and proves properties of the model.
The kiosk photographs a tool kit, recognizes the tools with an object detector, and compares them with the employee's order.

There are two parts.

**The synthetic dataset generator** (`ML/utils/dataset_generator.py`) produces YOLO training data. The detector is trained on it.
- It loads a catalog of (object image, label file) pairs.
- For every sample it starts from a black canvas and picks `min(max_classes, |catalog|)` distinct entries.
- Each entry gets 1..`max_objects_per_class` instances.
- Each instance tries up to 20 random positions. It accepts the first whose IoU with every box already placed is at most `max_overlap`, and is silently dropped otherwise.
- An accepted instance is pasted into the canvas in place with a hard binary mask, and labelled with one YOLO line in normalized coordinates.
- Samples are named by their index zero-padded to five digits. A written sample holds its index, its canvas and its label lines; `Generator.ImageFile` and `Generator.LabelFile` give its two file names.

The model follows the source's form:
- `_load_dataset` is a loop (`Catalog.LoadDataset`) proved equal to a fold (`Catalog.BuildCatalog`).
- `_paste_object` updates a region of an `array2` in place (`Compositor.PasteObject`). It is proved equal to a function on grids (`Compositor.PasteGrid`).
- `_iou` is a pure function on exact rationals (`Geometry.Iou`).
- `generate` is a set of nested methods: `Generator.Generate`, `GenerateSample`, `PlaceEntry`, `PlaceInstances` and `PlaceOne`.
  - They mutate the canvas array and extend the box and label lists.
  - They are proved equal to the specification functions `Placement.RunSample`, `RunPicks`, `RunPick`, `RunInstances` and `PlaceInstance`.
  - Those functions carry the sample invariant `Placement.Consistent`: boxes and labels one to one, every box inside the canvas, pairwise IoU bound, canvas black outside the boxes.
- Random draws are inputs, constrained to what `random.sample` and `randint` guarantee (`Placement.ValidSampleDraw`).
- Label files are parsed the way Python's `readlines`, `str.split`, `int()` and `float()` do (`LabelParse`).

**The frontend decision rules** (React, `Frontend/src/view`):
- the recognition verdict and item styles (`Recognize`);
- the order filter and date/time formatting of the order table (`OrderSelection`);
- which actions are offered (`ActionChoice`);
- the six-step wizard of `App.tsx` (`Wizard`);
- the prototype tool-station state machine (`ToolStation`).

`Wizard` and `ToolStation` model the component state as classes. Their handler methods update the fields, and a `Dispatch` method routes an event through the callback the rendered screen wires to it. `Dispatch` is proved equal to a pure transition function (`Handle`), and invariants of every reachable state are proved over that function.

The wiring of `App.tsx` is modelled as written:
- The employee screen receives `goToNext`, not `handleEmployeeNext`.
- So `employeeId` is never set: it stays `''` in every reachable state, and the photo step always receives the empty id (`Wizard.WizardInvariants`).
- `handleEmployeeNext` is modelled (`Wizard.App.HandleEmployeeNext`) but no event reaches it.

Notes on what the code does:
- **Fields per label line.** A label line may have any number of float fields after the class id; `int()` and `float()` are all the loader checks.
- **Label count bound.** `max_classes × max_objects_per_class` bounds the label count only when `max_objects_per_class ≥ 0`. With an empty catalog and a negative `max_objects_per_class`, a sample has 0 lines, which is more than the negative product. `Placement.SampleProperties` states the bound under that guard, and also in the exact form `min(max_classes, |catalog|) × max_objects_per_class`.
- **IoU with an empty union.** IoU is 0 whenever the union is not positive, the `else 0` branch of `_iou`.

## Model

| member | source | states |
|---|---|---|
| LabelParse.Fields | ML/utils/dataset_generator.py:32 | `str.split()`: the maximal runs of non-whitespace characters, in order, none empty and none holding whitespace |
| LabelParse.Lines | ML/utils/dataset_generator.py:31-32 | `readlines()` in text mode: '\n', '\r' and '\r\n' each end a line, the terminators are dropped (the loader strips them), and a final terminator starts no further line |
| LabelParse.PyInt | ML/utils/dataset_generator.py:34 | `int()`: an optional sign and digit groups separated by single underscores, or nothing where it raises |
| LabelParse.PyFloatOf | ML/utils/dataset_generator.py:34 | `float()`: an optional sign and 'inf', 'infinity' or 'nan' in any case, or a decimal literal with an optional exponent; nothing where it raises |
| LabelParse.ParseLabelLine | ML/utils/dataset_generator.py:32-34 | the split fields of one line: an empty line has no class id, else `int()` of the first field and `float()` of the rest |
| LabelParse.ParseLabelFile | ML/utils/dataset_generator.py:31-34 | the rows of every line of the file text, or the first line that raises and why |
| LabelParse.FieldsOfJoin | ML/utils/dataset_generator.py:32 | `split()` of fields joined by single spaces gives back exactly those fields |
| LabelParse.LinesOfJoin | ML/utils/dataset_generator.py:31-32 | reading lines back from `"\n".join(lines)` gives the lines again, when no line holds a line break and the last is not empty |
| LabelParse.ParseValues | ML/utils/dataset_generator.py:34 | on success, one float per field, each the `float()` value of its field; on failure, the index of the first field `float()` refuses, with every earlier field accepted |
| LabelParse.ParseLines | ML/utils/dataset_generator.py:32-34 | on success, one row per line, each the parse of that line; on failure, the first refused line and its reason, with every earlier line accepted |
| LabelParse.ParseEach | ML/utils/dataset_generator.py:34 | one parse result per line, each the parse of that line |
| LabelParse.Collect | ML/utils/dataset_generator.py:34 | all rows in order when every line parses; otherwise the first refused line and its reason, every earlier one accepted |
| LabelParse.FirstError | ML/utils/dataset_generator.py:34 | results whose first error is at k collect to that error at line k |
| LabelParse.FirstRefusedLine | ML/utils/dataset_generator.py:32-34 | the file fails at its first refused line, with that line's reason |
| LabelParse.EmptyFileHasNoRows | ML/utils/dataset_generator.py:31-34 | an empty label file loads as no rows |
| LabelParse.BlankLineFails | ML/utils/dataset_generator.py:32-34 | a blank line (no `l[0]`) after accepted lines fails the file at that line |
| LabelParse.PyIntOfIntToString | ML/utils/dataset_generator.py:34 | `int()` reads back every decimal integer `str()` writes, negative ones included |
| LabelParse.FixedPointField | ML/utils/dataset_generator.py:34 | `float()` of `digits.digits` is the integer the digits spell over 10 per fraction digit |
| LabelParse.WrittenLineReadsBack | ML/utils/dataset_generator.py:99 | a line written as a class id and fixed-point values separated by spaces parses back to that class id and those values |
| Catalog.Zip | ML/utils/dataset_generator.py:28 | pairs image and label paths by position, with the length of the shorter list |
| Catalog.LoadStep | ML/utils/dataset_generator.py:29-35 | one pair: skipped when its label file does not exist, else its parsed rows appended, or the parse error; an earlier error is kept |
| Catalog.BuildCatalog | ML/utils/dataset_generator.py:26-36 | the step folded over the zipped pairs from an empty catalog |
| Catalog.LoadDataset | ML/utils/dataset_generator.py:26-36 | the loop's result is the fold of the skip/parse/append step over the zipped pairs, the error of the first unparsable file included |
| Catalog.ErrorPersists | ML/utils/dataset_generator.py:31-34 | once a prefix of the pairs fails, the whole load fails with the same error, so the loop may stop there |
| Catalog.CatalogOfExistingPairs | ML/utils/dataset_generator.py:28-35 | a successful load has one entry per pair whose label file exists, in input order, with that pair's image path and the parsed rows of its label file |
| Catalog.CatalogFailure | ML/utils/dataset_generator.py:29-34 | the load fails iff some existing label file does not parse, and then reports the first such file with its parse error |
| Catalog.CatalogSize | ML/utils/dataset_generator.py:28-35 | the catalog is no longer than either path list |
| Catalog.OneMissingLabelFile | ML/utils/dataset_generator.py:29-30 | two pairs with the first label file missing give a catalog of exactly one entry, the second image with its rows |
| Geometry.Iou | ML/utils/dataset_generator.py:52-64 | intersection area over union area as an exact rational, 0 when the union is not positive |
| Geometry.IouSymmetric | ML/utils/dataset_generator.py:52-64 | IoU does not depend on the order of its arguments |
| Geometry.IouOfSeparated | ML/utils/dataset_generator.py:57-62 | boxes that are disjoint or only touch have intersection 0 and IoU 0 |
| Geometry.IouOfEmptyUnion | ML/utils/dataset_generator.py:63-64 | a non-positive union gives IoU 0 |
| Geometry.IouSelf | ML/utils/dataset_generator.py:52-64 | a box of positive area has IoU 1 with itself |
| Geometry.IntersectionBounds | ML/utils/dataset_generator.py:57-62 | for non-negative sizes the intersection lies between 0 and the area of each box |
| Geometry.IouInUnitInterval | ML/utils/dataset_generator.py:52-64 | for non-negative sizes the IoU lies in [0, 1] |
| Geometry.IouAtMost | ML/utils/dataset_generator.py:64 | IoU ≤ t iff intersection ≤ t × union (for a positive union; otherwise iff t ≥ 0) |
| Compositor.Threshold | ML/utils/dataset_generator.py:43 | `cv2.threshold(gray, 1, 255, THRESH_BINARY)`: 255 above 1, else 0 |
| Compositor.BitwiseNot | ML/utils/dataset_generator.py:44 | `cv2.bitwise_not` on an 8-bit value |
| Compositor.Masked | ML/utils/dataset_generator.py:46-47 | `cv2.bitwise_and(p, p, mask=m)`: the pixel where the mask is set, black elsewhere |
| Compositor.SaturatingAdd | ML/utils/dataset_generator.py:48 | `cv2.add` on 8-bit values, saturating at 255 |
| Compositor.Blank | ML/utils/dataset_generator.py:68 | the zero canvas has the given height and width and is black everywhere |
| Compositor.Combine | ML/utils/dataset_generator.py:43-48 | threshold, inverted mask, two masked ANDs and a saturating add give the object pixel where its gray value exceeds 1, the canvas pixel elsewhere |
| Compositor.PasteGrid | ML/utils/dataset_generator.py:38-50 | the shape is unchanged; inside the object's rectangle each pixel is the object's where its gray value exceeds 1 and the old one elsewhere; outside the rectangle nothing changes |
| Compositor.PasteIdempotent | ML/utils/dataset_generator.py:38-50 | pasting the same object at the same place twice equals pasting it once |
| Compositor.PasteTransparent | ML/utils/dataset_generator.py:43-49 | an object whose gray values are nowhere above 1 leaves the canvas unchanged |
| Compositor.PasteCommutes | ML/utils/dataset_generator.py:38-50 | pastes into disjoint rectangles commute |
| Compositor.PasteObject | ML/utils/dataset_generator.py:38-50 | the in-place update of the canvas array leaves exactly the grid `PasteGrid` describes |
| Placement.Overlaps | ML/utils/dataset_generator.py:89 | the list of IoUs of the candidate with each placed box, in placement order |
| Placement.Acceptable | ML/utils/dataset_generator.py:89-90 | the candidate's IoU with every placed box is at most max_overlap |
| Placement.LabelFor | ML/utils/dataset_generator.py:94-99 | the label line of a placed box: the entry's class id and the four normalized values |
| Placement.Consistent | ML/utils/dataset_generator.py:68-101 | the sample invariant: boxes and labels one to one, each label that of its box, every box inside the canvas, pairwise IoU within the bound, canvas black outside the boxes |
| Placement.RunSample | ML/utils/dataset_generator.py:67-101 | one sample: `random.sample` raises for a negative max_classes; otherwise the chosen entries are placed in order on a black canvas, stopping at the first error |
| Placement.AcceptableIff | ML/utils/dataset_generator.py:89-90 | the `all(o <= max_overlap ...)` test holds iff every placed box has IoU ≤ max_overlap with the candidate, iff the division-free form holds for each |
| Placement.FirstFit | ML/utils/dataset_generator.py:84-90 | the attempt chosen is acceptable and is the first acceptable one; none is chosen iff all 20 attempts fail |
| Placement.LabelNormalized | ML/utils/dataset_generator.py:94-97 | a box inside the canvas has centre coordinates in [0, 1] and sizes in (0, 1], and the normalized values give back the pixel box |
| Placement.Normalized | ML/utils/dataset_generator.py:94-97 | one axis of the normalization: (x + w/2)/W in [0, 1], w/W in (0, 1], and the pixel position and size recovered from them |
| Placement.Initial | ML/utils/dataset_generator.py:68-72 | the state each sample starts from (black canvas, no boxes, no labels) satisfies the sample invariant |
| Placement.PlaceInstance | ML/utils/dataset_generator.py:84-101 | one instance keeps the sample invariant, only appends, adds at most one box, and labels it with the entry's class id |
| Placement.RunInstances | ML/utils/dataset_generator.py:76-101 | the instances of one entry keep the invariant, only append, add at most one box each, every new line carrying the entry's class id |
| Placement.RunPick | ML/utils/dataset_generator.py:74-101 | one chosen entry succeeds only when `randint(1, max_objects_per_class)` has a range, and keeps the invariant, adding no more boxes than instances |
| Placement.RunPicks | ML/utils/dataset_generator.py:69-101 | after n chosen entries the invariant holds, boxes ≤ n × max_objects_per_class, zero entries give the initial state, and every label's class id is the first-line class id of a chosen entry |
| Placement.PairwiseOverlapBound | ML/utils/dataset_generator.py:89-90 | in a consistent sample every two distinct boxes, in either order, have IoU ≤ max_overlap |
| Placement.StateProperties | ML/utils/dataset_generator.py:84-101 | any consistent state has boxes and labels one to one, pairwise IoU within the bound, boxes inside the canvas and normalized label values |
| Placement.SampleCount | ML/utils/dataset_generator.py:69-101 | a sample with at least one chosen entry needs max_objects_per_class ≥ 1 and has at most min(max_classes, \|catalog\|) × max_objects_per_class lines, so at most max_classes × max_objects_per_class |
| Placement.SampleProperties | ML/utils/dataset_generator.py:66-101 | a finished sample has boxes and labels one to one, pairwise IoU within the bound, boxes inside the canvas, normalized values in [0, 1], class ids from chosen entries, and at most min(max_classes, \|catalog\|) × max_objects_per_class lines |
| Placement.DroppedInstance | ML/utils/dataset_generator.py:84-101 | an instance whose 20 positions all fail leaves canvas, boxes and labels unchanged |
| Placement.AcceptedInstance | ML/utils/dataset_generator.py:84-101 | an instance takes its first acceptable position, pastes the object there and appends exactly that box and its label |
| Generator.SampleStem | ML/utils/dataset_generator.py:104-105 | `f"{idx:05d}"`: the index zero-padded to five digits |
| Generator.ImageName | ML/utils/dataset_generator.py:104 | the image file name: the stem followed by '.jpg' |
| Generator.LabelName | ML/utils/dataset_generator.py:105 | the label file name: the stem followed by '.txt' |
| Generator.ImageFile | ML/utils/dataset_generator.py:104-106 | the name under `images` a written sample's canvas goes to |
| Generator.LabelFile | ML/utils/dataset_generator.py:105-108 | the name under `labels` a written sample's label lines go to |
| Generator.StemShape | ML/utils/dataset_generator.py:104-105 | the sample stem is a digit string denoting the index, at least five characters, exactly five below 100000 |
| Generator.NamesDistinct | ML/utils/dataset_generator.py:104-105 | different indices give different image names and different label names, and no image name is a label name |
| Generator.PlaceOne | ML/utils/dataset_generator.py:84-101 | the 20-attempt loop with the in-place paste ends in the state `PlaceInstance` describes, or its error |
| Generator.PlaceEntry | ML/utils/dataset_generator.py:74-101 | one chosen entry ends in the state `RunPick` describes, or its error |
| Generator.PlaceInstances | ML/utils/dataset_generator.py:76-101 | the loop over one entry's instances ends in the state `RunInstances` describes, or the first error |
| Generator.NewCanvas | ML/utils/dataset_generator.py:68 | a fresh canvas array of the configured size, black everywhere |
| Generator.GenerateSample | ML/utils/dataset_generator.py:67-101 | one iteration of the sample loop yields exactly `RunSample` for its draws |
| Generator.OutcomeAt | ML/utils/dataset_generator.py:66-101 | the i-th outcome is what sample i's own draws produce |
| Generator.WriteSamples | ML/utils/dataset_generator.py:66-108 | the samples written by the first n iterations in index order, up to the first that raises, and that error |
| Generator.WriteStops | ML/utils/dataset_generator.py:66-108 | once a sample raises, later iterations change nothing: the loop stops there |
| Generator.WrittenSamples | ML/utils/dataset_generator.py:66-108 | the written samples are the samples 0, 1, ... in index order, each with its own canvas and labels; without an error one per index; with one, it is the error of the first unwritten sample |
| Generator.Generate | ML/utils/dataset_generator.py:66-108 | the loop writes exactly what `WriteSamples` gives for the outcomes of the drawn samples, with n_samples ≤ 0 writing nothing |
| Recognize.ItemStyleOf | Frontend/src/view/RecognizeScreen.tsx:19-24 | missing without a box of that name, low confidence below 0.7, recognized otherwise |
| Recognize.StatusOf | Frontend/src/view/RecognizeScreen.tsx:32-39 | the loop over the set, returning at the first tool without a box or with confidence below 0.7 |
| Recognize.Hint | Frontend/src/view/RecognizeScreen.tsx:112-117 | the hint chosen by comparing the status text with 'OK' and 'Отклонено' |
| Recognize.FindByName | Frontend/src/view/RecognizeScreen.tsx:20 | none iff no box has the name; otherwise the first box with that name |
| Recognize.StatusIsFirstProblem | Frontend/src/view/RecognizeScreen.tsx:19-39 | 'OK' iff every tool is styled recognized; otherwise the first tool not recognized decides: missing gives 'Отклонено', low confidence 'Ручная проверка' |
| Recognize.StatusOkIff | Frontend/src/view/RecognizeScreen.tsx:32-39 | 'OK' iff every tool of the set has a box with its name and confidence ≥ 0.7; an empty set is 'OK' |
| Recognize.LowConfidenceBeforeMissing | Frontend/src/view/RecognizeScreen.tsx:33-37 | a low-confidence tool before a missing one gives manual review; in the other order, rejection |
| Recognize.FirstMatchWins | Frontend/src/view/RecognizeScreen.tsx:20 | only the first box with a name counts; later boxes with that name do not change the style |
| Recognize.ThresholdIsInclusive | Frontend/src/view/RecognizeScreen.tsx:22 | a confidence of exactly 0.7 is styled recognized |
| Recognize.HintOfStatus | Frontend/src/view/RecognizeScreen.tsx:112-117 | no hint for 'OK', the 'not found' hint for rejection, the low-confidence hint for manual review |
| Recognize.HintShownIffProblem | Frontend/src/view/RecognizeScreen.tsx:112-117 | the hint is shown iff some tool is not recognized; it says tools were not found iff the first such tool has no box |
| Recognize.Round | Frontend/src/view/RecognizeScreen.tsx:106 | `Math.round` gives the integer within half of x, halves rounded up |
| Recognize.ConfidenceText | Frontend/src/view/RecognizeScreen.tsx:106 | 'не найдено' without a box; otherwise, for a confidence in [0, 1], digits followed by '%' whose value is the confidence rounded to a whole percent, in 0..100 |
| Recognize.PercentInRange | Frontend/src/view/RecognizeScreen.tsx:106 | a confidence in [0, 1] rounds to a whole percent in 0..100 |
| OrderSelection.FilteredOrders | Frontend/src/view/OrderSelectionScreen.tsx:34-39 | no orders without an action; the 'requested' orders for take and the 'in_progress' ones for return |
| OrderSelection.FormatDate | Frontend/src/view/OrderSelectionScreen.tsx:13-21 | day and 1-based month padded to two digits, then the year, joined by dots |
| OrderSelection.FormatTime | Frontend/src/view/OrderSelectionScreen.tsx:22-28 | hours and minutes padded to two digits, joined by a colon |
| OrderSelection.NoActionNoOrders | Frontend/src/view/OrderSelectionScreen.tsx:35 | no chosen action lists no orders |
| OrderSelection.FilteredByStatus | Frontend/src/view/OrderSelectionScreen.tsx:36-37 | take lists exactly the 'requested' orders and return exactly the 'in_progress' ones, each as often as in the input and in input order |
| OrderSelection.FilteredIsSubsequence | Frontend/src/view/OrderSelectionScreen.tsx:34-39 | the list is always a subsequence of the orders and no longer |
| OrderSelection.FormatDateShape | Frontend/src/view/OrderSelectionScreen.tsx:13-21 | DD.MM.YYYY: two digits of day, a dot, two digits of the 1-based month, a dot, the year; each field reads back as its number |
| OrderSelection.FormatTimeShape | Frontend/src/view/OrderSelectionScreen.tsx:22-28 | HH:MM in exactly five characters, each field reading back as its number |
| ActionChoice.ChoicesFor | Frontend/src/view/ActionChoiceScreen.tsx:16-45 | the take button iff some order is 'requested', the return button iff some is 'in_progress', the message iff neither |
| ActionChoice.AnyWithStatus | Frontend/src/view/ActionChoiceScreen.tsx:16-17 | `some` holds iff some order has the status |
| ActionChoice.ChoicesMatchFilter | Frontend/src/view/ActionChoiceScreen.tsx:16-45 | the take (return) button is shown iff the next screen would list some order for it, i.e. some order is 'requested' ('in_progress'); the message is shown iff neither button is |
| ActionChoice.NoOrdersNoChoices | Frontend/src/view/ActionChoiceScreen.tsx:43-45 | without orders only 'Нет активных заказов' is shown |
| ActionChoice.OnlyStatusesMatter | Frontend/src/view/ActionChoiceScreen.tsx:16-17 | order lists with the same statuses position by position offer the same choices |
| ActionChoice.BothChoices | Frontend/src/view/ActionChoiceScreen.tsx:25-41 | a requested order and an order in progress show both buttons and no message |
| Wizard.ScreenOf | Frontend/src/view/App.tsx:77-122 | the screen rendered for each step, with the props App passes it; step 6 only with session data |
| Wizard.Offered | Frontend/src/view/ActionChoiceScreen.tsx:25-41 | the button of an action is rendered: the take button when some order can be taken, the return button when some order can be returned |
| Wizard.Handle | Frontend/src/view/App.tsx:45-122 | an event runs the callback the rendered screen wires to it; an event the screen does not offer changes nothing |
| Wizard.NextStep | Frontend/src/view/App.tsx:45 | advances by one below 6 and stays at 6 from there |
| Wizard.PrevStep | Frontend/src/view/App.tsx:46 | goes back by one above 1 and stays at 1 from there |
| Wizard.StepMovesStayInRange | Frontend/src/view/App.tsx:45-46 | from a step in 1..6 both moves stay in 1..6, forward never lower, back never higher |
| Wizard.RecognizeScreenShown | Frontend/src/view/App.tsx:115-121 | the recognition screen is rendered iff step 6 with session data, checking the active order's tools (or none) against the session's boxes |
| Wizard.HandleMoves | Frontend/src/view/App.tsx:77-122 | each screen's forward callback advances one step and sets exactly its field; back goes one step back; finishing returns to step 1 |
| Wizard.HandleKeepsReachable | Frontend/src/view/App.tsx:38-122 | every event keeps the reachable-state invariant |
| Wizard.RunKeepsReachable | Frontend/src/view/App.tsx:38-122 | every sequence of events keeps the reachable-state invariant |
| Wizard.WizardInvariants | Frontend/src/view/App.tsx:38-122 | from the start: step in 1..6, employee id always '', a screen always rendered, the photo step given the chosen order, the recognition screen checking its tools |
| Wizard.FinishRestarts | Frontend/src/view/App.tsx:69-71 | finishing on the recognition screen returns to step 1 and the start screen |
| Wizard.FullSession | Frontend/src/view/App.tsx:77-122 | start, fetched orders, take, a requested order and a photo lead to step 6 with the recognition screen for that order's tools |
| Wizard.App.constructor | Frontend/src/view/App.tsx:38-43 | step 1, empty employee id and orders, no order, action or session |
| Wizard.App.GoToNext | Frontend/src/view/App.tsx:45 | the step becomes `NextStep` of the old one; no other field changes |
| Wizard.App.OnBack | Frontend/src/view/App.tsx:46 | the step becomes `PrevStep` of the old one; no other field changes |
| Wizard.App.HandleEmployeeNext | Frontend/src/view/App.tsx:48-51 | sets the employee id and advances; nothing else changes |
| Wizard.App.HandleActionSelect | Frontend/src/view/App.tsx:53-56 | sets the selected action and advances; nothing else changes |
| Wizard.App.HandleOrderSelect | Frontend/src/view/App.tsx:58-61 | sets the active order and advances; nothing else changes |
| Wizard.App.HandlePhotoNext | Frontend/src/view/App.tsx:63-66 | sets the session data and advances; nothing else changes |
| Wizard.App.HandleFinishSession | Frontend/src/view/App.tsx:69-71 | sets the step to 1; nothing else changes |
| Wizard.App.SetOrders | Frontend/src/view/App.tsx:40 | replaces the orders; nothing else changes |
| Wizard.App.Dispatch | Frontend/src/view/App.tsx:77-122 | the state after an event is `Handle` of the state before |
| ToolStation.Accepted | Frontend/src/view/ToolStationComponent.tsx:173-177 | the kit is shown accepted iff the match is 100% or it was confirmed manually |
| ToolStation.ManualConfirmOffered | Frontend/src/view/ToolStationComponent.tsx:183-185 | the confirm button is shown iff not confirmed and the match is below 100% |
| ToolStation.CardShown | Frontend/src/view/ToolStationComponent.tsx:104-188 | a card is rendered for every step, the review card only with a photo and the result card only with a result |
| ToolStation.Outcome | Frontend/src/view/ToolStationComponent.tsx:84-89 | a draw above 0.3 gives the full match (100%, nothing missing); otherwise 91% with the offset screwdriver missing |
| ToolStation.Headline | Frontend/src/view/ToolStationComponent.tsx:175-177 | 'Комплект принят!' when the kit is accepted, 'Обнаружено несоответствие!' otherwise |
| ToolStation.MatchText | Frontend/src/view/ToolStationComponent.tsx:179 | 'Подтверждено вручную' after a manual check, otherwise the match percent followed by '%' |
| ToolStation.MissingText | Frontend/src/view/ToolStationComponent.tsx:180-182 | the 'Не найдено' line joining the missing tools with ', ', shown only when some are missing and there is no manual check |
| ToolStation.Handle | Frontend/src/view/ToolStationComponent.tsx:102-188 | an event acts through the control the rendered card offers for it; one the card does not offer changes nothing |
| ToolStation.Reset | Frontend/src/view/ToolStationComponent.tsx:94-100 | back to 'start' with tab number '', no photo, no result and no manual check; camera fields kept |
| ToolStation.OfferedOnlyWhenRejected | Frontend/src/view/ToolStationComponent.tsx:173-185 | confirmation is offered only for a kit not shown accepted; a confirmed kit is accepted, offers no button, shows 'Подтверждено вручную' and no missing list |
| ToolStation.Outcomes | Frontend/src/view/ToolStationComponent.tsx:83-91 | the full match is accepted with no button and no missing list; the partial match is accepted iff confirmed and names the missing screwdriver until then |
| ToolStation.HandleKeepsReachable | Frontend/src/view/ToolStationComponent.tsx:102-188 | every event keeps the reachable-state invariant |
| ToolStation.RunKeepsReachable | Frontend/src/view/ToolStationComponent.tsx:102-188 | every sequence of events keeps the reachable-state invariant |
| ToolStation.StationInvariants | Frontend/src/view/ToolStationComponent.tsx:102-188 | from the start: past 'start' the tab number is non-empty; the result step has a result, showing either accepted or the confirm button, never both and never neither |
| ToolStation.StartNeedsTabNumber | Frontend/src/view/ToolStationComponent.tsx:113 | the start button moves to 'action' iff a tab number was typed, and otherwise changes nothing |
| ToolStation.ConfirmAccepts | Frontend/src/view/ToolStationComponent.tsx:183-185 | confirming an unconfirmed partial match turns a rejected kit into an accepted one and hides the button |
| ToolStation.Station.constructor | Frontend/src/view/ToolStationComponent.tsx:10-17 | the initial component state |
| ToolStation.Station.SetTabNumber | Frontend/src/view/ToolStationComponent.tsx:110 | sets the tab number only |
| ToolStation.Station.PressStart | Frontend/src/view/ToolStationComponent.tsx:113 | moves to 'action' iff the tab number is non-empty, and otherwise changes nothing |
| ToolStation.Station.ChooseReturn | Frontend/src/view/ToolStationComponent.tsx:121 | moves to 'capture' only |
| ToolStation.Station.CamerasListed | Frontend/src/view/ToolStationComponent.tsx:24-30 | the first video input, if any, becomes the camera id |
| ToolStation.Station.SelectCamera | Frontend/src/view/ToolStationComponent.tsx:130 | sets the camera id only |
| ToolStation.Station.StartCamera | Frontend/src/view/ToolStationComponent.tsx:32-39 | nothing without a camera id; streaming once a video element receives the stream |
| ToolStation.Station.StopCamera | Frontend/src/view/ToolStationComponent.tsx:41-47 | streaming stops; nothing else changes |
| ToolStation.Station.TakePhoto | Frontend/src/view/ToolStationComponent.tsx:49-60 | nothing unless both refs exist; otherwise sets the photo, stops streaming and moves to 'review' |
| ToolStation.Station.ReadFile | Frontend/src/view/ToolStationComponent.tsx:73-78 | moves to 'review' at once, the photo still unchanged |
| ToolStation.Station.FileLoaded | Frontend/src/view/ToolStationComponent.tsx:75 | the loaded file becomes the photo |
| ToolStation.Station.ProcessPhoto | Frontend/src/view/ToolStationComponent.tsx:80-81 | moves to 'processing' only |
| ToolStation.Station.TimerFired | Frontend/src/view/ToolStationComponent.tsx:83-91 | sets the result to the outcome of the draw and moves to 'result' |
| ToolStation.Station.ConfirmManually | Frontend/src/view/ToolStationComponent.tsx:184 | sets the manual check only |
| ToolStation.Station.ResetAll | Frontend/src/view/ToolStationComponent.tsx:94-100 | the state becomes `Reset` of the old one |
| ToolStation.Station.Dispatch | Frontend/src/view/ToolStationComponent.tsx:102-188 | the state after an event is `Handle` of the state before |

## Left out

- File and process I/O in the generator are not modelled: `os.makedirs`, `open`, `cv2.imread` and `cv2.imwrite`. The file system is a map from existing paths to their text, and the written files are the returned sequence of samples.
- A label path that exists but cannot be read or decoded is not modelled: every existing path has readable text.
- JPEG encoding of the written image is not modelled; the sample holds the raw canvas pixels.
- `cv2.resize` resampling, the BGR-to-gray weights and the `random.uniform` scale factor are not modelled. Floating point and a library are involved, so the resized object and its gray image are inputs, non-empty and rectangular as `cv2.resize` requires.
- `random.sample`, `random.randint`, `Math.random` and `setTimeout` are not modelled. Their results are inputs, restricted to what those functions guarantee.
- The six-decimal formatting of label values is not modelled. Label values are exact rationals, and IoU is an exact rational instead of a binary64 float.
- `int()` and `float()` accept non-ASCII Unicode digits; the model accepts ASCII digits only.
- A negative `image_size` cannot be represented: canvas dimensions are natural numbers.
- Compositor.PasteObject: requires the object to fit inside the canvas at (x, y). On a clipped region `roi` is smaller than the full-size `mask_inv`, so the source would raise in `cv2.bitwise_and(roi, roi, mask=mask_inv)`; the placement loop only pastes where the object fits.
- An object larger than the canvas is modelled as the `ObjectTooLarge` error, which stands for `randint`'s `ValueError` on an empty range. It is not a precondition.
- `ML/app.py`, the other ML scripts and the whole backend are not part of this model.
- The frontend's network calls are not modelled: `fetch` in `utils.ts`, `EmployeeNumberScreen.tsx` and `PhotoStep.tsx`. The fetched order list and the finished session data arrive as event data.
- Camera streams, canvas drawing and `FileReader` are not modelled. Their outcomes are parameters: the data URL, and whether a DOM element is mounted.
- JSX layout, CSS, the bounding-box overlay percentages and the info panels (`showInfo`) are not modelled.
- `new Date` parsing of ISO strings is not modelled: the calendar fields are inputs. Invalid dates (NaN fields) are not modelled.
- React's batching and asynchronous effects are not modelled. Each event is applied atomically: a handler's state updates, then its step change.
- ToolStation.Handle: treats the file reader's load and the camera list as arriving in any step, and the recognition timer as firing only while processing, which is the only step that leaves it pending. Real interleavings of these callbacks, such as a second timer, are not modelled.
- Wizard.Handle: the order fetch of `EmployeeNumberScreen.tsx:28-30` and the photo upload of `PhotoStep.tsx:77-83` are modelled as resolving only while their own screen is on show, so a late `OrdersFetched` or `PhotoDone` changes nothing. In the source the callback runs after an `await`, the header Back button stays enabled meanwhile, and `goToNext` is a functional `setStep(prev => ...)`, so a late result advances from whatever step is current: step 6 can then be reached with no session data and `App.tsx:115` renders nothing. The session data is also modelled as always carrying boxes, while the 'Далее' button of `PhotoStep.tsx:186` passes `{ photo, sessionId }` without `bboxes` or `status`, and `RecognizeScreen` then reads `bboxes` of undefined. `Wizard.WizardInvariants` (a screen is always rendered, the recognition screen checks the session's boxes) holds only under both assumptions.
- Placement.ValidInstance: requires the resized object to be at least 1×1. In the source an object image whose width or height is below 1/scale (always for 1 pixel, for 2 or 3 pixels at small scales, since the scale is in [0.3, 0.7]) gives `int(w*scale) == 0` or `int(h*scale) == 0` at `dataset_generator.py:81`, and `cv2.resize` at line 82 then raises; that error path is not modelled, and such an input is excluded from the draws.
- Recognize.ConfidenceText: confidences, the 0.7 threshold and the argument of `Math.round` are exact reals, not binary64 doubles. Near a half the shown percent can differ by one from what JavaScript computes (0.145 × 100 is 14.499999999999998 in binary64, shown as 14%; the model shows 15%), and a confidence stored just off 0.7 is compared exactly.
- LabelParse.PyFloatOf: literals too large for binary64 (`float("1e400")` is `inf`) are modelled as finite exact values; the loader only uses whether a field parses, which is the same.
- LabelParse.PyInt: the 4300-digit limit of Python 3.11+ is not modelled: a class id of more than 4300 digits is accepted, where Python raises ValueError.
- Generator.Generate: takes the number of samples as an argument; the default `n_samples=100` is not modelled.
