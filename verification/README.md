# Food nutrition estimator: a Dafny model of the decision logic

The repository estimates the nutrition of fruit and vegetables in a photo. It
has two Streamlit applications, and each holds its own decision logic:

- **The FastSAM scanner** (`YOLO_streamlit_app.py`, module `FastSamScanner`).
  It keeps the detector boxes whose class is on a food allow-list. For each
  segmentation mask it picks a size class (Small, Medium or Large) from the
  share of the image the mask covers. It then prices one line per mask as
  `int(base_calories * multiplier)`. Base calories come from a mock
  nutrition database that falls back to a `default` entry.
- **The mass-based estimator** (`app/app.py`, module `MassNutrition`).
  It shapes detector boxes into detection records and counts, per class, the
  records at or above a confidence threshold. It prices each counted class
  that both reference tables know as `count` items of the class's average
  weight, at its nutrients per 100 g, and sums the five nutrients into totals.
  It also colours boxes by confidence.

Two small modules support them. `Results` holds `Option` and `Result`;
`Err` stands for a Python exception the code does not catch. `PyNumeric`
holds Python's `int()` on a float, which truncates toward zero.

The detector, the segmenter and the JSON tables are collaborators. Their
outputs are plain inputs to the model:
- class names, or box class ids with a class-name table;
- confidences and box corners;
- mask pixel counts;
- the two reference tables as maps.

Arithmetic is over Dafny's unbounded reals.

Some facts about the scanner's code that the model keeps:
- `int()` truncates: a small apple is `int(95 * 0.7) = 66` kcal.
- The scanner applies no confidence threshold of its own. Its only threshold
  is the detector's `conf=0.4`, which belongs to the detector.
- In the calorie loop the mask's pixel count is a numpy scalar, so dividing
  it by an image of no pixels does not raise. It gives `nan` for an empty
  mask, which is priced Medium, and `inf` for any other mask, which is priced
  Large. Called with two Python numbers, `calculate_heuristic_size` raises
  `ZeroDivisionError` instead.
- The size thresholds and the nutrition table are fixed constants.

In `app/app.py` a debug block (lines 41-43) stops the script before any of
the functions below it are defined. The functions are modelled as written,
but at run time they are unreachable.

## Model

| member | source | states |
|---|---|---|
| `PyNumeric.Truncate` | YOLO_streamlit_app.py:141 | `int(x)` truncates toward zero: the result has the sign of `x`, its magnitude is at most that of `x`, and it lies within 1 of `x` |
| `FastSamScanner.CalculateHeuristicSize` | YOLO_streamlit_app.py:45-54 | Small exactly when the mask covers less than 0.05 of the image; Large exactly when it covers more than 0.15; Medium exactly on the closed interval [0.05, 0.15]. The multiplier always matches the label (0.7, 1.0, 1.3). Given two Python numbers and an image of no pixels, it raises ZeroDivisionError |
| `FastSamScanner.MultiplierMonotone` | YOLO_streamlit_app.py:45-54 | On the same image, a larger mask never gets a smaller multiplier, and every multiplier is 0.7, 1.0 or 1.3 |
| `FastSamScanner.LookupNutrition` | YOLO_streamlit_app.py:139 | A class with its own database entry gets that entry. Any other class gets the default entry (50 kcal). Base calories always lie in 30..105 |
| `FastSamScanner.AllowListedFallbacks` | YOLO_streamlit_app.py:14-25 | Among the allow-listed classes, exactly pizza, donut and cake lack a database entry; those three are priced at the default 50 kcal |
| `FastSamScanner.MaskSize` | YOLO_streamlit_app.py:133-136 | On an image with pixels, the size is the one `calculate_heuristic_size` gives. On an image of none, numpy's quotient makes an empty mask Medium (`nan` fails both tests) and any other mask Large (`inf` exceeds 0.15). The multiplier matches the label |
| `FastSamScanner.FoodDetections` | YOLO_streamlit_app.py:98-105 | The filtered detections are no more than the input, and each is an input detection of a food class |
| `FastSamScanner.FoodDetectionsKeepsAllFood` | YOLO_streamlit_app.py:100-105 | A detection is kept if and only if it is in the input and its class is on the allow-list |
| `FastSamScanner.FoodDetectionsAppend` | YOLO_streamlit_app.py:100-105 | Filtering keeps input order: filtering a concatenation equals concatenating the filtered parts |
| `FastSamScanner.FoodDetectionsIdempotent` | YOLO_streamlit_app.py:103 | Filtering an already-filtered list changes nothing |
| `FastSamScanner.FilterFoodDetections` | YOLO_streamlit_app.py:98-105 | `food_boxes` and `food_classes` have equal length and are index-aligned: entry i holds the box and the class of the i-th food detection, in input order |
| `FastSamScanner.FoodClassNamesAllowListed` | YOLO_streamlit_app.py:103-105 | Every class name the filter passes on is on the allow-list |
| `FastSamScanner.CalorieRowFor` | YOLO_streamlit_app.py:130-149 | A mask's row names its class. Its size class and multiplier are those `calculate_heuristic_size` gives the mask on an image with pixels; on an image of none they are Medium for an empty mask and Large otherwise. It estimates `trunc(base_calories * multiplier)` kcal, which lies in 21..136 kcal |
| `FastSamScanner.CalorieTableFor` | YOLO_streamlit_app.py:121-149 | No masks (`None`): an empty table with total 0. With masks, the loop succeeds exactly when there are no more masks than food classes, and then has one row per mask; otherwise it raises IndexError. It never raises ZeroDivisionError |
| `FastSamScanner.EstimateCalories` | YOLO_streamlit_app.py:121-149 | The loop accumulates exactly the table above. Row i is the row of mask i with class i, and the running total is the sum of the rows' calories. The first failing iteration's exception ends the loop |
| `FastSamScanner.CalorieTableIndexError` | YOLO_streamlit_app.py:129-130 | A mask whose index has no food class ends the loop with IndexError |
| `FastSamScanner.EmptyMaskOnEmptyImage` | YOLO_streamlit_app.py:129-149 | One empty apple mask on an image of no pixels yields the row (apple, Medium, 1.0, 95 kcal) and a total of 95, not an exception |
| `FastSamScanner.SumCaloriesAppend` | YOLO_streamlit_app.py:142 | The calorie total is additive over rows |
| `FastSamScanner.SumCaloriesBounds` | YOLO_streamlit_app.py:142 | Rows of 21..136 kcal each sum to between 21 and 136 kcal per row |
| `FastSamScanner.CalorieTableTotalBounds` | YOLO_streamlit_app.py:121-149 | A successful table's total is the sum of its rows' calories, and lies between 21 and 136 kcal per mask |
| `FastSamScanner.SmallAppleIs66` | YOLO_streamlit_app.py:141 | A small apple is `int(95 * 0.7) = 66` kcal (truncated, not rounded) |
| `FastSamScanner.AnalyzeNutrition` | YOLO_streamlit_app.py:77-149 | No boxes: stop with "no objects". Boxes but none of a food class: stop with "no food". Otherwise the outcome is the calorie table of the masks against the food classes in detection order, or the IndexError that loop raises. Every reported class is allow-listed |
| `MassNutrition.GetColor` | app/app.py:46-51 | Green exactly when conf ≥ 0.8; yellow (0,255,255) exactly when 0.5 ≤ conf < 0.8; red exactly when conf < 0.5 |
| `MassNutrition.ColorBandMonotone` | app/app.py:46-51 | A more confident box never gets a lower colour band |
| `MassNutrition.RunDetection` | app/app.py:54-67 | On success there is one record per box, in box order. Each record carries the truncated class id, its name, the confidence and the truncated corners. The loop succeeds exactly when every class id has a name; otherwise it raises the KeyError of the first unnamed id |
| `MassNutrition.ItemCounts.Put` | app/app.py:93 | Dictionary assignment keeps the dictionary well formed. A present key keeps its position, and a new key goes last |
| `MassNutrition.FirstOccurrences` | app/app.py:88-94 | The dictionary's key order holds exactly the names that occur |
| `MassNutrition.FirstOccurrencesDistinct` | app/app.py:88-94 | No key is listed twice |
| `MassNutrition.QualifyingNamesMembership` | app/app.py:90-92 | A name is counted exactly when some detection at or above the threshold carries it |
| `MassNutrition.OccurrencesPositive` | app/app.py:93 | A name occurs at least once exactly when it is present |
| `MassNutrition.CountOneMore` | app/app.py:93 | `counts[name] = counts.get(name, 0) + 1` turns the counts of a list of names into the counts of that list plus one more name |
| `MassNutrition.CountsSumToLength` | app/app.py:88-94 | The occurrence counts of the distinct names add up to the number of names |
| `MassNutrition.CountItems` | app/app.py:88-94 | Only detections with confidence ≥ threshold are counted. The keys are in first-occurrence order, and every count is its number of occurrences, which is at least 1. A class is a key iff some qualifying detection has it. The counts sum to the number of qualifying detections |
| `MassNutrition.RowFor` | app/app.py:105-125 | A row carries the item name and its count |
| `MassNutrition.RowFormula` | app/app.py:105-114 | weight = average weight × count. Each nutrient = per-100 g value × weight / 100. Fiber is 0 when the table omits it |
| `MassNutrition.KnownItems` | app/app.py:101-103 | The items kept are exactly the keys that both reference tables know |
| `MassNutrition.NutritionRowsFollowKnownItems` | app/app.py:101-125 | The rows follow the counts' key order, restricted to known items. Row i is the row of the i-th known key at its count |
| `MassNutrition.NutritionRowsAppend` | app/app.py:101-125 | Pricing a concatenation of keys concatenates their rows |
| `MassNutrition.UnknownItemIgnored` | app/app.py:102-103 | An item missing from either table adds no row and changes no total, wherever it stands among the keys |
| `MassNutrition.SumRowsAppend` | app/app.py:127-131 | The totals are additive over the rows |
| `MassNutrition.SumRowsPermutation` | app/app.py:127-131 | The totals do not depend on the order of the rows |
| `MassNutrition.ComputeNutrition` | app/app.py:97-133 | The rows are the priced rows of the known keys, in key order. Each total equals the sum of its column over the rows. Empty counts give no rows and five zero totals |
| `MassNutrition.RowForOneMore` | app/app.py:105-114 | One more item of a class adds one average item's nutrients to its row |
| `MassNutrition.BumpCount` | app/app.py:97-133 | Raising a listed class's count by one raises the totals by one average item of that class (nothing, if the class is unknown) |
| `MassNutrition.GroupedTotalsMatchPerItem` | app/app.py:88-133 | Counting names by class and pricing count × average weight gives the same totals as pricing every name on its own |
| `MassNutrition.TwoItemsOf150Grams` | app/app.py:105-109 | Two items of 150 g average at 50 kcal per 100 g weigh 300 g and carry 150 kcal |
| `MassNutrition.AnalyzeUpload` | app/app.py:154-184 | A KeyError in detection is reported exactly when some box's class id has no name, and it names the first such box. Otherwise the records are the boxes with truncated ids and corners and named classes. "Nothing above threshold" means no record qualifies. A breakdown has counts in first-occurrence order equal to each qualifying name's occurrences. Its rows are the priced counts, its totals are the column sums of the rows, and those totals equal pricing each qualifying detection on its own |

## Left out

- User interface: Streamlit layout, spinners, warnings, `st.stop` and tables are left out. The model returns the outcome the script would display. Display strings (`capitalize()`, `f"{multiplier}x"`, `.1f`) are not modelled: rows keep the raw class name and the numeric multiplier.
- Model loading and inference are left out; their outputs are inputs. This covers YOLO, FastSAM, `torch.stack`, the detector's own `conf=0.4` filter and `masks.data.cpu().numpy()`. Each mask is its pixel count (`mask_np.sum()`), and the boxes given to the segmenter are not modelled.
- `draw_boxes` and OpenCV image decoding and drawing are left out as graphics I/O. `GetColor` is the only part of them that is modelled.
- Reading `nutrition_per_100g.json` and `avg_weights.json` is file I/O. The two tables are map parameters.
- The FastAPI backend and the Next.js frontend have no decision logic: the backend saves an upload and returns fixed strings.
- Floating point: all arithmetic is over exact reals. Where IEEE rounding would move a product across an integer before `int()`, the model can differ from the program.
- `PyNumeric.Truncate`: models `int()` on finite floats only. NaN and infinity, which make Python raise, are not modelled.
- Image dimensions are natural numbers. The script multiplies width by height; the model does the same in `AnalyzeNutrition`.
- The scanner's class lookup is not modelled. `int(box.cls[0])` and `detector.names[cls_id]` (YOLO_streamlit_app.py:101-102) are left out: a scanner detection already carries its class name, so the KeyError of an unnamed class id, which `MassNutrition.RunDetection` models for app/app.py, is not part of the scanner model.
- Reference-table entries are complete records. `Per100g` always has calories, carbs, protein and fat, so the KeyError that `per100["calories"]`, `per100["carbs"]`, `per100["protein"]` or `per100["fat"]` (app/app.py:109-112) raises for an entry lacking one of them is not modelled; only fiber may be missing.
