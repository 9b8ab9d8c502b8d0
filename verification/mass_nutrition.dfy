/** The mass-based nutrition estimator (app/app.py). Detector boxes become
    detection records; the records at or above a confidence threshold are
    counted per class; and each counted class that both reference tables
    know is priced as `count` items of its average weight, at its nutrients
    per 100 g, with the five nutrients summed into totals.
    The detector and the two JSON tables are not modelled: the boxes, the
    class-name table and the two reference tables are inputs here. */
module MassNutrition {
  import opened Results
  import opened PyNumeric

  // ---------------------------------------------------------------------
  // Box colour by confidence

  /** An OpenCV colour: blue, green, red. */
  datatype Bgr = Bgr(blue: int, green: int, red: int)

  const Green: Bgr := Bgr(0, 255, 0)
  const Yellow: Bgr := Bgr(0, 255, 255)
  const Red: Bgr := Bgr(0, 0, 255)

  /** Confident boxes are green, middling ones yellow, the rest red. */
  function GetColor(conf: real): (c: Bgr)
    ensures c == Green <==> conf >= 0.8
    ensures c == Yellow <==> 0.5 <= conf < 0.8
    ensures c == Red <==> conf < 0.5
  {
    if conf >= 0.8 then Green
    else if conf >= 0.5 then Yellow
    else Red
  }

  /** Rank of a colour band, from red (0) to green (2). */
  function Band(c: Bgr): nat {
    if c == Green then 2 else if c == Yellow then 1 else 0
  }

  /** A more confident box never gets a lower band. */
  lemma ColorBandMonotone(lower: real, higher: real)
    requires lower <= higher
    ensures Band(GetColor(lower)) <= Band(GetColor(higher))
  {
  }

  // ---------------------------------------------------------------------
  // Detection records

  /** One box as the detector reports it: the class id and the confidence
      (one-element float tensors) and the corner coordinates. */
  datatype RawBox = RawBox(cls: real, conf: real, x1: real, y1: real, x2: real, y2: real)

  datatype PixelBox = PixelBox(x1: int, y1: int, x2: int, y2: int)

  datatype DetectionRecord = DetectionRecord(classId: int, className: string, confidence: real, bbox: PixelBox)

  /** `results.names[cls_id]` raises `KeyError` for an id the model has no name for. */
  datatype DetectionError = UnknownClassId(classId: int)

  /** Every box has a named class id, and record i is box i with its class id
      and corners truncated to integers and its class named. */
  predicate RecordsOfBoxes(records: seq<DetectionRecord>, boxes: seq<RawBox>, names: map<int, string>) {
    && |records| == |boxes|
    && forall i :: 0 <= i < |boxes| ==>
         var box, rec := boxes[i], records[i];
         && Truncate(box.cls) in names
         && rec.classId == Truncate(box.cls)
         && rec.className == names[Truncate(box.cls)]
         && rec.confidence == box.conf
         && rec.bbox == PixelBox(Truncate(box.x1), Truncate(box.y1), Truncate(box.x2), Truncate(box.y2))
  }

  /** Box `k` is the first box whose class id has no name. */
  predicate FirstUnnamedBox(boxes: seq<RawBox>, names: map<int, string>, k: int) {
    && 0 <= k < |boxes|
    && Truncate(boxes[k].cls) !in names
    && (forall j :: 0 <= j < k ==> Truncate(boxes[j].cls) in names)
  }

  /** The record loop of `run_detection`: one record per box, in box order,
      or the `KeyError` of the first box whose class id has no name. */
  method RunDetection(boxes: seq<RawBox>, names: map<int, string>)
    returns (outcome: Result<seq<DetectionRecord>, DetectionError>)
    ensures outcome.Ok? <==> forall i :: 0 <= i < |boxes| ==> Truncate(boxes[i].cls) in names
    ensures outcome.Ok? ==> RecordsOfBoxes(outcome.value, boxes, names)
    ensures outcome.Err? ==>
      exists k :: FirstUnnamedBox(boxes, names, k) && outcome.error == UnknownClassId(Truncate(boxes[k].cls))
  {
    var detections: seq<DetectionRecord> := [];
    for i := 0 to |boxes|
      invariant |detections| == i
      invariant forall j :: 0 <= j < i ==> Truncate(boxes[j].cls) in names
      invariant forall j :: 0 <= j < i ==>
        var box, rec := boxes[j], detections[j];
        && rec.classId == Truncate(box.cls)
        && rec.className == names[Truncate(box.cls)]
        && rec.confidence == box.conf
        && rec.bbox == PixelBox(Truncate(box.x1), Truncate(box.y1), Truncate(box.x2), Truncate(box.y2))
    {
      var box := boxes[i];
      var clsId := Truncate(box.cls);
      if clsId !in names {
        return Err(UnknownClassId(clsId));
      }
      var bbox := PixelBox(Truncate(box.x1), Truncate(box.y1), Truncate(box.x2), Truncate(box.y2));
      detections := detections + [DetectionRecord(clsId, names[clsId], box.conf, bbox)];
    }
    outcome := Ok(detections);
  }

  // ---------------------------------------------------------------------
  // Counting items

  /** A Python dictionary from class name to count: its keys in insertion
      order, and the counts. */
  datatype ItemCounts = ItemCounts(keys: seq<string>, count: map<string, nat>) {

    /** The dictionary's own invariant: each key once, and exactly the
        listed keys have counts. */
    ghost predicate Valid() {
      && (forall i, j :: 0 <= i < j < |keys| ==> keys[i] != keys[j])
      && (forall k :: k in count <==> k in keys)
    }

    /** `d.get(k, default)`. */
    function Get(k: string, default: nat): nat {
      if k in count then count[k] else default
    }

    /** `d[k] = v`: a present key keeps its place, a new key goes last. */
    function Put(k: string, v: nat): (d: ItemCounts)
      requires Valid()
      ensures d.Valid()
      ensures d.keys == if k in keys then keys else keys + [k]
      ensures d.count == count[k := v]
    {
      if k in count then ItemCounts(keys, count[k := v])
      else ItemCounts(keys + [k], count[k := v])
    }
  }

  /** Names of the detections at or above the threshold, in detection order. */
  function QualifyingNames(dets: seq<DetectionRecord>, threshold: real): seq<string> {
    if dets == [] then []
    else
      var last := dets[|dets| - 1];
      QualifyingNames(dets[..|dets| - 1], threshold)
        + (if last.confidence >= threshold then [last.className] else [])
  }

  /** How often `name` occurs in `ns`. */
  function Occurrences(ns: seq<string>, name: string): nat {
    if ns == [] then 0
    else Occurrences(ns[..|ns| - 1], name) + (if ns[|ns| - 1] == name then 1 else 0)
  }

  /** The distinct names of `ns`, in order of first occurrence. */
  function FirstOccurrences(ns: seq<string>): (firsts: seq<string>)
    ensures forall x :: x in firsts <==> x in ns
  {
    if ns == [] then []
    else
      var init := FirstOccurrences(ns[..|ns| - 1]);
      var last := ns[|ns| - 1];
      assert ns == ns[..|ns| - 1] + [last];
      if last in init then init else init + [last]
  }

  /** No name is listed twice. */
  lemma {:induction false} FirstOccurrencesDistinct(ns: seq<string>)
    ensures forall i, j :: 0 <= i < j < |FirstOccurrences(ns)| ==>
      FirstOccurrences(ns)[i] != FirstOccurrences(ns)[j]
  {
    if ns != [] {
      FirstOccurrencesDistinct(ns[..|ns| - 1]);
    }
  }

  /** A name is qualifying exactly when some detection at or above the
      threshold carries it. */
  lemma {:induction false} QualifyingNamesMembership(dets: seq<DetectionRecord>, threshold: real, name: string)
    ensures name in QualifyingNames(dets, threshold) <==>
      exists i :: 0 <= i < |dets| && dets[i].confidence >= threshold && dets[i].className == name
  {
    if dets != [] {
      var init := dets[..|dets| - 1];
      QualifyingNamesMembership(init, threshold, name);
      if name in QualifyingNames(init, threshold) {
        var i :| 0 <= i < |init| && init[i].confidence >= threshold && init[i].className == name;
        assert dets[i] == init[i];
      }
      if exists i :: 0 <= i < |dets| && dets[i].confidence >= threshold && dets[i].className == name {
        var i :| 0 <= i < |dets| && dets[i].confidence >= threshold && dets[i].className == name;
        if i < |init| {
          assert init[i] == dets[i];
        }
      }
    }
  }

  /** A name occurs at least once exactly when it is in the list. */
  lemma {:induction false} OccurrencesPositive(ns: seq<string>, name: string)
    ensures Occurrences(ns, name) >= 1 <==> name in ns
  {
    if ns != [] {
      var init := ns[..|ns| - 1];
      assert ns == init + [ns[|ns| - 1]];
      OccurrencesPositive(init, name);
    }
  }

  /** Sum of the counts of `keys`. */
  function SumCounts(keys: seq<string>, count: map<string, nat>): nat
    requires forall k :: k in keys ==> k in count
  {
    if keys == [] then 0
    else SumCounts(keys[..|keys| - 1], count) + count[keys[|keys| - 1]]
  }

  /** The occurrences in `ns` of each of `keys`, added up. */
  function SumOccurrences(keys: seq<string>, ns: seq<string>): nat {
    if keys == [] then 0
    else SumOccurrences(keys[..|keys| - 1], ns) + Occurrences(ns, keys[|keys| - 1])
  }

  /** Counts that agree with the occurrences sum like the occurrences. */
  lemma {:induction false} SumCountsIsSumOccurrences(keys: seq<string>, count: map<string, nat>, ns: seq<string>)
    requires forall k :: k in keys ==> k in count && count[k] == Occurrences(ns, k)
    ensures SumCounts(keys, count) == SumOccurrences(keys, ns)
  {
    if keys != [] {
      SumCountsIsSumOccurrences(keys[..|keys| - 1], count, ns);
    }
  }

  /** One more occurrence of `x` raises the occurrence sum over distinct
      keys by one exactly when `x` is among them. */
  lemma {:induction false} SumOccurrencesStep(keys: seq<string>, ns: seq<string>, x: string)
    requires forall i, j :: 0 <= i < j < |keys| ==> keys[i] != keys[j]
    ensures SumOccurrences(keys, ns + [x]) == SumOccurrences(keys, ns) + (if x in keys then 1 else 0)
  {
    if keys != [] {
      var init := keys[..|keys| - 1];
      var last := keys[|keys| - 1];
      SumOccurrencesStep(init, ns, x);
      assert (ns + [x])[..|ns + [x]| - 1] == ns;
      assert keys == init + [last];
      assert x in init ==> x != last;
    }
  }

  /** The occurrence counts of the distinct names add up to the number of names. */
  lemma {:induction false} CountsSumToLength(ns: seq<string>)
    ensures SumOccurrences(FirstOccurrences(ns), ns) == |ns|
  {
    if ns != [] {
      var init := ns[..|ns| - 1];
      var x := ns[|ns| - 1];
      assert ns == init + [x];
      var firsts := FirstOccurrences(init);
      CountsSumToLength(init);
      FirstOccurrencesDistinct(init);
      SumOccurrencesStep(firsts, init, x);
      if x !in init {
        OccurrencesPositive(init, x);
        assert FirstOccurrences(ns) == firsts + [x];
        assert (firsts + [x])[..|firsts|] == firsts;
      }
    }
  }

  /** Counts that describe the names `ns`. */
  ghost predicate CountsOf(counts: ItemCounts, ns: seq<string>) {
    && counts.Valid()
    && counts.keys == FirstOccurrences(ns)
    && (forall k :: k in counts.count ==> counts.count[k] == Occurrences(ns, k))
  }

  /** `counts[name] = counts.get(name, 0) + 1` records one more name. */
  lemma CountOneMore(counts: ItemCounts, ns: seq<string>, name: string)
    requires CountsOf(counts, ns)
    ensures CountsOf(counts.Put(name, counts.Get(name, 0) + 1), ns + [name])
  {
    var ns' := ns + [name];
    assert ns'[..|ns'| - 1] == ns;
    assert name in counts.count <==> name in ns;
    var d := counts.Put(name, counts.Get(name, 0) + 1);
    assert d.keys == FirstOccurrences(ns');
    forall k | k in d.count ensures d.count[k] == Occurrences(ns', k) {
      OccurrencesSnoc(ns, name, k);
      if k == name && name !in ns {
        OccurrencesPositive(ns, name);
      }
    }
  }

  /** The counting loop of `count_items`. */
  method CountItems(dets: seq<DetectionRecord>, threshold: real) returns (counts: ItemCounts)
    ensures counts.Valid()
    ensures counts.keys == FirstOccurrences(QualifyingNames(dets, threshold))
    ensures forall k :: k in counts.count ==>
      counts.count[k] == Occurrences(QualifyingNames(dets, threshold), k) && counts.count[k] >= 1
    ensures forall k :: k in counts.count <==>
      exists i :: 0 <= i < |dets| && dets[i].confidence >= threshold && dets[i].className == k
    ensures SumCounts(counts.keys, counts.count) == |QualifyingNames(dets, threshold)|
  {
    counts := ItemCounts([], map[]);
    for i := 0 to |dets|
      invariant CountsOf(counts, QualifyingNames(dets[..i], threshold))
    {
      var det := dets[i];
      assert dets[..i + 1][..i] == dets[..i];
      if det.confidence >= threshold {
        var name := det.className;
        assert QualifyingNames(dets[..i + 1], threshold) == QualifyingNames(dets[..i], threshold) + [name];
        CountOneMore(counts, QualifyingNames(dets[..i], threshold), name);
        counts := counts.Put(name, counts.Get(name, 0) + 1);
      } else {
        assert QualifyingNames(dets[..i + 1], threshold) == QualifyingNames(dets[..i], threshold);
      }
    }
    assert dets[..|dets|] == dets;
    var qs := QualifyingNames(dets, threshold);
    forall k
      ensures k in counts.count ==> counts.count[k] >= 1
      ensures k in counts.count <==>
        exists i :: 0 <= i < |dets| && dets[i].confidence >= threshold && dets[i].className == k
    {
      OccurrencesPositive(qs, k);
      QualifyingNamesMembership(dets, threshold, k);
    }
    CountsSumToLength(qs);
    SumCountsIsSumOccurrences(counts.keys, counts.count, qs);
  }

  // ---------------------------------------------------------------------
  // Nutrition of the counted items

  /** A `nutrition_per_100g.json` entry; fiber may be missing. */
  datatype Per100g = Per100g(calories: real, carbs: real, protein: real, fat: real, fiber: Option<real>)

  /** The five nutrient columns: kcal and grams. */
  datatype Nutrients = Nutrients(calories: real, carbs: real, protein: real, fat: real, fiber: real)

  /** One line of the nutritional breakdown. */
  datatype NutritionRow = NutritionRow(item: string, count: nat, weight: real, nutrients: Nutrients)

  const ZeroNutrients: Nutrients := Nutrients(0.0, 0.0, 0.0, 0.0, 0.0)

  function Plus(a: Nutrients, b: Nutrients): Nutrients {
    Nutrients(a.calories + b.calories, a.carbs + b.carbs, a.protein + b.protein,
              a.fat + b.fat, a.fiber + b.fiber)
  }

  /** An item both reference tables know. */
  predicate IsKnown(item: string, nutrition100g: map<string, Per100g>, avgWeights: map<string, real>) {
    item in nutrition100g && item in avgWeights
  }

  /** The row of a known item counted `count` times. */
  function RowFor(item: string, count: nat, nutrition100g: map<string, Per100g>, avgWeights: map<string, real>)
    : (row: NutritionRow)
    requires IsKnown(item, nutrition100g, avgWeights)
    ensures row.item == item && row.count == count
  {
    var weight := avgWeights[item] * count as real;
    var factor := weight / 100.0;
    var per100 := nutrition100g[item];
    NutritionRow(item, count, weight,
      Nutrients(per100.calories * factor, per100.carbs * factor, per100.protein * factor,
                per100.fat * factor, per100.fiber.GetOr(0.0) * factor))
  }

  /** A row's estimated weight is `count` average weights, and each nutrient
      is its per-100 g value scaled to that weight; a missing fiber value
      counts as 0. */
  lemma RowFormula(item: string, count: nat, nutrition100g: map<string, Per100g>, avgWeights: map<string, real>)
    requires IsKnown(item, nutrition100g, avgWeights)
    ensures var row, per100 := RowFor(item, count, nutrition100g, avgWeights), nutrition100g[item];
      && row.weight == avgWeights[item] * count as real
      && row.nutrients.calories == per100.calories * row.weight / 100.0
      && row.nutrients.carbs == per100.carbs * row.weight / 100.0
      && row.nutrients.protein == per100.protein * row.weight / 100.0
      && row.nutrients.fat == per100.fat * row.weight / 100.0
      && row.nutrients.fiber == (if per100.fiber.Some? then per100.fiber.value * row.weight / 100.0 else 0.0)
  {
  }

  /** The rows for `keys`, in key order, skipping unknown items. */
  function NutritionRows(keys: seq<string>, count: map<string, nat>,
                         nutrition100g: map<string, Per100g>, avgWeights: map<string, real>)
    : seq<NutritionRow>
    requires forall k :: k in keys ==> k in count
  {
    if keys == [] then []
    else
      var item := keys[|keys| - 1];
      NutritionRows(keys[..|keys| - 1], count, nutrition100g, avgWeights)
        + (if IsKnown(item, nutrition100g, avgWeights)
           then [RowFor(item, count[item], nutrition100g, avgWeights)] else [])
  }

  /** The keys both tables know, in key order. */
  function KnownItems(keys: seq<string>, nutrition100g: map<string, Per100g>, avgWeights: map<string, real>)
    : (known: seq<string>)
    ensures forall k :: k in known <==> k in keys && IsKnown(k, nutrition100g, avgWeights)
  {
    if keys == [] then []
    else
      var item := keys[|keys| - 1];
      assert keys == keys[..|keys| - 1] + [item];
      KnownItems(keys[..|keys| - 1], nutrition100g, avgWeights)
        + (if IsKnown(item, nutrition100g, avgWeights) then [item] else [])
  }

  /** The sum of the rows' nutrients, column by column. */
  function SumRows(rows: seq<NutritionRow>): Nutrients {
    if rows == [] then ZeroNutrients
    else Plus(SumRows(rows[..|rows| - 1]), rows[|rows| - 1].nutrients)
  }

  /** Pricing the keys through `keys[i]` appends at most the row of `keys[i]`. */
  lemma NutritionRowsNextKey(keys: seq<string>, count: map<string, nat>,
                             nutrition100g: map<string, Per100g>, avgWeights: map<string, real>, i: nat)
    requires forall k :: k in keys ==> k in count
    requires i < |keys|
    ensures NutritionRows(keys[..i + 1], count, nutrition100g, avgWeights)
         == NutritionRows(keys[..i], count, nutrition100g, avgWeights)
            + (if IsKnown(keys[i], nutrition100g, avgWeights)
               then [RowFor(keys[i], count[keys[i]], nutrition100g, avgWeights)] else [])
  {
    assert keys[..i + 1][..i] == keys[..i];
  }

  /** The loop of `compute_nutrition`: rows in the dictionary's key order,
      skipping items either table lacks, each known item priced as `RowFor`
      prices it, and the totals accumulated column by column. */
  method ComputeNutrition(counts: ItemCounts, nutrition100g: map<string, Per100g>, avgWeights: map<string, real>)
    returns (rows: seq<NutritionRow>, totals: Nutrients)
    requires forall k :: k in counts.keys ==> k in counts.count
    ensures rows == NutritionRows(counts.keys, counts.count, nutrition100g, avgWeights)
    ensures totals == SumRows(rows)
    ensures counts.keys == [] ==> rows == [] && totals == ZeroNutrients
  {
    rows := [];
    totals := ZeroNutrients;
    for i := 0 to |counts.keys|
      invariant rows == NutritionRows(counts.keys[..i], counts.count, nutrition100g, avgWeights)
      invariant totals == SumRows(rows)
    {
      var item := counts.keys[i];
      var count := counts.count[item];
      NutritionRowsNextKey(counts.keys, counts.count, nutrition100g, avgWeights, i);
      if item !in nutrition100g || item !in avgWeights {
        assert rows + [] == rows;
        continue;
      }
      var row := RowFor(item, count, nutrition100g, avgWeights);
      SumRowsSnoc(rows, row);
      rows := rows + [row];
      totals := Nutrients(totals.calories + row.nutrients.calories, totals.carbs + row.nutrients.carbs,
                          totals.protein + row.nutrients.protein, totals.fat + row.nutrients.fat,
                          totals.fiber + row.nutrients.fiber);
    }
    assert counts.keys[..|counts.keys|] == counts.keys;
  }

  /** Rows follow the counted keys, restricted to the items both tables
      know: the i-th row is the row of the i-th known key, at its count. */
  lemma {:induction false} NutritionRowsFollowKnownItems(keys: seq<string>, count: map<string, nat>,
                                                         nutrition100g: map<string, Per100g>,
                                                         avgWeights: map<string, real>)
    requires forall k :: k in keys ==> k in count
    ensures var rows, known := NutritionRows(keys, count, nutrition100g, avgWeights),
                               KnownItems(keys, nutrition100g, avgWeights);
      && |rows| == |known|
      && forall i :: 0 <= i < |rows| ==>
           known[i] in count && rows[i] == RowFor(known[i], count[known[i]], nutrition100g, avgWeights)
  {
    if keys != [] {
      var init := keys[..|keys| - 1];
      NutritionRowsFollowKnownItems(init, count, nutrition100g, avgWeights);
      assert keys == init + [keys[|keys| - 1]];
    }
  }

  /** Pricing a concatenation of keys is concatenating their rows. */
  lemma {:induction false} NutritionRowsAppend(a: seq<string>, b: seq<string>, count: map<string, nat>,
                                               nutrition100g: map<string, Per100g>,
                                               avgWeights: map<string, real>)
    requires forall k :: k in a + b ==> k in count
    ensures NutritionRows(a + b, count, nutrition100g, avgWeights)
         == NutritionRows(a, count, nutrition100g, avgWeights) + NutritionRows(b, count, nutrition100g, avgWeights)
  {
    if b == [] {
      assert a + b == a;
    } else {
      var init := b[..|b| - 1];
      assert (a + b)[..|a + b| - 1] == a + init;
      NutritionRowsAppend(a, init, count, nutrition100g, avgWeights);
    }
  }

  /** An item missing from either table adds no row, so it changes neither
      the rows nor the totals, wherever it stands among the keys. */
  lemma UnknownItemIgnored(before: seq<string>, item: string, after: seq<string>, count: map<string, nat>,
                           nutrition100g: map<string, Per100g>, avgWeights: map<string, real>)
    requires forall k :: k in before + [item] + after ==> k in count
    requires !IsKnown(item, nutrition100g, avgWeights)
    ensures NutritionRows(before + [item] + after, count, nutrition100g, avgWeights)
         == NutritionRows(before + after, count, nutrition100g, avgWeights)
    ensures SumRows(NutritionRows(before + [item] + after, count, nutrition100g, avgWeights))
         == SumRows(NutritionRows(before + after, count, nutrition100g, avgWeights))
  {
    NutritionRowsAppend(before + [item], after, count, nutrition100g, avgWeights);
    NutritionRowsAppend(before, after, count, nutrition100g, avgWeights);
    assert (before + [item])[..|before + [item]| - 1] == before;
  }

  /** Totals are additive over the rows. */
  lemma {:induction false} SumRowsAppend(a: seq<NutritionRow>, b: seq<NutritionRow>)
    ensures SumRows(a + b) == Plus(SumRows(a), SumRows(b))
  {
    if b == [] {
      assert a + b == a;
    } else {
      var init := b[..|b| - 1];
      assert (a + b)[..|a + b| - 1] == a + init;
      SumRowsAppend(a, init);
    }
  }

  /** A row in the middle of the sum can be added last instead. */
  lemma SumRowsMiddle(before: seq<NutritionRow>, row: NutritionRow, after: seq<NutritionRow>)
    ensures SumRows(before + [row] + after) == Plus(SumRows(before + after), row.nutrients)
  {
    SumRowsAppend(before + [row], after);
    SumRowsAppend(before, after);
    assert (before + [row])[..|before|] == before;
  }

  /** Taking the same row out of two equal multisets leaves equal multisets. */
  lemma MultisetRemoveAt(a: seq<NutritionRow>, b: seq<NutritionRow>, j: nat)
    requires multiset(a) == multiset(b) && a != [] && j < |b| && b[j] == a[|a| - 1]
    ensures multiset(a[..|a| - 1]) == multiset(b[..j] + b[j + 1..])
  {
    var last := a[|a| - 1];
    assert a == a[..|a| - 1] + [last];
    assert b == b[..j] + [last] + b[j + 1..];
    calc {
      multiset(a[..|a| - 1]);
      multiset(a) - multiset{last};
      multiset(b) - multiset{last};
      multiset(b[..j]) + multiset(b[j + 1..]);
      multiset(b[..j] + b[j + 1..]);
    }
  }

  /** The totals do not depend on the order of the rows. */
  lemma {:induction false} SumRowsPermutation(a: seq<NutritionRow>, b: seq<NutritionRow>)
    requires multiset(a) == multiset(b)
    ensures SumRows(a) == SumRows(b)
    decreases |a|
  {
    if a == [] {
      assert |b| == |multiset(b)| == 0;
    } else {
      var last := a[|a| - 1];
      assert last in multiset(b) by {
        assert a == a[..|a| - 1] + [last];
      }
      var j :| 0 <= j < |b| && b[j] == last;
      MultisetRemoveAt(a, b, j);
      SumRowsPermutation(a[..|a| - 1], b[..j] + b[j + 1..]);
      assert b == b[..j] + [last] + b[j + 1..];
      SumRowsMiddle(b[..j], last, b[j + 1..]);
    }
  }

  // ---------------------------------------------------------------------
  // Counting, then pricing by count, is pricing each detection on its own

  /** The totals of pricing every name of `ns` separately as one item of
      its class's average weight, skipping names either table lacks. */
  function PerItemTotals(ns: seq<string>, nutrition100g: map<string, Per100g>, avgWeights: map<string, real>)
    : Nutrients
  {
    if ns == [] then ZeroNutrients
    else
      var item := ns[|ns| - 1];
      Plus(PerItemTotals(ns[..|ns| - 1], nutrition100g, avgWeights),
           if IsKnown(item, nutrition100g, avgWeights)
           then RowFor(item, 1, nutrition100g, avgWeights).nutrients else ZeroNutrients)
  }

  /** One more item of a class adds one average item's nutrients to its row. */
  lemma RowForOneMore(item: string, count: nat, nutrition100g: map<string, Per100g>, avgWeights: map<string, real>)
    requires IsKnown(item, nutrition100g, avgWeights)
    ensures RowFor(item, count + 1, nutrition100g, avgWeights).nutrients
         == Plus(RowFor(item, count, nutrition100g, avgWeights).nutrients,
                 RowFor(item, 1, nutrition100g, avgWeights).nutrients)
  {
    var avg, c := avgWeights[item], count as real;
    var f, f1 := avg * c / 100.0, avg / 100.0;
    assert avg * (c + 1.0) / 100.0 == f + f1;
    assert avg * 1.0 == avg;
    var per100 := nutrition100g[item];
    Distributes(per100.calories, f, f1);
    Distributes(per100.carbs, f, f1);
    Distributes(per100.protein, f, f1);
    Distributes(per100.fat, f, f1);
    Distributes(per100.fiber.GetOr(0.0), f, f1);
  }

  lemma Distributes(v: real, f: real, g: real)
    ensures v * (f + g) == v * f + v * g
  {
  }

  /** Rows only read the counts of the listed keys. */
  lemma {:induction false} NutritionRowsReadListedCounts(keys: seq<string>, c1: map<string, nat>, c2: map<string, nat>,
                                                         nutrition100g: map<string, Per100g>,
                                                         avgWeights: map<string, real>)
    requires forall k :: k in keys ==> k in c1 && k in c2 && c1[k] == c2[k]
    ensures NutritionRows(keys, c1, nutrition100g, avgWeights) == NutritionRows(keys, c2, nutrition100g, avgWeights)
  {
    if keys != [] {
      NutritionRowsReadListedCounts(keys[..|keys| - 1], c1, c2, nutrition100g, avgWeights);
    }
  }

  /** Pricing one more key appends at most its row. */
  lemma NutritionRowsSnoc(keys: seq<string>, item: string, count: map<string, nat>,
                          nutrition100g: map<string, Per100g>, avgWeights: map<string, real>)
    requires forall k :: k in keys + [item] ==> k in count
    ensures NutritionRows(keys + [item], count, nutrition100g, avgWeights)
         == NutritionRows(keys, count, nutrition100g, avgWeights)
            + (if IsKnown(item, nutrition100g, avgWeights)
               then [RowFor(item, count[item], nutrition100g, avgWeights)] else [])
  {
    assert (keys + [item])[..|keys|] == keys;
  }

  /** Adding one more row adds its nutrients to the totals. */
  lemma SumRowsSnoc(rows: seq<NutritionRow>, row: NutritionRow)
    ensures SumRows(rows + [row]) == Plus(SumRows(rows), row.nutrients)
  {
    assert (rows + [row])[..|rows|] == rows;
  }

  /** The nutrients of one average item of a class, or nothing when a
      table lacks the class. */
  function OneItem(item: string, nutrition100g: map<string, Per100g>, avgWeights: map<string, real>): Nutrients {
    if IsKnown(item, nutrition100g, avgWeights) then RowFor(item, 1, nutrition100g, avgWeights).nutrients
    else ZeroNutrients
  }

  /** Two row lists whose totals differ by `extra` still differ by `extra`
      once the same row is appended to both. */
  lemma SumRowsSnocBoth(rows: seq<NutritionRow>, rows': seq<NutritionRow>, row: NutritionRow, extra: Nutrients)
    requires SumRows(rows') == Plus(SumRows(rows), extra)
    ensures SumRows(rows' + [row]) == Plus(SumRows(rows + [row]), extra)
  {
    SumRowsSnoc(rows', row);
    SumRowsSnoc(rows, row);
  }

  /** Raising the count of the last key by one adds one average item of its
      class to the totals, or nothing when a table lacks the class. */
  lemma SumRowsBumpLast(rows: seq<NutritionRow>, x: string, c: nat,
                        nutrition100g: map<string, Per100g>, avgWeights: map<string, real>)
    ensures SumRows(rows + (if IsKnown(x, nutrition100g, avgWeights)
                            then [RowFor(x, c + 1, nutrition100g, avgWeights)] else []))
         == Plus(SumRows(rows + (if IsKnown(x, nutrition100g, avgWeights)
                                 then [RowFor(x, c, nutrition100g, avgWeights)] else [])),
                 OneItem(x, nutrition100g, avgWeights))
  {
    if IsKnown(x, nutrition100g, avgWeights) {
      RowForOneMore(x, c, nutrition100g, avgWeights);
      SumRowsSnoc(rows, RowFor(x, c + 1, nutrition100g, avgWeights));
      SumRowsSnoc(rows, RowFor(x, c, nutrition100g, avgWeights));
    } else {
      assert rows + [] == rows;
    }
  }

  /** Raising the count of a listed class by one adds one average item of
      that class to the totals. */
  lemma {:induction false} BumpCount(keys: seq<string>, count: map<string, nat>, x: string,
                                     nutrition100g: map<string, Per100g>, avgWeights: map<string, real>)
    requires forall i, j :: 0 <= i < j < |keys| ==> keys[i] != keys[j]
    requires forall k :: k in keys ==> k in count
    requires x in keys
    ensures SumRows(NutritionRows(keys, count[x := count[x] + 1], nutrition100g, avgWeights))
         == Plus(SumRows(NutritionRows(keys, count, nutrition100g, avgWeights)), OneItem(x, nutrition100g, avgWeights))
  {
    var init, last := keys[..|keys| - 1], keys[|keys| - 1];
    var bumped := count[x := count[x] + 1];
    assert keys == init + [last];
    NutritionRowsSnoc(init, last, count, nutrition100g, avgWeights);
    NutritionRowsSnoc(init, last, bumped, nutrition100g, avgWeights);
    var rows := NutritionRows(init, count, nutrition100g, avgWeights);
    var rows' := NutritionRows(init, bumped, nutrition100g, avgWeights);
    if last == x {
      assert x !in init;
      NutritionRowsReadListedCounts(init, count, bumped, nutrition100g, avgWeights);
      SumRowsBumpLast(rows, x, count[x], nutrition100g, avgWeights);
    } else {
      assert x in init;
      BumpCount(init, count, x, nutrition100g, avgWeights);
      assert bumped[last] == count[last];
      if IsKnown(last, nutrition100g, avgWeights) {
        SumRowsSnocBoth(rows, rows', RowFor(last, count[last], nutrition100g, avgWeights),
                        OneItem(x, nutrition100g, avgWeights));
      } else {
        assert rows' + [] == rows' && rows + [] == rows;
        assert NutritionRows(keys, bumped, nutrition100g, avgWeights) == rows';
        assert NutritionRows(keys, count, nutrition100g, avgWeights) == rows;
      }
    }
  }

  /** One more name adds one occurrence of that name only. */
  lemma OccurrencesSnoc(ns: seq<string>, x: string, k: string)
    ensures Occurrences(ns + [x], k) == Occurrences(ns, k) + (if k == x then 1 else 0)
  {
    assert (ns + [x])[..|ns|] == ns;
  }

  /** Pricing one more name on its own adds one average item of its class. */
  lemma PerItemTotalsSnoc(ns: seq<string>, x: string, nutrition100g: map<string, Per100g>, avgWeights: map<string, real>)
    ensures PerItemTotals(ns + [x], nutrition100g, avgWeights)
         == Plus(PerItemTotals(ns, nutrition100g, avgWeights), OneItem(x, nutrition100g, avgWeights))
  {
    assert (ns + [x])[..|ns|] == ns;
  }

  /** A name already counted raises its class's count by one. */
  lemma GroupedRepeatStep(init: seq<string>, x: string, count0: map<string, nat>,
                          nutrition100g: map<string, Per100g>, avgWeights: map<string, real>)
    requires x in init
    requires forall k :: k in init ==> k in count0
    requires SumRows(NutritionRows(FirstOccurrences(init), count0, nutrition100g, avgWeights))
          == PerItemTotals(init, nutrition100g, avgWeights)
    ensures SumRows(NutritionRows(FirstOccurrences(init + [x]), count0[x := count0[x] + 1], nutrition100g, avgWeights))
         == PerItemTotals(init + [x], nutrition100g, avgWeights)
  {
    assert (init + [x])[..|init|] == init;
    assert FirstOccurrences(init + [x]) == FirstOccurrences(init);
    FirstOccurrencesDistinct(init);
    BumpCount(FirstOccurrences(init), count0, x, nutrition100g, avgWeights);
    PerItemTotalsSnoc(init, x, nutrition100g, avgWeights);
  }

  /** A new name becomes a new last key counted once. */
  lemma GroupedFreshStep(init: seq<string>, x: string, count: map<string, nat>,
                         nutrition100g: map<string, Per100g>, avgWeights: map<string, real>)
    requires x !in init
    requires forall k :: k in init ==> k in count
    requires x in count && count[x] == 1
    requires SumRows(NutritionRows(FirstOccurrences(init), count, nutrition100g, avgWeights))
          == PerItemTotals(init, nutrition100g, avgWeights)
    ensures SumRows(NutritionRows(FirstOccurrences(init + [x]), count, nutrition100g, avgWeights))
         == PerItemTotals(init + [x], nutrition100g, avgWeights)
  {
    var firsts := FirstOccurrences(init);
    assert (init + [x])[..|init|] == init;
    assert FirstOccurrences(init + [x]) == firsts + [x];
    NutritionRowsSnoc(firsts, x, count, nutrition100g, avgWeights);
    PerItemTotalsSnoc(init, x, nutrition100g, avgWeights);
    var rows := NutritionRows(firsts, count, nutrition100g, avgWeights);
    if IsKnown(x, nutrition100g, avgWeights) {
      SumRowsSnoc(rows, RowFor(x, 1, nutrition100g, avgWeights));
    } else {
      assert rows + [] == rows;
    }
  }

  /** Grouping names by class and pricing `count` average items per class
      gives the same totals as pricing every name on its own. */
  lemma {:induction false} GroupedTotalsMatchPerItem(ns: seq<string>, count: map<string, nat>,
                                                     nutrition100g: map<string, Per100g>,
                                                     avgWeights: map<string, real>)
    requires forall k :: k in ns ==> k in count && count[k] == Occurrences(ns, k)
    ensures SumRows(NutritionRows(FirstOccurrences(ns), count, nutrition100g, avgWeights))
         == PerItemTotals(ns, nutrition100g, avgWeights)
  {
    if ns != [] {
      var init, x := ns[..|ns| - 1], ns[|ns| - 1];
      assert ns == init + [x];
      OccurrencesSnoc(init, x, x);
      if x in init {
        var count0 := count[x := count[x] - 1];
        forall k | k in init ensures k in count0 && count0[k] == Occurrences(init, k) {
          OccurrencesSnoc(init, x, k);
        }
        GroupedTotalsMatchPerItem(init, count0, nutrition100g, avgWeights);
        assert count == count0[x := count0[x] + 1];
        GroupedRepeatStep(init, x, count0, nutrition100g, avgWeights);
      } else {
        forall k | k in init ensures k in count && count[k] == Occurrences(init, k) {
          OccurrencesSnoc(init, x, k);
        }
        GroupedTotalsMatchPerItem(init, count, nutrition100g, avgWeights);
        OccurrencesPositive(init, x);
        GroupedFreshStep(init, x, count, nutrition100g, avgWeights);
      }
    }
  }

  /** Two items of 150 g average at 50 kcal per 100 g weigh 300 g and
      carry 150 kcal. */
  lemma TwoItemsOf150Grams(per100: Per100g)
    requires per100.calories == 50.0
    ensures var row := RowFor("apple", 2, map["apple" := per100], map["apple" := 150.0]);
      row.weight == 300.0 && row.nutrients.calories == 150.0
  {
  }

  // ---------------------------------------------------------------------
  // The upload flow

  datatype UploadOutcome =
    | DetectionFailed(error: DetectionError)
    | NothingAboveThreshold(records: seq<DetectionRecord>)
    | Breakdown(records: seq<DetectionRecord>, counts: ItemCounts, rows: seq<NutritionRow>, totals: Nutrients)

  /** Detect, count the detections at or above the threshold and, when
      anything was counted, price the counts. */
  method AnalyzeUpload(boxes: seq<RawBox>, names: map<int, string>, threshold: real,
                       nutrition100g: map<string, Per100g>, avgWeights: map<string, real>)
    returns (outcome: UploadOutcome)
    ensures outcome.DetectionFailed? <==> exists i :: 0 <= i < |boxes| && Truncate(boxes[i].cls) !in names
    ensures outcome.DetectionFailed? ==>
      exists k :: FirstUnnamedBox(boxes, names, k) && outcome.error == UnknownClassId(Truncate(boxes[k].cls))
    ensures outcome.NothingAboveThreshold? ==>
      RecordsOfBoxes(outcome.records, boxes, names) && QualifyingNames(outcome.records, threshold) == []
    ensures outcome.Breakdown? ==>
      var qs := QualifyingNames(outcome.records, threshold);
      && RecordsOfBoxes(outcome.records, boxes, names)
      && qs != []
      && outcome.counts.Valid()
      && outcome.counts.keys == FirstOccurrences(qs)
      && (forall k :: k in outcome.counts.count ==> outcome.counts.count[k] == Occurrences(qs, k))
      && outcome.rows == NutritionRows(outcome.counts.keys, outcome.counts.count, nutrition100g, avgWeights)
      && outcome.totals == SumRows(outcome.rows)
      && outcome.totals == PerItemTotals(qs, nutrition100g, avgWeights)
  {
    var detected := RunDetection(boxes, names);
    if detected.Err? {
      return DetectionFailed(detected.error);
    }
    var records := detected.value;
    var counts := CountItems(records, threshold);
    if counts.keys == [] {
      return NothingAboveThreshold(records);
    }
    var rows, totals := ComputeNutrition(counts, nutrition100g, avgWeights);
    var qs := QualifyingNames(records, threshold);
    forall k | k in qs ensures k in counts.count && counts.count[k] == Occurrences(qs, k) {
      assert k in FirstOccurrences(qs);
    }
    GroupedTotalsMatchPerItem(qs, counts.count, nutrition100g, avgWeights);
    outcome := Breakdown(records, counts, rows, totals);
  }
}
