/** What one sample of the synthetic dataset generator (`generate`) is: the
    random draws are inputs, and the sample is the canvas, the placed boxes and
    the label lines that the placement loop produces from them. */
module Placement {
  import opened Wrappers
  import opened Geometry
  import opened Compositor
  import opened LabelParse
  import opened Catalog

  /** The constructor parameters: image_size = (height, width), max_classes,
      max_objects_per_class and max_overlap. */
  datatype Config = Config(height: nat, width: nat, maxClasses: int, maxObjectsPerClass: int, maxOverlap: real)

  /** The constructor's defaults: 512 x 512, 3 classes, 5 objects per class, overlap 0.2. */
  const DefaultConfig := Config(512, 512, 3, 5, 0.2)

  /** Positions tried per instance before it is dropped. */
  const Attempts := 20

  /** One YOLO annotation: the class id, then the box's centre and size
      normalized by the canvas width and height. */
  datatype LabelLine = LabelLine(classId: int, xCenter: real, yCenter: real, width: real, height: real)

  /** Why `generate` raises: random.sample with a negative size, randint(1, m)
      with m < 1, randint(0, W - w) or randint(0, H - h) with the object larger
      than the canvas, and labels[0][0] on an empty label file. */
  datatype GenError = NegativeSampleSize | EmptyObjectCountRange | ObjectTooLarge | NoClassId

  datatype SampleState = SampleState(canvas: Grid, boxes: seq<Box>, labels: seq<LabelLine>)

  /** The draws for one instance: the resized object (cv2.resize of the entry's
      image, with its gray image) and the 20 positions randint would return. */
  datatype InstanceDraw = InstanceDraw(obj: Sprite, positions: seq<(nat, nat)>)

  /** The draws for one sample: the catalog indices random.sample picks and,
      for each, the instances of that entry. */
  datatype SampleDraw = SampleDraw(chosen: seq<nat>, instances: seq<seq<InstanceDraw>>)

  function MinInt(a: int, b: int): int { if a <= b then a else b }

  predicate CanvasShape(cfg: Config, g: Grid) {
    |g| == cfg.height && forall i :: 0 <= i < |g| ==> |g[i]| == cfg.width
  }

  /** The object is no larger than the canvas, so randint has a range to draw from. */
  predicate ObjectFitsCanvas(cfg: Config, obj: Sprite) {
    SpriteWidth(obj) <= cfg.width && Height(obj) <= cfg.height
  }

  /** What cv2.resize and randint guarantee of an instance's draws: a non-empty
      rectangular object and, when it fits the canvas, positions in
      [0, W - w] x [0, H - h]. */
  predicate ValidInstance(cfg: Config, d: InstanceDraw) {
    WellFormed(d.obj) && Height(d.obj) >= 1 && SpriteWidth(d.obj) >= 1 &&
    |d.positions| == Attempts &&
    (ObjectFitsCanvas(cfg, d.obj) ==>
      forall k :: 0 <= k < |d.positions| ==>
        d.positions[k].0 + SpriteWidth(d.obj) <= cfg.width && d.positions[k].1 + Height(d.obj) <= cfg.height)
  }

  /** What random.sample and randint(1, max_objects_per_class) guarantee:
      min(max_classes, |catalog|) distinct entries, each with 1 to
      max_objects_per_class instances. */
  predicate ValidSampleDraw(cfg: Config, catalog: seq<SourceEntry>, draw: SampleDraw) {
    |draw.instances| == |draw.chosen| &&
    (cfg.maxClasses >= 0 ==> |draw.chosen| == MinInt(cfg.maxClasses, |catalog|)) &&
    (forall i :: 0 <= i < |draw.chosen| ==> draw.chosen[i] < |catalog|) &&
    (forall i, j :: 0 <= i < j < |draw.chosen| ==> draw.chosen[i] != draw.chosen[j]) &&
    (cfg.maxObjectsPerClass >= 1 ==>
      forall i :: 0 <= i < |draw.instances| ==> 1 <= |draw.instances[i]| <= cfg.maxObjectsPerClass) &&
    forall i, k :: 0 <= i < |draw.instances| && 0 <= k < |draw.instances[i]| ==>
      ValidInstance(cfg, draw.instances[i][k])
  }

  /** overlaps = [_iou(new_box, b) for b in placed_boxes] */
  function Overlaps(box: Box, placed: seq<Box>): seq<real> {
    seq(|placed|, k requires 0 <= k < |placed| => Iou(box, placed[k]))
  }

  /** all(o <= max_overlap for o in overlaps) */
  predicate Acceptable(box: Box, placed: seq<Box>, t: real) {
    forall o :: o in Overlaps(box, placed) ==> o <= t
  }

  /** The acceptance test, in terms of the boxes and free of division: every
      placed box b has intersection <= t * union with the candidate (or, for a
      non-positive union, t is not negative). */
  lemma AcceptableIff(box: Box, placed: seq<Box>, t: real)
    ensures Acceptable(box, placed, t) <==> forall k :: 0 <= k < |placed| ==> Iou(box, placed[k]) <= t
    ensures Acceptable(box, placed, t) <==> forall k :: 0 <= k < |placed| ==>
      (if Union(box, placed[k]) > 0
       then Intersection(box, placed[k]) as real <= t * Union(box, placed[k]) as real
       else 0.0 <= t)
  {
    var o := Overlaps(box, placed);
    assert forall k :: 0 <= k < |placed| ==> o[k] == Iou(box, placed[k]) && o[k] in o;
    forall k | 0 <= k < |placed| {
      IouAtMost(box, placed[k], t);
    }
  }

  /** The box attempt k tries: the object at the k-th drawn position. */
  function Candidate(d: InstanceDraw, k: nat): Box
    requires k < |d.positions|
  {
    Footprint(d.obj, d.positions[k].0, d.positions[k].1)
  }

  /** The first attempt, from k on, whose box passes the overlap test. */
  function FirstFit(d: InstanceDraw, placed: seq<Box>, t: real, k: nat): (r: Option<nat>)
    requires k <= |d.positions|
    ensures r.Some? ==> k <= r.value < |d.positions| && Acceptable(Candidate(d, r.value), placed, t)
    ensures r.Some? ==> forall j :: k <= j < r.value ==> !Acceptable(Candidate(d, j), placed, t)
    ensures r.None? <==> forall j :: k <= j < |d.positions| ==> !Acceptable(Candidate(d, j), placed, t)
    decreases |d.positions| - k
  {
    if k == |d.positions| then None
    else if Acceptable(Candidate(d, k), placed, t) then Some(k)
    else FirstFit(d, placed, t, k + 1)
  }

  /** The annotation of a placed box: (x + w/2)/W, (y + h/2)/H, w/W, h/H. */
  function LabelFor(classId: int, b: Box, cfg: Config): LabelLine
    requires cfg.width > 0 && cfg.height > 0
  {
    var W, H := cfg.width as real, cfg.height as real;
    LabelLine(classId, (b.x as real + b.w as real / 2.0) / W, (b.y as real + b.h as real / 2.0) / H,
      b.w as real / W, b.h as real / H)
  }

  /** The box has positive size and lies inside the canvas. */
  predicate InCanvas(cfg: Config, b: Box) {
    0 <= b.x && 1 <= b.w && b.x + b.w <= cfg.width && 0 <= b.y && 1 <= b.h && b.y + b.h <= cfg.height
  }

  /** Normalized coordinates of a box inside the canvas lie in [0, 1] (sizes in
      (0, 1]), and they determine the pixel box again. */
  lemma LabelNormalized(classId: int, b: Box, cfg: Config)
    requires InCanvas(cfg, b)
    ensures var l := LabelFor(classId, b, cfg);
      l.classId == classId &&
      0.0 <= l.xCenter <= 1.0 && 0.0 <= l.yCenter <= 1.0 &&
      0.0 < l.width <= 1.0 && 0.0 < l.height <= 1.0 &&
      l.width * cfg.width as real == b.w as real && l.height * cfg.height as real == b.h as real &&
      (l.xCenter - l.width / 2.0) * cfg.width as real == b.x as real &&
      (l.yCenter - l.height / 2.0) * cfg.height as real == b.y as real
  {
    var l := LabelFor(classId, b, cfg);
    var W, H := cfg.width as real, cfg.height as real;
    Normalized(b.x as real, b.w as real, W);
    Normalized(b.y as real, b.h as real, H);
  }

  lemma Normalized(x: real, w: real, W: real)
    requires 0.0 <= x && 1.0 <= w && x + w <= W
    ensures 0.0 <= (x + w / 2.0) / W <= 1.0 && 0.0 < w / W <= 1.0
    ensures w / W * W == w && ((x + w / 2.0) / W - w / W / 2.0) * W == x
  {
    assert (x + w / 2.0) / W * W == x + w / 2.0;
    assert w / W * W == w;
    RatioAtMostOne(x + w / 2.0, W);
    RatioAtMostOne(w, W);
    calc {
      ((x + w / 2.0) / W - w / W / 2.0) * W;
      (x + w / 2.0) / W * W - w / W * W / 2.0;
      x;
    }
  }

  /** The class id of the entry's first label line, if the file had any line. */
  function ClassIdOf(entry: SourceEntry): Option<int> {
    if entry.labels == [] then None else Some(entry.labels[0].classId)
  }

  /** What the sample promises at every step: boxes and labels in one-to-one
      order, line k describing box k, every box inside the canvas, every box
      within the overlap bound of every earlier one, and the canvas still black
      wherever no box lies. */
  predicate Consistent(cfg: Config, s: SampleState) {
    CanvasShape(cfg, s.canvas) && |s.boxes| == |s.labels| &&
    (forall k :: 0 <= k < |s.boxes| ==> InCanvas(cfg, s.boxes[k])) &&
    (forall k :: 0 <= k < |s.boxes| ==> s.labels[k] == LabelFor(s.labels[k].classId, s.boxes[k], cfg)) &&
    (forall i, j :: 0 <= i < j < |s.boxes| ==> Iou(s.boxes[j], s.boxes[i]) <= cfg.maxOverlap) &&
    forall i, j ::
      (0 <= i < cfg.height && 0 <= j < cfg.width && forall k :: 0 <= k < |s.boxes| ==> !Covers(s.boxes[k], i, j)) ==>
        s.canvas[i][j] == Black
  }

  /** The state each sample starts from: a black canvas and no boxes or labels. */
  function Initial(cfg: Config): (s: SampleState)
    ensures Consistent(cfg, s)
  {
    SampleState(Blank(cfg.height, cfg.width), [], [])
  }

  /** `s` grows into `r` by appending: earlier boxes and labels stay as they are. */
  predicate Extends(s: SampleState, r: SampleState) {
    |s.boxes| <= |r.boxes| && |s.labels| <= |r.labels| &&
    (forall k :: 0 <= k < |s.boxes| ==> r.boxes[k] == s.boxes[k]) &&
    (forall k :: 0 <= k < |s.labels| ==> r.labels[k] == s.labels[k])
  }

  /** Every line `r` has beyond those of `s` carries the given class id. */
  predicate NewLabelsOf(s: SampleState, r: SampleState, classId: Option<int>) {
    forall k :: |s.labels| <= k < |r.labels| ==> Some(r.labels[k].classId) == classId
  }

  /** One instance: up to 20 attempts; the first acceptable box is pasted and
      labelled, and if none is acceptable the instance is dropped. */
  function PlaceInstance(cfg: Config, s: SampleState, d: InstanceDraw, classId: Option<int>): (r: Result<SampleState, GenError>)
    requires Consistent(cfg, s) && ValidInstance(cfg, d)
    ensures r.Ok? ==> Consistent(cfg, r.value) && Extends(s, r.value) && |r.value.boxes| <= |s.boxes| + 1
    ensures r.Ok? ==> NewLabelsOf(s, r.value, classId)
  {
    if !ObjectFitsCanvas(cfg, d.obj) then Err(ObjectTooLarge)
    else
      match FirstFit(d, s.boxes, cfg.maxOverlap, 0)
      case None => Ok(s)
      case Some(k) =>
        var x, y := d.positions[k].0, d.positions[k].1;
        var box := Candidate(d, k);
        assert Fits(s.canvas, d.obj, x, y);
        var canvas := PasteGrid(s.canvas, d.obj, x, y);
        if classId.None? then Err(NoClassId)
        else
          var r := SampleState(canvas, s.boxes + [box], s.labels + [LabelFor(classId.value, box, cfg)]);
          PlacedStaysConsistent(cfg, s, d, k, classId.value);
          Ok(r)
  }

  lemma PlacedStaysConsistent(cfg: Config, s: SampleState, d: InstanceDraw, k: nat, classId: int)
    requires Consistent(cfg, s) && ValidInstance(cfg, d) && ObjectFitsCanvas(cfg, d.obj)
    requires k < |d.positions| && Acceptable(Candidate(d, k), s.boxes, cfg.maxOverlap)
    ensures Fits(s.canvas, d.obj, d.positions[k].0, d.positions[k].1)
    ensures var box := Candidate(d, k);
      Consistent(cfg, SampleState(PasteGrid(s.canvas, d.obj, d.positions[k].0, d.positions[k].1),
        s.boxes + [box], s.labels + [LabelFor(classId, box, cfg)]))
  {
    var x, y := d.positions[k].0, d.positions[k].1;
    var box := Candidate(d, k);
    assert InCanvas(cfg, box);
    AcceptableIff(box, s.boxes, cfg.maxOverlap);
    var canvas := PasteGrid(s.canvas, d.obj, x, y);
    var boxes := s.boxes + [box];
    var labels := s.labels + [LabelFor(classId, box, cfg)];
    assert forall i, j :: 0 <= i < j < |boxes| ==> Iou(boxes[j], boxes[i]) <= cfg.maxOverlap by {
      forall i, j | 0 <= i < j < |boxes|
        ensures Iou(boxes[j], boxes[i]) <= cfg.maxOverlap
      {
        if j < |s.boxes| {
          assert boxes[j] == s.boxes[j] && boxes[i] == s.boxes[i];
        } else {
          assert boxes[j] == box && boxes[i] == s.boxes[i];
        }
      }
    }
    assert forall i, j ::
      (0 <= i < cfg.height && 0 <= j < cfg.width && forall m :: 0 <= m < |boxes| ==> !Covers(boxes[m], i, j)) ==>
        canvas[i][j] == Black by {
      forall i, j | 0 <= i < cfg.height && 0 <= j < cfg.width &&
        (forall m :: 0 <= m < |boxes| ==> !Covers(boxes[m], i, j))
        ensures canvas[i][j] == Black
      {
        assert !Covers(boxes[|s.boxes|], i, j);
        assert forall m :: 0 <= m < |s.boxes| ==> boxes[m] == s.boxes[m];
      }
    }
  }

  /** The instances of one entry, in order. */
  function RunInstances(cfg: Config, s: SampleState, ds: seq<InstanceDraw>, classId: Option<int>): (r: Result<SampleState, GenError>)
    requires Consistent(cfg, s) && forall k :: 0 <= k < |ds| ==> ValidInstance(cfg, ds[k])
    ensures r.Ok? ==> Consistent(cfg, r.value) && Extends(s, r.value) && |r.value.boxes| <= |s.boxes| + |ds|
    ensures r.Ok? ==> NewLabelsOf(s, r.value, classId)
    decreases |ds|
  {
    if ds == [] then Ok(s)
    else
      var before := RunInstances(cfg, s, ds[..|ds| - 1], classId);
      if before.Err? then before
      else
        var r := PlaceInstance(cfg, before.value, ds[|ds| - 1], classId);
        if r.Err? then r
        else
          ComposeSteps(s, before.value, r.value, classId);
          r
  }

  lemma ComposeSteps(a: SampleState, b: SampleState, c: SampleState, classId: Option<int>)
    requires Extends(a, b) && Extends(b, c) && NewLabelsOf(a, b, classId) && NewLabelsOf(b, c, classId)
    ensures Extends(a, c) && NewLabelsOf(a, c, classId)
  {
    assert forall k :: |a.labels| <= k < |b.labels| ==> c.labels[k] == b.labels[k];
  }

  /** One chosen entry: draw its instance count, then place its instances. */
  function RunPick(cfg: Config, s: SampleState, entry: SourceEntry, ds: seq<InstanceDraw>): (r: Result<SampleState, GenError>)
    requires Consistent(cfg, s) && forall k :: 0 <= k < |ds| ==> ValidInstance(cfg, ds[k])
    ensures r.Ok? ==> cfg.maxObjectsPerClass >= 1
    ensures r.Ok? ==> Consistent(cfg, r.value) && Extends(s, r.value) && |r.value.boxes| <= |s.boxes| + |ds|
    ensures r.Ok? ==> NewLabelsOf(s, r.value, ClassIdOf(entry))
  {
    if cfg.maxObjectsPerClass < 1 then Err(EmptyObjectCountRange)
    else RunInstances(cfg, s, ds, ClassIdOf(entry))
  }

  /** The first n chosen entries, in the order random.sample returned them. */
  function RunPicks(cfg: Config, catalog: seq<SourceEntry>, draw: SampleDraw, n: nat): (r: Result<SampleState, GenError>)
    requires ValidSampleDraw(cfg, catalog, draw) && n <= |draw.chosen|
    ensures r.Ok? ==> Consistent(cfg, r.value)
    ensures r.Ok? && n > 0 ==> |r.value.boxes| <= n * cfg.maxObjectsPerClass
    ensures r.Ok? && n == 0 ==> r.value == Initial(cfg)
    ensures r.Ok? ==> forall k :: 0 <= k < |r.value.labels| ==>
      exists i :: 0 <= i < n && ClassIdOf(catalog[draw.chosen[i]]) == Some(r.value.labels[k].classId)
  {
    if n == 0 then Ok(Initial(cfg))
    else
      var before := RunPicks(cfg, catalog, draw, n - 1);
      if before.Err? then before
      else
        var s := before.value;
        var r := RunPick(cfg, s, catalog[draw.chosen[n - 1]], draw.instances[n - 1]);
        if r.Err? then r
        else
          PicksBound(n, |s.boxes|, |draw.instances[n - 1]|, |r.value.boxes|, cfg.maxObjectsPerClass);
          PickClassIds(catalog, draw, n, s, r.value);
          r
  }

  lemma PickClassIds(catalog: seq<SourceEntry>, draw: SampleDraw, n: nat, s: SampleState, t: SampleState)
    requires 1 <= n <= |draw.chosen| && forall i :: 0 <= i < |draw.chosen| ==> draw.chosen[i] < |catalog|
    requires Extends(s, t)
    requires forall k :: 0 <= k < |s.labels| ==>
      exists i :: 0 <= i < n - 1 && ClassIdOf(catalog[draw.chosen[i]]) == Some(s.labels[k].classId)
    requires NewLabelsOf(s, t, ClassIdOf(catalog[draw.chosen[n - 1]]))
    ensures forall k :: 0 <= k < |t.labels| ==>
      exists i :: 0 <= i < n && ClassIdOf(catalog[draw.chosen[i]]) == Some(t.labels[k].classId)
  {
    forall k | 0 <= k < |t.labels|
      ensures exists i :: 0 <= i < n && ClassIdOf(catalog[draw.chosen[i]]) == Some(t.labels[k].classId)
    {
      if k < |s.labels| {
        assert t.labels[k] == s.labels[k];
      } else {
        assert ClassIdOf(catalog[draw.chosen[n - 1]]) == Some(t.labels[k].classId);
      }
    }
  }

  lemma PicksBound(n: nat, before: nat, count: nat, after: nat, m: int)
    requires n >= 1 && m >= 1 && count <= m && after <= before + count
    requires n == 1 ==> before == 0
    requires n > 1 ==> before <= (n - 1) * m
    ensures after <= n * m
  {
  }

  /** One whole sample: random.sample, then every chosen entry in turn. */
  function RunSample(cfg: Config, catalog: seq<SourceEntry>, draw: SampleDraw): Result<SampleState, GenError>
    requires ValidSampleDraw(cfg, catalog, draw)
  {
    if cfg.maxClasses < 0 then Err(NegativeSampleSize)
    else RunPicks(cfg, catalog, draw, |draw.chosen|)
  }

  /** Every pair of boxes in a sample, in either order, is within the overlap bound. */
  lemma PairwiseOverlapBound(cfg: Config, s: SampleState)
    requires Consistent(cfg, s)
    ensures forall i, j :: 0 <= i < |s.boxes| && 0 <= j < |s.boxes| && i != j ==>
      Iou(s.boxes[i], s.boxes[j]) <= cfg.maxOverlap
  {
    forall i, j | 0 <= i < |s.boxes| && 0 <= j < |s.boxes| && i != j
      ensures Iou(s.boxes[i], s.boxes[j]) <= cfg.maxOverlap
    {
      if i < j {
        IouSymmetric(s.boxes[i], s.boxes[j]);
      }
    }
  }

  /** A finished sample keeps every promise of the placement loop: boxes and
      labels correspond one to one, the boxes are pairwise within the overlap
      bound and inside the canvas, every label's values lie in [0, 1] and come
      from the first label line of a chosen entry, and there are at most
      min(max_classes, |catalog|) * max_objects_per_class of them (none at all
      when no entry is chosen, even if max_objects_per_class is negative). */
  lemma SampleProperties(cfg: Config, catalog: seq<SourceEntry>, draw: SampleDraw)
    requires ValidSampleDraw(cfg, catalog, draw) && RunSample(cfg, catalog, draw).Ok?
    ensures var s := RunSample(cfg, catalog, draw).value;
      |s.boxes| == |s.labels| &&
      (forall i, j :: 0 <= i < |s.boxes| && 0 <= j < |s.boxes| && i != j ==>
        Iou(s.boxes[i], s.boxes[j]) <= cfg.maxOverlap) &&
      (forall k :: 0 <= k < |s.boxes| ==> InCanvas(cfg, s.boxes[k])) &&
      (forall k :: 0 <= k < |s.labels| ==>
        0.0 <= s.labels[k].xCenter <= 1.0 && 0.0 <= s.labels[k].yCenter <= 1.0 &&
        0.0 < s.labels[k].width <= 1.0 && 0.0 < s.labels[k].height <= 1.0) &&
      (forall k :: 0 <= k < |s.labels| ==>
        exists i :: 0 <= i < |draw.chosen| && ClassIdOf(catalog[draw.chosen[i]]) == Some(s.labels[k].classId)) &&
      (|draw.chosen| == 0 ==> |s.labels| == 0) &&
      (|draw.chosen| > 0 ==> |s.labels| <= MinInt(cfg.maxClasses, |catalog|) * cfg.maxObjectsPerClass) &&
      (cfg.maxObjectsPerClass >= 0 ==> |s.labels| <= cfg.maxClasses * cfg.maxObjectsPerClass)
  {
    var n := |draw.chosen|;
    assert RunSample(cfg, catalog, draw) == RunPicks(cfg, catalog, draw, n);
    var s := RunSample(cfg, catalog, draw).value;
    StateProperties(cfg, s);
    if n > 0 {
      SampleCount(cfg, catalog, draw, s);
    } else if cfg.maxObjectsPerClass >= 0 {
      MonotoneProduct(0, 0, cfg.maxClasses, cfg.maxObjectsPerClass);
    }
  }

  /** What every consistent state promises of its boxes and lines. */
  lemma StateProperties(cfg: Config, s: SampleState)
    requires Consistent(cfg, s)
    ensures |s.boxes| == |s.labels|
    ensures forall i, j :: 0 <= i < |s.boxes| && 0 <= j < |s.boxes| && i != j ==>
      Iou(s.boxes[i], s.boxes[j]) <= cfg.maxOverlap
    ensures forall k :: 0 <= k < |s.boxes| ==> InCanvas(cfg, s.boxes[k])
    ensures forall k :: 0 <= k < |s.labels| ==>
      0.0 <= s.labels[k].xCenter <= 1.0 && 0.0 <= s.labels[k].yCenter <= 1.0 &&
      0.0 < s.labels[k].width <= 1.0 && 0.0 < s.labels[k].height <= 1.0
  {
    PairwiseOverlapBound(cfg, s);
    forall k | 0 <= k < |s.labels|
      ensures 0.0 <= s.labels[k].xCenter <= 1.0 && 0.0 <= s.labels[k].yCenter <= 1.0 &&
        0.0 < s.labels[k].width <= 1.0 && 0.0 < s.labels[k].height <= 1.0
    {
      LabelNormalized(s.labels[k].classId, s.boxes[k], cfg);
    }
  }

  /** With at least one entry chosen, the sample succeeded only because
      randint(1, max_objects_per_class) had a range, and its lines are bounded
      by the number of entries times that count. */
  lemma SampleCount(cfg: Config, catalog: seq<SourceEntry>, draw: SampleDraw, s: SampleState)
    requires ValidSampleDraw(cfg, catalog, draw) && cfg.maxClasses >= 0 && |draw.chosen| > 0
    requires RunPicks(cfg, catalog, draw, |draw.chosen|) == Ok(s)
    ensures cfg.maxObjectsPerClass >= 1
    ensures |s.labels| <= MinInt(cfg.maxClasses, |catalog|) * cfg.maxObjectsPerClass
    ensures |s.labels| <= cfg.maxClasses * cfg.maxObjectsPerClass
  {
    var n := |draw.chosen|;
    var before := RunPicks(cfg, catalog, draw, n - 1);
    assert before.Ok?;
    assert RunPick(cfg, before.value, catalog[draw.chosen[n - 1]], draw.instances[n - 1]).Ok?;
    assert n <= cfg.maxClasses;
    MonotoneProduct(n, cfg.maxObjectsPerClass, cfg.maxClasses, cfg.maxObjectsPerClass);
  }

  /** An instance with no acceptable position among its 20 is dropped: the
      boxes, labels and canvas stay as they were. */
  lemma DroppedInstance(cfg: Config, s: SampleState, d: InstanceDraw, classId: Option<int>)
    requires Consistent(cfg, s) && ValidInstance(cfg, d) && ObjectFitsCanvas(cfg, d.obj)
    requires forall k :: 0 <= k < Attempts ==> !Acceptable(Candidate(d, k), s.boxes, cfg.maxOverlap)
    ensures PlaceInstance(cfg, s, d, classId) == Ok(s)
  {
    assert FirstFit(d, s.boxes, cfg.maxOverlap, 0).None?;
  }

  /** An accepted instance takes the first acceptable of its positions, adds
      exactly one box and one line for it, and pastes the object there. */
  lemma AcceptedInstance(cfg: Config, s: SampleState, d: InstanceDraw, classId: int, k: nat)
    requires Consistent(cfg, s) && ValidInstance(cfg, d) && ObjectFitsCanvas(cfg, d.obj)
    requires k < Attempts && Acceptable(Candidate(d, k), s.boxes, cfg.maxOverlap)
    requires forall j :: 0 <= j < k ==> !Acceptable(Candidate(d, j), s.boxes, cfg.maxOverlap)
    ensures Fits(s.canvas, d.obj, d.positions[k].0, d.positions[k].1)
    ensures PlaceInstance(cfg, s, d, Some(classId)) ==
      Ok(SampleState(PasteGrid(s.canvas, d.obj, d.positions[k].0, d.positions[k].1),
        s.boxes + [Candidate(d, k)], s.labels + [LabelFor(classId, Candidate(d, k), cfg)]))
  {
    var f := FirstFit(d, s.boxes, cfg.maxOverlap, 0);
    assert f == Some(k);
  }
}
