/** The sample loop of the synthetic dataset generator (`generate`): for each
    sample index a fresh black canvas is filled by the placement loop, and the
    canvas and the label lines are written under names made of the index
    zero-padded to five digits. File output is modelled as the sequence of
    samples written. */
module Generator {
  import opened Wrappers
  import opened Text
  import opened Geometry
  import opened Compositor
  import opened LabelParse
  import opened Catalog
  import opened Placement

  /** f"{idx:05d}" */
  function SampleStem(idx: nat): string {
    PadStart(NatToString(idx), 5, '0')
  }

  function ImageName(idx: nat): string { SampleStem(idx) + ".jpg" }

  function LabelName(idx: nat): string { SampleStem(idx) + ".txt" }

  lemma {:induction false} DecimalLength(n: nat, k: nat)
    requires 1 <= k && n < Pow10(k)
    ensures |NatToString(n)| <= k
  {
    if n >= 10 {
      assert k >= 2;
      DecimalLength(n / 10, k - 1);
      assert NatToString(n) == NatToString(n / 10) + [DigitChar(n % 10)];
    }
  }

  /** The stem is a digit string denoting the index, exactly five characters
      for every index below 100000. */
  lemma StemShape(idx: nat)
    ensures AllDigits(SampleStem(idx)) && DigitsValue(SampleStem(idx)) == idx
    ensures |SampleStem(idx)| >= 5
    ensures idx < 100000 ==> |SampleStem(idx)| == 5
  {
    PaddedNumber(idx, 5);
    if idx < 100000 {
      assert Pow10(5) == 100000;
      DecimalLength(idx, 5);
    }
  }

  /** Different samples never share a file name, and an image never shares its
      name with a label file. */
  lemma NamesDistinct(i: nat, j: nat)
    ensures i != j ==> ImageName(i) != ImageName(j) && LabelName(i) != LabelName(j)
    ensures ImageName(i) != LabelName(j)
  {
    if i != j {
      StemsDistinct(i, j);
    }
    SuffixedNames(SampleStem(i), SampleStem(j));
  }

  lemma StemsDistinct(i: nat, j: nat)
    requires i != j
    ensures SampleStem(i) != SampleStem(j)
  {
    StemShape(i);
    StemShape(j);
  }

  /** The two extensions keep distinct stems apart and never coincide. */
  lemma SuffixedNames(a: string, b: string)
    ensures a != b ==> a + ".jpg" != b + ".jpg" && a + ".txt" != b + ".txt"
    ensures a + ".jpg" != b + ".txt"
  {
    SuffixedDistinct(a, b, ".jpg", ".jpg");
    SuffixedDistinct(a, b, ".txt", ".txt");
    SuffixedDistinct(a, b, ".jpg", ".txt");
  }

  /** Two strings with suffixes of one length are equal only when the strings
      are, and the suffixes end alike. */
  lemma SuffixedDistinct(a: string, b: string, x: string, y: string)
    requires |x| == |y| >= 1
    ensures a + x == b + y ==> a == b && x[|x| - 1] == y[|y| - 1]
  {
    if a + x == b + y {
      assert |a| == |b|;
      assert a == (a + x)[..|a|] && b == (b + y)[..|b|];
      assert x[|x| - 1] == (a + x)[|a + x| - 1] && y[|y| - 1] == (b + y)[|b + y| - 1];
    }
  }

  /** One written sample: its index, the pixels written to
      images/ImageName(index) and the lines written to labels/LabelName(index). */
  datatype Sample = Sample(index: nat, image: Grid, labels: seq<LabelLine>)

  function ImageFile(s: Sample): string { ImageName(s.index) }

  function LabelFile(s: Sample): string { LabelName(s.index) }

  function SampleFile(idx: nat, s: SampleState): Sample {
    Sample(idx, s.canvas, s.labels)
  }

  /** One instance of `generate`'s inner loop: up to 20 positions, the first
      acceptable one pasted in place and labelled. */
  method PlaceOne(cfg: Config, canvas: array2<Pixel>, boxes: seq<Box>, labels: seq<LabelLine>,
                  d: InstanceDraw, classId: Option<int>)
    returns (err: Option<GenError>, boxesOut: seq<Box>, labelsOut: seq<LabelLine>)
    requires canvas.Length0 == cfg.height && canvas.Length1 == cfg.width
    requires Consistent(cfg, SampleState(Snapshot(canvas), boxes, labels)) && ValidInstance(cfg, d)
    modifies canvas
    ensures PlaceInstance(cfg, SampleState(old(Snapshot(canvas)), boxes, labels), d, classId) ==
      if err.Some? then Err(err.value) else Ok(SampleState(Snapshot(canvas), boxesOut, labelsOut))
  {
    ghost var start := SampleState(Snapshot(canvas), boxes, labels);
    var w, h := SpriteWidth(d.obj), Height(d.obj);
    if cfg.width < w || cfg.height < h {
      return Some(ObjectTooLarge), boxes, labels;
    }
    for attempt := 0 to Attempts
      invariant Snapshot(canvas) == start.canvas
      invariant forall k :: 0 <= k < attempt ==> !Acceptable(Candidate(d, k), boxes, cfg.maxOverlap)
    {
      var x, y := d.positions[attempt].0, d.positions[attempt].1;
      var newBox := Box(x, y, w, h);
      assert newBox == Candidate(d, attempt);
      if Acceptable(newBox, boxes, cfg.maxOverlap) {
        AcceptedAt(cfg, start, d, attempt);
        assert x + w <= canvas.Length1 && y + h <= canvas.Length0;
        PasteObject(canvas, d.obj, x, y);
        if classId.None? {
          return Some(NoClassId), boxes, labels;
        }
        return None, boxes + [newBox], labels + [LabelFor(classId.value, newBox, cfg)];
      }
    }
    DroppedInstance(cfg, start, d, classId);
    return None, boxes, labels;
  }

  lemma AcceptedAt(cfg: Config, s: SampleState, d: InstanceDraw, k: nat)
    requires Consistent(cfg, s) && ValidInstance(cfg, d) && ObjectFitsCanvas(cfg, d.obj)
    requires k < Attempts && Acceptable(Candidate(d, k), s.boxes, cfg.maxOverlap)
    requires forall j :: 0 <= j < k ==> !Acceptable(Candidate(d, j), s.boxes, cfg.maxOverlap)
    ensures FirstFit(d, s.boxes, cfg.maxOverlap, 0) == Some(k)
  {
  }

  /** The instances of one chosen entry, in order. */
  method PlaceEntry(cfg: Config, canvas: array2<Pixel>, boxes: seq<Box>, labels: seq<LabelLine>,
                    entry: SourceEntry, ds: seq<InstanceDraw>)
    returns (err: Option<GenError>, boxesOut: seq<Box>, labelsOut: seq<LabelLine>)
    requires canvas.Length0 == cfg.height && canvas.Length1 == cfg.width
    requires Consistent(cfg, SampleState(Snapshot(canvas), boxes, labels))
    requires forall k :: 0 <= k < |ds| ==> ValidInstance(cfg, ds[k])
    modifies canvas
    ensures RunPick(cfg, SampleState(old(Snapshot(canvas)), boxes, labels), entry, ds) ==
      if err.Some? then Err(err.value) else Ok(SampleState(Snapshot(canvas), boxesOut, labelsOut))
  {
    if cfg.maxObjectsPerClass < 1 {
      return Some(EmptyObjectCountRange), boxes, labels;
    }
    err, boxesOut, labelsOut := PlaceInstances(cfg, canvas, boxes, labels, ds, ClassIdOf(entry));
  }

  /** The inner loop over the instances of one entry, stopping at the first error. */
  method PlaceInstances(cfg: Config, canvas: array2<Pixel>, boxes: seq<Box>, labels: seq<LabelLine>,
                        ds: seq<InstanceDraw>, classId: Option<int>)
    returns (err: Option<GenError>, boxesOut: seq<Box>, labelsOut: seq<LabelLine>)
    requires canvas.Length0 == cfg.height && canvas.Length1 == cfg.width
    requires Consistent(cfg, SampleState(Snapshot(canvas), boxes, labels))
    requires forall k :: 0 <= k < |ds| ==> ValidInstance(cfg, ds[k])
    modifies canvas
    ensures RunInstances(cfg, SampleState(old(Snapshot(canvas)), boxes, labels), ds, classId) ==
      if err.Some? then Err(err.value) else Ok(SampleState(Snapshot(canvas), boxesOut, labelsOut))
  {
    ghost var start := SampleState(Snapshot(canvas), boxes, labels);
    boxesOut, labelsOut := boxes, labels;
    var n := 0;
    while n < |ds|
      invariant 0 <= n <= |ds|
      invariant RunInstances(cfg, start, ds[..n], classId) == Ok(SampleState(Snapshot(canvas), boxesOut, labelsOut))
    {
      assert ds[..n + 1][..n] == ds[..n];
      err, boxesOut, labelsOut := PlaceOne(cfg, canvas, boxesOut, labelsOut, ds[n], classId);
      if err.Some? {
        InstancesErrorPersists(cfg, start, ds, n + 1, classId);
        assert ds[..|ds|] == ds;
        return;
      }
      n := n + 1;
    }
    assert ds[..n] == ds;
    err := None;
  }

  lemma {:induction false} InstancesErrorPersists(cfg: Config, s: SampleState, ds: seq<InstanceDraw>, n: nat, classId: Option<int>)
    requires Consistent(cfg, s) && forall k :: 0 <= k < |ds| ==> ValidInstance(cfg, ds[k])
    requires n <= |ds| && RunInstances(cfg, s, ds[..n], classId).Err?
    ensures RunInstances(cfg, s, ds, classId) == RunInstances(cfg, s, ds[..n], classId)
    decreases |ds| - n
  {
    if n < |ds| {
      assert ds[..n + 1][..n] == ds[..n];
      InstancesErrorPersists(cfg, s, ds, n + 1, classId);
    } else {
      assert ds[..n] == ds;
    }
  }

  lemma {:induction false} PicksErrorPersists(cfg: Config, catalog: seq<SourceEntry>, draw: SampleDraw, n: nat)
    requires ValidSampleDraw(cfg, catalog, draw)
    requires n <= |draw.chosen| && RunPicks(cfg, catalog, draw, n).Err?
    ensures RunPicks(cfg, catalog, draw, |draw.chosen|) == RunPicks(cfg, catalog, draw, n)
    decreases |draw.chosen| - n
  {
    if n < |draw.chosen| {
      PicksErrorPersists(cfg, catalog, draw, n + 1);
    }
  }

  lemma PicksStep(cfg: Config, catalog: seq<SourceEntry>, draw: SampleDraw, n: nat)
    requires ValidSampleDraw(cfg, catalog, draw) && n < |draw.chosen| && RunPicks(cfg, catalog, draw, n).Ok?
    ensures RunPicks(cfg, catalog, draw, n + 1) ==
      RunPick(cfg, RunPicks(cfg, catalog, draw, n).value, catalog[draw.chosen[n]], draw.instances[n])
  {
  }

  /** The pixels of the canvas as cv2.imwrite receives them. */
  method ReadCanvas(canvas: array2<Pixel>) returns (g: Grid)
    ensures g == Snapshot(canvas)
  {
    g := seq(canvas.Length0, i reads canvas requires 0 <= i < canvas.Length0 =>
      seq(canvas.Length1, j reads canvas requires 0 <= j < canvas.Length1 => canvas[i, j]));
  }

  /** np.zeros((h, w, 3), dtype=np.uint8): a fresh black canvas. */
  method NewCanvas(h: nat, w: nat) returns (canvas: array2<Pixel>)
    ensures fresh(canvas) && canvas.Length0 == h && canvas.Length1 == w
    ensures Snapshot(canvas) == Blank(h, w)
  {
    canvas := new Pixel[h, w]((i, j) => Black);
    ghost var blank := Blank(h, w);
    assert forall i, j :: 0 <= i < h && 0 <= j < w ==> Snapshot(canvas)[i][j] == blank[i][j];
    assert forall i :: 0 <= i < h ==> Snapshot(canvas)[i] == blank[i];
  }

  /** One iteration of `generate`'s sample loop, up to the files it writes. */
  method GenerateSample(cfg: Config, catalog: seq<SourceEntry>, draw: SampleDraw)
    returns (r: Result<SampleState, GenError>)
    requires ValidSampleDraw(cfg, catalog, draw)
    ensures r == RunSample(cfg, catalog, draw)
  {
    if cfg.maxClasses < 0 {
      return Err(NegativeSampleSize);
    }
    var canvas := NewCanvas(cfg.height, cfg.width);
    var boxes: seq<Box> := [];
    var labels: seq<LabelLine> := [];
    ghost var state := SampleState(Snapshot(canvas), boxes, labels);
    assert state == Initial(cfg);
    var c := 0;
    while c < |draw.chosen|
      invariant 0 <= c <= |draw.chosen|
      invariant canvas.Length0 == cfg.height && canvas.Length1 == cfg.width
      invariant state == SampleState(Snapshot(canvas), boxes, labels)
      invariant RunPicks(cfg, catalog, draw, c) == Ok(state)
    {
      PicksStep(cfg, catalog, draw, c);
      var err;
      err, boxes, labels := PlaceEntry(cfg, canvas, boxes, labels, catalog[draw.chosen[c]], draw.instances[c]);
      if err.Some? {
        PicksErrorPersists(cfg, catalog, draw, c + 1);
        return Err(err.value);
      }
      state := SampleState(Snapshot(canvas), boxes, labels);
      c := c + 1;
    }
    var image := ReadCanvas(canvas);
    r := Ok(SampleState(image, boxes, labels));
  }

  /** The outcome of every drawn sample, in order: its final state, or what it raised. */
  ghost function Outcomes(cfg: Config, catalog: seq<SourceEntry>, draws: seq<SampleDraw>): (r: seq<Result<SampleState, GenError>>)
    requires forall i :: 0 <= i < |draws| ==> ValidSampleDraw(cfg, catalog, draws[i])
    ensures |r| == |draws|
    decreases |draws|
  {
    if draws == [] then [] else [RunSample(cfg, catalog, draws[0])] + Outcomes(cfg, catalog, draws[1..])
  }

  lemma {:induction false} OutcomeAt(cfg: Config, catalog: seq<SourceEntry>, draws: seq<SampleDraw>, i: nat)
    requires i < |draws| && forall i :: 0 <= i < |draws| ==> ValidSampleDraw(cfg, catalog, draws[i])
    ensures Outcomes(cfg, catalog, draws)[i] == RunSample(cfg, catalog, draws[i])
    decreases i
  {
    if i > 0 {
      OutcomeAt(cfg, catalog, draws[1..], i - 1);
      assert draws[1..][i - 1] == draws[i];
    }
  }

  /** What the first n iterations of the sample loop write, given the outcome
      of each sample: the samples in index order up to the first one that
      raises, and that error. */
  function WriteSamples(outcomes: seq<Result<SampleState, GenError>>, n: nat): (seq<Sample>, Option<GenError>)
    requires n <= |outcomes|
  {
    if n == 0 then ([], None)
    else
      var (samples, err) := WriteSamples(outcomes, n - 1);
      if err.Some? then (samples, err)
      else match outcomes[n - 1]
        case Err(e) => (samples, Some(e))
        case Ok(s) => (samples + [SampleFile(n - 1, s)], None)
  }

  /** Once a sample raises, later iterations never run. */
  lemma {:induction false} WriteStops(outcomes: seq<Result<SampleState, GenError>>, m: nat, n: nat)
    requires m <= n <= |outcomes| && WriteSamples(outcomes, m).1.Some?
    ensures WriteSamples(outcomes, n) == WriteSamples(outcomes, m)
    decreases n
  {
    if n > m {
      WriteStops(outcomes, m, n - 1);
    }
  }

  /** The written samples are the files of samples 0, 1, ... in order, each
      named by its index; without an error there is one per index, and an error
      is the one the first unwritten sample raised. */
  lemma {:induction false} WrittenSamples(outcomes: seq<Result<SampleState, GenError>>, n: nat)
    requires n <= |outcomes|
    ensures var (samples, err) := WriteSamples(outcomes, n);
      |samples| <= n &&
      (err.None? ==> |samples| == n) &&
      (err.Some? ==> |samples| < n && outcomes[|samples|] == Err(err.value)) &&
      forall i :: 0 <= i < |samples| ==> outcomes[i].Ok? && samples[i] == SampleFile(i, outcomes[i].value)
  {
    if n > 0 {
      WrittenSamples(outcomes, n - 1);
      var (before, err) := WriteSamples(outcomes, n - 1);
      if err.None? && outcomes[n - 1].Ok? {
        var next := SampleFile(n - 1, outcomes[n - 1].value);
        assert WriteSamples(outcomes, n).0 == before + [next];
        assert forall i :: 0 <= i < |before| ==> (before + [next])[i] == before[i];
      }
    }
  }

  /** `generate(n_samples)`: one sample per index in range(n_samples), in
      order, until a sample raises. */
  method Generate(cfg: Config, catalog: seq<SourceEntry>, draws: seq<SampleDraw>, nSamples: int)
    returns (samples: seq<Sample>, err: Option<GenError>)
    requires nSamples <= |draws| && forall i :: 0 <= i < |draws| ==> ValidSampleDraw(cfg, catalog, draws[i])
    ensures (samples, err) == WriteSamples(Outcomes(cfg, catalog, draws), Max(nSamples, 0))
  {
    ghost var outcomes := Outcomes(cfg, catalog, draws);
    samples := [];
    var idx := 0;
    while idx < nSamples
      invariant 0 <= idx <= Max(nSamples, 0)
      invariant WriteSamples(outcomes, idx) == (samples, None)
    {
      var r := GenerateSample(cfg, catalog, draws[idx]);
      OutcomeAt(cfg, catalog, draws, idx);
      if r.Err? {
        assert WriteSamples(outcomes, idx + 1) == (samples, Some(r.error));
        WriteStops(outcomes, idx + 1, nSamples);
        return samples, Some(r.error);
      }
      samples := samples + [SampleFile(idx, r.value)];
      idx := idx + 1;
    }
    err := None;
  }
}
