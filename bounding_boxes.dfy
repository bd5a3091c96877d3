/**
 * Bounding-box resolution and perturbation bookkeeping of one batch
 * (fitter.py lines 110-159): the ground-truth box under `'__gt_bb_0'`, the
 * count of boxes matching the bounding-box group on the first image, the
 * generation of `'{bb_group}_{j}'` perturbations when exactly one box
 * matches, and the reconciliation of `n_perturbations` otherwise.
 */
module BoundingBoxes {
  import opened Wrappers
  import opened Geometry
  import opened Landmarks
  import opened Interfaces

  /** The bounding-box group used when the caller gives none (line 115). */
  const GroundTruthBoxGroup: string := "__gt_bb_"

  /** The key of each image's ground-truth box (line 118). */
  const GroundTruthSeedKey: string := "__gt_bb_0"

  /** `bb_group` (lines 111-121). */
  function BoxGroup(boundingBoxGroup: Option<string>): string
  {
    if boundingBoxGroup.None? then GroundTruthBoxGroup else boundingBoxGroup.value
  }

  // ----- decimal rendering of the perturbation index -----

  function DigitChar(d: nat): char
    requires d < 10
  {
    (48 + d) as char
  }

  function DigitValue(c: char): nat
  {
    if '0' <= c <= '9' then c as int - 48 else 0
  }

  /** `'{}'.format(n)` for a natural number. */
  function Decimal(n: nat): (r: string)
    ensures |r| > 0
  {
    if n < 10 then [DigitChar(n)] else Decimal(n / 10) + [DigitChar(n % 10)]
  }

  /** The number a string of decimal digits denotes. */
  function DecimalValue(s: string): nat
  {
    if |s| == 0 then 0 else DecimalValue(s[..|s| - 1]) * 10 + DigitValue(s[|s| - 1])
  }

  /** Reading back the rendering of `n` gives `n`. */
  lemma {:induction false} DecimalRoundTrip(n: nat)
    ensures DecimalValue(Decimal(n)) == n
  {
    var s := Decimal(n);
    if n < 10 {
      assert s[..|s| - 1] == [];
    } else {
      assert s[..|s| - 1] == Decimal(n / 10);
      DecimalRoundTrip(n / 10);
    }
  }

  /** `'{}_{}'.format(bb_group, j)`: the key of the j-th generated perturbation (line 146). */
  function GeneratedKey(bb: string, j: nat): string
  {
    bb + "_" + Decimal(j)
  }

  /** The keys generated for indices first, ..., n - 1, in generation order. */
  function GeneratedKeys(bb: string, first: nat, n: int): (r: seq<string>)
    ensures |r| == if first < n then n - first else 0
    decreases n - first
  {
    if first >= n then [] else [GeneratedKey(bb, first)] + GeneratedKeys(bb, first + 1, n)
  }

  lemma {:induction false} GeneratedKeysMembers(bb: string, first: nat, n: int, k: string)
    ensures k in GeneratedKeys(bb, first, n) <==> exists m :: first <= m < n && k == GeneratedKey(bb, m)
    decreases n - first
  {
    if first < n {
      GeneratedKeysMembers(bb, first + 1, n, k);
      assert k == GeneratedKey(bb, first) ==> exists m :: first <= m < n && k == GeneratedKey(bb, m);
    }
  }

  /** Distinct indices give distinct keys. */
  lemma GeneratedKeysDistinct(bb: string, i: nat, j: nat)
    requires i != j
    ensures GeneratedKey(bb, i) != GeneratedKey(bb, j)
  {
    if GeneratedKey(bb, i) == GeneratedKey(bb, j) {
      var p := |bb| + 1;
      assert GeneratedKey(bb, i)[p..] == Decimal(i);
      assert GeneratedKey(bb, j)[p..] == Decimal(j);
      DecimalRoundTrip(i);
      DecimalRoundTrip(j);
    }
  }

  /** Every generated key matches `'*{bb_group}*'`. */
  lemma GeneratedKeyMatches(bb: string, j: nat)
    ensures Contains(GeneratedKey(bb, j), bb)
  {
    assert GeneratedKey(bb, j) == bb + ("_" + Decimal(j));
    PrefixContains(bb, "_" + Decimal(j));
  }

  /**
   * The ground-truth seed `'__gt_bb_0'` and the generated keys
   * `'__gt_bb__1'`, `'__gt_bb__2'`, ... all match `'*__gt_bb_*'`, and no
   * generated key is the seed.
   */
  lemma GroundTruthKeys(j: nat)
    ensures Contains(GroundTruthSeedKey, GroundTruthBoxGroup)
    ensures Contains(GeneratedKey(GroundTruthBoxGroup, j), GroundTruthBoxGroup)
    ensures GeneratedKey(GroundTruthBoxGroup, j) != GroundTruthSeedKey
  {
    assert GroundTruthSeedKey == GroundTruthBoxGroup + "0";
    PrefixContains(GroundTruthBoxGroup, "0");
    GeneratedKeyMatches(GroundTruthBoxGroup, j);
    assert GeneratedKey(GroundTruthBoxGroup, j)[8] == '_';
  }

  // ----- one image -----

  /** Lines 117-119 for one image: store the ground-truth shape's bounding box under `'__gt_bb_0'`. */
  function WithGroundTruthBox(l: Landmarks, group: string, boundingBox: Shape -> Shape): Result<Landmarks, TrainError>
  {
    match Get(l, group)
    case None => Err(MissingLandmarks(group))
    case Some(gt) => Ok(Set(l, GroundTruthSeedKey, boundingBox(gt)))
  }

  /**
   * Lines 140-147 for one image, from index `j` on: each step reads the
   * ground-truth shape and the seed box and stores the perturbation of the
   * ground-truth box and the seed box under `'{bb_group}_{j}'`.
   */
  function Perturbed(l: Landmarks, group: string, seed: string, bb: string, n: int, j: nat,
                     perturb: (Shape, Shape) -> Shape, boundingBox: Shape -> Shape): Result<Landmarks, TrainError>
    decreases n - j
  {
    if j >= n then Ok(l)
    else
      match Get(l, group)
      case None => Err(MissingLandmarks(group))
      case Some(gt) =>
        match Get(l, seed)
        case None => Err(MissingLandmarks(seed))
        case Some(box) =>
          Perturbed(Set(l, GeneratedKey(bb, j), perturb(boundingBox(gt), box)), group, seed, bb, n, j + 1, perturb, boundingBox)
  }

  /**
   * Generation fails exactly when there is something to generate and the
   * image lacks the ground-truth group or the seed box; the group is read first.
   */
  lemma {:induction false} PerturbedFails(l: Landmarks, group: string, seed: string, bb: string, n: int, j: nat,
                                          perturb: (Shape, Shape) -> Shape, boundingBox: Shape -> Shape)
    ensures Perturbed(l, group, seed, bb, n, j, perturb, boundingBox).Err? <==> j < n && (group !in l.labels || seed !in l.labels)
    ensures j < n && group !in l.labels ==> Perturbed(l, group, seed, bb, n, j, perturb, boundingBox) == Err(MissingLandmarks(group))
    ensures j < n && group in l.labels && seed !in l.labels ==> Perturbed(l, group, seed, bb, n, j, perturb, boundingBox) == Err(MissingLandmarks(seed))
    decreases n - j
  {
    if j < n && group in l.labels && seed in l.labels {
      var p := perturb(boundingBox(l.groups[group]), l.groups[seed]);
      PerturbedFails(Set(l, GeneratedKey(bb, j), p), group, seed, bb, n, j + 1, perturb, boundingBox);
    }
  }

  /**
   * When neither the ground-truth group nor the seed is one of the keys
   * being generated, every generated key holds the perturbation of the
   * ground-truth box and the unmodified seed box, and every other key keeps its shape.
   */
  lemma {:induction false} PerturbedContent(l: Landmarks, group: string, seed: string, bb: string, n: int, j: nat,
                                            perturb: (Shape, Shape) -> Shape, boundingBox: Shape -> Shape)
    requires Perturbed(l, group, seed, bb, n, j, perturb, boundingBox).Ok?
    requires group !in GeneratedKeys(bb, j, n) && seed !in GeneratedKeys(bb, j, n)
    ensures var out := Perturbed(l, group, seed, bb, n, j, perturb, boundingBox).value;
      && (forall k :: k in l.groups && k !in GeneratedKeys(bb, j, n) ==> k in out.groups && out.groups[k] == l.groups[k])
      && (j < n ==> forall m :: j <= m < n ==>
            Get(out, GeneratedKey(bb, m)) == Some(perturb(boundingBox(l.groups[group]), l.groups[seed])))
    decreases n - j
  {
    if j < n {
      var gt, box := l.groups[group], l.groups[seed];
      var p := perturb(boundingBox(gt), box);
      var l' := Set(l, GeneratedKey(bb, j), p);
      var out := Perturbed(l, group, seed, bb, n, j, perturb, boundingBox).value;
      assert out == Perturbed(l', group, seed, bb, n, j + 1, perturb, boundingBox).value;
      assert GeneratedKeys(bb, j, n) == [GeneratedKey(bb, j)] + GeneratedKeys(bb, j + 1, n);
      PerturbedContent(l', group, seed, bb, n, j + 1, perturb, boundingBox);
      assert l'.groups[group] == gt && l'.groups[seed] == box;
      assert forall m :: j + 1 <= m < n ==> Get(out, GeneratedKey(bb, m)) == Some(p);
      FirstKeyNotRegenerated(bb, j, n);
      assert Get(out, GeneratedKey(bb, j)) == Some(p);
    }
  }

  /** Local proof helper: the key of index `j` is not generated again after `j`. */
  lemma FirstKeyNotRegenerated(bb: string, j: nat, n: int)
    ensures GeneratedKey(bb, j) !in GeneratedKeys(bb, j + 1, n)
  {
    forall m | j + 1 <= m < n
      ensures GeneratedKey(bb, j) != GeneratedKey(bb, m)
    {
      GeneratedKeysDistinct(bb, j, m);
    }
    GeneratedKeysMembers(bb, j + 1, n, GeneratedKey(bb, j));
  }

  /**
   * The seed box is not always preserved: with the user group `'bb'` whose
   * only box is `'bb_1'`, step 1 stores its perturbation under `'bb_1'`
   * itself, and step 2 perturbs that perturbation again for `'bb_2'`.
   */
  lemma SeedOverwritten(l: Landmarks, gt: Shape, box: Shape, perturb: (Shape, Shape) -> Shape, boundingBox: Shape -> Shape)
    requires l.labels == ["lms", "bb_1"] && l.groups == map["lms" := gt, "bb_1" := box]
    ensures var out := Perturbed(l, "lms", "bb_1", "bb", 3, 1, perturb, boundingBox);
      && out.Ok?
      && Get(out.value, "bb_1") == Some(perturb(boundingBox(gt), box))
      && Get(out.value, "bb_2") == Some(perturb(boundingBox(gt), perturb(boundingBox(gt), box)))
  {
    assert GeneratedKey("bb", 1) == "bb_1";
    assert GeneratedKey("bb", 2) == "bb_2";
    var first := perturb(boundingBox(gt), box);
    var l1 := Set(l, "bb_1", first);
    assert Perturbed(l, "lms", "bb_1", "bb", 3, 1, perturb, boundingBox) == Perturbed(l1, "lms", "bb_1", "bb", 3, 2, perturb, boundingBox);
    var l2 := Set(l1, "bb_2", perturb(boundingBox(gt), first));
    assert Perturbed(l1, "lms", "bb_1", "bb", 3, 2, perturb, boundingBox) == Ok(l2);
  }

  /**
   * When no key being generated is already on the image, generation appends
   * the generated keys to the image's labels, in index order.
   */
  lemma {:induction false} PerturbedLabels(l: Landmarks, group: string, seed: string, bb: string, n: int, j: nat,
                                           perturb: (Shape, Shape) -> Shape, boundingBox: Shape -> Shape)
    requires Perturbed(l, group, seed, bb, n, j, perturb, boundingBox).Ok?
    requires forall m :: j <= m < n ==> GeneratedKey(bb, m) !in l.labels
    ensures Perturbed(l, group, seed, bb, n, j, perturb, boundingBox).value.labels == l.labels + GeneratedKeys(bb, j, n)
    decreases n - j
  {
    if j < n {
      var key := GeneratedKey(bb, j);
      var l' := Set(l, key, perturb(boundingBox(l.groups[group]), l.groups[seed]));
      forall m | j + 1 <= m < n
        ensures GeneratedKey(bb, m) !in l'.labels
      {
        GeneratedKeysDistinct(bb, j, m);
      }
      PerturbedLabels(l', group, seed, bb, n, j + 1, perturb, boundingBox);
      assert GeneratedKeys(bb, j, n) == [key] + GeneratedKeys(bb, j + 1, n);
      AppendAssociates(l.labels, [key], GeneratedKeys(bb, j + 1, n));
    } else {
      assert l.labels + [] == l.labels;
    }
  }

  /** Every key in GeneratedKeys(bb, ...) matches `'*{bb}*'`. */
  lemma {:induction false} GeneratedKeysMatch(bb: string, first: nat, n: int)
    ensures Matching(GeneratedKeys(bb, first, n), bb) == GeneratedKeys(bb, first, n)
    decreases n - first
  {
    if first < n {
      GeneratedKeyMatches(bb, first);
      GeneratedKeysMatch(bb, first + 1, n);
      assert GeneratedKeys(bb, first, n)[1..] == GeneratedKeys(bb, first + 1, n);
    }
  }

  /**
   * When no key being generated is already on the image, generation appends
   * the generated keys, in index order, to the keys matching the group.
   */
  lemma PerturbedKeys(l: Landmarks, group: string, seed: string, bb: string, n: int, j: nat,
                      perturb: (Shape, Shape) -> Shape, boundingBox: Shape -> Shape)
    requires Perturbed(l, group, seed, bb, n, j, perturb, boundingBox).Ok?
    requires forall m :: j <= m < n ==> GeneratedKey(bb, m) !in l.labels
    ensures KeysMatching(Perturbed(l, group, seed, bb, n, j, perturb, boundingBox).value, bb)
         == KeysMatching(l, bb) + GeneratedKeys(bb, j, n)
  {
    PerturbedLabels(l, group, seed, bb, n, j, perturb, boundingBox);
    MatchingAppend(l.labels, GeneratedKeys(bb, j, n), bb);
    GeneratedKeysMatch(bb, j, n);
  }

  // ----- the whole batch -----

  /** What lines 110-159 leave behind: the images' landmarks, `self.n_perturbations` and the re-read keys. */
  datatype Boxes = Boxes(landmarks: seq<Landmarks>, nPerturbations: int, keys: seq<string>)

  /** Lines 110-121: the landmarks once the ground-truth boxes are stored (only when no group is given). */
  function Seeded(ls: seq<Landmarks>, group: string, boundingBoxGroup: Option<string>,
                  boundingBox: Shape -> Shape): Result<seq<Landmarks>, TrainError>
  {
    if boundingBoxGroup.None? then MapResult(ls, l => WithGroundTruthBox(l, group, boundingBox)) else Ok(ls)
  }

  /** Lines 123-127: the keys of the first image matching `'*{bb_group}*'`. */
  function Found(seeded: seq<Landmarks>, boundingBoxGroup: Option<string>): seq<string>
    requires |seeded| > 0
  {
    KeysMatching(seeded[0], BoxGroup(boundingBoxGroup))
  }

  /**
   * Lines 110-159 for a whole batch: store the ground-truth boxes, count the
   * boxes on the first image, then either generate perturbations on every
   * image (exactly one box) or adopt the count as `n_perturbations`, and
   * re-read the matching keys of the first image.
   */
  function AttachBoxes(ls: seq<Landmarks>, group: string, boundingBoxGroup: Option<string>, nPerturbations: int,
                       perturb: (Shape, Shape) -> Shape, boundingBox: Shape -> Shape): Result<Boxes, TrainError>
  {
    var bb := BoxGroup(boundingBoxGroup);
    match Seeded(ls, group, boundingBoxGroup, boundingBox)
    case Err(e) => Err(e)
    case Ok(seeded) =>
      if |seeded| == 0 then Err(EmptyBatch)
      else
        var found := Found(seeded, boundingBoxGroup);
        if |found| == 1 then
          match MapResult(seeded, l => Perturbed(l, group, found[0], bb, nPerturbations, 1, perturb, boundingBox))
          case Err(e) => Err(e)
          case Ok(out) => Ok(Boxes(out, nPerturbations, KeysMatching(out[0], bb)))
        else
          Ok(Boxes(seeded, |found|, found))
  }

  /** Storing the ground-truth boxes fails exactly when some image lacks the ground-truth group. */
  lemma SeededFails(ls: seq<Landmarks>, group: string, boundingBoxGroup: Option<string>, boundingBox: Shape -> Shape)
    ensures Seeded(ls, group, boundingBoxGroup, boundingBox).Err?
        <==> boundingBoxGroup.None? && exists i :: 0 <= i < |ls| && group !in ls[i].labels
    ensures Seeded(ls, group, boundingBoxGroup, boundingBox).Err? ==>
        Seeded(ls, group, boundingBoxGroup, boundingBox) == Err(MissingLandmarks(group))
    ensures Seeded(ls, group, boundingBoxGroup, boundingBox).Ok? ==>
        |Seeded(ls, group, boundingBoxGroup, boundingBox).value| == |ls|
  {
    if boundingBoxGroup.None? {
      var f := l => WithGroundTruthBox(l, group, boundingBox);
      assert forall i :: 0 <= i < |ls| ==> (f(ls[i]).Ok? <==> group in ls[i].labels);
      if MapResult(ls, f).Err? {
        var i := MapResultFails(ls, f);
      }
    }
  }

  /**
   * The bounding-box step fails exactly when the ground-truth boxes cannot be
   * stored, when the batch is empty, or when perturbations are to be
   * generated from a single box and some image lacks the ground-truth group
   * or that box.
   */
  lemma AttachBoxesFails(ls: seq<Landmarks>, group: string, boundingBoxGroup: Option<string>, nPerturbations: int,
                         perturb: (Shape, Shape) -> Shape, boundingBox: Shape -> Shape)
    ensures AttachBoxes(ls, group, boundingBoxGroup, nPerturbations, perturb, boundingBox).Err? <==>
      match Seeded(ls, group, boundingBoxGroup, boundingBox)
      case Err(_) => true
      case Ok(seeded) =>
        || |seeded| == 0
        || (&& |Found(seeded, boundingBoxGroup)| == 1
            && nPerturbations > 1
            && exists i :: 0 <= i < |seeded| &&
                 (group !in seeded[i].labels || Found(seeded, boundingBoxGroup)[0] !in seeded[i].labels))
  {
    var bb := BoxGroup(boundingBoxGroup);
    var sd := Seeded(ls, group, boundingBoxGroup, boundingBox);
    if sd.Ok? && |sd.value| > 0 && |Found(sd.value, boundingBoxGroup)| == 1 {
      var seeded, seed := sd.value, Found(sd.value, boundingBoxGroup)[0];
      var f := l => Perturbed(l, group, seed, bb, nPerturbations, 1, perturb, boundingBox);
      forall i | 0 <= i < |seeded|
        ensures f(seeded[i]).Err? <==> nPerturbations > 1 && (group !in seeded[i].labels || seed !in seeded[i].labels)
      {
        PerturbedFails(seeded[i], group, seed, bb, nPerturbations, 1, perturb, boundingBox);
      }
    }
  }

  /** One image of the single-box case: what `Perturbed` leaves on it. */
  lemma ExpandedImage(l: Landmarks, group: string, seed: string, bb: string, n: int,
                      perturb: (Shape, Shape) -> Shape, boundingBox: Shape -> Shape)
    requires Perturbed(l, group, seed, bb, n, 1, perturb, boundingBox).Ok?
    requires group !in GeneratedKeys(bb, 1, n) && seed !in GeneratedKeys(bb, 1, n)
    ensures var out := Perturbed(l, group, seed, bb, n, 1, perturb, boundingBox).value;
      && (seed in l.labels ==> seed in out.labels && out.groups[seed] == l.groups[seed])
      && (1 < n ==> group in l.labels && seed in l.labels)
      && (forall m :: 1 <= m < n ==>
            Get(out, GeneratedKey(bb, m)) == Some(perturb(boundingBox(l.groups[group]), l.groups[seed])))
  {
    PerturbedFails(l, group, seed, bb, n, 1, perturb, boundingBox);
    PerturbedContent(l, group, seed, bb, n, 1, perturb, boundingBox);
  }

  /** The first image of the single-box case: its matching keys after generation. */
  lemma ExpandedFirstKeys(l: Landmarks, group: string, seed: string, bb: string, n: int,
                          perturb: (Shape, Shape) -> Shape, boundingBox: Shape -> Shape)
    requires Perturbed(l, group, seed, bb, n, 1, perturb, boundingBox).Ok?
    requires KeysMatching(l, bb) == [seed]
    requires seed !in GeneratedKeys(bb, 1, n)
    ensures KeysMatching(Perturbed(l, group, seed, bb, n, 1, perturb, boundingBox).value, bb)
         == [seed] + GeneratedKeys(bb, 1, n)
  {
    forall m | 1 <= m < n
      ensures GeneratedKey(bb, m) !in l.labels
    {
      GeneratedKeyMatches(bb, m);
      GeneratedKeysMembers(bb, 1, n, GeneratedKey(bb, m));
    }
    PerturbedKeys(l, group, seed, bb, n, 1, perturb, boundingBox);
  }

  /**
   * Exactly one matching box on the first image: `n_perturbations` is kept,
   * every image gains `'{bb_group}_{j}'` for j = 1 .. n_perturbations - 1, each
   * holding the perturbation of its ground-truth box and its seed box, the
   * seed box itself is left as it was, and the re-read keys are the seed
   * followed by the generated keys.
   */
  lemma SingleBoxExpanded(ls: seq<Landmarks>, group: string, boundingBoxGroup: Option<string>, nPerturbations: int,
                          perturb: (Shape, Shape) -> Shape, boundingBox: Shape -> Shape)
    requires AttachBoxes(ls, group, boundingBoxGroup, nPerturbations, perturb, boundingBox).Ok?
    requires var seeded := Seeded(ls, group, boundingBoxGroup, boundingBox).value;
      && |seeded| > 0 && |Found(seeded, boundingBoxGroup)| == 1
      && group !in GeneratedKeys(BoxGroup(boundingBoxGroup), 1, nPerturbations)
      && Found(seeded, boundingBoxGroup)[0] !in GeneratedKeys(BoxGroup(boundingBoxGroup), 1, nPerturbations)
    ensures var b := AttachBoxes(ls, group, boundingBoxGroup, nPerturbations, perturb, boundingBox).value;
      var seeded := Seeded(ls, group, boundingBoxGroup, boundingBox).value;
      var bb, seed := BoxGroup(boundingBoxGroup), Found(seeded, boundingBoxGroup)[0];
      && b.nPerturbations == nPerturbations
      && b.keys == [seed] + GeneratedKeys(bb, 1, nPerturbations)
      && |b.landmarks| == |seeded|
      && (forall i :: 0 <= i < |seeded| && seed in seeded[i].labels ==>
            seed in b.landmarks[i].labels && b.landmarks[i].groups[seed] == seeded[i].groups[seed])
      && (forall i, m :: 0 <= i < |seeded| && 1 <= m < nPerturbations ==>
            && group in seeded[i].labels && seed in seeded[i].labels
            && Get(b.landmarks[i], GeneratedKey(bb, m))
               == Some(perturb(boundingBox(seeded[i].groups[group]), seeded[i].groups[seed])))
  {
    var seeded := Seeded(ls, group, boundingBoxGroup, boundingBox).value;
    var bb, seed := BoxGroup(boundingBoxGroup), Found(seeded, boundingBoxGroup)[0];
    var f := l => Perturbed(l, group, seed, bb, nPerturbations, 1, perturb, boundingBox);
    var mapped := MapResult(seeded, f);
    assert mapped.Ok?;
    var out := mapped.value;
    assert forall i :: 0 <= i < |seeded| ==> Perturbed(seeded[i], group, seed, bb, nPerturbations, 1, perturb, boundingBox) == Ok(out[i]);
    ExpandedImages(seeded, out, group, seed, bb, nPerturbations, perturb, boundingBox);
    assert KeysMatching(seeded[0], bb) == [seed];
    ExpandedFirstKeys(seeded[0], group, seed, bb, nPerturbations, perturb, boundingBox);
    assert AttachBoxes(ls, group, boundingBoxGroup, nPerturbations, perturb, boundingBox).value
        == Boxes(out, nPerturbations, KeysMatching(out[0], bb));
  }

  /** `ExpandedImage` for every image of the batch. */
  lemma ExpandedImages(seeded: seq<Landmarks>, out: seq<Landmarks>, group: string, seed: string, bb: string, n: int,
                       perturb: (Shape, Shape) -> Shape, boundingBox: Shape -> Shape)
    requires |out| == |seeded|
    requires forall i :: 0 <= i < |seeded| ==> Perturbed(seeded[i], group, seed, bb, n, 1, perturb, boundingBox) == Ok(out[i])
    requires group !in GeneratedKeys(bb, 1, n) && seed !in GeneratedKeys(bb, 1, n)
    ensures forall i :: 0 <= i < |seeded| && seed in seeded[i].labels ==>
      seed in out[i].labels && out[i].groups[seed] == seeded[i].groups[seed]
    ensures forall i, m :: 0 <= i < |seeded| && 1 <= m < n ==>
      && group in seeded[i].labels && seed in seeded[i].labels
      && Get(out[i], GeneratedKey(bb, m)) == Some(perturb(boundingBox(seeded[i].groups[group]), seeded[i].groups[seed]))
  {
    forall i | 0 <= i < |seeded|
      ensures seed in seeded[i].labels ==> seed in out[i].labels && out[i].groups[seed] == seeded[i].groups[seed]
      ensures forall m :: 1 <= m < n ==>
            && group in seeded[i].labels && seed in seeded[i].labels
            && Get(out[i], GeneratedKey(bb, m)) == Some(perturb(boundingBox(seeded[i].groups[group]), seeded[i].groups[seed]))
    {
      ExpandedImage(seeded[i], group, seed, bb, n, perturb, boundingBox);
    }
  }

  /**
   * `n_perturbations` after the step is the configured count when the first
   * image has exactly one matching box, and the number of matching boxes
   * otherwise, in which case no box is added and the keys are those found.
   * The number of re-read keys equals that count, except in the single-box
   * case with a configured count below 1 or a generated key that clashes
   * with the seed or the ground-truth group.
   */
  lemma PerturbationCountReconciled(ls: seq<Landmarks>, group: string, boundingBoxGroup: Option<string>, nPerturbations: int,
                                    perturb: (Shape, Shape) -> Shape, boundingBox: Shape -> Shape)
    requires AttachBoxes(ls, group, boundingBoxGroup, nPerturbations, perturb, boundingBox).Ok?
    ensures Seeded(ls, group, boundingBoxGroup, boundingBox).Ok?
    ensures |Seeded(ls, group, boundingBoxGroup, boundingBox).value| > 0
    ensures var b := AttachBoxes(ls, group, boundingBoxGroup, nPerturbations, perturb, boundingBox).value;
      var seeded := Seeded(ls, group, boundingBoxGroup, boundingBox).value;
      var found := Found(seeded, boundingBoxGroup);
      && (|found| != 1 ==> b == Boxes(seeded, |found|, found))
      && (|found| == 1 ==> b.nPerturbations == nPerturbations)
      && (|found| == 1 && nPerturbations >= 1
          && group !in GeneratedKeys(BoxGroup(boundingBoxGroup), 1, nPerturbations)
          && found[0] !in GeneratedKeys(BoxGroup(boundingBoxGroup), 1, nPerturbations)
          ==> |b.keys| == b.nPerturbations)
  {
    var seeded := Seeded(ls, group, boundingBoxGroup, boundingBox).value;
    var found := Found(seeded, boundingBoxGroup);
    if |found| == 1 && group !in GeneratedKeys(BoxGroup(boundingBoxGroup), 1, nPerturbations)
       && found[0] !in GeneratedKeys(BoxGroup(boundingBoxGroup), 1, nPerturbations) {
      SingleBoxExpanded(ls, group, boundingBoxGroup, nPerturbations, perturb, boundingBox);
    }
  }

  /** The step keeps one landmark manager per image, in order. */
  lemma AttachBoxesKeepsImages(ls: seq<Landmarks>, group: string, boundingBoxGroup: Option<string>, nPerturbations: int,
                               perturb: (Shape, Shape) -> Shape, boundingBox: Shape -> Shape)
    requires AttachBoxes(ls, group, boundingBoxGroup, nPerturbations, perturb, boundingBox).Ok?
    ensures |AttachBoxes(ls, group, boundingBoxGroup, nPerturbations, perturb, boundingBox).value.landmarks| == |ls|
  {
    SeededFails(ls, group, boundingBoxGroup, boundingBox);
  }

  /** No label matches a pattern that none of them contains. */
  lemma MatchingNone(labels: seq<string>, pattern: string)
    requires forall k :: k in labels ==> !Contains(k, pattern)
    ensures Matching(labels, pattern) == []
  {
  }

  /**
   * Without a bounding-box group, every image gets its ground-truth box
   * under `'__gt_bb_0'`; when the first image carries no key containing
   * `'__gt_bb_'`, that seed is the only box found on it.
   */
  lemma GroundTruthSeeded(ls: seq<Landmarks>, group: string, boundingBox: Shape -> Shape)
    requires Seeded(ls, group, None, boundingBox).Ok?
    requires |ls| > 0 && forall k :: k in ls[0].labels ==> !Contains(k, GroundTruthBoxGroup)
    ensures var seeded := Seeded(ls, group, None, boundingBox).value;
      && |seeded| == |ls|
      && (forall i :: 0 <= i < |ls| ==>
            group in ls[i].labels && seeded[i] == Set(ls[i], GroundTruthSeedKey, boundingBox(ls[i].groups[group])))
      && Found(seeded, None) == [GroundTruthSeedKey]
  {
    SeededFails(ls, group, None, boundingBox);
    var seeded := Seeded(ls, group, None, boundingBox).value;
    assert forall i :: 0 <= i < |ls| ==> group in ls[i].labels;
    GroundTruthKeys(1);
    assert GroundTruthSeedKey !in ls[0].labels;
    MatchingNone(ls[0].labels, GroundTruthBoxGroup);
    KeysMatchingAfterSet(ls[0], GroundTruthSeedKey, boundingBox(ls[0].groups[group]), GroundTruthBoxGroup);
  }

  /** No generated `'__gt_bb__{j}'` key is the seed, nor a group whose name does not contain `'__gt_bb_'`. */
  lemma GroundTruthKeysAvoid(group: string, n: int)
    requires !Contains(group, GroundTruthBoxGroup)
    ensures group !in GeneratedKeys(GroundTruthBoxGroup, 1, n)
    ensures GroundTruthSeedKey !in GeneratedKeys(GroundTruthBoxGroup, 1, n)
    ensures group != GroundTruthSeedKey
  {
    GroundTruthKeys(1);
    forall k | k in GeneratedKeys(GroundTruthBoxGroup, 1, n)
      ensures k != group && k != GroundTruthSeedKey
    {
      GeneratedKeysMembers(GroundTruthBoxGroup, 1, n, k);
      var m :| 1 <= m < n && k == GeneratedKey(GroundTruthBoxGroup, m);
      GroundTruthKeys(m);
    }
  }

  /**
   * Without a bounding-box group, on images that carry no key containing
   * `'__gt_bb_'`: every image gets its ground-truth box under `'__gt_bb_0'`
   * and, for j = 1 .. n_perturbations - 1, the perturbation of that box under
   * `'__gt_bb__{j}'`; `n_perturbations` is kept; the keys read back are
   * `'__gt_bb_0'` followed by the generated keys.
   */
  lemma GroundTruthBoxesExpanded(ls: seq<Landmarks>, group: string, nPerturbations: int,
                                 perturb: (Shape, Shape) -> Shape, boundingBox: Shape -> Shape)
    requires AttachBoxes(ls, group, None, nPerturbations, perturb, boundingBox).Ok?
    requires |ls| > 0 && forall k :: k in ls[0].labels ==> !Contains(k, GroundTruthBoxGroup)
    requires !Contains(group, GroundTruthBoxGroup)
    ensures var b := AttachBoxes(ls, group, None, nPerturbations, perturb, boundingBox).value;
      && b.nPerturbations == nPerturbations
      && b.keys == [GroundTruthSeedKey] + GeneratedKeys(GroundTruthBoxGroup, 1, nPerturbations)
      && |b.landmarks| == |ls|
      && (forall i :: 0 <= i < |ls| ==>
            group in ls[i].labels && Get(b.landmarks[i], GroundTruthSeedKey) == Some(boundingBox(ls[i].groups[group])))
      && (forall i, m :: 0 <= i < |ls| && 1 <= m < nPerturbations ==>
            Get(b.landmarks[i], GeneratedKey(GroundTruthBoxGroup, m))
            == Some(perturb(boundingBox(ls[i].groups[group]), boundingBox(ls[i].groups[group]))))
  {
    assert Seeded(ls, group, None, boundingBox).Ok?;
    GroundTruthSeeded(ls, group, boundingBox);
    GroundTruthKeysAvoid(group, nPerturbations);
    SingleBoxExpanded(ls, group, None, nPerturbations, perturb, boundingBox);
  }
}
