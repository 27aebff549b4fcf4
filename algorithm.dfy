/** The matching and grouping algorithms of xpano (xpano/algorithm/algorithm.cc):
    the pairwise match filter MatchImages, the greedy panorama chainer
    FindPanos, and the status-to-name mapping ToString.

    The numerical parts of MatchImages (the FLANN nearest-neighbour search,
    the RANSAC homography estimate and the reprojection-distance test) are
    not modelled: they enter as values and oracle functions passed in.
 */
module Algorithm {
  import opened Sequences

  datatype Option<T> = None | Some(value: T)

  function Last<T>(s: seq<T>): T
    requires |s| > 0
  {
    s[|s| - 1]
  }

  // ---------------------------------------------------------------------
  // Data model
  // ---------------------------------------------------------------------

  /** One correspondence: keypoint `queryIdx` of the first image matched to
      keypoint `trainIdx` of the second (cv::DMatch without its distance,
      which only the oracles below look at). */
  datatype DMatch = DMatch(queryIdx: int, trainIdx: int)

  /** The two nearest neighbours the matcher returns for one descriptor of
      the first image (a k-nearest-neighbour match with k = 2). */
  datatype KnnMatch = KnnMatch(best: DMatch, second: DMatch)

  /** A pairwise match between images `id1` and `id2`, holding the
      correspondences that survived MatchImages. */
  datatype Match = Match(id1: int, id2: int, matches: seq<DMatch>)

  /** The image ids of one match, as the grouping keeps them. */
  type IdPair = (int, int)

  /** A panorama candidate: the ids of its images, in chaining order. */
  type Pano = seq<int>

  /** Fewer ratio-test survivors than this and no homography is tried. */
  const MIN_GOOD_MATCHES := 4

  // ---------------------------------------------------------------------
  // MatchImages
  // ---------------------------------------------------------------------

  function Best(knn: KnnMatch): DMatch {
    knn.best
  }

  function Itself(c: DMatch): DMatch {
    c
  }

  /** The first neighbours of the k-nearest-neighbour pairs that pass the
      ratio test, in matcher order. */
  function RatioSurvivors(knn: seq<KnnMatch>, passesRatio: KnnMatch -> bool): seq<DMatch> {
    FilterMap(knn, passesRatio, Best)
  }

  /** The correspondences of `good` whose reprojection under `h` lies within
      the inlier distance, in order. */
  function Inliers<H>(good: seq<DMatch>, h: H, isInlier: (H, DMatch) -> bool): seq<DMatch> {
    FilterMap(good, (c: DMatch) => isInlier(h, c), Itself)
  }

  /** A survivor of the ratio test is exactly the first neighbour of a pair
      that passes it, and survivors keep the matcher's order. */
  lemma {:induction false} RatioSurvivorsAreFirstNeighbours(knn: seq<KnnMatch>, passesRatio: KnnMatch -> bool)
    ensures IsSubsequence(RatioSurvivors(knn, passesRatio), Map(knn, Best))
    ensures forall c :: c in RatioSurvivors(knn, passesRatio) <==>
                          exists p :: p in knn && passesRatio(p) && p.best == c
  {
    FilterMapIsSubsequence(knn, passesRatio, Best);
    forall c
      ensures c in RatioSurvivors(knn, passesRatio) <==>
              exists p :: p in knn && passesRatio(p) && p.best == c
    {
      FilterMapMembership(knn, passesRatio, Best, c);
    }
  }

  /** The inliers are an order-preserving subsequence of the survivors, and
      a survivor is kept exactly when it passes the inlier test. */
  lemma {:induction false} InliersOfSurvivors<H>(good: seq<DMatch>, h: H, isInlier: (H, DMatch) -> bool)
    ensures IsSubsequence(Inliers(good, h, isInlier), good)
    ensures forall c :: c in Inliers(good, h, isInlier) <==> c in good && isInlier(h, c)
  {
    var keep := (c: DMatch) => isInlier(h, c);
    FilterMapIsSubsequence(good, keep, Itself);
    assert Map(good, Itself) == good;
    forall c
      ensures c in Inliers(good, h, isInlier) <==> c in good && isInlier(h, c)
    {
      FilterMapMembership(good, keep, Itself, c);
    }
  }

  /** The correspondences between two images that survive both filters.

      `knn` is what the nearest-neighbour matcher returns for the two
      images' descriptors; it is consulted only when both images have
      keypoints. `passesRatio` is the first/second distance ratio test,
      `findHomography` the RANSAC estimate (None for an empty matrix) and
      `isInlier` the reprojection-distance test of one correspondence under
      an estimated homography. */
  method MatchImages<K, H>(keypoints1: seq<K>, keypoints2: seq<K>, knn: seq<KnnMatch>,
                           passesRatio: KnnMatch -> bool,
                           findHomography: seq<DMatch> -> Option<H>,
                           isInlier: (H, DMatch) -> bool)
    returns (inliers: seq<DMatch>)
    ensures keypoints1 == [] || keypoints2 == [] ==> inliers == []
    ensures |RatioSurvivors(knn, passesRatio)| < MIN_GOOD_MATCHES ==> inliers == []
    ensures findHomography(RatioSurvivors(knn, passesRatio)).None? ==> inliers == []
    ensures var good := RatioSurvivors(knn, passesRatio);
            keypoints1 != [] && keypoints2 != [] && |good| >= MIN_GOOD_MATCHES &&
            findHomography(good).Some? ==>
              inliers == Inliers(good, findHomography(good).value, isInlier)
    ensures IsSubsequence(inliers, RatioSurvivors(knn, passesRatio))
  {
    var survivors := RatioSurvivors(knn, passesRatio);
    if keypoints1 == [] || keypoints2 == [] {
      EmptyIsSubsequence(survivors);
      return [];
    }

    var good: seq<DMatch> := [];
    for i := 0 to |knn|
      invariant good == RatioSurvivors(knn[..i], passesRatio)
    {
      assert knn[..i + 1][..i] == knn[..i];
      if passesRatio(knn[i]) {
        good := good + [knn[i].best];
      }
    }
    assert knn[..|knn|] == knn;

    if |good| < MIN_GOOD_MATCHES {
      EmptyIsSubsequence(survivors);
      return [];
    }

    var h := findHomography(good);
    if h.None? {
      EmptyIsSubsequence(survivors);
      return [];
    }

    inliers := [];
    for i := 0 to |good|
      invariant inliers == Inliers(good[..i], h.value, isInlier)
    {
      assert good[..i + 1][..i] == good[..i];
      if isInlier(h.value, good[i]) {
        inliers := inliers + [good[i]];
      }
    }
    assert good[..|good|] == good;
    InliersOfSurvivors(good, h.value, isInlier);
  }

  // ---------------------------------------------------------------------
  // FindPanos
  // ---------------------------------------------------------------------

  /** A match takes part in grouping when it has strictly more
      correspondences than the threshold. */
  predicate Qualifies(m: Match, threshold: nat) {
    |m.matches| > threshold
  }

  function Ids(m: Match): IdPair {
    (m.id1, m.id2)
  }

  /** The id pairs of the qualifying matches, in input order. */
  function GoodMatches(matches: seq<Match>, threshold: nat): seq<IdPair> {
    FilterMap(matches, (m: Match) => Qualifies(m, threshold), Ids)
  }

  /** The greedy chaining of a list of id pairs into panoramas: the first
      pair opens a panorama; each later pair extends the open panorama when
      its first id is that panorama's last id, and otherwise closes it and
      opens a new one. Defined on the prefix, the way the loop builds it. */
  function Group(good: seq<IdPair>): (panos: seq<Pano>)
    ensures |panos| == 0 <==> |good| == 0
    ensures forall k :: 0 <= k < |panos| ==> |panos[k]| >= 2
    ensures |good| > 0 ==> Last(Last(panos)) == Last(good).1
    decreases |good|
  {
    if |good| == 0 then []
    else
      var link := Last(good);
      if |good| == 1 then [[link.0, link.1]]
      else
        var prev := Group(good[..|good| - 1]);
        var open := Last(prev);
        if Last(open) == link.0 then prev[..|prev| - 1] + [open + [link.1]]
        else prev + [[link.0, link.1]]
  }

  /** The consecutive id pairs inside one panorama. */
  function PanoLinks(p: Pano): (links: seq<IdPair>)
    ensures |links| == if |p| == 0 then 0 else |p| - 1
  {
    if |p| == 0 then []
    else seq(|p| - 1, j requires 0 <= j < |p| - 1 => (p[j], p[j + 1]))
  }

  /** The consecutive id pairs of all panoramas, panorama after panorama. */
  function Links(panos: seq<Pano>): seq<IdPair>
    decreases |panos|
  {
    if panos == [] then []
    else Links(panos[..|panos| - 1]) + PanoLinks(Last(panos))
  }

  /** Sum over the panoramas of the number of ids minus one. */
  function TotalLinks(panos: seq<Pano>): int
    decreases |panos|
  {
    if panos == [] then 0
    else TotalLinks(panos[..|panos| - 1]) + |Last(panos)| - 1
  }

  /** Each panorama's last id differs from the next panorama's first id:
      no two neighbouring panoramas could have been chained into one. */
  predicate Separated(panos: seq<Pano>)
    decreases |panos|
  {
    |panos| < 2 ||
      (&& Separated(panos[..|panos| - 1])
       && |panos[|panos| - 2]| > 0 && |Last(panos)| > 0
       && Last(panos[|panos| - 2]) != Last(panos)[0])
  }

  /** `panos` is a maximal chaining of `good`: every panorama has at least
      two ids, walking the panoramas reproduces `good` pair by pair, and no
      two neighbouring panoramas join up. */
  predicate IsChaining(panos: seq<Pano>, good: seq<IdPair>) {
    && (forall k :: 0 <= k < |panos| ==> |panos[k]| >= 2)
    && Links(panos) == good
    && Separated(panos)
  }

  /** The number of places where a pair does not continue from the previous
      pair (its first id differs from the previous pair's second id). */
  function Breaks(good: seq<IdPair>): nat
    decreases |good|
  {
    if |good| < 2 then 0
    else Breaks(good[..|good| - 1]) + (if good[|good| - 2].1 != Last(good).0 then 1 else 0)
  }

  lemma {:induction false} PanoLinksSnoc(p: Pano, id: int)
    requires |p| > 0
    ensures PanoLinks(p + [id]) == PanoLinks(p) + [(Last(p), id)]
  {
    var q := p + [id];
    assert forall j :: 0 <= j < |p| - 1 ==> PanoLinks(q)[j] == PanoLinks(p)[j];
  }

  lemma {:induction false} LinksSnoc(panos: seq<Pano>, p: Pano)
    ensures Links(panos + [p]) == Links(panos) + PanoLinks(p)
  {
    assert (panos + [p])[..|panos|] == panos;
  }

  lemma {:induction false} LinksExtend(before: seq<Pano>, open: Pano, id: int)
    requires |open| > 0
    ensures Links(before + [open + [id]]) == Links(before + [open]) + [(Last(open), id)]
  {
    LinksSnoc(before, open);
    PanoLinksSnoc(open, id);
    LinksSnoc(before, open + [id]);
  }

  /** One more pair keeps the walk of the chaining equal to the pair list. */
  lemma {:induction false} GroupLinksStep(init: seq<IdPair>, link: IdPair)
    requires Links(Group(init)) == init
    ensures Links(Group(init + [link])) == init + [link]
  {
    var prev := Group(init);
    if prev != [] && Last(Last(prev)) == link.0 {
      var before, open := prev[..|prev| - 1], Last(prev);
      assert prev == before + [open];
      GroupExtends(init, link, before, open);
      LinksExtend(before, open, link.1);
    } else {
      GroupOpens(init, link);
      LinksSnoc(prev, [link.0, link.1]);
      assert PanoLinks([link.0, link.1]) == [link];
    }
  }

  /** Walking the panoramas of the chaining reproduces the pair list. */
  lemma {:induction false} GroupLinks(good: seq<IdPair>)
    ensures Links(Group(good)) == good
    decreases |good|
  {
    if good != [] {
      var init, link := good[..|good| - 1], Last(good);
      assert good == init + [link];
      GroupLinks(init);
      GroupLinksStep(init, link);
    }
  }

  /** Neighbouring panoramas of the chaining never join up. */
  lemma {:induction false} GroupSeparated(good: seq<IdPair>)
    ensures Separated(Group(good))
    decreases |good|
  {
    if good != [] {
      var init, link := good[..|good| - 1], Last(good);
      assert good == init + [link];
      var prev := Group(init);
      GroupSeparated(init);
      if prev != [] && Last(Last(prev)) == link.0 {
        var before, open := prev[..|prev| - 1], Last(prev);
        assert prev == before + [open];
        GroupExtends(init, link, before, open);
        var panos := before + [open + [link.1]];
        assert panos[..|panos| - 1] == before == prev[..|prev| - 1];
        if |before| > 0 {
          assert panos[|panos| - 2] == prev[|prev| - 2];
        }
      } else {
        GroupOpens(init, link);
        var panos := prev + [[link.0, link.1]];
        assert panos[..|panos| - 1] == prev;
      }
    }
  }

  /** The greedy grouping is a maximal chaining of its input. */
  lemma {:induction false} GroupIsChaining(good: seq<IdPair>)
    ensures IsChaining(Group(good), good)
  {
    GroupLinks(good);
    GroupSeparated(good);
  }

  /** A pair that does not continue the open panorama opens a new one. */
  lemma {:induction false} GroupOpens(init: seq<IdPair>, link: IdPair)
    requires Group(init) != [] ==> Last(Last(Group(init))) != link.0
    ensures Group(init + [link]) == Group(init) + [[link.0, link.1]]
  {
    var good := init + [link];
    assert good[..|init|] == init && Last(good) == link;
  }

  /** GroupOpens, stated for the two-id panorama the pair opens. */
  lemma {:induction false} GroupOpensPano(init: seq<IdPair>, before: seq<Pano>, open: Pano)
    requires |open| == 2 && Group(init) == before
    requires before != [] ==> Last(Last(before)) != open[0]
    ensures Group(init + [(open[0], open[1])]) == before + [open]
  {
    GroupOpens(init, (open[0], open[1]));
    assert open == [open[0], open[1]];
  }

  /** A pair that continues the open panorama extends it by its second id. */
  lemma {:induction false} GroupExtends(init: seq<IdPair>, link: IdPair, before: seq<Pano>, open: Pano)
    requires Group(init) == before + [open] && Last(open) == link.0
    ensures Group(init + [link]) == before + [open + [link.1]]
  {
    var good := init + [link];
    assert good[..|init|] == init && Last(good) == link;
    assert (before + [open])[..|before|] == before;
  }

  /** In a chaining whose last panorama has two ids, that panorama is the
      last pair and the panoramas before it chain the pairs before it. */
  lemma {:induction false} OpenedPanoSplits(before: seq<Pano>, open: Pano, good: seq<IdPair>)
    returns (init: seq<IdPair>)
    requires |open| == 2 && IsChaining(before + [open], good)
    ensures good == init + [(open[0], open[1])]
    ensures IsChaining(before, init)
    ensures before != [] ==> Last(Last(before)) != open[0]
  {
    var panos := before + [open];
    LinksSnoc(before, open);
    assert PanoLinks(open) == [(open[0], open[1])];
    init := Links(before);
    assert forall k :: 0 <= k < |before| ==> before[k] == panos[k];
    assert panos[..|panos| - 1] == before;
  }

  /** In a chaining whose last panorama has more than two ids, the last pair
      is that panorama's last step, and dropping its last id chains the pairs
      before it. */
  lemma {:induction false} ExtendedPanoShrinks(before: seq<Pano>, shorter: Pano, id: int, good: seq<IdPair>)
    returns (init: seq<IdPair>)
    requires |shorter| >= 2 && IsChaining(before + [shorter + [id]], good)
    ensures good == init + [(Last(shorter), id)]
    ensures IsChaining(before + [shorter], init)
  {
    var open := shorter + [id];
    var panos := before + [open];
    var panos' := before + [shorter];
    LinksSnoc(before, open);
    PanoLinksSnoc(shorter, id);
    LinksSnoc(before, shorter);
    init := Links(panos');
    assert forall k :: 0 <= k < |panos'| ==> |panos'[k]| >= 2 by {
      assert forall k :: 0 <= k < |before| ==> panos'[k] == panos[k];
    }
    assert Separated(panos') by {
      assert panos[..|panos| - 1] == before;
      assert panos'[..|panos'| - 1] == before;
      if |before| > 0 {
        assert panos'[|panos'| - 2] == panos[|panos| - 2];
        assert shorter[0] == open[0];
      }
    }
  }

  /** A maximal chaining is unique: whatever satisfies IsChaining for `good`
      is the greedy grouping of `good`. */
  lemma {:induction false} ChainingIsUnique(panos: seq<Pano>, good: seq<IdPair>)
    requires IsChaining(panos, good)
    ensures panos == Group(good)
    decreases |good|, 1
  {
    if panos == [] {
      assert good == Links(panos);
    } else {
      var before, open := panos[..|panos| - 1], Last(panos);
      assert panos == before + [open];
      if |open| == 2 {
        OpenedChainingIsUnique(before, open, good);
      } else {
        var shorter := open[..|open| - 1];
        assert open == shorter + [Last(open)];
        ExtendedChainingIsUnique(before, shorter, Last(open), good);
      }
    }
  }

  /** ChainingIsUnique when the last panorama was opened by the last pair. */
  lemma {:induction false} OpenedChainingIsUnique(before: seq<Pano>, open: Pano, good: seq<IdPair>)
    requires |open| == 2 && IsChaining(before + [open], good)
    ensures before + [open] == Group(good)
    decreases |good|, 0
  {
    var init := OpenedPanoSplits(before, open, good);
    ChainingIsUnique(before, init);
    GroupOpensPano(init, before, open);
  }

  /** ChainingIsUnique when the last pair extended the last panorama. */
  lemma {:induction false} ExtendedChainingIsUnique(before: seq<Pano>, shorter: Pano, id: int, good: seq<IdPair>)
    requires |shorter| >= 2 && IsChaining(before + [shorter + [id]], good)
    ensures before + [shorter + [id]] == Group(good)
    decreases |good|, 0
  {
    var init := ExtendedPanoShrinks(before, shorter, id, good);
    ChainingIsUnique(before + [shorter], init);
    GroupExtends(init, (Last(shorter), id), before, shorter);
  }

  /** Every panorama contributes its number of ids minus one pairs, so those
      numbers add up to the length of the pair list. */
  lemma {:induction false} TotalLinksCountsLinks(panos: seq<Pano>)
    requires forall k :: 0 <= k < |panos| ==> |panos[k]| >= 1
    ensures TotalLinks(panos) == |Links(panos)|
    decreases |panos|
  {
    if panos != [] {
      TotalLinksCountsLinks(panos[..|panos| - 1]);
    }
  }

  lemma {:induction false} GroupTotalLinks(good: seq<IdPair>)
    ensures TotalLinks(Group(good)) == |good|
  {
    GroupLinks(good);
    TotalLinksCountsLinks(Group(good));
  }

  /** A non-empty pair list forms one panorama plus one more for every
      break in the chain. */
  lemma {:induction false} GroupCount(good: seq<IdPair>)
    requires |good| > 0
    ensures |Group(good)| == 1 + Breaks(good)
    decreases |good|
  {
    if |good| > 1 {
      var init := good[..|good| - 1];
      GroupCount(init);
      assert Last(init) == good[|good| - 2];
    }
  }

  /** Ids are not deduplicated: a pair list that returns to an image puts
      that image twice into one panorama. */
  lemma {:induction false} GroupMayRepeatIds()
    ensures Group([(1, 2), (2, 1)]) == [[1, 2, 1]]
  {
    var good := [(1, 2), (2, 1)];
    assert good[..1] == [(1, 2)];
    var prev := Group(good[..1]);
    assert prev == [[1, 2]];
    assert Last(Last(prev)) == 2 && Last(good) == (2, 1);
    assert [1, 2] + [1] == [1, 2, 1];
    assert prev[..0] + [[1, 2] + [1]] == [[1, 2, 1]];
  }

  /** The qualifying matches are exactly those over the threshold, in input
      order; none qualifies exactly when every match is at or under it. */
  lemma {:induction false} GoodMatchesSelects(matches: seq<Match>, threshold: nat)
    ensures GoodMatches(matches, threshold) == [] <==>
              forall m :: m in matches ==> !Qualifies(m, threshold)
    ensures forall p :: p in GoodMatches(matches, threshold) <==>
              exists m :: m in matches && Qualifies(m, threshold) && Ids(m) == p
    ensures IsSubsequence(GoodMatches(matches, threshold), Map(matches, Ids))
  {
    var keep := (m: Match) => Qualifies(m, threshold);
    FilterMapEmpty(matches, keep, Ids);
    FilterMapIsSubsequence(matches, keep, Ids);
    forall p
      ensures p in GoodMatches(matches, threshold) <==>
              exists m :: m in matches && Qualifies(m, threshold) && Ids(m) == p
    {
      FilterMapMembership(matches, keep, Ids, p);
    }
  }

  /** Grouping of consecutive input batches: the qualifying matches of a
      concatenation are those of the first part followed by those of the
      second. */
  lemma {:induction false} GoodMatchesAppend(a: seq<Match>, b: seq<Match>, threshold: nat)
    ensures GoodMatches(a + b, threshold) == GoodMatches(a, threshold) + GoodMatches(b, threshold)
  {
    FilterMapAppend(a, b, (m: Match) => Qualifies(m, threshold), Ids);
  }

  /** The first pass of FindPanos: the id pairs of the qualifying matches,
      in input order. */
  method SelectGoodMatches(matches: seq<Match>, threshold: nat) returns (good: seq<IdPair>)
    ensures good == GoodMatches(matches, threshold)
  {
    good := [];
    for i := 0 to |matches|
      invariant good == GoodMatches(matches[..i], threshold)
    {
      assert matches[..i + 1][..i] == matches[..i];
      if |matches[i].matches| > threshold {
        good := good + [(matches[i].id1, matches[i].id2)];
      }
    }
    assert matches[..|matches|] == matches;
  }

  /** The second pass of FindPanos: the greedy chaining of a non-empty pair
      list, one pair at a time. */
  method ChainPanos(good: seq<IdPair>) returns (result: seq<Pano>)
    requires good != []
    ensures result == Group(good)
  {
    result := [];
    var next: Pano := [good[0].0, good[0].1];
    assert good[..1] == [good[0]];
    for i := 1 to |good|
      invariant result + [next] == Group(good[..i])
    {
      var link := good[i];
      assert good[..i + 1] == good[..i] + [link];
      if Last(next) == link.0 {
        GroupExtends(good[..i], link, result, next);
        next := next + [link.1];
      } else {
        GroupOpens(good[..i], link);
        result := result + [next];
        next := [link.0, link.1];
      }
    }
    result := result + [next];
    assert good[..|good|] == good;
  }

  /** Groups the pairwise matches into panorama candidates. */
  method FindPanos(matches: seq<Match>, threshold: nat) returns (result: seq<Pano>)
    ensures result == Group(GoodMatches(matches, threshold))
    ensures result == [] <==> forall m :: m in matches ==> !Qualifies(m, threshold)
    ensures IsChaining(result, GoodMatches(matches, threshold))
    ensures result != [] ==> |result| == 1 + Breaks(GoodMatches(matches, threshold))
  {
    var good := SelectGoodMatches(matches, threshold);
    GoodMatchesSelects(matches, threshold);
    GroupIsChaining(good);
    if good == [] {
      return [];
    }
    result := ChainPanos(good);
    GroupCount(good);
  }

  // ---------------------------------------------------------------------
  // ToString
  // ---------------------------------------------------------------------

  /** The codes of the stitcher's status enumeration that have a name. */
  const OK := 0
  const ERR_NEED_MORE_IMGS := 1
  const ERR_HOMOGRAPHY_EST_FAIL := 2
  const ERR_CAMERA_PARAMS_ADJUST_FAIL := 3

  /** The name of a stitcher status code; any code outside the four named
      ones is reported as unknown. */
  function ToString(status: int): (name: string)
    ensures status == OK <==> name == "OK"
    ensures status == ERR_NEED_MORE_IMGS <==> name == "ERR_NEED_MORE_IMGS"
    ensures status == ERR_HOMOGRAPHY_EST_FAIL <==> name == "ERR_HOMOGRAPHY_EST_FAIL"
    ensures status == ERR_CAMERA_PARAMS_ADJUST_FAIL <==> name == "ERR_CAMERA_PARAMS_ADJUST_FAIL"
    ensures (status !in {OK, ERR_NEED_MORE_IMGS, ERR_HOMOGRAPHY_EST_FAIL, ERR_CAMERA_PARAMS_ADJUST_FAIL})
            <==> name == "ERR_UNKNOWN"
  {
    if status == OK then "OK"
    else if status == ERR_NEED_MORE_IMGS then "ERR_NEED_MORE_IMGS"
    else if status == ERR_HOMOGRAPHY_EST_FAIL then "ERR_HOMOGRAPHY_EST_FAIL"
    else if status == ERR_CAMERA_PARAMS_ADJUST_FAIL then "ERR_CAMERA_PARAMS_ADJUST_FAIL"
    else "ERR_UNKNOWN"
  }
}
