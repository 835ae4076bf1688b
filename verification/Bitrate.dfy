/** go/internal/video/processor.go and the upload limit of go/internal/worker/download.go: which bitrate
    and which height make a video fit.  Bitrates are in kilobits per second. */
module Bitrate {
  import opened Text

  // ---------------------------------------------------------------- the ladder

  const LADDER: map<int, int> :=
    map[2160 := 12000, 1440 := 8000, 1080 := 4500, 720 := 2500, 480 := 1200, 360 := 700]

  function Distance(a: int, b: int): nat {
    if a < b then b - a else a - b
  }

  ghost predicate IsNear(h: int, height: int) {
    forall g :: g in LADDER ==> Distance(h, height) <= Distance(g, height)
  }

  /** A ladder bitrate of a nearest rung.  Two rungs can be equally near. */
  ghost predicate Nearest(height: int, kbps: int) {
    exists h :: h in LADDER && LADDER[h] == kbps && IsNear(h, height)
  }

  /** `targetBitrateKbps`: the map is walked in any order. */
  method TargetBitrate(height: int) returns (best: int)
    ensures Nearest(height, best)
  {
    best := 0;
    var bestDiff := -1;
    ghost var at := 0;
    var left := LADDER.Keys;
    while left != {}
      invariant left <= LADDER.Keys
      invariant bestDiff == -1 <==> left == LADDER.Keys
      invariant bestDiff != -1 ==>
                  && at in LADDER && LADDER[at] == best && bestDiff == Distance(at, height)
                  && forall g :: g in LADDER && g !in left ==> bestDiff <= Distance(g, height)
      decreases left
    {
      var h :| h in left;
      left := left - {h};
      var diff := Distance(h, height);
      if bestDiff == -1 || diff < bestDiff {
        bestDiff := diff;
        best := LADDER[h];
        at := h;
      }
      assert h !in left;
    }
    assert 720 in LADDER;
  }

  /** The rungs: between two of them the midpoint belongs to both. */
  function Rate(height: int): int {
    if height < 420 then 700 else if height < 600 then 1200 else if height < 900 then 2500
    else if height < 1260 then 4500 else if height < 1800 then 8000 else 12000
  }

  /** What a midpoint may also be given. */
  function OtherRate(height: int): int {
    match height
    case 420 => 700
    case 600 => 1200
    case 900 => 2500
    case 1260 => 4500
    case 1800 => 8000
    case _ => Rate(height)
  }

  lemma RungsOf(height: int)
    ensures forall g :: g in LADDER <==> g in {360, 480, 720, 1080, 1440, 2160}
    ensures LADDER[360] == 700 && LADDER[480] == 1200 && LADDER[720] == 2500
    ensures LADDER[1080] == 4500 && LADDER[1440] == 8000 && LADDER[2160] == 12000
  {
  }

  lemma NearestRung(height: int)
    ensures Nearest(height, Rate(height)) && Nearest(height, OtherRate(height))
  {
    RungsOf(height);
    var h := if height < 420 then 360 else if height < 600 then 480 else if height < 900 then 720
             else if height < 1260 then 1080 else if height < 1800 then 1440 else 2160;
    assert h in LADDER && LADDER[h] == Rate(height);
    var o := match height
      case 420 => 360 case 600 => 480 case 900 => 720 case 1260 => 1080 case 1800 => 1440 case _ => h;
    assert o in LADDER && LADDER[o] == OtherRate(height);
  }

  /** All answers for a height, whatever the order. */
  lemma NearestIs(height: int, kbps: int)
    ensures Nearest(height, kbps) <==> kbps == Rate(height) || kbps == OtherRate(height)
  {
    RungsOf(height);
    if Nearest(height, kbps) {
      var h :| h in LADDER && LADDER[h] == kbps && IsNear(h, height);
      assert Distance(h, height) <= Distance(360, height) && Distance(h, height) <= Distance(480, height);
      assert Distance(h, height) <= Distance(720, height) && Distance(h, height) <= Distance(1080, height);
      assert Distance(h, height) <= Distance(1440, height) && Distance(h, height) <= Distance(2160, height);
    }
    NearestRung(height);
  }

  // ---------------------------------------------------------------- fitHeight

  const FIT_HEIGHTS: seq<int> := [0, 720, 480, 360, 240]

  /** A height is good enough for a budget. */
  predicate Fits(kbps: int, budget: int) {
    budget >= kbps / 2
  }

  /** The tallest candidate that fits when the source's own target is `kbps`; 240 when none does. */
  function Tallest(source: int, kbps: int, budget: int): int {
    if source < 720 || Fits(kbps, budget) then source
    else if Fits(2500, budget) then 720
    else if Fits(1200, budget) then 480
    else if Fits(700, budget) then 360
    else 240
  }

  /** What `fitHeight` may answer, over all map orders. */
  ghost predicate Answers(source: int, budget: int, out: int) {
    exists kbps :: Nearest(source, kbps) && out == Tallest(source, kbps, budget)
  }

  method FitHeight(source: int, budget: int) returns (out: int)
    ensures Answers(source, budget, out)
  {
    out := source;
    ghost var kbps := Rate(source);
    NearestIs(source, kbps);
    for i := 0 to 5
      invariant out == if i == 0 then source else if i == 1 then source else FIT_HEIGHTS[i - 1]
      invariant Nearest(source, kbps)
      invariant i > 0 ==> !Fits(kbps, budget)
      invariant i > 1 ==> source >= 720 && !Fits(2500, budget)
      invariant i > 2 ==> !Fits(1200, budget)
      invariant i > 3 ==> !Fits(700, budget)
    {
      var h := FIT_HEIGHTS[i];
      var cand := h;
      if h == 0 {
        cand := source;
      } else if cand > source {
        break;
      }
      out := cand;
      var target := TargetBitrate(cand);
      NearestIs(cand, target);
      if i == 0 {
        kbps := target;
      }
      if Fits(target, budget) {
        break;
      }
    }
    assert Tallest(source, kbps, budget) == out;
  }

  /** Never taller than the source, unchanged below 720. */
  lemma NeverUpscales(source: int, budget: int, out: int)
    requires Answers(source, budget, out)
    ensures out <= source && (source < 720 ==> out == source)
  {
  }

  predicate Candidate(source: int, h: int) {
    h == source || (h in {720, 480, 360, 240} && h < source)
  }

  /** The last resort. */
  function Lowest(source: int): int {
    if source < 240 then source else 240
  }

  function RateOf(source: int, kbps: int, h: int): int {
    if h == source then kbps else Rate(h)
  }

  /** The source is tried with its own target first; 720 is also a rung of the list. */
  predicate Suits(source: int, kbps: int, budget: int, h: int) {
    2 * budget + 1 >= RateOf(source, kbps, h) || (h == 720 && budget >= 1250)
  }

  ghost predicate Best(source: int, kbps: int, budget: int, out: int) {
    && Candidate(source, out) && (out == Lowest(source) || Suits(source, kbps, budget, out))
    && forall h :: Candidate(source, h) && h > out ==> !Suits(source, kbps, budget, h)
  }

  lemma BestIsTallest(source: int, kbps: int, budget: int, out: int)
    requires source >= 720
    ensures out == Tallest(source, kbps, budget) <==> Best(source, kbps, budget, out)
  {
    assert Rate(720) == 2500 && Rate(480) == 1200 && Rate(360) == 700 && Rate(240) == 700;
    var best := Tallest(source, kbps, budget);
    if Best(source, kbps, budget, out) {
      assert best == 240 || Suits(source, kbps, budget, best);
      assert best > out ==> Candidate(source, best);
      assert out > best ==> !Suits(source, kbps, budget, out);
    }
  }

  /** From 720 up the answer is the tallest candidate whose half-ladder bitrate fits, and 240 when none
      does: nothing taller fits, and what was chosen fits or is the last resort. */
  lemma TallestFits(source: int, budget: int, out: int)
    requires source >= 720
    ensures Answers(source, budget, out)
       <==> exists kbps :: Nearest(source, kbps) && Best(source, kbps, budget, out)
  {
    forall kbps
      ensures out == Tallest(source, kbps, budget) <==> Best(source, kbps, budget, out)
    {
      BestIsTallest(source, kbps, budget, out);
    }
  }

  /** Below 720, where the source is always kept, that is still the tallest candidate that fits, or the last
      resort, if and only if the source itself fits or no rung is below it. */
  lemma KeptIsBestIff(source: int, kbps: int, budget: int)
    requires source < 720
    ensures Tallest(source, kbps, budget) == source
    ensures Best(source, kbps, budget, source) <==> 2 * budget + 1 >= kbps || source <= 240
  {
    assert Candidate(source, source);
  }

  lemma Ordered(source: int, b: int, c: int, x: int, y: int)
    requires source !in {900, 1260, 1800} && b <= c && Answers(source, b, x) && Answers(source, c, y)
    ensures x <= y
  {
    if source >= 720 {
      var k :| Nearest(source, k) && x == Tallest(source, k, b);
      var l :| Nearest(source, l) && y == Tallest(source, l, c);
      NearestIs(source, k);
      NearestIs(source, l);
      assert k == l;
    }
  }

  /** A larger budget never gives a smaller picture, whatever the two map orders, exactly when the source
      does not lie midway between two rungs from 720 up. */
  lemma MonotoneIff(source: int)
    ensures (forall b, c, x, y :: b <= c && Answers(source, b, x) && Answers(source, c, y) ==> x <= y)
       <==> source !in {900, 1260, 1800}
  {
    if source in {900, 1260, 1800} {
      NearestRung(source);
      var low, high := OtherRate(source), Rate(source);
      var b := low / 2;
      assert Answers(source, b, Tallest(source, low, b));
      assert Answers(source, b, Tallest(source, high, b));
      assert Tallest(source, low, b) == source && Tallest(source, high, b) == 720;
    } else {
      forall b, c, x, y | b <= c && Answers(source, b, x) && Answers(source, c, y)
        ensures x <= y
      {
        Ordered(source, b, c, x, y);
      }
    }
  }

  // ---------------------------------------------------------------- the budget

  /** The bitrate at which 95% of the byte cap lasts for the duration. */
  function TotalKbps(maxBytes: nat, duration: real): (r: real)
    requires duration > 0.0
    ensures r * duration == maxBytes as real * 8.0 * 0.95 / 1000.0
  {
    maxBytes as real * 8.0 * 0.95 / 1000.0 / duration
  }

  /** The smallest budget that is encoded: 120 for the picture and, with sound, 64 for it. */
  predicate Budgeted(maxBytes: nat, duration: real, hasAudio: bool) {
    duration > 0.0 && TotalKbps(maxBytes, duration) >= (if hasAudio then 184.0 else 120.0)
  }

  datatype Plan = Plan(video: int, audio: int)

  /** The budget part of `CompressToFit`. */
  method PlanBudget(maxBytes: nat, duration: real, hasAudio: bool) returns (plan: Option<Plan>)
    ensures plan.Some? <==>
              duration > 0.0 && TotalKbps(maxBytes, duration) >= (if hasAudio then 184.0 else 120.0)
    ensures plan.Some? ==>
              var (v, a) := (plan.value.video, plan.value.audio);
              && v >= 120
              && a == (if !hasAudio then 0 else if TotalKbps(maxBytes, duration) >= 256.0 then 128 else 64)
              && (v + a) as real <= TotalKbps(maxBytes, duration) < (v + a + 1) as real
  {
    if duration <= 0.0 {
      return None;
    }
    var total := TotalKbps(maxBytes, duration);
    var audio := if !hasAudio then 0 else if total >= 256.0 then 128 else 64;
    var video := total.Floor - audio;
    if video < 120 {
      return None;
    }
    plan := Some(Plan(video, audio));
  }

  lemma Scale(a: real, b: real, d: real)
    requires a <= b && d > 0.0
    ensures a * d <= b * d
  {
  }

  /** Kilobits per second over the duration, in bytes: at most 95% of the cap. */
  lemma PlanFitsCap(maxBytes: nat, duration: real, kbps: int)
    requires duration > 0.0 && kbps as real <= TotalKbps(maxBytes, duration)
    ensures kbps as real * duration * 1000.0 / 8.0 <= maxBytes as real * 0.95
  {
    Scale(kbps as real, TotalKbps(maxBytes, duration), duration);
  }

  // ---------------------------------------------------------------- the upload limit

  const MIB := 1048576

  /** `maxFileMB`. */
  function EffectiveLimit(platform: int, upload: int): (limit: int)
    ensures limit <= platform && (upload > 0 ==> limit <= upload)
    ensures limit == platform || (limit == upload && upload > 0)
  {
    if upload > 0 && platform > upload then upload else platform
  }

  /** What the encoder and the file system answered: no measurement, no result, or a result of a size that
      replaced the source, left it, or (the source removed, the rename refused) lost it. */
  datatype Swap = Replaced | Kept | Lost
  datatype Encoder = Unmeasured | Failed | Made(size: nat, swap: Swap)

  function Cap(limit: nat): nat {
    limit * MIB * 98 / 100
  }

  /** `ensureFitsUpload` with the swap of `CompressToFit`: the size at the path it hands on, 0 for no file.
      While the limit stands, that is within it exactly when the file was small enough, or a budget could be
      made, the encoder met it, and its result took the source's place (or the source was lost). */
  method EnsureFits(size: nat, limit: int, duration: real, hasAudio: bool, answer: Encoder) returns (after: nat)
    ensures limit > 0 ==>
              var cap := limit * 1048576 * 98 / 100;
              (after <= limit * 1048576 <==>
                 || size <= limit * 1048576
                 || (Budgeted(cap, duration, hasAudio) && answer.Made? && answer.size <= cap && !answer.swap.Kept?))
    ensures after == size || (limit > 0 && size > limit * 1048576 && answer.Made? && !answer.swap.Kept?
                              && after == if answer.swap.Replaced? then answer.size else 0)
  {
    after := size;
    if limit <= 0 || size <= limit * MIB || answer.Unmeasured? {
      return;
    }
    var plan := PlanBudget(Cap(limit), duration, hasAudio);
    if plan.None? || !answer.Made? || answer.size > Cap(limit) {
      return;
    }
    match answer.swap
    case Replaced => after := answer.size;
    case Kept =>
    case Lost => after := 0;
  }
}
