/**
 * The worker record and its formulas (src/app/models/worker-auto-model.ts):
 * price curve, sticky visibility, affordability and per-second production.
 */
module WorkerModel {
  import opened Numbers

  /** A worker's persisted record. Levels start at 0 and grow by one per purchase. */
  datatype WorkerAutoData = WorkerAutoData(
    name: string,
    productivity: real,
    level: nat,
    basePrice: real,
    curvePrice: real,
    doesAppearInGame: bool,
    bought: bool)

  /** A worker as shown: its record (with the freshly computed visibility) plus price and affordability. */
  datatype WorkerAuto = WorkerAuto(data: WorkerAutoData, price: real, canBuyWorker: bool)

  function CreateWorker(name: string, productivity: real, basePrice: real, curvePrice: real): (w: WorkerAutoData)
    ensures w.name == name && w.productivity == productivity && w.curvePrice == curvePrice
    ensures w.level == 0 && !w.doesAppearInGame && !w.bought
    ensures IsInteger(w.basePrice) && w.basePrice <= basePrice < w.basePrice + 1.0
    ensures GetPrice(w) == w.basePrice
  {
    WorkerAutoData(name, productivity, 0, Floor(basePrice), curvePrice, false, false)
  }

  /** The unrounded price of the next level: the base price grown geometrically by level. */
  function RawPrice(w: WorkerAutoData): real
  {
    w.basePrice * Pow(w.curvePrice, w.level)
  }

  /** Price of the next level, rounded down to a whole number of clicks. */
  function GetPrice(w: WorkerAutoData): (p: real)
    ensures IsInteger(p)
    ensures p <= RawPrice(w) < p + 1.0
  {
    Floor(RawPrice(w))
  }

  lemma PriceAtLevelZero(w: WorkerAutoData)
    requires w.level == 0 && IsInteger(w.basePrice)
    ensures GetPrice(w) == w.basePrice
  {
    assert Pow(w.curvePrice, 0) == 1.0;
  }

  /** With a curve of at least 1, buying levels never makes a worker cheaper. */
  lemma PriceNonDecreasing(w: WorkerAutoData, higher: nat)
    requires w.curvePrice >= 1.0 && w.basePrice >= 0.0 && w.level <= higher
    ensures GetPrice(w) <= GetPrice(w.(level := higher))
  {
    var w' := w.(level := higher);
    PowMonotone(w.curvePrice, w.level, higher);
    MulLeftMonotone(w.basePrice, Pow(w.curvePrice, w.level), Pow(w'.curvePrice, w'.level));
    assert RawPrice(w) <= RawPrice(w');
    FloorMonotone(RawPrice(w), RawPrice(w'));
  }

  /** The price does not depend on the visibility flag. */
  lemma PriceIgnoresVisibility(w: WorkerAutoData, shown: bool)
    ensures GetPrice(w.(doesAppearInGame := shown)) == GetPrice(w)
  {
    assert RawPrice(w.(doesAppearInGame := shown)) == RawPrice(w);
  }

  /** A worker with base price 10 and curve 1.25 costs 10, then 12 after one purchase. */
  lemma PriceExample()
    ensures GetPrice(CreateWorker("Épée", 1.0, 10.0, 1.25)) == 10.0
    ensures GetPrice(CreateWorker("Épée", 1.0, 10.0, 1.25).(level := 1)) == 12.0
  {
    var w := CreateWorker("Épée", 1.0, 10.0, 1.25).(level := 1);
    assert Pow(1.25, 1) == 1.25 * Pow(1.25, 0);
    assert w.basePrice * Pow(w.curvePrice, w.level) == 12.5;
  }

  /**
   * Whether the worker shows in the game, with the record as left behind:
   * the flag is only ever set, and afterwards it equals the answer.
   */
  function GetDoesAppearInGame(w: WorkerAutoData, clicks: real): (r: (bool, WorkerAutoData))
    ensures r.0 <==> w.doesAppearInGame || w.bought || clicks >= Floor(w.basePrice / 2.0)
    ensures r.1 == w.(doesAppearInGame := r.0)
  {
    if w.doesAppearInGame then (true, w)
    else
      var should := w.bought || clicks >= Floor(w.basePrice / 2.0);
      (should, if should then w.(doesAppearInGame := true) else w)
  }

  /** Asking twice gives the same answer and leaves the record as the first call did. */
  lemma AppearanceIdempotent(w: WorkerAutoData, clicks: real, later: real)
    ensures var r := GetDoesAppearInGame(w, clicks);
            r.0 ==> GetDoesAppearInGame(r.1, later) == r
  {
  }

  /** More currency never hides a worker. */
  lemma AppearanceMonotoneInClicks(w: WorkerAutoData, c1: real, c2: real)
    requires c1 <= c2
    ensures GetDoesAppearInGame(w, c1).0 ==> GetDoesAppearInGame(w, c2).0
  {
  }

  function GetCanBuyWorker(w: WorkerAutoData, clicks: real): (r: bool)
    ensures r <==> clicks >= GetPrice(w)
  {
    clicks >= GetPrice(w)
  }

  /** A worker that can be bought at a higher level could be bought at any lower one. */
  lemma CanBuyAtLowerLevel(w: WorkerAutoData, clicks: real, higher: nat)
    requires w.curvePrice >= 1.0 && w.basePrice >= 0.0 && w.level <= higher
    ensures GetCanBuyWorker(w.(level := higher), clicks) ==> GetCanBuyWorker(w, clicks)
  {
    PriceNonDecreasing(w, higher);
  }

  /** Production before rounding: productivity × level × (1 + (level − 1) × 0.1). */
  function RawClicksPerSecond(w: WorkerAutoData): real
  {
    w.productivity * (w.level as real) * (1.0 + ((w.level as real) - 1.0) * 0.1)
  }

  /** Per-second production of one worker, rounded to cents. */
  function CalculateClicksPerSecondForWorker(w: WorkerAutoData): (r: real)
    ensures w.level == 0 ==> r == 0.0
    ensures w.productivity >= 0.0 ==> r >= 0.0
    ensures -0.005 <= r - RawClicksPerSecond(w) <= 0.005
  {
    var l := w.level as real;
    assert l * (1.0 + (l - 1.0) * 0.1) >= 0.0;
    assert w.productivity >= 0.0 ==> RawClicksPerSecond(w) >= 0.0 by {
      if w.productivity >= 0.0 {
        assert RawClicksPerSecond(w) == w.productivity * (l * (1.0 + (l - 1.0) * 0.1));
      }
    }
    Round2(RawClicksPerSecond(w))
  }

  /** With non-negative productivity, one more level never lowers production. */
  lemma ProductionNonDecreasing(w: WorkerAutoData)
    requires w.productivity >= 0.0
    ensures CalculateClicksPerSecondForWorker(w) <= CalculateClicksPerSecondForWorker(w.(level := w.level + 1))
  {
    var l := w.level as real;
    var a := l * (1.0 + (l - 1.0) * 0.1);
    var b := (l + 1.0) * (1.0 + l * 0.1);
    assert b - a == 1.0 + 0.2 * l;
    assert w.productivity * (b - a) >= 0.0;
    assert RawClicksPerSecond(w) == w.productivity * a;
    assert RawClicksPerSecond(w.(level := w.level + 1)) == w.productivity * b;
    Round2Monotone(RawClicksPerSecond(w), RawClicksPerSecond(w.(level := w.level + 1)));
  }

  /** The view of one worker; its record carries the visibility just computed. */
  function ViewOf(w: WorkerAutoData, clicks: real): (v: WorkerAuto)
    ensures v.data == GetDoesAppearInGame(w, clicks).1
    ensures v.data.doesAppearInGame == GetDoesAppearInGame(w, clicks).0
    ensures v.price == GetPrice(w) && v.canBuyWorker == GetCanBuyWorker(w, clicks)
  {
    WorkerAuto(GetDoesAppearInGame(w, clicks).1, GetPrice(w), GetCanBuyWorker(w, clicks))
  }

  /** Every record after the visibility pass of a whole roster. */
  function MarkAppearance(roster: seq<WorkerAutoData>, clicks: real): (r: seq<WorkerAutoData>)
    ensures |r| == |roster|
    ensures forall k :: 0 <= k < |roster| ==> r[k] == GetDoesAppearInGame(roster[k], clicks).1
  {
    seq(|roster|, k requires 0 <= k < |roster| => GetDoesAppearInGame(roster[k], clicks).1)
  }
}
