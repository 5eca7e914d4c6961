/**
 * The `Rate` component: a row of five stars, the first `currentRate` of them filled, each
 * reporting its own 1-based value when clicked if an `onRate` callback was given.
 * Callers pass whole numbers (a review's rating, or a rounded average).
 */
module Rate {
  import opened Wrappers

  const StarCount: nat := 5

  /** One star: its React key, whether it is drawn gold, and the value a click reports. */
  datatype Star = Star(key: nat, filled: bool, onClick: Option<int>)

  /** Star `i` (0-based) of the row. */
  function StarAt(currentRate: Option<int>, interactive: bool, i: nat): Star
  {
    var ratingValue := i + 1;
    Star(i, currentRate.Some? && ratingValue <= currentRate.value,
      if interactive then Some(ratingValue) else None)
  }

  /** The row the loop builds. */
  function Row(currentRate: Option<int>, interactive: bool): seq<Star>
  {
    seq(StarCount, i requires 0 <= i < StarCount => StarAt(currentRate, interactive, i))
  }

  /** The rendering loop: `arrOfStar.push(...)` for `i` from 0 to 4. */
  method Stars(currentRate: Option<int>, interactive: bool) returns (arrOfStar: seq<Star>)
    ensures arrOfStar == Row(currentRate, interactive)
    ensures |arrOfStar| == StarCount
    ensures forall i :: 0 <= i < StarCount ==>
      arrOfStar[i].key == i
      && (arrOfStar[i].filled <==> currentRate.Some? && i + 1 <= currentRate.value)
      && (interactive ==> arrOfStar[i].onClick == Some(i + 1))
      && (!interactive ==> arrOfStar[i].onClick.None?)
  {
    arrOfStar := [];
    for i := 0 to StarCount
      invariant |arrOfStar| == i
      invariant forall k :: 0 <= k < i ==> arrOfStar[k] == StarAt(currentRate, interactive, k)
    {
      var ratingValue := i + 1;
      var isFilled := currentRate.Some? && ratingValue <= currentRate.value;
      var click := if interactive then Some(ratingValue) else None;
      arrOfStar := arrOfStar + [Star(i, isFilled, click)];
    }
  }

  /** How many stars a rate fills: none when undefined, otherwise the rate clamped to 0..5. */
  function FilledCount(currentRate: Option<int>): nat
  {
    if currentRate.None? || currentRate.value <= 0 then 0
    else if currentRate.value >= StarCount then StarCount
    else currentRate.value
  }

  /**
   * The filled stars are exactly the first `FilledCount` ones, so they form a prefix of the
   * row, and an undefined rate fills none.
   */
  lemma FilledStarsFormPrefix(currentRate: Option<int>, interactive: bool)
    ensures var row := Row(currentRate, interactive);
      (forall i :: 0 <= i < StarCount ==> (row[i].filled <==> i < FilledCount(currentRate)))
      && (forall i, j :: 0 <= i < j < StarCount && row[j].filled ==> row[i].filled)
      && (currentRate.None? ==> forall i :: 0 <= i < StarCount ==> !row[i].filled)
  {
  }
}
