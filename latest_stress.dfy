/** The `LatestStress` card: a placeholder until the reading is there, then
    the stress index coloured by `getStressColor`. */
module LatestStress {
  import opened JsValues

  datatype Colour = Green | Yellow | Red

  /** `getStressColor(index)` for a numeric index. */
  function ColourOf(index: int): (c: Colour)
    ensures c == Green <==> index <= 3
    ensures c == Yellow <==> 4 <= index <= 7
    ensures c == Red <==> index > 7
  {
    if index <= 3 then Green else if index <= 7 then Yellow else Red
  }

  /** How severe a colour reads. */
  function Severity(c: Colour): nat {
    match c
    case Green => 0
    case Yellow => 1
    case Red => 2
  }

  /** A higher index never gets a milder colour. */
  lemma ColourMonotone(i: int, j: int)
    requires i <= j
    ensures Severity(ColourOf(i)) <= Severity(ColourOf(j))
  {
    if ColourOf(j) == Green {
      assert j <= 3;
    } else if ColourOf(j) == Yellow {
      assert j <= 7;
    }
  }

  /** The class the colour is rendered with. */
  function ClassOf(c: Colour): string {
    match c
    case Green => "text-green-500"
    case Yellow => "text-yellow-500"
    case Red => "text-red-500"
  }

  /** `getStressColor` for whatever `stressIndex` was: a missing
      (`undefined`) value compares as `NaN`, so both comparisons fail and it
      is red. */
  function ColourOfValue(stressIndex: Option<Json>): (c: Colour)
    ensures (stressIndex.Some? && stressIndex.value.Num?) ==> c == ColourOf(stressIndex.value.n)
    ensures stressIndex.None? ==> c == Red
  {
    match stressIndex
    case Some(Num(n)) => ColourOf(n)
    case None => Red
    case Some(Bool(b)) => ColourOf(if b then 1 else 0)
    case Some(_) => Red
  }

  datatype Card = Placeholder | Reading(stressIndex: Option<Json>, colour: Colour, mood: Option<Json>)

  /** What the card shows for the `latestStress` prop. */
  function View(latestStress: Option<Json>): (card: Card)
    ensures card == Placeholder <==> !Truthy(latestStress)
    ensures card.Reading? ==>
      card.stressIndex == Field(latestStress, "stressIndex")
      && card.colour == ColourOfValue(Field(latestStress, "stressIndex"))
      && card.mood == Field(latestStress, "mood")
  {
    if !Truthy(latestStress) then Placeholder
    else
      var index := Field(latestStress, "stressIndex");
      Reading(index, ColourOfValue(index), Field(latestStress, "mood"))
  }
}
