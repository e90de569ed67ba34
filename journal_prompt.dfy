/** The `JournalPrompt` card: one of a fixed list of prompts, chosen by the
    day of the year. */
module JournalPrompt {

  const Prompts: seq<string> := [
    "What is one thing that brought you joy today?",
    "Describe a challenge you faced recently and how you handled it.",
    "What are you grateful for right now?",
    "Write about a goal you have for this week.",
    "What is something you're looking forward to?",
    "How are you feeling, really?",
    "What is one thing you can do to take care of yourself today?"
  ]

  /** `prompts[dayOfYear % prompts.length]`: always an entry of the list. */
  function PromptFor(dayOfYear: nat): (p: string)
    ensures p in Prompts
    ensures p == Prompts[dayOfYear % 7]
  {
    Prompts[dayOfYear % |Prompts|]
  }

  /** No prompt appears twice in the list. */
  lemma PromptsDistinct()
    ensures |Prompts| == 7
    ensures forall i, j :: 0 <= i < j < |Prompts| ==> Prompts[i] != Prompts[j]
  {
  }

  /** `dayOfYear` as the card computes it: 1 on 1 January, the length of the
      year (365 or 366) on 31 December. */
  predicate IsDayOfYear(dayOfYear: nat, yearLength: nat) {
    (yearLength == 365 || yearLength == 366) && 1 <= dayOfYear <= yearLength
  }

  /** The day of the year `k` days after `dayOfYear`, for up to a week: past
      31 December the count starts again from 1. */
  function DaysLater(dayOfYear: nat, k: nat, yearLength: nat): nat
    requires IsDayOfYear(dayOfYear, yearLength) && k <= 7
  {
    if dayOfYear + k <= yearLength then dayOfYear + k else dayOfYear + k - yearLength
  }

  /** Two days show the same prompt exactly when their numbers agree
      modulo the length of the list. */
  lemma SamePromptIff(a: nat, b: nat)
    ensures PromptFor(a) == PromptFor(b) <==> a % 7 == b % 7
  {
    PromptsDistinct();
    var i, j := a % 7, b % 7;
    if i < j {
      assert Prompts[i] != Prompts[j];
    } else if j < i {
      assert Prompts[j] != Prompts[i];
    }
  }

  /** The prompt changes from each day to the next, except from 31 December
      to 1 January after a 365-day year, when it repeats. */
  lemma ConsecutiveDaysDiffer(dayOfYear: nat, yearLength: nat)
    requires IsDayOfYear(dayOfYear, yearLength)
    ensures PromptFor(DaysLater(dayOfYear, 1, yearLength)) != PromptFor(dayOfYear) <==>
      !(yearLength == 365 && dayOfYear == 365)
  {
    SamePromptIff(DaysLater(dayOfYear, 1, yearLength), dayOfYear);
  }

  /** The same prompt comes back seven days later exactly when both days are
      in the same year: the cycle shifts at every new year. */
  lemma RecursWeekly(dayOfYear: nat, yearLength: nat)
    requires IsDayOfYear(dayOfYear, yearLength)
    ensures PromptFor(DaysLater(dayOfYear, 7, yearLength)) == PromptFor(dayOfYear) <==>
      dayOfYear + 7 <= yearLength
  {
    SamePromptIff(DaysLater(dayOfYear, 7, yearLength), dayOfYear);
  }

  /** 31 December of a 365-day year and the 1 January after it show the
      same prompt. */
  lemma NewYearRepeats()
    ensures IsDayOfYear(365, 365) && DaysLater(365, 1, 365) == 1
    ensures PromptFor(365) == PromptFor(1) == Prompts[1]
  {
  }
}
