/** The 1..5 mood scale and the emoji that stands for each value. */
module Moods {
  import opened Wrappers

  /** A mood as the mood buttons record it: 1 (worst) to 5 (best). */
  type Mood = m: int | 1 <= m <= 5 witness 3

  /** The neutral face, shown for a missing or unknown mood value. */
  const Neutral: string := "😐"

  /** The lookup table of `getMoodEmoji`. */
  const EmojiTable: map<int, string> :=
    map[1 := "😢", 2 := "😞", 3 := "😐", 4 := "😊", 5 := "😄"]

  /** `getMoodEmoji`: the table entry for a known value, the neutral face for
      anything else (no value, or an integer outside 1..5). */
  function MoodEmoji(value: Option<int>): (r: string)
    ensures r in EmojiTable.Values
    ensures r == Neutral <==> value !in {Some(1), Some(2), Some(4), Some(5)}
  {
    if value.Some? && value.value in EmojiTable then EmojiTable[value.value]
    else assert EmojiTable[3] == Neutral; Neutral
  }

  /** Distinct moods are drawn with distinct faces, so the face tells the mood. */
  lemma MoodEmojiInjective(a: Mood, b: Mood)
    requires MoodEmoji(Some(a)) == MoodEmoji(Some(b))
    ensures a == b
  {
  }
}
