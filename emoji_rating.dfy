/**
 * The emotion table of src/components/EmojiRating.tsx and its two lookups,
 * which fall back to the neutral face and label for a missing, empty or
 * unknown emotion. A meal's stored emotion is any text, so the lookups take
 * `Option<string>` rather than the five-name union.
 */
module EmojiRating {
  import opened Wrappers

  /** One row of the table; `caption` is the row's `label`. */
  datatype Emotion = Emotion(value: string, emoji: string, caption: string)

  /** `emotionData`, in display order. */
  const EmotionData: seq<Emotion> := [
    Emotion("very_bad", "\U{1F620}", "Очень плохо"),
    Emotion("bad", "\U{1F61E}", "Плохо"),
    Emotion("neutral", "\U{1F610}", "Нейтрально"),
    Emotion("good", "\U{1F60A}", "Хорошо"),
    Emotion("very_good", "\U{1F604}", "Очень хорошо")
  ]

  const DefaultEmoji: string := "\U{1F610}"
  const DefaultLabel: string := "Нейтрально"

  /** `emotionData.find(item => item.value === emotion)`: the first entry with that value. */
  function Find(table: seq<Emotion>, v: string): (r: Option<Emotion>)
    ensures r.None? <==> forall i :: 0 <= i < |table| ==> table[i].value != v
    ensures r.Some? ==> exists i :: 0 <= i < |table| && table[i] == r.value && r.value.value == v
                          && forall j :: 0 <= j < i ==> table[j].value != v
  {
    if table == [] then None
    else if table[0].value == v then Some(table[0])
    else
      var r := Find(table[1..], v);
      assert forall i :: 0 <= i < |table[1..]| ==> table[1..][i] == table[i + 1];
      r
  }

  /** `getEmotionEmoji`: the default for a falsy emotion, else the table's emoji, else the default. */
  function GetEmotionEmoji(emotion: Option<string>): string {
    if emotion.None? || emotion.value == "" then DefaultEmoji
    else
      var found := Find(EmotionData, emotion.value);
      if found.Some? && found.value.emoji != "" then found.value.emoji else DefaultEmoji
  }

  /** `getEmotionLabel`: the same, for the label. */
  function GetEmotionLabel(emotion: Option<string>): string {
    if emotion.None? || emotion.value == "" then DefaultLabel
    else
      var found := Find(EmotionData, emotion.value);
      if found.Some? && found.value.caption != "" then found.value.caption else DefaultLabel
  }

  /** The table lists the five emotions from worst to best, each once. */
  lemma TableOrder()
    ensures |EmotionData| == 5
    ensures EmotionData[0].value == "very_bad" && EmotionData[1].value == "bad" && EmotionData[2].value == "neutral"
    ensures EmotionData[3].value == "good" && EmotionData[4].value == "very_good"
    ensures forall i, j :: 0 <= i < j < |EmotionData| ==> EmotionData[i].value != EmotionData[j].value
  {
  }

  /** The defaults are the neutral entry's emoji and label. */
  lemma DefaultsAreNeutral()
    ensures EmotionData[2] == Emotion("neutral", DefaultEmoji, DefaultLabel)
    ensures GetEmotionEmoji(None) == DefaultEmoji && GetEmotionLabel(None) == DefaultLabel
    ensures GetEmotionEmoji(Some("neutral")) == DefaultEmoji && GetEmotionLabel(Some("neutral")) == DefaultLabel
  {
  }

  /** A known emotion shows its own entry's emoji and label. */
  lemma KnownEmotion(i: int)
    requires 0 <= i < |EmotionData|
    ensures GetEmotionEmoji(Some(EmotionData[i].value)) == EmotionData[i].emoji
    ensures GetEmotionLabel(Some(EmotionData[i].value)) == EmotionData[i].caption
  {
    TableOrder();
  }

  /** Any other text, like a missing or empty emotion, shows the neutral face and label. */
  lemma UnknownEmotion(v: string)
    requires forall i :: 0 <= i < |EmotionData| ==> EmotionData[i].value != v
    ensures GetEmotionEmoji(Some(v)) == DefaultEmoji && GetEmotionLabel(Some(v)) == DefaultLabel
  {
  }

  /** Emoji and label always come from the same entry: the emoji is the default exactly when the label is. */
  lemma EmojiAndLabelAgree(emotion: Option<string>)
    ensures GetEmotionEmoji(emotion) == DefaultEmoji <==> GetEmotionLabel(emotion) == DefaultLabel
  {
    if emotion.Some? && emotion.value != "" {
      var found := Find(EmotionData, emotion.value);
      if found.Some? {
        var i :| 0 <= i < |EmotionData| && EmotionData[i] == found.value;
        assert EmotionData[i].emoji == DefaultEmoji <==> i == 2;
      }
    }
  }
}
