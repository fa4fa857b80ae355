/** JSON values as the server produces them and the browser reads them, and
    the `{label, confidence, percentage}` object of one ranked emotion. */
module Wire {
  import opened Wrappers
  import opened Ranking

  datatype Json =
    | JNull
    | JBool(b: bool)
    | JInt(i: int)
    | JNum(r: real)
    | JStr(s: string)
    | JArr(items: seq<Json>)
    | JObj(fields: map<string, Json>)

  /** The dictionary `predict` builds for one score. */
  function EmotionJson(e: Emotion): (j: Json)
    ensures j.JObj? && j.fields.Keys == {"label", "confidence", "percentage"}
  {
    JObj(map["label" := JStr(e.name), "confidence" := JNum(e.confidence), "percentage" := JStr(e.percentage)])
  }

  /** What the browser reads back from such an object: `emotion.label`,
      `emotion.confidence`, `emotion.percentage`. */
  function ReadEmotion(j: Json): Option<Emotion> {
    if j.JObj? && "label" in j.fields && "confidence" in j.fields && "percentage" in j.fields
       && j.fields["label"].JStr? && j.fields["confidence"].JNum? && j.fields["percentage"].JStr?
    then Some(Emotion(j.fields["label"].s, j.fields["confidence"].r, j.fields["percentage"].s))
    else None
  }

  /** The list of results as a JSON array, in order. */
  function EmotionsJson(es: seq<Emotion>): (j: Json)
    ensures j.JArr? && |j.items| == |es|
  {
    JArr(seq(|es|, i requires 0 <= i < |es| => EmotionJson(es[i])))
  }

  /** `data.results` read back as a list of emotions. */
  function ReadEmotions(j: Json): Option<seq<Emotion>> {
    if j.JArr? && forall i :: 0 <= i < |j.items| ==> ReadEmotion(j.items[i]).Some?
    then Some(seq(|j.items|, i requires 0 <= i < |j.items| && ReadEmotion(j.items[i]).Some? => ReadEmotion(j.items[i]).value))
    else None
  }

  /** The browser recovers exactly the records the server sent, in order. */
  lemma EmotionsRoundTrip(es: seq<Emotion>)
    ensures ReadEmotions(EmotionsJson(es)) == Some(es)
  {
    var j := EmotionsJson(es);
    forall i | 0 <= i < |es| ensures ReadEmotion(j.items[i]) == Some(es[i]) {
      assert j.items[i] == EmotionJson(es[i]);
    }
    var r := ReadEmotions(j);
    assert r.Some?;
    assert r.value == es;
  }
}
