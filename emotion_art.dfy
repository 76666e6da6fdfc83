/** The `/analyze_text` route after the token gate: the empty-text guard, the
    classifier's label lower-cased, and the label-to-picture table. */
module EmotionArt {
  import opened Http

  /** Lower-cases one character (ASCII letters only). */
  function LowerChar(c: char): (d: char)
    ensures 'A' <= c <= 'Z' ==> 'a' <= d <= 'z' && d as int - c as int == 'a' as int - 'A' as int
    ensures !('A' <= c <= 'Z') ==> d == c
  {
    if 'A' <= c <= 'Z' then (c as int - 'A' as int + 'a' as int) as char else c
  }

  predicate IsLower(s: string)
  {
    forall i :: 0 <= i < |s| ==> !('A' <= s[i] <= 'Z')
  }

  /** `str.lower()` on the label: same length, every upper-case letter replaced
      by its lower-case partner, every other character kept. */
  function Lower(s: string): (r: string)
    ensures |r| == |s|
    ensures IsLower(r)
    ensures forall i :: 0 <= i < |s| ==> r[i] == LowerChar(s[i])
  {
    if s == [] then [] else [LowerChar(s[0])] + Lower(s[1..])
  }

  /** Lower-casing twice is lower-casing once. */
  lemma LowerIdempotent(s: string)
    ensures Lower(Lower(s)) == Lower(s)
  {
  }

  /** A label already in lower case is reported unchanged. */
  lemma LowerFixesLower(s: string)
    requires IsLower(s)
    ensures Lower(s) == s
  {
  }

  /** The picture for each emotion label. */
  const Pictures: map<string, string> := map[
    "happy" := "happy.jpg",
    "sadness" := "sad.jpg",
    "anger" := "angry.jpg",
    "fear" := "fear.jpg",
    "love" := "love.jpg",
    "surprise" := "surprise.jpg",
    "disgust" := "disgust.jpg",
    "neutral" := "calm.jpg"
  ]

  const DefaultPicture: string := "calm.jpg"

  /** The file names the table can yield. */
  const PictureFiles: set<string> :=
    {"happy.jpg", "sad.jpg", "angry.jpg", "fear.jpg", "love.jpg", "surprise.jpg", "disgust.jpg", "calm.jpg"}

  const ArtDirectory: string := "/static/art/"

  /** `emotion_art.get(emotion, "calm.jpg")` */
  function PictureFor(emotion: string): (file: string)
    ensures file in PictureFiles
  {
    if emotion in Pictures then
      assert emotion in {"happy", "sadness", "anger", "fear", "love", "surprise", "disgust", "neutral"};
      Pictures[emotion]
    else DefaultPicture
  }

  /** The lookup gives the table's picture for each of the eight labels and the
      calm picture for every other label. */
  lemma PictureTable(emotion: string)
    ensures emotion == "happy" ==> PictureFor(emotion) == "happy.jpg"
    ensures emotion == "sadness" ==> PictureFor(emotion) == "sad.jpg"
    ensures emotion == "anger" ==> PictureFor(emotion) == "angry.jpg"
    ensures emotion == "fear" ==> PictureFor(emotion) == "fear.jpg"
    ensures emotion == "love" ==> PictureFor(emotion) == "love.jpg"
    ensures emotion == "surprise" ==> PictureFor(emotion) == "surprise.jpg"
    ensures emotion == "disgust" ==> PictureFor(emotion) == "disgust.jpg"
    ensures emotion == "neutral" ==> PictureFor(emotion) == "calm.jpg"
    ensures (emotion !in {"happy", "sadness", "anger", "fear", "love", "surprise", "disgust", "neutral"}) ==>
              PictureFor(emotion) == "calm.jpg"
  {
  }

  /** The calm picture is shown exactly for the neutral label and for labels
      outside the table; every other label has a picture of its own. */
  lemma CalmExactly(emotion: string, other: string)
    ensures PictureFor(emotion) == DefaultPicture <==> emotion == "neutral" || emotion !in Pictures
    ensures PictureFor(emotion) == PictureFor(other) && PictureFor(emotion) != DefaultPicture ==> emotion == other
  {
  }

  /** `f"/static/art/{art_file}"`: the file name follows the directory prefix,
      so the name can be read back from the URL. */
  function ArtUrl(file: string): (url: string)
    ensures |url| == |ArtDirectory| + |file|
    ensures url[..|ArtDirectory|] == ArtDirectory && url[|ArtDirectory|..] == file
  {
    ArtDirectory + file
  }

  /** POST /analyze_text once the gate admitted the request. `classify` stands
      for the text-classification model and gives the raw label for a text. A
      missing or empty text is refused with 400 whatever the classifier would
      say; otherwise the reported emotion is the label lower-cased and the URL
      points at that emotion's picture. */
  function AnalyzeText(text: Option<string>, classify: string -> string): (r: Response)
    ensures !Present(text) ==> r == Response(BadRequest, Error("No text provided"))
    ensures Present(text) ==>
              && r.status == Ok && r.body.Analysis?
              && r.body.emotion == Lower(classify(text.value))
              && r.body.artUrl == ArtUrl(PictureFor(r.body.emotion))
  {
    if !Present(text) then Response(BadRequest, Error("No text provided"))
    else
      var emotion := Lower(classify(text.value));
      Response(Ok, Analysis(emotion, ArtUrl(PictureFor(emotion))))
  }

  /** Every picture URL the route reports is one of the table's pictures under
      the art directory, and the reply depends on the label only up to letter
      case: a classifier whose labels are lower-cased first gives the same reply. */
  lemma AnalyzeReplies(text: string, classify: string -> string)
    requires text != ""
    ensures var url := AnalyzeText(Some(text), classify).body.artUrl;
              |url| > |ArtDirectory| && url[..|ArtDirectory|] == ArtDirectory && url[|ArtDirectory|..] in PictureFiles
    ensures AnalyzeText(Some(text), classify) == AnalyzeText(Some(text), (t: string) => Lower(classify(t)))
  {
    LowerIdempotent(classify(text));
  }
}
