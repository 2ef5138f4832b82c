/** The plain logic of the vision wrapper of `server/`: the media type of the
    image (the same table as the `backend/` wrapper), the choice of the text
    to parse from the model's reply (the body of the first fenced JSON
    block, or the whole reply), and the success or failure result.
    The reply text and `JSON.parse` are parameters. */
module FoodAnalyzer {
  import opened Common
  import opened AiService

  /** `mediaTypeMap[ext] || 'image/jpeg'`, read at the table's own keys: it
      agrees with the `backend/` wrapper on every path. */
  function MediaType(path: string): (r: string)
    ensures r == GetMimeType(path)
    ensures IsImageType(r)
  {
    OrStr(MimeTypes(ToLower(Extension(path))), "image/jpeg")
  }

  /** The media type as the code evaluates it, inherited keys included: the
      same value as the `backend/` wrapper's as-written lookup. */
  function MediaTypeAsWritten(path: string): (r: JsLookup)
    ensures r == GetMimeTypeAsWritten(path)
    ensures r.Inherited? <==> ToLower(Extension(path)) in InheritedKeys
  {
    var ext := ToLower(Extension(path));
    if MimeTypes(ext).Some? then Own(MimeTypes(ext).value)
    else if ext in InheritedKeys then Inherited(ext)
    else Own("image/jpeg")
  }

  /** An image named `meal.__proto__` is sent with `Object.prototype` as its media type. */
  lemma MediaTypeAsWrittenNotAString(name: string)
    ensures MediaTypeAsWritten(name + "." + "__proto__") == Inherited("__proto__")
  {
    ExtensionOf(name, "__proto__");
    LowerIdentity("__proto__");
  }

  // ----------------------------------------------------------- jsonText

  const Opener: string := "```json\n"
  const Closer: string := "\n```"

  /** Where `/```json\n([\s\S]*?)\n```/` matches: the first opener, and the
      nearest closer after it (the group is lazy). The pair is `(i, k)`: the
      opener starts at `i`, the closer at `k`. */
  function Fence(text: string): (r: Option<(nat, nat)>)
    ensures r.Some? ==> OccursAt(text, Opener, r.value.0) && r.value.0 + |Opener| <= r.value.1
                        && OccursAt(text, Closer, r.value.1)
    ensures r.Some? ==> forall j :: 0 <= j < r.value.0 ==> !OccursAt(text, Opener, j)
    ensures r.Some? ==> forall j :: r.value.0 + |Opener| <= j < r.value.1 ==> !OccursAt(text, Closer, j)
    ensures r.None? <==> forall i, k :: 0 <= i && i + |Opener| <= k && OccursAt(text, Opener, i) ==> !OccursAt(text, Closer, k)
  {
    match FindFrom(text, Opener, 0)
      case None => None
      case Some(i) =>
        match FindFrom(text, Closer, i + |Opener|)
          case None => None
          case Some(k) => Some((i, k))
  }

  /** `jsonText`: the fenced block's body when there is one, otherwise the
      reply unchanged. */
  function ExtractJsonText(text: string): (r: string)
    ensures Fence(text).None? ==> r == text
    ensures Fence(text).Some? ==> r == text[Fence(text).value.0 + |Opener|..Fence(text).value.1]
  {
    match Fence(text)
      case None => text
      case Some((i, k)) => text[i + |Opener|..k]
  }

  /** A pattern occurs at `j` in a slice exactly when it occurs at the same
      place of the whole text. */
  lemma OccursInSlice(t: string, off: nat, q: string, pat: string, j: nat)
    requires off + |q| <= |t| && t[off..off + |q|] == q && j + |pat| <= |q|
    ensures OccursAt(t, pat, off + j) <==> OccursAt(q, pat, j)
  {
    var a := t[off + j..off + j + |pat|];
    var b := q[j..j + |pat|];
    forall m | 0 <= m < |pat|
      ensures a[m] == b[m]
    {
      assert b[m] == q[j + m] == t[off..off + |q|][j + m];
    }
    assert a == b;
  }

  /** The opener that follows `before` is the first one of the reply. */
  lemma OpenerAfter(t: string, before: string, rest: string)
    requires t == before + Opener + rest
    requires forall j :: 0 <= j < |before| ==> !OccursAt(before + Opener, Opener, j)
    ensures OccursAt(t, Opener, |before|)
    ensures forall j :: 0 <= j < |before| ==> !OccursAt(t, Opener, j)
  {
    var head := before + Opener;
    assert t[0..|head|] == head;
    OccursInSlice(t, 0, head, Opener, |before|);
    assert head[|before|..|before| + |Opener|] == Opener;
    forall j | 0 <= j < |before|
      ensures !OccursAt(t, Opener, j)
    {
      OccursInSlice(t, 0, head, Opener, j);
    }
  }

  /** The closer that follows `body` is the first one after `body` starts. */
  lemma CloserAfter(t: string, head: string, body: string, after: string)
    requires t == head + body + Closer + after
    requires forall j :: 0 <= j < |body| ==> !OccursAt(body + Closer, Closer, j)
    ensures OccursAt(t, Closer, |head| + |body|)
    ensures forall j :: |head| <= j < |head| + |body| ==> !OccursAt(t, Closer, j)
  {
    var tail := body + Closer;
    assert t[|head|..|head| + |tail|] == tail;
    OccursInSlice(t, |head|, tail, Closer, |body|);
    assert tail[|body|..|body| + |Closer|] == Closer;
    forall j | |head| <= j < |head| + |body|
      ensures !OccursAt(t, Closer, j)
    {
      OccursInSlice(t, |head|, tail, Closer, j - |head|);
    }
  }

  /** A reply that fences `body` after text with no earlier opener, where
      `body` holds no closer, gives back exactly `body`. */
  lemma FencedBodyExtracted(before: string, body: string, after: string)
    requires forall j :: 0 <= j < |before| ==> !OccursAt(before + Opener, Opener, j)
    requires forall j :: 0 <= j < |body| ==> !OccursAt(body + Closer, Closer, j)
    ensures ExtractJsonText(before + Opener + body + Closer + after) == body
  {
    var t := before + Opener + body + Closer + after;
    var head := before + Opener;
    OpenerAfter(t, before, body + Closer + after);
    CloserAfter(t, head, body, after);
    var k := |head| + |body|;
    var f := Fence(t);
    assert f.Some?;
    assert f.value.0 == |before|;
    assert f.value.1 == k;
    assert t[|head|..k] == body;
  }

  // -------------------------------------------------------------- result

  datatype MealAnalysis = MealAnalysis(
    foodItems: seq<string>, mealName: string, estimatedCalories: int,
    protein: int, carbs: int, fats: int, servingSize: string, confidence: string, notes: string)

  /** `{ success, error, data }`. */
  datatype Outcome = Outcome(success: bool, error: Option<string>, data: MealAnalysis)

  /** The data of the `catch` branch. */
  function FailureData(): MealAnalysis
  {
    MealAnalysis(["Unknown food"], "Unknown meal", 0, 0, 0, 0, "Unknown", "low", "Could not analyze image")
  }

  /** `analyzeFoodImage`: `reply` is the reply text, or the message of the
      error that reading the image or calling the model raised; `parse` is
      `JSON.parse`, failing with its message. */
  function Analyze(reply: Result<string>, parse: string -> Result<MealAnalysis>): (o: Outcome)
    ensures o.success <==> reply.Ok? && parse(ExtractJsonText(reply.value)).Ok?
    ensures o.success ==> o.error.None? && o.data == parse(ExtractJsonText(reply.value)).value
    ensures !o.success ==> o.data == FailureData() && o.error.Some?
    ensures reply.Err? ==> o.error == Some(reply.message)
    ensures reply.Ok? && parse(ExtractJsonText(reply.value)).Err? ==>
      o.error == Some(parse(ExtractJsonText(reply.value)).message)
  {
    match reply
      case Err(message) => Outcome(false, Some(message), FailureData())
      case Ok(text) =>
        match parse(ExtractJsonText(text))
          case Err(message) => Outcome(false, Some(message), FailureData())
          case Ok(data) => Outcome(true, None, data)
  }

  /** A fenced reply succeeds exactly when its body parses, and then carries
      the parsed body; a failure reports no calories or macros. */
  lemma FencedReplyAnalyzed(before: string, body: string, after: string, parse: string -> Result<MealAnalysis>)
    requires forall j :: 0 <= j < |before| ==> !OccursAt(before + Opener, Opener, j)
    requires forall j :: 0 <= j < |body| ==> !OccursAt(body + Closer, Closer, j)
    ensures var o := Analyze(Ok(before + Opener + body + Closer + after), parse);
      && (o.success <==> parse(body).Ok?)
      && (o.success ==> o.data == parse(body).value)
      && (!o.success ==> o.data.estimatedCalories == 0 && o.data.protein == 0
                         && o.data.carbs == 0 && o.data.fats == 0 && o.data.confidence == "low")
  {
    FencedBodyExtracted(before, body, after);
  }
}
