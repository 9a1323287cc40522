/**
 * `IdeaGeneratorService`: asks a hosted text-generation model for upcycling
 * ideas, pulls a JSON array out of the generated text, and falls back to a
 * fixed table of three ideas whenever anything goes wrong.
 */
module IdeaGeneratorService {
  import opened Wrappers
  import opened Json
  import opened BracketMatch
  import opened IdeaModel

  // ---------------------------------------------------------------------
  // The outside world and the ways a call can fail
  // ---------------------------------------------------------------------

  /** What the configuration read and the HTTP request produced. */
  datatype ApiOutcome =
    | NoToken                               // HUGGING_FACE_TOKEN is not configured
    | TransportError                        // the POST failed or exceeded its 30-second timeout
    | Response(status: int, body: string)   // the server answered

  /**
   * Why a response body could not be turned into ideas. NoGeneratedText and
   * NoBracketedArray are the silent fall-through to the fallback at the end of
   * the try block, which prints nothing; the other kinds are exceptions that
   * the catch block prints before returning the fallback.
   */
  datatype ParseError =
    | BodyUndecodable      // json.decode(responseBody) throws
    | BadResponseShape     // data[0]['generated_text'] as String? throws
    | NoGeneratedText      // generated_text is absent or null
    | NoBracketedArray     // the pattern \[.*\] does not occur in the text
    | ArrayUndecodable     // json.decode on the matched text throws
    | NotAList             // the matched text decodes, but `as List` fails
    | BadIdea(index: nat)  // building the idea from this element throws

  /** Why generateIdeas took its fallback path; each is caught and none reaches the caller. */
  datatype Failure =
    | TokenMissing
    | TransportFailed
    | HttpStatus(code: int)

  // ---------------------------------------------------------------------
  // Defaults and the fallback table
  // ---------------------------------------------------------------------

  const DefaultTitle: string := "Creative Upcycling Idea"
  const DefaultMaterials: seq<string> := ["Basic crafting supplies"]
  const DefaultSteps: seq<string> := ["Clean the item", "Apply your design", "Let it dry"]

  function DefaultDescription(objectName: string): string {
    "Transform your " + objectName + " into something new and useful."
  }

  /** `_getFallbackIdeas`: three canned ideas, each built around the object's name. */
  function FallbackIdeas(objectName: string): (r: seq<Idea>)
    ensures |r| == 3
    ensures r[0].title == "Eco-Friendly Planter"
    ensures r[1].title == "Creative Storage Solution"
    ensures r[2].title == "Artistic Display Piece"
    ensures forall k :: 0 <= k < 3 ==> |r[k].materials| == 4 && r[k].materials[0] == objectName
    ensures forall k :: 0 <= k < 3 ==> |r[k].steps| == 4
  {
    [ Idea("Eco-Friendly Planter",
           "Transform your " + objectName + " into a beautiful planter for herbs or small plants.",
           [objectName, "Potting soil", "Small plants", "Drill (if needed for drainage)"],
           [ "Clean and prepare the " + objectName,
             "Add drainage holes if necessary",
             "Fill with potting soil and plants",
             "Water and display in your space" ]),
      Idea("Creative Storage Solution",
           "Repurpose the " + objectName + " into unique storage for your home.",
           [objectName, "Paint or stain", "Brushes", "Decorative elements"],
           [ "Clean and sand the " + objectName,
             "Apply your chosen finish",
             "Add any decorative elements",
             "Use for storing items creatively" ]),
      Idea("Artistic Display Piece",
           "Turn the " + objectName + " into a conversation-starting art piece.",
           [objectName, "Acrylic paints", "Brushes", "Clear sealant"],
           [ "Clean and prime the surface",
             "Paint your design or pattern",
             "Allow to dry completely",
             "Apply protective sealant" ]) ]
  }

  /** part occurs in s starting at position k. */
  predicate MentionsAt(s: string, part: string, k: int) {
    0 <= k && k + |part| <= |s| && s[k..k + |part|] == part
  }

  /** part occurs somewhere in s. */
  ghost predicate Mentions(s: string, part: string) {
    exists k :: MentionsAt(s, part, k)
  }

  // ---------------------------------------------------------------------
  // What a well-formed idea element is, and the idea it stands for
  // ---------------------------------------------------------------------

  /** The field may be absent or null, or else must be a string. */
  predicate OptText(m: map<string, Json>, key: string) {
    key in m ==> m[key].JNull? || m[key].JStr?
  }

  /** The field may be absent or null, or else must be an array of strings. */
  predicate OptTexts(m: map<string, Json>, key: string) {
    key in m ==> m[key].JNull? || (m[key].JArr? && forall x :: x in m[key].items ==> x.JStr?)
  }

  /** An element the mapping accepts: an object whose four fields have the types IdeaModel needs. */
  predicate WellFormedIdea(j: Json) {
    && j.JObj?
    && OptText(j.fields, "title")
    && OptText(j.fields, "description")
    && OptTexts(j.fields, "materials")
    && OptTexts(j.fields, "steps")
  }

  /** A present string passes through; otherwise the default applies. */
  ghost function TextOr(m: map<string, Json>, key: string, default: string): string {
    if key in m && m[key].JStr? then m[key].s else default
  }

  /** xs is the present array of strings, element by element; otherwise it is the default. */
  ghost predicate TextsOr(xs: seq<string>, m: map<string, Json>, key: string, default: seq<string>) {
    if key in m && m[key].JArr? then
      |xs| == |m[key].items| && forall k :: 0 <= k < |xs| ==> m[key].items[k] == JStr(xs[k])
    else
      xs == default
  }

  /** idea is the record the element j stands for, with the defaults for objectName. */
  ghost predicate Describes(idea: Idea, j: Json, objectName: string) {
    && j.JObj?
    && idea.title == TextOr(j.fields, "title", DefaultTitle)
    && idea.description == TextOr(j.fields, "description", DefaultDescription(objectName))
    && TextsOr(idea.materials, j.fields, "materials", DefaultMaterials)
    && TextsOr(idea.steps, j.fields, "steps", DefaultSteps)
  }

  // ---------------------------------------------------------------------
  // _parseResponse
  // ---------------------------------------------------------------------

  /** `List<String>.from(xs)`: copies the elements in order, and throws on the first that is not a string. */
  function StringsOf(xs: seq<Json>): (r: Option<seq<string>>)
    ensures r.Some? <==> forall k :: 0 <= k < |xs| ==> xs[k].JStr?
    ensures r.Some? ==> |r.value| == |xs| && forall k :: 0 <= k < |xs| ==> xs[k] == JStr(r.value[k])
  {
    if xs == [] then Some([])
    else if !xs[0].JStr? then None
    else
      match StringsOf(xs[1..])
      case None => None
      case Some(rest) => Some([xs[0].s] + rest)
  }

  /** `m[key] ?? default` passed where a String is expected. */
  function TextField(m: map<string, Json>, key: string, default: string): Option<string> {
    if key !in m then Some(default)
    else
      match m[key]
      case JNull => Some(default)
      case JStr(s) => Some(s)
      case _ => None
  }

  /** `List<String>.from(m[key] ?? default)`. */
  function TextsField(m: map<string, Json>, key: string, default: seq<string>): Option<seq<string>> {
    if key !in m then Some(default)
    else
      match m[key]
      case JNull => Some(default)
      case JArr(xs) => StringsOf(xs)
      case _ => None
  }

  /** The closure passed to `ideasJson.map`: one element to one idea, or `None` where it throws. */
  function ToIdea(j: Json, objectName: string): (r: Option<Idea>)
    ensures r.Some? <==> WellFormedIdea(j)
    ensures r.Some? ==> Describes(r.value, j, objectName)
  {
    match j
    case JObj(m) =>
      var title := TextField(m, "title", DefaultTitle);
      var description := TextField(m, "description", DefaultDescription(objectName));
      var materials := TextsField(m, "materials", DefaultMaterials);
      var steps := TextsField(m, "steps", DefaultSteps);
      if title.Some? && description.Some? && materials.Some? && steps.Some? then
        Some(Idea(title.value, description.value, materials.value, steps.value))
      else
        None
    case _ => None
  }

  /**
   * `ideasJson.map(...).toList()` over items[from..]: the ideas in order, or
   * the index of the first element whose mapping throws (the whole list is lost).
   */
  function ToIdeas(items: seq<Json>, from: nat, objectName: string): (r: Result<seq<Idea>, ParseError>)
    requires from <= |items|
    ensures r.Ok? <==> forall k :: from <= k < |items| ==> WellFormedIdea(items[k])
    ensures r.Ok? ==> |r.value| == |items| - from
    ensures r.Ok? ==> forall k :: from <= k < |items| ==> Describes(r.value[k - from], items[k], objectName)
    ensures r.Err? ==> r.error.BadIdea? && from <= r.error.index < |items|
    ensures r.Err? ==> !WellFormedIdea(items[r.error.index])
    ensures r.Err? ==> forall k :: from <= k < r.error.index ==> WellFormedIdea(items[k])
    decreases |items| - from
  {
    if from == |items| then Ok([])
    else
      match ToIdea(items[from], objectName)
      case None => Err(BadIdea(from))
      case Some(idea) =>
        match ToIdeas(items, from + 1, objectName)
        case Err(e) => Err(e)
        case Ok(rest) => Ok([idea] + rest)
  }

  /** `data[0]['generated_text'] as String?` on the decoded body: the text, null, or a throw. */
  function GeneratedText(data: Json): Result<Option<string>, ParseError> {
    if !data.JArr? || |data.items| == 0 || !data.items[0].JObj? then Err(BadResponseShape)
    else
      var fields := data.items[0].fields;
      if "generated_text" !in fields then Ok(None)
      else
        match fields["generated_text"]
        case JNull => Ok(None)
        case JStr(t) => Ok(Some(t))
        case _ => Err(BadResponseShape)
  }

  /** The steps of `_parseResponse` before its catch: the ideas, or why there are none. */
  function ParseIdeas(body: string, objectName: string, decode: Decoder): Result<seq<Idea>, ParseError> {
    match decode(body)
    case None => Err(BodyUndecodable)
    case Some(data) =>
      match GeneratedText(data)
      case Err(e) => Err(e)
      case Ok(None) => Err(NoGeneratedText)
      case Ok(Some(text)) =>
        match Extract(text)
        case None => Err(NoBracketedArray)
        case Some(jsonStr) =>
          match decode(jsonStr)
          case None => Err(ArrayUndecodable)
          case Some(JArr(items)) => ToIdeas(items, 0, objectName)
          case Some(_) => Err(NotAList)
  }

  /** `_parseResponse`: the parsed ideas, or the fallback table on every error. */
  function ParseResponse(body: string, objectName: string, decode: Decoder): (r: seq<Idea>)
    ensures forall items :: AcceptedBody(body, decode, items) ==>
      |r| == |items| && forall k :: 0 <= k < |items| ==> Describes(r[k], items[k], objectName)
    ensures !(exists items :: AcceptedBody(body, decode, items)) ==> r == FallbackIdeas(objectName)
  {
    ParseIdeasAcceptsExactly(body, objectName, decode);
    match ParseIdeas(body, objectName, decode)
    case Ok(ideas) => ideas
    case Err(_) => FallbackIdeas(objectName)
  }

  // ---------------------------------------------------------------------
  // generateIdeas
  // ---------------------------------------------------------------------

  /** The try block of `generateIdeas`: the exception it throws, or what `_parseResponse` returned. */
  function Attempt(outcome: ApiOutcome, objectName: string, decode: Decoder): Result<seq<Idea>, Failure> {
    match outcome
    case NoToken => Err(TokenMissing)
    case TransportError => Err(TransportFailed)
    case Response(status, body) =>
      if status == 200 then Ok(ParseResponse(body, objectName, decode)) else Err(HttpStatus(status))
  }

  /** `generateIdeas`: every failure is caught and replaced by the fallback table. */
  function GenerateIdeas(outcome: ApiOutcome, objectName: string, decode: Decoder): (r: seq<Idea>)
    ensures !(outcome.Response? && outcome.status == 200) ==> r == FallbackIdeas(objectName)
    ensures r == FallbackIdeas(objectName)
         || (outcome.Response? && outcome.status == 200 && ParseIdeas(outcome.body, objectName, decode) == Ok(r))
    ensures outcome.Response? && outcome.status == 200 && ParseIdeas(outcome.body, objectName, decode).Ok?
        ==> r == ParseIdeas(outcome.body, objectName, decode).value
  {
    match Attempt(outcome, objectName, decode)
    case Ok(ideas) => ideas
    case Err(_) => FallbackIdeas(objectName)
  }

  // ---------------------------------------------------------------------
  // Properties of the fallback table
  // ---------------------------------------------------------------------

  /**
   * Every fallback description names the object; so do the first steps of
   * the first two ideas. The third idea's steps are fixed text that does not
   * depend on the object at all.
   */
  lemma FallbackMentionsObject(objectName: string, other: string)
    ensures forall k :: 0 <= k < 3 ==> Mentions(FallbackIdeas(objectName)[k].description, objectName)
    ensures Mentions(FallbackIdeas(objectName)[0].steps[0], objectName)
    ensures Mentions(FallbackIdeas(objectName)[1].steps[0], objectName)
    ensures FallbackIdeas(objectName)[2].steps == FallbackIdeas(other)[2].steps
  {
    var r := FallbackIdeas(objectName);
    var n := |objectName|;
    assert MentionsAt(r[0].description, objectName, 15) by {
      assert r[0].description[15..15 + n] == objectName;
    }
    assert MentionsAt(r[1].description, objectName, 14) by {
      assert r[1].description[14..14 + n] == objectName;
    }
    assert MentionsAt(r[2].description, objectName, 9) by {
      assert r[2].description[9..9 + n] == objectName;
    }
    assert MentionsAt(r[0].steps[0], objectName, 22) by {
      assert r[0].steps[0][22..22 + n] == objectName;
    }
    assert MentionsAt(r[1].steps[0], objectName, 19) by {
      assert r[1].steps[0][19..19 + n] == objectName;
    }
  }

  // ---------------------------------------------------------------------
  // Properties of the element mapping
  // ---------------------------------------------------------------------

  /** The JSON object that carries an idea's four fields. */
  function IdeaToJson(idea: Idea): Json {
    JObj(map[
      "title" := JStr(idea.title),
      "description" := JStr(idea.description),
      "materials" := JArr(TextsToJson(idea.materials)),
      "steps" := JArr(TextsToJson(idea.steps))])
  }

  function TextsToJson(xs: seq<string>): seq<Json> {
    seq(|xs|, k requires 0 <= k < |xs| => JStr(xs[k]))
  }

  /** Present values pass through unchanged: mapping the JSON form of an idea gives the idea back. */
  lemma IdeaJsonRoundTrip(idea: Idea, objectName: string)
    ensures ToIdea(IdeaToJson(idea), objectName) == Some(idea)
  {
    var j := IdeaToJson(idea);
    assert WellFormedIdea(j) by {
      assert forall x :: x in TextsToJson(idea.materials) ==> x.JStr?;
      assert forall x :: x in TextsToJson(idea.steps) ==> x.JStr?;
    }
    var r := ToIdea(j, objectName).value;
    assert r.materials == idea.materials by {
      assert forall k :: 0 <= k < |r.materials| ==> JStr(r.materials[k]) == JStr(idea.materials[k]);
    }
    assert r.steps == idea.steps by {
      assert forall k :: 0 <= k < |r.steps| ==> JStr(r.steps[k]) == JStr(idea.steps[k]);
    }
  }

  /** Absent and null fields take their defaults; other keys of the object are ignored. */
  lemma DefaultsForMissingFields(m: map<string, Json>, objectName: string)
    requires "title" !in m || m["title"] == JNull
    requires "description" !in m || m["description"] == JNull
    requires "materials" !in m || m["materials"] == JNull
    requires "steps" !in m || m["steps"] == JNull
    ensures ToIdea(JObj(m), objectName)
         == Some(Idea(DefaultTitle, DefaultDescription(objectName), DefaultMaterials, DefaultSteps))
  {
    assert WellFormedIdea(JObj(m));
  }

  // ---------------------------------------------------------------------
  // When _parseResponse succeeds
  // ---------------------------------------------------------------------

  /** `data[0]['generated_text']` is the string text. */
  ghost predicate CarriesText(data: Json, text: string) {
    && data.JArr? && |data.items| > 0 && data.items[0].JObj?
    && "generated_text" in data.items[0].fields
    && data.items[0].fields["generated_text"] == JStr(text)
  }

  /** `data[0]['generated_text']` can be read, and is absent or null. */
  ghost predicate LacksText(data: Json) {
    && data.JArr? && |data.items| > 0 && data.items[0].JObj?
    && ("generated_text" !in data.items[0].fields || data.items[0].fields["generated_text"] == JNull)
  }

  /**
   * A body _parseResponse turns into ideas, with items the decoded array: the
   * body decodes, its generated text is a string, the first match of
   * `\[.*\]` in that text decodes to the array items, and every element of
   * items is a well-formed idea.
   */
  ghost predicate AcceptedBody(body: string, decode: Decoder, items: seq<Json>) {
    && decode(body).Some?
    && (exists text, i, j :: CarriesText(decode(body).value, text) && IsFirstMatch(text, i, j)
                             && decode(text[i..j]) == Some(JArr(items)))
    && forall k :: 0 <= k < |items| ==> WellFormedIdea(items[k])
  }

  /**
   * The parse succeeds exactly on accepted bodies, and then yields one idea
   * per element of the decoded array, in order: an accepted `[]` yields no
   * ideas at all, not the fallback.
   */
  lemma ParseIdeasAcceptsExactly(body: string, objectName: string, decode: Decoder)
    ensures ParseIdeas(body, objectName, decode).Ok? <==> exists items :: AcceptedBody(body, decode, items)
    ensures forall items :: AcceptedBody(body, decode, items) ==>
      && ParseIdeas(body, objectName, decode).Ok?
      && |ParseIdeas(body, objectName, decode).value| == |items|
      && forall k :: 0 <= k < |items| ==> Describes(ParseIdeas(body, objectName, decode).value[k], items[k], objectName)
  {
    if ParseIdeas(body, objectName, decode).Ok? {
      ParsedBodyIsAccepted(body, objectName, decode);
    }
    forall items | AcceptedBody(body, decode, items)
      ensures ParseIdeas(body, objectName, decode).Ok?
      ensures |ParseIdeas(body, objectName, decode).value| == |items|
      ensures forall k :: 0 <= k < |items| ==> Describes(ParseIdeas(body, objectName, decode).value[k], items[k], objectName)
    {
      AcceptedBodyIsParsed(body, objectName, decode, items);
    }
  }

  /** A body the parse turns into ideas is accepted. */
  lemma ParsedBodyIsAccepted(body: string, objectName: string, decode: Decoder)
    requires ParseIdeas(body, objectName, decode).Ok?
    ensures exists items :: AcceptedBody(body, decode, items)
  {
    var data := decode(body).value;
    var text := GeneratedText(data).value.value;
    assert CarriesText(data, text);
    var m := Extract(text).value;
    ExtractIsFirstMatch(text, m);
    var i, j :| IsFirstMatch(text, i, j) && m == text[i..j];
    var items := decode(m).value.items;
    assert AcceptedBody(body, decode, items);
  }

  /** An accepted body is parsed into one idea per element of its array, in order. */
  lemma AcceptedBodyIsParsed(body: string, objectName: string, decode: Decoder, items: seq<Json>)
    requires AcceptedBody(body, decode, items)
    ensures ParseIdeas(body, objectName, decode).Ok?
    ensures |ParseIdeas(body, objectName, decode).value| == |items|
    ensures forall k :: 0 <= k < |items| ==> Describes(ParseIdeas(body, objectName, decode).value[k], items[k], objectName)
  {
    var text, i, j :| CarriesText(decode(body).value, text) && IsFirstMatch(text, i, j)
                      && decode(text[i..j]) == Some(JArr(items));
    ExtractIsFirstMatch(text, text[i..j]);
    CarriedArrayIsMapped(body, text, items, objectName, decode);
  }

  /** Which failure of the parse each error kind stands for. */
  lemma ParseErrorCauses(body: string, objectName: string, decode: Decoder)
    ensures ParseIdeas(body, objectName, decode) == Err(BodyUndecodable) <==> decode(body).None?
    ensures ParseIdeas(body, objectName, decode) == Err(NoGeneratedText)
        <==> decode(body).Some? && LacksText(decode(body).value)
    ensures ParseIdeas(body, objectName, decode) == Err(NoBracketedArray)
        <==> decode(body).Some? && exists text :: CarriesText(decode(body).value, text) && forall i, j :: !IsMatch(text, i, j)
    ensures ParseIdeas(body, objectName, decode) == Err(BadResponseShape)
        <==> decode(body).Some? && !LacksText(decode(body).value) && forall text :: !CarriesText(decode(body).value, text)
  {
    if decode(body).Some? {
      var data := decode(body).value;
      match GeneratedText(data)
      case Ok(Some(t)) =>
        assert CarriesText(data, t);
      case Ok(None) =>
        assert LacksText(data);
      case Err(_) =>
        assert !LacksText(data) && forall t :: !CarriesText(data, t);
    }
  }

  // ---------------------------------------------------------------------
  // The outcome of generateIdeas
  // ---------------------------------------------------------------------

  /**
   * A 200 response with an accepted body yields the mapped ideas, one per
   * element and in order; every other outcome (no token, a transport error
   * or timeout, any other status, any body the parse rejects) yields exactly
   * the fallback table.
   */
  lemma GenerateIdeasOutcome(outcome: ApiOutcome, objectName: string, decode: Decoder)
    ensures forall items :: outcome.Response? && outcome.status == 200 && AcceptedBody(outcome.body, decode, items) ==>
      && |GenerateIdeas(outcome, objectName, decode)| == |items|
      && forall k :: 0 <= k < |items| ==> Describes(GenerateIdeas(outcome, objectName, decode)[k], items[k], objectName)
    ensures !(outcome.Response? && outcome.status == 200 && exists items :: AcceptedBody(outcome.body, decode, items))
        ==> GenerateIdeas(outcome, objectName, decode) == FallbackIdeas(objectName)
  {
    if outcome.Response? && outcome.status == 200 {
      var body := outcome.body;
      assert GenerateIdeas(outcome, objectName, decode) == ParseResponse(body, objectName, decode);
    }
  }

  /**
   * When the body's generated text holds a bracketed span that decodes to an
   * array, the ideas are exactly the mapping of that array's elements.
   */
  lemma CarriedArrayIsMapped(body: string, text: string, items: seq<Json>, objectName: string, decode: Decoder)
    requires decode(body).Some? && CarriesText(decode(body).value, text)
    requires Extract(text).Some? && decode(Extract(text).value) == Some(JArr(items))
    ensures ParseIdeas(body, objectName, decode) == ToIdeas(items, 0, objectName)
  {
    assert GeneratedText(decode(body).value) == Ok(Some(text));
  }

  /** A generated text whose array is `[]` yields an empty list of ideas, not the fallback. */
  lemma EmptyArrayYieldsNoIdeas(body: string, text: string, objectName: string, decode: Decoder)
    requires decode(body).Some? && CarriesText(decode(body).value, text)
    requires Extract(text).Some? && decode(Extract(text).value) == Some(JArr([]))
    ensures GenerateIdeas(Response(200, body), objectName, decode) == []
  {
    CarriedArrayIsMapped(body, text, [], objectName, decode);
  }

  /** A JSON array holding one idea with all four fields. */
  const ExampleArray: string :=
    "[{\"title\":\"T\",\"description\":\"D\"," + "\"materials\":[\"m1\"],\"steps\":[\"s1\"]}]"

  /** A generated text with ExampleArray amid noise. */
  const ExampleText: string := "noise " + ExampleArray + " noise"

  /** The element ExampleArray decodes to. */
  const ExampleElement: Json := JObj(map[
    "title" := JStr("T"), "description" := JStr("D"),
    "materials" := JArr([JStr("m1")]), "steps" := JArr([JStr("s1")])])

  /** The first match in ExampleText is ExampleArray. */
  lemma ExampleExtract()
    ensures Extract(ExampleText) == Some(ExampleArray)
  {
    assert ExampleArray[0] == '[' && ExampleArray[|ExampleArray| - 1] == ']';
    assert NoLineTerminator(ExampleArray) by {
      assert forall c :: c in ExampleArray ==> !IsLineTerminator(c);
    }
    ExtractAmidNoise("noise ", ExampleArray, " noise");
  }

  /** ExampleElement maps to the idea with title T, description D, materials [m1] and steps [s1]. */
  lemma ExampleIdea(objectName: string)
    ensures WellFormedIdea(ExampleElement)
    ensures ToIdea(ExampleElement, objectName) == Some(Idea("T", "D", ["m1"], ["s1"]))
  {
    var m := ExampleElement.fields;
    assert WellFormedIdea(ExampleElement);
    var r := ToIdea(ExampleElement, objectName).value;
    assert r.title == "T" && r.description == "D";
    assert r.materials == ["m1"] by {
      assert |r.materials| == 1 && m["materials"].items[0] == JStr(r.materials[0]);
    }
    assert r.steps == ["s1"] by {
      assert |r.steps| == 1 && m["steps"].items[0] == JStr(r.steps[0]);
    }
  }

  /**
   * A reply whose generated text holds one well-formed idea amid noise that
   * opens no bracket before it and closes none after it yields that one idea.
   */
  lemma OneIdeaAmidNoise(body: string, before: string, span: string, after: string, item: Json,
                         idea: Idea, objectName: string, decode: Decoder)
    requires '[' !in before && ']' !in after
    requires |span| >= 2 && span[0] == '[' && span[|span| - 1] == ']' && NoLineTerminator(span)
    requires decode(body).Some? && CarriesText(decode(body).value, before + span + after)
    requires decode(span) == Some(JArr([item])) && ToIdea(item, objectName) == Some(idea)
    ensures GenerateIdeas(Response(200, body), objectName, decode) == [idea]
  {
    ExtractAmidNoise(before, span, after);
    CarriedArrayIsMapped(body, before + span + after, [item], objectName, decode);
  }

  /**
   * A 200 reply whose generated text is ExampleText, with ExampleArray
   * decoding to [ExampleElement], yields exactly the one idea T, D, [m1], [s1].
   */
  lemma WorkedExample(body: string, objectName: string, decode: Decoder)
    requires decode(body) == Some(JArr([JObj(map["generated_text" := JStr(ExampleText)])]))
    requires decode(ExampleArray) == Some(JArr([ExampleElement]))
    ensures GenerateIdeas(Response(200, body), objectName, decode) == [Idea("T", "D", ["m1"], ["s1"])]
  {
    ExampleExtract();
    ExampleIdea(objectName);
    OneIdeaAmidNoise(body, "noise ", ExampleArray, " noise", ExampleElement, Idea("T", "D", ["m1"], ["s1"]),
                     objectName, decode);
  }
}
