# IdeaGeneratorService, modelled in Dafny

Recraft AI's `IdeaGeneratorService` asks a hosted text-generation model
for three upcycling ideas for a detected object. It then digs a JSON
array out of the free-form completion and turns each element into an
idea record. On every error it instead returns a fixed table of three
ideas built around the object's name. The caller never sees an error.

The model is pure, like the service: datatypes, functions and lemmas.

- `Wrappers.dfy`: `Option` and `Result`.
- `Json.dfy`: the decoded-JSON value `Json` (`JNull`, `JBool`, `JNum`,
  `JStr`, `JArr`, `JObj`) and the `Decoder` type. The library decoder
  (`json.decode`) is not part of this model. Every operation that
  decodes takes the decoder as an argument. `None` stands for the
  `FormatException` the library throws.
- `BracketMatch.dfy`: `RegExp(r'\[.*\]').firstMatch`, under
  ECMAScript rules (ECMA-262, section 22.2), which Dart's regular
  expressions follow. `.` matches no line terminator (LF, CR, U+2028,
  U+2029), and `*` is greedy. `Extract` follows the engine's own search:
  it tries start positions left to right, runs `.*` to the end of the
  line, then backtracks to a `]`. `IsFirstMatch` is an independent,
  declarative definition: the match with the leftmost start, and the
  longest among those. `ExtractIsFirstMatch` proves the two agree.
- `IdeaModel.dfy`: the idea record (title, description, materials,
  steps).
- `IdeaGeneratorService.dfy`: the defaults, the fallback table, the
  element mapping, `_parseResponse` and `generateIdeas`.
  - Dart's exceptions become `Result` values, and `ParseError` and
    `Failure` keep the error kinds apart. `NoGeneratedText` and
    `NoBracketedArray` are not exceptions: they stand for the silent
    fall-through `return _getFallbackIdeas(objectName)` at the end of
    `_parseResponse`'s try block (lines 86-87), which prints nothing. The
    other five `ParseError` kinds stand for the exceptions its `catch`
    (lines 88-90) prints before returning the fallback. Every `Failure`
    stands for an exception that `generateIdeas`'s `catch` (lines 55-58)
    handles the same way.
  - The outside world (configuration read, HTTP call) is one value,
    `ApiOutcome`: `NoToken`, `TransportError` (network failure or
    timeout), or `Response(status, body)`.
  - `WellFormedIdea`, `Describes` and `AcceptedBody` state declaratively
    what the code accepts and what it produces. The lemmas tie the
    computing functions to them.

`ParseIdeas`, `GeneratedText`, `TextField`, `TextsField` and `Attempt`
carry no contracts of their own. They are the steps of
`_parseResponse` and `generateIdeas`. Their meaning is stated by
`ParseIdeasAcceptsExactly`, `ParseErrorCauses`, `ParseResponse` and
`GenerateIdeas`.

Consequences of the code worth stating on their own:

- **Empty result.** A generated text whose first bracketed span decodes
  to `[]` yields an empty list, not the fallback
  (`EmptyArrayYieldsNoIdeas`).
- **Greedy match.** `.` stops at line terminators, so the match is not
  simply "the first `[` to the last `]` of the text". It starts at the
  first `[` that has a `]` later on its own line, and ends at the last
  `]` of that line (`MatchStopsAtLineEnd`, `UnclosedOpenIsSkipped`).
- **No coercion.** `List<String>.from` throws on any element of
  `materials` or `steps` that is not a string, and the whole result then
  becomes the fallback.
- **Null fields.** Defaults apply when a field is absent and also when
  it is JSON `null` (the `??` operator).

## Model

| member | source | states |
|---|---|---|
| `BracketMatch.LineEnd` | lib/services/IdeaGeneratorService.java:70 | `.*` started at a position stops at the first line terminator at or after it, or at the end; nothing it passes is a line terminator |
| `BracketMatch.LastClose` | lib/services/IdeaGeneratorService.java:70 | backtracking of the greedy `.*`: finds the greatest position in the range holding `]`, and none exists when it reports none |
| `BracketMatch.MatchAt` | lib/services/IdeaGeneratorService.java:70 | an attempt at one start position finds a match of `\[.*\]` there exactly when one exists, and it is the longest one starting there |
| `BracketMatch.FirstMatchFrom` | lib/services/IdeaGeneratorService.java:70 | scanning start positions from i finds a match whose start is the least of all match starts at or after i, and it is the longest at that start; none is found exactly when no match starts at or after i |
| `BracketMatch.Extract` | lib/services/IdeaGeneratorService.java:70-72 | a found match is a substring of the text, at least two characters, starting with `[`, ending with `]`, with no line terminator; it is the first match; nothing is found exactly when the pattern occurs nowhere |
| `BracketMatch.ExtractIsFirstMatch` | lib/services/IdeaGeneratorService.java:70-72 | `Extract` returns m if and only if m is the text of the leftmost-longest match |
| `BracketMatch.ExtractAmidNoise` | lib/services/IdeaGeneratorService.java:70-72 | a bracketed one-line span with no `[` before it and no `]` after it is extracted whole |
| `BracketMatch.GreedyAcrossArrays` | lib/services/IdeaGeneratorService.java:70 | on `a [1] b [2]` the match is `[1] b [2]`: the greedy `.*` spans both arrays |
| `BracketMatch.NoMatchAcrossLines` | lib/services/IdeaGeneratorService.java:70 | `[1` LF `2]` and `[1` CR LF `2]` have no match: `.` does not cross a line terminator |
| `BracketMatch.MatchStopsAtLineEnd` | lib/services/IdeaGeneratorService.java:70 | on `x [1] [2` LF `]` the match is `[1]`, the last `]` of the first `[`'s line |
| `BracketMatch.UnclosedOpenIsSkipped` | lib/services/IdeaGeneratorService.java:70 | on `[a` LF `[b]` the match is `[b]`: a `[` without a `]` on its line starts no match |
| `IdeaGeneratorService.FallbackIdeas` | lib/services/IdeaGeneratorService.java:95-134 | the fallback is three ideas titled Eco-Friendly Planter, Creative Storage Solution, Artistic Display Piece, in that order; each has four materials, the first being the object's name, and four steps |
| `IdeaGeneratorService.FallbackMentionsObject` | lib/services/IdeaGeneratorService.java:96-133 | every fallback description contains the object's name; so do the first steps of the first two ideas; the third idea's steps are the same for every object name |
| `IdeaGeneratorService.StringsOf` | lib/services/IdeaGeneratorService.java:78-79 | `List<String>.from` succeeds exactly when every element is a string, and then yields those strings, in order and one per element |
| `IdeaGeneratorService.TextField` | lib/services/IdeaGeneratorService.java:76-77 | no contract of its own (a step of `ToIdea`); its meaning is stated by `ToIdea`, `IdeaJsonRoundTrip` and `DefaultsForMissingFields` |
| `IdeaGeneratorService.TextsField` | lib/services/IdeaGeneratorService.java:78-79 | no contract of its own (a step of `ToIdea`); its meaning is stated by `ToIdea`, `IdeaJsonRoundTrip` and `DefaultsForMissingFields` |
| `IdeaGeneratorService.ToIdea` | lib/services/IdeaGeneratorService.java:74-81 | an element maps to an idea exactly when it is an object whose title and description are absent, null or strings and whose materials and steps are absent, null or arrays of strings; the idea takes present values unchanged and defaults otherwise |
| `IdeaGeneratorService.ToIdeas` | lib/services/IdeaGeneratorService.java:73-82 | mapping the array succeeds exactly when every element is well formed, giving one idea per element in order; otherwise the whole list is lost and the error names the first ill-formed element |
| `IdeaGeneratorService.IdeaJsonRoundTrip` | lib/services/IdeaGeneratorService.java:76-79 | the JSON object carrying an idea's four fields maps back to that same idea |
| `IdeaGeneratorService.DefaultsForMissingFields` | lib/services/IdeaGeneratorService.java:76-79 | an object whose four fields are absent or null maps to the idea made of the four defaults, with the object's name in the default description |
| `IdeaGeneratorService.GeneratedText` | lib/services/IdeaGeneratorService.java:66 | no contract of its own (a step of `ParseIdeas`); its meaning is stated by `ParseErrorCauses` and `ParseIdeasAcceptsExactly` |
| `IdeaGeneratorService.ParseIdeas` | lib/services/IdeaGeneratorService.java:64-87 | no contract of its own (the try block of `_parseResponse`); its meaning is stated by `ParseIdeasAcceptsExactly`, `ParseErrorCauses` and `CarriedArrayIsMapped` |
| `IdeaGeneratorService.ParseResponse` | lib/services/IdeaGeneratorService.java:63-92 | for a body that decodes, carries a `generated_text` string whose first match decodes to an array of well-formed elements, the result has one idea per element, each built from its element in order; for any other body the result is exactly the fallback table |
| `IdeaGeneratorService.ParsedBodyIsAccepted` | lib/services/IdeaGeneratorService.java:64-82 | a body the try block turns into ideas decodes, carries a `generated_text` string, and the first match of that string decodes to an array whose every element is well formed |
| `IdeaGeneratorService.AcceptedBodyIsParsed` | lib/services/IdeaGeneratorService.java:64-82 | a body carrying such an array of well-formed elements is turned into one idea per element, each built from its element, in order |
| `IdeaGeneratorService.ParseIdeasAcceptsExactly` | lib/services/IdeaGeneratorService.java:65-83 | the parse succeeds if and only if the body decodes, its `generated_text` is a string, the first match in it decodes to an array, and every element is well formed; the ideas then correspond one to one, in order, to the array's elements |
| `IdeaGeneratorService.ParseErrorCauses` | lib/services/IdeaGeneratorService.java:65-71 | an undecodable body, an absent or null `generated_text`, no match in the text, and a response of the wrong shape each give their own error kind, and only those causes do |
| `IdeaGeneratorService.Attempt` | lib/services/IdeaGeneratorService.java:13-54 | no contract of its own (the try block of `generateIdeas`); its meaning is stated by `GenerateIdeas` and `GenerateIdeasOutcome` |
| `IdeaGeneratorService.GenerateIdeas` | lib/services/IdeaGeneratorService.java:12-59 | a missing token, a transport error or timeout, or any status other than 200 yields exactly the fallback; every result is the fallback or the ideas of a successful parse of a 200 body; a 200 body that parses yields its parsed ideas |
| `IdeaGeneratorService.GenerateIdeasOutcome` | lib/services/IdeaGeneratorService.java:12-92 | a 200 response with an accepted body yields one idea per element of its array, in order; every other outcome yields exactly the fallback |
| `IdeaGeneratorService.CarriedArrayIsMapped` | lib/services/IdeaGeneratorService.java:64-82 | for any decoded body whose `data[0]['generated_text']` is a given string, when that string's first match decodes to an array, the parse result is the element-by-element mapping of that array |
| `IdeaGeneratorService.EmptyArrayYieldsNoIdeas` | lib/services/IdeaGeneratorService.java:64-82 | for any decoded body carrying a `generated_text` string, a first match that decodes to `[]` yields an empty list, not the fallback |
| `IdeaGeneratorService.OneIdeaAmidNoise` | lib/services/IdeaGeneratorService.java:64-82 | for any decoded 200 body whose `generated_text` holds a one-line array of one element amid noise that opens no `[` before it and closes no `]` after it, the result is exactly the idea that element maps to |
| `IdeaGeneratorService.ExampleExtract` | lib/services/IdeaGeneratorService.java:70-72 | in `noise [{"title":"T",...}] noise` the match is exactly the array, without the noise |
| `IdeaGeneratorService.ExampleIdea` | lib/services/IdeaGeneratorService.java:74-81 | the element with title T, description D, materials [m1] and steps [s1] maps to exactly that idea |
| `IdeaGeneratorService.WorkedExample` | lib/services/IdeaGeneratorService.java:12-82 | a 200 reply whose `generated_text` is `noise [{"title":"T",...}] noise`, with that array decoding to its one element, yields exactly the one idea T, D, [m1], [s1] |

## Left out

- The HTTP POST, its URI built from the base URL and model name, its
  headers, its JSON request body and the 30-second timeout are network
  I/O. The model sees only their result, `ApiOutcome`.
- The prompt text (which names the object) and the request's
  `max_length`, `temperature` (a float) and `do_sample` parameters are
  only sent to the network; the code never reads them again. Their only
  effect is on the server's reply, which the model takes as an arbitrary
  `ApiOutcome`, so every property holds whatever reply they produce.
- The `HUGGING_FACE_TOKEN` read from `dotenv.env` is global
  configuration I/O. Its absence is the `NoToken` outcome, and its
  value only appears in a request header.
- `json.decode` is a library parser not part of this model. It is an
  arbitrary `Decoder` argument, so every lemma holds for any decoder.
- The `print` logging in both `catch` blocks is a side effect and is
  left out. The exceptions it would print are kept apart as the
  `Failure` kinds and the five exception kinds of `ParseError`.
- The `timestamp` of every record comes from `DateTime.now()`, a clock
  read. `Idea` has no timestamp.
- `async`, `await` and `Future` add no logic here. The operation is a
  plain function.
- `IdeaModel` lives in `lib/models/idea_model.dart`, which is not part
  of this model. Its four fields are taken as a `String` title and
  description and `List<String>` materials and steps, so a non-string
  title throws.
- Dart strings are UTF-16 code units. Dafny's `char` is a Unicode scalar
  value, so unpaired surrogates are not represented. The pattern only
  compares characters with `[`, `]` and the line terminators, so
  nothing else changes.
- JSON numbers are kept as `real`. The service never reads them; it
  only rejects them where a string or an array is expected.
