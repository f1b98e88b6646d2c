/**
 * The deterministic skeleton of `generateFortune` in services/geminiService.ts.
 * The two calls to the hosted model are not made here: their outcomes are
 * parameters. What remains is the order of the checks, the reformatting of the
 * four narrative fields, the scan of the image reply for its first inline
 * payload, and the rule that a failing image call is swallowed.
 */
module GeminiService {
  import opened Wrappers
  import opened Types
  import opened TextFormat

  /** The ways `generateFortune` throws. */
  datatype FortuneError =
    | MissingApiKey       // no API key configured
    | TextCallFailed      // the text-generation call itself threw
    | NoTextResponse      // the reply carried no (or empty) text
    | MalformedJson       // parsing or reformatting the reply text threw

  /**
   * The outcome of the text-generation call. `decoded` is the record that
   * `JSON.parse` makes of `text` when the four narrative fields can then be
   * reformatted; `None` stands for every throw of that stage: the parse
   * itself, reading `.essence` of a parsed `null`, assigning it on a parsed
   * primitive (the module is strict code), or `replace` on a narrative field
   * that is truthy but not a string.
   */
  datatype TextReply =
    | TextCallError
    | TextResponse(text: string, decoded: Option<FortuneResult>)

  /** The reply shape of the image-generation call; every level is optional. */
  datatype Blob = Blob(mimeType: Option<string>, data: Option<string>)
  datatype Part = Part(inlineData: Option<Blob>)
  datatype Content = Content(parts: Option<seq<Part>>)
  datatype Candidate = Candidate(content: Option<Content>)
  datatype ImageReply =
    | ImageCallError
    | ImageResponse(candidates: Option<seq<Candidate>>)

  /** The external calls a run of `generateFortune` issues, in order. */
  datatype ExternalCall = TextGeneration | ImageGeneration

  /** `candidates?.[0]?.content?.parts || []`. */
  function ResponseParts(candidates: Option<seq<Candidate>>): (parts: seq<Part>)
    ensures parts != [] ==>
      && candidates.Some? && |candidates.value| > 0
      && candidates.value[0].content.Some?
      && candidates.value[0].content.value.parts == Some(parts)
    ensures (candidates.Some? && |candidates.value| > 0 && candidates.value[0].content.Some?
             && candidates.value[0].content.value.parts.Some?) ==>
      parts == candidates.value[0].content.value.parts.value
  {
    match candidates
    case None => []
    case Some(cs) =>
      if |cs| == 0 then []
      else match cs[0].content
        case None => []
        case Some(c) => c.parts.GetOr([])
  }

  /** The inline payload of the first part that has one. */
  function FirstInlineData(parts: seq<Part>): (b: Option<Blob>)
    ensures b.None? <==> forall j :: 0 <= j < |parts| ==> parts[j].inlineData.None?
    ensures b.Some? ==> b in set j | 0 <= j < |parts| :: parts[j].inlineData
  {
    if parts == [] then None
    else if parts[0].inlineData.Some? then parts[0].inlineData
    else FirstInlineData(parts[1..])
  }

  /** The first part with inline data is the one `FirstInlineData` picks. */
  lemma {:induction false} FirstInlineDataAt(parts: seq<Part>, k: nat)
    requires k < |parts| && parts[k].inlineData.Some?
    requires forall j :: 0 <= j < k ==> parts[j].inlineData.None?
    ensures FirstInlineData(parts) == parts[k].inlineData
  {
    if k > 0 {
      FirstInlineDataAt(parts[1..], k - 1);
    }
  }

  /** A template-literal substitution `${v}`: an absent value prints as "undefined". */
  function Interpolate(v: Option<string>): (s: string)
    ensures v.Some? ==> s == v.value
    ensures v.None? ==> s == "undefined"
  {
    match v
    case Some(s) => s
    case None => "undefined"
  }

  /** The data URI of section 3 of RFC 2397: "data:" mediatype ";base64," data. */
  function DataUri(blob: Blob): (uri: string)
    ensures |uri| == 13 + |Interpolate(blob.mimeType)| + |Interpolate(blob.data)|
    ensures uri[..5] == "data:"
    ensures uri[5..5 + |Interpolate(blob.mimeType)|] == Interpolate(blob.mimeType)
    ensures uri[5 + |Interpolate(blob.mimeType)|..13 + |Interpolate(blob.mimeType)|] == ";base64,"
    ensures uri[13 + |Interpolate(blob.mimeType)|..] == Interpolate(blob.data)
  {
    "data:" + Interpolate(blob.mimeType) + ";base64," + Interpolate(blob.data)
  }

  /** Index of the first `c` in `s`, or `|s|` when there is none. */
  function IndexOf(c: char, s: string): (k: nat)
    ensures k <= |s|
    ensures k < |s| ==> s[k] == c
    ensures forall j :: 0 <= j < k ==> s[j] != c
  {
    if s == [] then 0 else if s[0] == c then 0 else 1 + IndexOf(c, s[1..])
  }

  /** Reads a base64 data URI back into its media type and its data. */
  function SplitDataUri(uri: string): Option<(string, string)> {
    if |uri| < 5 || uri[..5] != "data:" then None
    else
      var rest := uri[5..];
      var k := IndexOf(';', rest);
      if |rest| - k < 8 || rest[k..k + 8] != ";base64," then None
      else Some((rest[..k], rest[k + 8..]))
  }

  lemma {:induction false} IndexOfAfter(c: char, a: string, b: string)
    requires c !in a
    ensures IndexOf(c, a + [c] + b) == |a|
  {
    if a != [] {
      assert (a + [c] + b)[1..] == a[1..] + [c] + b;
      IndexOfAfter(c, a[1..], b);
    }
  }

  /**
   * The image payload can be read back out of the data URI, provided the
   * media type carries no parameters (no ';').
   */
  lemma DataUriRoundTrip(blob: Blob)
    requires ';' !in Interpolate(blob.mimeType)
    ensures SplitDataUri(DataUri(blob)) == Some((Interpolate(blob.mimeType), Interpolate(blob.data)))
  {
    var mime, data := Interpolate(blob.mimeType), Interpolate(blob.data);
    var rest := DataUri(blob)[5..];
    assert rest == mime + [';'] + ("base64," + data);
    IndexOfAfter(';', mime, "base64," + data);
    assert rest[|mime|..|mime| + 8] == ";base64,";
    assert rest[..|mime|] == mime;
    assert rest[|mime| + 8..] == data;
  }

  /**
   * What `deityImage` ends as: the data URI of the first inline payload of a
   * successful image reply, or else the decoded value, untouched.
   */
  function ExpectedImage(d: FortuneResult, imageReply: ImageReply): (img: Option<string>)
    ensures imageReply.ImageCallError? ==> img == d.deityImage
    ensures imageReply.ImageResponse? && FirstInlineData(ResponseParts(imageReply.candidates)).None? ==>
      img == d.deityImage
    ensures imageReply.ImageResponse? && FirstInlineData(ResponseParts(imageReply.candidates)).Some? ==>
      img == Some(DataUri(FirstInlineData(ResponseParts(imageReply.candidates)).value))
    ensures img != d.deityImage ==>
      && imageReply.ImageResponse?
      && var first := FirstInlineData(ResponseParts(imageReply.candidates));
      && first.Some? && img == Some(DataUri(first.value)) && img.value[..5] == "data:"
  {
    match imageReply
    case ImageCallError => d.deityImage
    case ImageResponse(candidates) =>
      match FirstInlineData(ResponseParts(candidates))
      case Some(blob) => Some(DataUri(blob))
      case None => d.deityImage
  }

  /** The text stage succeeds: a key is configured and the reply decodes. */
  predicate RequestSucceeds(apiKey: string, textReply: TextReply) {
    apiKey != [] && textReply.TextResponse? && textReply.text != [] && textReply.decoded.Some?
  }

  /** Every field the reformatting does not touch is as decoded. */
  predicate KeepsOtherFields(f: FortuneResult, d: FortuneResult) {
    && f.deityName == d.deityName
    && f.deityTitle == d.deityTitle
    && f.deityDescription == d.deityDescription
    && f.deityVisualDescription == d.deityVisualDescription
    && f.timeline == d.timeline
    && f.luckyColor == d.luckyColor
    && f.guardianItem == d.guardianItem
    && f.soulConnection == d.soulConnection
  }

  /**
   * `generateFortune(input)`. The configured key, the text reply and the
   * image reply are parameters; `calls` lists the external calls made. The
   * source never reads `input`: its text prompt is a fixed literal.
   */
  method GenerateFortune(input: UserInput, apiKey: string, textReply: TextReply, imageReply: ImageReply)
    returns (outcome: Result<FortuneResult, FortuneError>, calls: seq<ExternalCall>)
    // A missing key fails before any call is made.
    ensures apiKey == [] ==> outcome == Failure(MissingApiKey) && calls == []
    // Text-stage failures stop before the image call.
    ensures apiKey != [] && textReply.TextCallError? ==>
      outcome == Failure(TextCallFailed) && calls == [TextGeneration]
    ensures apiKey != [] && textReply.TextResponse? && textReply.text == [] ==>
      outcome == Failure(NoTextResponse) && calls == [TextGeneration]
    ensures apiKey != [] && textReply.TextResponse? && textReply.text != [] && textReply.decoded.None? ==>
      outcome == Failure(MalformedJson) && calls == [TextGeneration]
    // Whatever the image call does, a decoded reply is a success.
    ensures outcome.Success? <==> RequestSucceeds(apiKey, textReply)
    ensures outcome.Success? ==>
      var d, f := textReply.decoded.value, outcome.value;
      && calls == [TextGeneration, ImageGeneration]
      && f.essence == FormatText(d.essence) && IsParagraphed(f.essence)
      && f.love == FormatText(d.love) && IsParagraphed(f.love)
      && f.work == FormatText(d.work) && IsParagraphed(f.work)
      && f.destiny == FormatText(d.destiny) && IsParagraphed(f.destiny)
      && KeepsOtherFields(f, d)
      && f.deityImage == ExpectedImage(d, imageReply)
  {
    calls := [];
    if apiKey == [] {
      return Failure(MissingApiKey), calls;
    }

    calls := calls + [TextGeneration];
    if textReply.TextCallError? {
      return Failure(TextCallFailed), calls;
    }
    if textReply.text == [] {
      return Failure(NoTextResponse), calls;
    }
    if textReply.decoded.None? {
      return Failure(MalformedJson), calls;
    }
    var fortune := textReply.decoded.value;
    fortune := fortune.(essence := FormatText(fortune.essence));
    fortune := fortune.(love := FormatText(fortune.love));
    fortune := fortune.(work := FormatText(fortune.work));
    fortune := fortune.(destiny := FormatText(fortune.destiny));

    ghost var d := textReply.decoded.value;
    assert KeepsOtherFields(fortune, d) && fortune.deityImage == d.deityImage;

    calls := calls + [ImageGeneration];
    if imageReply.ImageResponse? {
      var parts := ResponseParts(imageReply.candidates);
      ghost var formatted := fortune;
      for i := 0 to |parts|
        invariant fortune == formatted
        invariant forall j :: 0 <= j < i ==> parts[j].inlineData.None?
      {
        if parts[i].inlineData.Some? {
          FirstInlineDataAt(parts, i);
          fortune := fortune.(deityImage := Some(DataUri(parts[i].inlineData.value)));
          assert fortune.deityImage == ExpectedImage(d, imageReply);
          break;
        }
      }
    }
    assert fortune.deityImage == ExpectedImage(d, imageReply);
    assert IsParagraphed(fortune.essence) by { FormatTextIsParagraphed(d.essence); }
    assert IsParagraphed(fortune.love) by { FormatTextIsParagraphed(d.love); }
    assert IsParagraphed(fortune.work) by { FormatTextIsParagraphed(d.work); }
    assert IsParagraphed(fortune.destiny) by { FormatTextIsParagraphed(d.destiny); }
    outcome := Success(fortune);
  }
}
