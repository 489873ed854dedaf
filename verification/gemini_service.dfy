/** The pure parts of services/geminiService.ts: taking a data URL apart,
    choosing the prompt's descriptions with their defaults, picking the
    generated image out of a response, and composing the video link. The
    remote calls themselves are parameters: the response they produced. */
module GeminiService {
  import opened Wrappers
  import opened Types
  import opened Text

  const GenericMetalDescription := "high-quality precious metal"
  /** Thrown inside the `try` when no part carries an image; always replaced by RetouchFailureMessage. */
  const NoImageMessage := "AI failed to generate a luxury image."
  /** Stands for whatever error the SDK threw; its text is not modelled. */
  const SdkError := "SDK error"
  const RetouchFailureMessage := "Luxury processing failed. Please check your source image."
  const VideoFailureMessage := "Video generation failed."

  /** The entries of the metal and stone tables. */
  const OriginalStoneDescription := "enhance and amplify the current gemstones with maximum internal fire, clarity, and brilliant crystalline dispersion"
  const DiamondStoneDescription := "transform stones into flawless D-grade brilliant-cut diamonds with intense white fire, rainbow dispersion, and sharp facets"
  const RubyStoneDescription := "convert stones into deep, rich pigeon-blood rubies with a vivid crimson internal glow and crystalline perfection"
  const SapphireStoneDescription := "convert stones into royal cornflower blue sapphires with velvety depth and brilliant crystalline facets"
  const EmeraldStoneDescription := "convert stones into vivid, saturated forest green emeralds with luminous internal clarity and rich grass-green tones"
  const AmethystStoneDescription := "convert stones into deep siberian purple amethysts with brilliant violet and lilac light refractions"
  const SilverMetalDescription := "bright, flawless silver or white gold with sharp, high-contrast chrome-like mirror reflections and cold highlights"
  const GoldMetalDescription := "rich, deeply saturated 18k yellow gold with warm honey tones, brilliant metallic luster, and realistic golden glints"
  const RoseGoldMetalDescription := "premium pink-toned rose gold with warm copper-like metallic reflections and soft luxury sheen"

  // ---------------------------------------------------------------- data URLs

  /** `base64Image.split(';')[0].split(':')[1]`: a MIME type, when there is
      one, holds neither separator. */
  function MimeType(base64Image: string): (r: Option<string>)
    ensures r.Some? ==> ':' !in r.value && ';' !in r.value
  {
    var head := Split(base64Image, ';')[0];
    SplitPartsAvoid(head, ':', ';');
    Field(head, ':', 1)
  }

  /** `base64Image.split(',')[1]`: there is no payload exactly when the URL
      holds no ','; a payload, when there is one, holds no ','. */
  function Payload(base64Image: string): (r: Option<string>)
    ensures r.None? <==> ',' !in base64Image
    ensures r.Some? ==> ',' !in r.value
  {
    Field(base64Image, ',', 1)
  }

  /** The data URL built from a generated part. */
  function DataUrl(mimeType: string, data: string): (url: string)
    ensures |url| >= 5 && url[..5] == "data:"
  {
    "data:" + mimeType + ";base64," + data
  }

  /** The MIME type is the text between the first ':' and the first ';'. */
  lemma MimeTypeBetween(prefix: string, mime: string, rest: string)
    requires ':' !in prefix && ';' !in prefix
    requires ':' !in mime && ';' !in mime
    requires rest == [] || rest[0] == ';'
    ensures MimeType(prefix + [':'] + mime + rest) == Some(mime)
  {
    var head := prefix + [':'] + mime;
    SplitHead(head, rest, ';');
    SplitAfter(prefix, mime, ':');
  }

  /** There is no MIME type exactly when no ':' comes before the first ';'. */
  lemma MimeTypeMissing(base64Image: string)
    ensures MimeType(base64Image).None? <==>
      forall i :: 0 <= i < |base64Image| && base64Image[i] == ':' ==> ';' in base64Image[..i]
  {
  }

  /** The payload is the text after the first ',' up to any following ','. */
  lemma PayloadBetween(prefix: string, data: string, rest: string)
    requires ',' !in prefix && ',' !in data
    requires rest == [] || rest[0] == ','
    ensures Payload(prefix + [','] + data + rest) == Some(data)
  {
    assert prefix + [','] + data + rest == prefix + [','] + (data + rest);
    SplitAfter(prefix, data + rest, ',');
    SplitHead(data, rest, ',');
  }

  /** Taking a data URL built by DataUrl apart gives back its MIME type and
      payload, provided neither holds a separator. */
  lemma DataUrlRoundTrip(mimeType: string, data: string)
    requires ':' !in mimeType && ';' !in mimeType && ',' !in mimeType
    requires ',' !in data
    ensures MimeType(DataUrl(mimeType, data)) == Some(mimeType)
    ensures Payload(DataUrl(mimeType, data)) == Some(data)
  {
    DataUrlMimeType(mimeType, data);
    DataUrlPayload(mimeType, data);
  }

  lemma DataUrlMimeType(mimeType: string, data: string)
    requires ':' !in mimeType && ';' !in mimeType
    ensures MimeType(DataUrl(mimeType, data)) == Some(mimeType)
  {
    var scheme := "data";
    var tail := ";base64," + data;
    assert ':' !in scheme && ';' !in scheme;
    assert tail[0] == ';';
    assert DataUrl(mimeType, data) == scheme + [':'] + mimeType + tail;
    MimeTypeBetween(scheme, mimeType, tail);
  }

  lemma DataUrlPayload(mimeType: string, data: string)
    requires ',' !in mimeType && ',' !in data
    ensures Payload(DataUrl(mimeType, data)) == Some(data)
  {
  }

  // ------------------------------------------------------- prompt descriptions

  /** The metal table; every metal colour has an entry. */
  function MetalTable(metal: MetalColor): (d: Option<string>)
    ensures d.Some?
  {
    match metal
    case Silver => Some(SilverMetalDescription)
    case Gold => Some(GoldMetalDescription)
    case RoseGold => Some(RoseGoldMetalDescription)
  }

  /** The stone table; 'canary' is a stone colour with no entry. */
  function StoneTable(stone: StoneColor): (d: Option<string>)
    ensures d.None? <==> stone.Canary?
  {
    match stone
    case Original => Some(OriginalStoneDescription)
    case Diamond => Some(DiamondStoneDescription)
    case Ruby => Some(RubyStoneDescription)
    case Sapphire => Some(SapphireStoneDescription)
    case Emerald => Some(EmeraldStoneDescription)
    case Amethyst => Some(AmethystStoneDescription)
    case Canary => None
  }

  /** The metal description: the table's entry when a colour is chosen, the generic one otherwise. */
  function MetalDescription(metal: Option<MetalColor>): (d: string)
    ensures metal.Some? ==> Some(d) == MetalTable(metal.value)
    ensures metal.None? ==> d == GenericMetalDescription
  {
    if metal.Some? then MetalTable(metal.value).value else GenericMetalDescription
  }

  /** The stone description: the table's entry when a colour is chosen, the
      'original' entry otherwise; undefined only for 'canary'. */
  function StoneDescription(stone: Option<StoneColor>): (d: Option<string>)
    ensures stone.Some? ==> d == StoneTable(stone.value)
    ensures stone.None? ==> d == StoneTable(Original) && d.Some?
    ensures d.None? <==> stone == Some(Canary)
  {
    if stone.Some? then StoneTable(stone.value) else StoneTable(Original)
  }

  function AspectRatioOrDefault(aspectRatio: Option<AspectRatio>): (a: AspectRatio)
    ensures aspectRatio.Some? ==> a == aspectRatio.value
    ensures aspectRatio.None? ==> a == Ratio1x1
  {
    if aspectRatio.Some? then aspectRatio.value else Ratio1x1
  }

  /** What `retouchJewelryImage` hands to the SDK: the image's parts, the
      choices interpolated into the prompt and the requested aspect ratio. */
  datatype RetouchRequest = RetouchRequest(
    mimeType: Option<string>,
    data: Option<string>,
    background: Background,
    stoneDescription: Option<string>,
    metalDescription: string,
    promptAspectRatio: AspectRatio,
    configAspectRatio: AspectRatio)

  function BuildRetouchRequest(base64Image: string, options: RetouchOptions): (req: RetouchRequest)
    ensures req.mimeType == MimeType(base64Image) && req.data == Payload(base64Image)
    ensures req.background == options.background
    ensures req.metalDescription == MetalDescription(options.metalColor)
    ensures req.stoneDescription == StoneDescription(options.stoneColor)
    ensures req.promptAspectRatio == req.configAspectRatio
    ensures options.aspectRatio.None? ==> req.configAspectRatio == Ratio1x1
    ensures options.aspectRatio.Some? ==> req.configAspectRatio == options.aspectRatio.value
  {
    RetouchRequest(
      MimeType(base64Image), Payload(base64Image), options.background,
      StoneDescription(options.stoneColor), MetalDescription(options.metalColor),
      AspectRatioOrDefault(options.aspectRatio), AspectRatioOrDefault(options.aspectRatio))
  }

  // ----------------------------------------------------------- image responses

  datatype InlineData = InlineData(mimeType: string, data: string)
  datatype Part = Part(inlineData: Option<InlineData>, text: Option<string>)

  /** How the SDK answered: building the client threw with its own message,
      before the `try` opens; `generateContent` threw; or it returned a
      response whose first candidate may or may not carry a list of parts. */
  datatype GenerateResponse = ClientThrew(message: string) | Threw | Returned(parts: Option<seq<Part>>)

  /** Index of the first part that carries inline data. */
  function FirstInlineIndex(parts: seq<Part>): (r: Option<nat>)
    ensures r.None? <==> forall j :: 0 <= j < |parts| ==> parts[j].inlineData.None?
    ensures r.Some? ==> r.value < |parts| && parts[r.value].inlineData.Some?
    ensures r.Some? ==> forall j :: 0 <= j < r.value ==> parts[j].inlineData.None?
  {
    if |parts| == 0 then None
    else if parts[0].inlineData.Some? then Some(0)
    else match FirstInlineIndex(parts[1..])
      case None => None
      case Some(k) => Some(k + 1)
  }

  /** The data URL of the first inline part, or "" when there is none. */
  method ExtractResult(parts: Option<seq<Part>>) returns (resultImage: string)
    ensures parts.None? ==> resultImage == ""
    ensures parts.Some? && FirstInlineIndex(parts.value).None? ==> resultImage == ""
    ensures parts.Some? && FirstInlineIndex(parts.value).Some? ==>
      var inline := parts.value[FirstInlineIndex(parts.value).value].inlineData.value;
      resultImage == DataUrl(inline.mimeType, inline.data)
  {
    resultImage := "";
    if parts.Some? {
      var ps := parts.value;
      var i := 0;
      while i < |ps|
        invariant 0 <= i <= |ps|
        invariant resultImage == ""
        invariant forall j :: 0 <= j < i ==> ps[j].inlineData.None?
      {
        if ps[i].inlineData.Some? {
          var inline := ps[i].inlineData.value;
          resultImage := DataUrl(inline.mimeType, inline.data);
          break;
        }
        i := i + 1;
      }
    }
  }

  /** What `retouchJewelryImage` resolves to for a given SDK response: the
      first inline part as a data URL; an error from building the client,
      which comes before the `try`, with its own message; any other failure
      with the one fixed message. */
  function RetouchResult(response: GenerateResponse): (r: Outcome)
    ensures response.ClientThrew? ==> r == Failure(response.message)
    ensures r.Failure? && !response.ClientThrew? ==> r.error == RetouchFailureMessage
    ensures r.Success? <==>
      response.Returned? && response.parts.Some? && FirstInlineIndex(response.parts.value).Some?
    ensures r.Success? ==>
      var inline := response.parts.value[FirstInlineIndex(response.parts.value).value].inlineData.value;
      r.value == DataUrl(inline.mimeType, inline.data)
  {
    match response
    case ClientThrew(message) => Failure(message)
    case Threw => Failure(RetouchFailureMessage)
    case Returned(parts) =>
      if parts.Some? && FirstInlineIndex(parts.value).Some? then
        var inline := parts.value[FirstInlineIndex(parts.value).value].inlineData.value;
        Success(DataUrl(inline.mimeType, inline.data))
      else Failure(RetouchFailureMessage)
  }

  /** `retouchJewelryImage` with the SDK's answer given as `response`: once
      the client is built, builds the request, extracts the image, and maps
      every error inside the `try` to one message. */
  method RetouchJewelryImage(base64Image: string, options: RetouchOptions, response: GenerateResponse)
    returns (request: Option<RetouchRequest>, result: Outcome)
    ensures request == if response.ClientThrew? then None else Some(BuildRetouchRequest(base64Image, options))
    ensures result == RetouchResult(response)
  {
    if response.ClientThrew? {
      // Building the client comes before the `try`: its error goes out as it is.
      return None, Failure(response.message);
    }
    request := Some(BuildRetouchRequest(base64Image, options));
    var attempt: Outcome;
    if response.Threw? {
      // The SDK's own error; its text is not modelled, as the catch block discards it.
      attempt := Failure(SdkError);
    } else {
      var resultImage := ExtractResult(response.parts);
      if resultImage == "" {
        attempt := Failure(NoImageMessage);
      } else {
        attempt := Success(resultImage);
      }
    }
    // The catch block replaces whatever was thrown by one fixed message.
    if attempt.Failure? {
      result := Failure(RetouchFailureMessage);
    } else {
      result := attempt;
    }
  }

  // ------------------------------------------------------------------- video

  datatype VideoAspect = Landscape16x9 | Portrait9x16

  datatype VideoRequest = VideoRequest(data: Option<string>, mimeType: Option<string>, aspectRatio: VideoAspect)

  /** What `generateJewelryVideo` hands to the SDK; the aspect ratio defaults to 16:9. */
  function BuildVideoRequest(base64Image: string, aspectRatio: Option<VideoAspect>): (req: VideoRequest)
    ensures req.data == Payload(base64Image) && req.mimeType == MimeType(base64Image)
    ensures aspectRatio.None? ==> req.aspectRatio == Landscape16x9
    ensures aspectRatio.Some? ==> req.aspectRatio == aspectRatio.value
  {
    VideoRequest(Payload(base64Image), MimeType(base64Image),
      if aspectRatio.Some? then aspectRatio.value else Landscape16x9)
  }

  /** The playable link: the download link, then "&key=", then the API key.
      A missing or empty link is a failure. */
  function VideoUrl(downloadLink: Option<string>, apiKey: string): (r: Result<string, string>)
    ensures r.Success? <==> downloadLink.Some? && downloadLink.value != ""
    ensures r.Success? ==> r.value == downloadLink.value + "&key=" + apiKey
    ensures r.Failure? ==> r.error == VideoFailureMessage
  {
    if downloadLink.None? || downloadLink.value == "" then Failure(VideoFailureMessage)
    else Success(downloadLink.value + "&key=" + apiKey)
  }
}
