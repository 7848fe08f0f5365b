/** The request/response adapter around the generative-AI service (services/geminiService.ts).
    The service itself, `JSON.parse` and the environment are not modelled: the key, the reply and
    the parser are parameters. */
module Gemini {
  import opened Wrappers
  import opened Text
  import opened Types

  const ApiKeyMissing := "API_KEY environment variable is not set."
  const DiagnosisFailed := "Failed to get diagnosis. Please try again."
  const SearchFailed := "Failed to find nearby technicians. The service might be unavailable in your area."
  const ModelName := "gemini-2.5-flash"

  /** The outcome of a call into the service: the value it returned, or an exception. */
  datatype Call<T> = Returned(value: T) | Threw

  /** A photo as the form hands it over: base64 data and its MIME type. */
  datatype ImagePayload = ImagePayload(base64: string, mimeType: string)

  datatype InlineData = InlineData(data: string, mimeType: string)

  /** One part of a multimodal prompt. */
  datatype Part = TextPart(text: string) | InlinePart(inlineData: InlineData)

  /** The diagnosis request sent to the service. */
  datatype DiagnosisRequest = DiagnosisRequest(model: string, parts: seq<Part>)

  /** `!process.env.API_KEY` is false: the variable is set and not empty. */
  predicate KeyPresent(apiKey: Option<string>) {
    apiKey.Some? && apiKey.value != ""
  }

  /** `fileToGenerativePart`. */
  function FileToGenerativePart(base64: string, mimeType: string): (p: Part)
    ensures p.InlinePart? && p.inlineData.data == base64 && p.inlineData.mimeType == mimeType
  {
    InlinePart(InlineData(base64, mimeType))
  }

  /** The text part of the diagnosis prompt. The user's description is its tail, after a fixed
      sentence naming the appliance, so it reaches the service unaltered. */
  function TextPrompt(applianceName: string, description: string): (p: string)
    ensures var lead := "My " + applianceName + " is having an issue. Here is the description: ";
      |p| == |lead| + |description| && p[..|lead|] == lead && p[|lead|..] == description
  {
    "My " + applianceName + " is having an issue. Here is the description: " + description
  }

  /** The parts list of `diagnoseAppliance`: the text part, with the image part put in front
      when there is an image. */
  method BuildParts(applianceName: string, description: string, image: Option<ImagePayload>)
    returns (parts: seq<Part>)
    ensures image.None? ==> parts == [TextPart(TextPrompt(applianceName, description))]
    ensures image.Some? ==> (|parts| == 2 &&
      parts[0] == FileToGenerativePart(image.value.base64, image.value.mimeType) &&
      parts[1] == TextPart(TextPrompt(applianceName, description)))
  {
    parts := [TextPart(TextPrompt(applianceName, description))];
    if image.Some? {
      var imagePart := FileToGenerativePart(image.value.base64, image.value.mimeType);
      parts := [imagePart] + parts;
    }
  }

  /** `diagnoseAppliance`. Without a key it fails before building any request; otherwise it
      sends the request and passes on the service's text, or turns any exception into one fixed
      message. */
  method DiagnoseAppliance(apiKey: Option<string>, applianceName: string, description: string,
                           image: Option<ImagePayload>, reply: Call<string>)
    returns (request: Option<DiagnosisRequest>, result: Result<string, string>)
    ensures !KeyPresent(apiKey) ==> request == None && result == Failure(ApiKeyMissing)
    ensures KeyPresent(apiKey) ==> request.Some? && request.value.model == ModelName
    ensures KeyPresent(apiKey) && image.None? ==>
      request.value.parts == [TextPart(TextPrompt(applianceName, description))]
    ensures KeyPresent(apiKey) && image.Some? ==>
      request.value.parts == [FileToGenerativePart(image.value.base64, image.value.mimeType),
                              TextPart(TextPrompt(applianceName, description))]
    ensures KeyPresent(apiKey) ==>
      result == (if reply.Returned? then Success(reply.value) else Failure(DiagnosisFailed))
  {
    if !KeyPresent(apiKey) {
      return None, Failure(ApiKeyMissing);
    }
    var parts := BuildParts(applianceName, description, image);
    request := Some(DiagnosisRequest(ModelName, parts));
    match reply {
      case Returned(text) => result := Success(text);
      case Threw => result := Failure(DiagnosisFailed);
    }
  }

  /** The Maps data of a grounding chunk. */
  datatype MapsSource = MapsSource(title: string, uri: string)
  datatype GroundingChunk = GroundingChunk(maps: Option<MapsSource>)
  datatype GroundingMetadata = GroundingMetadata(groundingChunks: Option<seq<GroundingChunk>>)
  datatype Candidate = Candidate(groundingMetadata: Option<GroundingMetadata>)

  /** The parts of the service's reply that the adapter reads. */
  datatype Response = Response(text: string, candidates: Option<seq<Candidate>>)

  /** A place the reply was grounded in. */
  datatype Place = Place(title: string, uri: string)

  /** `response.candidates?.[0]?.groundingMetadata?.groundingChunks || []`: the first
      candidate's chunks when every link of the chain is present, and none otherwise. */
  function GroundingChunks(response: Response): (chunks: seq<GroundingChunk>)
    ensures (response.candidates.None? || response.candidates.value == [] ||
             response.candidates.value[0].groundingMetadata.None? ||
             response.candidates.value[0].groundingMetadata.value.groundingChunks.None?) ==> chunks == []
    ensures response.candidates.Some? && response.candidates.value != [] &&
            response.candidates.value[0].groundingMetadata.Some? &&
            response.candidates.value[0].groundingMetadata.value.groundingChunks.Some? ==>
            chunks == response.candidates.value[0].groundingMetadata.value.groundingChunks.value
  {
    match response.candidates
    case None => []
    case Some(cs) =>
      if cs == [] then []
      else match cs[0].groundingMetadata
        case None => []
        case Some(m) => match m.groundingChunks
          case None => []
          case Some(chunks) => chunks
  }

  /** `placeDetails`: the chunks that carry Maps data, in order, as places. */
  function PlaceDetails(chunks: seq<GroundingChunk>): (places: seq<Place>)
    ensures |places| <= |chunks|
    ensures forall p :: p in places ==> exists c :: c in chunks && c.maps == Some(MapsSource(p.title, p.uri))
  {
    if chunks == [] then []
    else
      var rest := PlaceDetails(chunks[1..]);
      match chunks[0].maps
      case None => rest
      case Some(m) => [Place(m.title, m.uri)] + rest
  }

  /** `placeDetails` works chunk by chunk, so it keeps the order of the chunks. */
  lemma {:induction false} PlaceDetailsAppend(xs: seq<GroundingChunk>, ys: seq<GroundingChunk>)
    ensures PlaceDetails(xs + ys) == PlaceDetails(xs) + PlaceDetails(ys)
  {
    if xs != [] {
      assert (xs + ys)[1..] == xs[1..] + ys;
      PlaceDetailsAppend(xs[1..], ys);
    } else {
      assert xs + ys == ys;
    }
  }

  /** One chunk gives one place when it carries Maps data and none otherwise. */
  lemma PlaceDetailsSingle(c: GroundingChunk)
    ensures PlaceDetails([c]) == if c.maps.Some? then [Place(c.maps.value.title, c.maps.value.uri)] else []
  {
  }

  /** `response.text.trim().replace(/^```json|```$/g, '')`: the regular expression can match
      `\`\`\`json` at the start and `\`\`\`` at the end, and the second match cannot overlap the
      first. The result is a piece of the trimmed reply: nothing is cut from the front unless
      it opens with the marker, and nothing from the end unless it closes with one. */
  function StripFence(reply: string): (r: string)
    ensures |r| <= |Trim(reply)|
    ensures !StartsWith(Trim(reply), "```json") ==> StartsWith(Trim(reply), r)
    ensures !EndsWith(Trim(reply), "```") ==> EndsWith(Trim(reply), r)
  {
    var t := Trim(reply);
    var rest := if StartsWith(t, "```json") then t[7..] else t;
    if EndsWith(rest, "```") then rest[..|rest| - 3] else rest
  }

  /** Removing the fence undoes adding it. */
  lemma StripFenceOfFenced(body: string)
    ensures StripFence("```json" + body + "```") == body
  {
    var f := "```json" + body + "```";
    assert f[0] == '`' && f[|f| - 1] == '`';
    TrimUnpadded(f);
    assert f[..7] == "```json";
    assert f[7..] == body + "```";
    assert (body + "```")[..|body|] == body;
  }

  /** An unfenced reply is only trimmed. */
  lemma StripFenceUnfenced(reply: string)
    requires !StartsWith(Trim(reply), "```json") && !EndsWith(Trim(reply), "```")
    ensures StripFence(reply) == Trim(reply)
  {
  }

  /** The fence markers are removed independently: a reply with only the opening marker loses
      just that, and one with only the closing marker loses just that. */
  lemma StripFenceOneSided(reply: string)
    ensures var t := Trim(reply);
      (StartsWith(t, "```json") && !EndsWith(t, "```") ==> StripFence(reply) == t[7..]) &&
      (!StartsWith(t, "```json") && EndsWith(t, "```") ==> StripFence(reply) == t[..|t| - 3])
  {
    var t := Trim(reply);
    if StartsWith(t, "```json") && |t| >= 10 {
      assert t[|t| - 3..] == t[7..][|t| - 10..];
    }
  }

  /** The match test: the technician's name includes the place's title or the other way round. */
  predicate NameMatchesTitle(name: string, title: string) {
    Contains(name, title) || Contains(title, name)
  }

  /** `placeDetails.find(...)`: the first place whose title matches the name. */
  function FirstMatchingPlace(places: seq<Place>, name: string): (r: Option<Place>)
    ensures r.Some? ==> r.value in places && NameMatchesTitle(name, r.value.title)
    ensures r.None? <==> forall p :: p in places ==> !NameMatchesTitle(name, p.title)
  {
    if places == [] then None
    else if NameMatchesTitle(name, places[0].title) then Some(places[0])
    else FirstMatchingPlace(places[1..], name)
  }

  /** The place found is the first matching one: none before it matches. */
  lemma {:induction false} FirstMatchingPlaceIsFirst(places: seq<Place>, name: string, i: int)
    requires 0 <= i < |places| && NameMatchesTitle(name, places[i].title)
    requires forall j :: 0 <= j < i ==> !NameMatchesTitle(name, places[j].title)
    ensures FirstMatchingPlace(places, name) == Some(places[i])
  {
    if i > 0 {
      FirstMatchingPlaceIsFirst(places[1..], name, i - 1);
    }
  }

  /** The callback of the merge for one technician: its fields kept, `mapsUrl` set to the uri
      of the first place whose title matches its name, or cleared when none does. */
  function MergeOne(tech: Technician, places: seq<Place>): (m: Technician)
    ensures m.name == tech.name && m.address == tech.address && m.phone == tech.phone
    ensures m.mapsUrl.Some? <==> exists p :: p in places && NameMatchesTitle(tech.name, p.title)
    ensures forall j ::
      (0 <= j < |places| && NameMatchesTitle(tech.name, places[j].title) &&
       (forall k :: 0 <= k < j ==> !NameMatchesTitle(tech.name, places[k].title))) ==>
      m.mapsUrl == Some(places[j].uri)
  {
    var found := FirstMatchingPlace(places, tech.name);
    assert forall j ::
      (0 <= j < |places| && NameMatchesTitle(tech.name, places[j].title) &&
       (forall k :: 0 <= k < j ==> !NameMatchesTitle(tech.name, places[k].title))) ==>
      found == Some(places[j])
    by {
      forall j | 0 <= j < |places| && NameMatchesTitle(tech.name, places[j].title) &&
        (forall k :: 0 <= k < j ==> !NameMatchesTitle(tech.name, places[k].title))
      {
        FirstMatchingPlaceIsFirst(places, tech.name, j);
      }
    }
    tech.(mapsUrl := if found.Some? then Some(found.value.uri) else None)
  }

  /** `technicians.map(tech => ({...tech, mapsUrl: matchingPlace?.uri}))`: same length and
      order, `name`, `address` and `phone` untouched, and `mapsUrl` replaced by the uri of the
      first matching place, or cleared when no place matches. */
  function MergePlaces(technicians: seq<Technician>, places: seq<Place>): (r: seq<Technician>)
    ensures |r| == |technicians|
    ensures forall i :: 0 <= i < |r| ==>
      r[i].name == technicians[i].name && r[i].address == technicians[i].address &&
      r[i].phone == technicians[i].phone
    ensures forall i :: 0 <= i < |r| ==>
      (r[i].mapsUrl.Some? <==> exists p :: p in places && NameMatchesTitle(technicians[i].name, p.title))
    ensures forall i, j ::
      (0 <= i < |r| && 0 <= j < |places| && NameMatchesTitle(technicians[i].name, places[j].title) &&
       (forall k :: 0 <= k < j ==> !NameMatchesTitle(technicians[i].name, places[k].title))) ==>
      r[i].mapsUrl == Some(places[j].uri)
  {
    seq(|technicians|, i requires 0 <= i < |technicians| => MergeOne(technicians[i], places))
  }

  /** The prompt of `findNearbyTechnicians`: a fixed request naming the appliance, then fixed
      instructions asking for a bare JSON array of `name`, `address` and `phone` records. */
  const SearchPromptLead := "Find appliance repair shops near the provided location that can service a "
  const SearchPromptTail := Join([
    ".",
    "    ",
    "    Return your response as a valid JSON array of objects. Each object should represent a single business and have the following properties: \"name\", \"address\", and \"phone\".",
    "    ",
    "    Example format:",
    "    [",
    "      {",
    "        \"name\": \"Example Appliance Repair\",",
    "        \"address\": \"123 Main St, Anytown, USA\",",
    "        \"phone\": \"555-123-4567\"",
    "      }",
    "    ]",
    "    ",
    "    Only return the raw JSON array, with no other text, explanations, or markdown formatting."], '\n')

  /** The three parts of a concatenation can be read back by position. */
  lemma ConcatenationParts(a: string, b: string, c: string)
    ensures (a + b + c)[..|a|] == a && (a + b + c)[|a|..|a| + |b|] == b && (a + b + c)[|a| + |b|..] == c
  {
    assert (a + b + c)[..|a|] == a;
  }

  /** The appliance name sits between the fixed lead and the fixed instructions, verbatim. */
  function SearchPrompt(applianceName: string): (p: string)
    ensures |p| == |SearchPromptLead| + |applianceName| + |SearchPromptTail|
    ensures p[..|SearchPromptLead|] == SearchPromptLead
    ensures p[|SearchPromptLead|..|SearchPromptLead| + |applianceName|] == applianceName
    ensures p[|SearchPromptLead| + |applianceName|..] == SearchPromptTail
  {
    ConcatenationParts(SearchPromptLead, applianceName, SearchPromptTail);
    SearchPromptLead + applianceName + SearchPromptTail
  }

  /** The user's position as the geolocation request reports it. */
  datatype Location = Location(latitude: real, longitude: real)

  /** The tools a request may enable; the search enables Maps grounding. */
  datatype Tool = GoogleMaps

  /** The search request sent to the service: the model, the prompt as the whole contents, the
      Maps tool, and the user's position as the retrieval location. */
  datatype SearchRequest = SearchRequest(model: string, contents: string, tools: seq<Tool>, latLng: Location)

  /** `findNearbyTechnicians`. Without a key it fails before building any request; otherwise it
      sends the Maps-grounded request, and an exception from the service or from parsing gives one
      fixed message, while a parsed list is returned merged with the places of the grounding
      data. */
  method FindNearbyTechnicians(apiKey: Option<string>, applianceName: string, location: Location,
                               reply: Call<Response>, parse: string -> Option<seq<Technician>>)
    returns (request: Option<SearchRequest>, result: Result<seq<Technician>, string>)
    ensures !KeyPresent(apiKey) ==> request == None && result == Failure(ApiKeyMissing)
    ensures KeyPresent(apiKey) ==>
      request == Some(SearchRequest(ModelName, SearchPrompt(applianceName), [GoogleMaps], location))
    ensures KeyPresent(apiKey) && reply.Threw? ==> result == Failure(SearchFailed)
    ensures KeyPresent(apiKey) && reply.Returned? && parse(StripFence(reply.value.text)).None? ==>
      result == Failure(SearchFailed)
    ensures KeyPresent(apiKey) && reply.Returned? && parse(StripFence(reply.value.text)).Some? ==>
      result == Success(MergePlaces(parse(StripFence(reply.value.text)).value,
                                    PlaceDetails(GroundingChunks(reply.value))))
  {
    if !KeyPresent(apiKey) {
      return None, Failure(ApiKeyMissing);
    }
    request := Some(SearchRequest(ModelName, SearchPrompt(applianceName), [GoogleMaps], location));
    match reply {
      case Threw =>
        result := Failure(SearchFailed);
      case Returned(response) =>
        var places := PlaceDetails(GroundingChunks(response));
        match parse(StripFence(response.text)) {
          case None => result := Failure(SearchFailed);
          case Some(technicians) => result := Success(MergePlaces(technicians, places));
        }
    }
  }
}
