/**
  The selection logic of the generation service (services/geminiService.ts):
  which instruction, background description and aspect ratio a request
  carries, and how the answer is read back. The generation requests
  themselves and the prompt prose around the selected pieces are outside
  the model; the response is a value.
 */
module Gemini {
  import opened Types
  import Text

  // ---------------------------------------------------------------------
  // Language

  const EnglishInstruction := "OUTPUT LANGUAGE: English."
  const IndonesianInstruction := "OUTPUT LANGUAGE: Indonesian (Bahasa Indonesia). Use formal yet trendy Indonesian suitable for social media."
  const EnglishImageText := "Text should be in English."
  const IndonesianImageText := "If any text is displayed in the image (like for Infographics), it MUST be in Indonesian."

  /** The output-language line of the social-content instruction: Indonesian only for 'id'. */
  function LangInstruction(language: Language): (r: string)
    ensures r == IndonesianInstruction <==> language == Id
    ensures r == EnglishInstruction <==> language != Id
  {
    if language == Id then IndonesianInstruction else EnglishInstruction
  }

  /** The language line of the visual-content prompt: Indonesian only for 'id'. */
  function LangContext(language: Language): (r: string)
    ensures r == IndonesianImageText <==> language == Id
    ensures r == EnglishImageText <==> language != Id
  {
    if language == Id then IndonesianImageText else EnglishImageText
  }

  // ---------------------------------------------------------------------
  // Enhancement prompt pieces

  const WhiteStudio := "clean, studio white background"
  const BlackStudio := "elegant studio black background"
  const GrayStudio := "neutral gray studio background"
  const GreenScreen := "solid bright green background (hex #00FF00) for chroma keying"
  const CustomPrefix := "solid background with color "

  /** The background presets that change the description; every other value keeps the white default. */
  const BackgroundPresets: set<string> := {"Black", "Gray", "Green Screen", "Custom"}

  /**
    The background description of an enhancement prompt, built by the same
    successive reassignments as the service: white unless the preset is
    one of the four named ones; the custom colour is embedded verbatim.
   */
  method BackgroundDescription(settings: EnhanceSettings) returns (description: string)
    ensures settings.backgroundColor == "Black" ==> description == BlackStudio
    ensures settings.backgroundColor == "Gray" ==> description == GrayStudio
    ensures settings.backgroundColor == "Green Screen" ==> description == GreenScreen
    ensures settings.backgroundColor == "Custom" ==>
      description == CustomPrefix + settings.customBackgroundColor
      && Text.Contains(description, settings.customBackgroundColor)
    ensures description == WhiteStudio <==> settings.backgroundColor !in BackgroundPresets
  {
    description := WhiteStudio;
    if settings.backgroundColor == "Black" {
      description := BlackStudio;
    }
    if settings.backgroundColor == "Gray" {
      description := GrayStudio;
    }
    if settings.backgroundColor == "Green Screen" {
      description := GreenScreen;
    }
    if settings.backgroundColor == "Custom" {
      description := CustomPrefix + settings.customBackgroundColor;
      Text.ContainsMiddle(CustomPrefix, settings.customBackgroundColor, "");
      assert description + "" == description;
      assert description[0] != WhiteStudio[0];
    }
  }

  const KeepColors := "Keep the product colors true to life."
  const RecolourHead := "CHANGE PRODUCT COLOR: Change the main product's material color to "
  const RecolourMiddle := ". IMPORTANT: The shape, form, geometry, and texture must remain EXACTLY the same as the original image. Do not morph, distort, or reimagine the object. It must look like the exact same object, just painted "

  /** The colour line of an enhancement prompt: a recolour order naming the colour, or keep the colours when none is set. */
  function ColorInstruction(objectColor: string): (r: string)
    ensures objectColor == "" <==> r == KeepColors
    ensures objectColor != "" ==> Text.Contains(r, objectColor)
  {
    if objectColor != "" then
      var r := RecolourHead + objectColor + (RecolourMiddle + objectColor + ".");
      Text.ContainsMiddle(RecolourHead, objectColor, RecolourMiddle + objectColor + ".");
      assert |RecolourHead| > |KeepColors|;
      r
    else
      KeepColors
  }

  /**
    The aspect ratio sent with an enhancement: the unsupported 4:5 becomes
    3:4, an empty setting becomes 1:1, anything else is sent unchanged.
   */
  function ApiAspectRatio(aspectRatio: string): (r: string)
    ensures aspectRatio == "4:5" ==> r == "3:4"
    ensures aspectRatio == "" ==> r == "1:1"
    ensures aspectRatio != "4:5" && aspectRatio != "" ==> r == aspectRatio
    ensures r != "" && r != "4:5"
  {
    var mapped := if aspectRatio == "4:5" then "3:4" else aspectRatio;
    if mapped != "" then mapped else "1:1"
  }

  // ---------------------------------------------------------------------
  // Responses

  /** Inline data of a response part; the payload may be missing. */
  datatype InlineData = InlineData(mimeType: string, data: Option<string>)
  datatype Part = Part(inlineData: Option<InlineData>, text: Option<string>)
  datatype Candidate = Candidate(parts: seq<Part>)
  datatype ImageResponse = ImageResponse(candidates: seq<Candidate>)

  /** Why no image came back: no part carried inline data, or there was no candidate to read at all. */
  datatype ImageFailure = NoImageGenerated | NoCandidate

  const PngDataUrlPrefix := "data:image/png;base64,"

  /** The data URL built from a payload; a missing payload is rendered as the text "undefined" by the template. */
  function PngDataUrl(data: Option<string>): (r: string)
    ensures |r| >= |PngDataUrlPrefix| && r[..|PngDataUrlPrefix|] == PngDataUrlPrefix
    ensures r == DataUrl("image/png", data.GetOr("undefined"))
  {
    assert PngDataUrlPrefix == "data:" + "image/png" + ";base64,";
    PngDataUrlPrefix + data.GetOr("undefined")
  }

  /** The payload of a generated image reads back from its data URL when it has no comma. */
  lemma PngDataUrlReadBack(d: string)
    requires ',' !in d
    ensures Base64Payload(PngDataUrl(Some(d))) == Some(d)
  {
    Base64OfDataUrl("image/png", d);
  }

  /** The error text thrown when no part carries an image. */
  function FailureMessage(f: ImageFailure): string {
    match f
    case NoImageGenerated => "No image generated."
    case NoCandidate => "Cannot read properties of undefined (reading 'content')"
  }

  /**
    The image of a response: the parts of the first candidate are scanned in
    order and the first one with inline data gives the result; no such part
    is the "No image generated." error. Both image requests read their
    answers this way.
   */
  method FirstImage(response: ImageResponse) returns (r: Result<string, ImageFailure>)
    ensures response.candidates == [] ==> r == Err(NoCandidate)
    ensures response.candidates != [] ==>
      var parts := response.candidates[0].parts;
      && (r.Ok? <==> exists k :: 0 <= k < |parts| && parts[k].inlineData.Some?)
      && (r.Err? ==> r.error == NoImageGenerated)
      && (r.Ok? ==> exists k :: 0 <= k < |parts| && parts[k].inlineData.Some?
                      && (forall m :: 0 <= m < k ==> parts[m].inlineData.None?)
                      && r.value == PngDataUrl(parts[k].inlineData.value.data))
  {
    if response.candidates == [] {
      return Err(NoCandidate);
    }
    var parts := response.candidates[0].parts;
    for i := 0 to |parts|
      invariant forall m :: 0 <= m < i ==> parts[m].inlineData.None?
    {
      if parts[i].inlineData.Some? {
        return Ok(PngDataUrl(parts[i].inlineData.value.data));
      }
    }
    return Err(NoImageGenerated);
  }

  const NoResponse := "No response from Gemini"

  /** The text of a social-content response; absent or empty text is the "No response from Gemini" error. */
  function ResponseText(text: Option<string>): (r: Result<string, string>)
    ensures r.Ok? <==> Truthy(text)
    ensures r.Ok? ==> r.value == text.value
    ensures r.Err? ==> r.error == NoResponse
  {
    if Truthy(text) then Ok(text.value) else Err(NoResponse)
  }

  // ---------------------------------------------------------------------
  // Reading a file as base64

  /** `dataUrl.split(',')[1]`: `None` is undefined. */
  function Base64Payload(dataUrl: string): (r: Option<string>)
    ensures r.None? <==> ',' !in dataUrl
    ensures r.Some? ==> ',' !in r.value
  {
    Text.SecondField(dataUrl, ',')
  }

  /** The data URL of a file: its header, a comma and the payload. */
  function DataUrl(mimeType: string, payload: string): string {
    "data:" + mimeType + ";base64," + payload
  }

  /**
    The payload read back is everything after the header's comma up to the
    next comma: the whole payload when it has no comma.
   */
  lemma {:induction false} Base64OfDataUrl(mimeType: string, payload: string)
    requires ',' !in mimeType
    ensures Base64Payload(DataUrl(mimeType, payload)) == Some(Text.UpTo(payload, ','))
    ensures ',' !in payload ==> Base64Payload(DataUrl(mimeType, payload)) == Some(payload)
  {
    var head := "data:" + mimeType + ";base64";
    assert ',' !in head by {
      forall k | 0 <= k < |head| ensures head[k] != ',' {
        if k >= 5 && k < 5 + |mimeType| {
          assert head[k] == mimeType[k - 5];
        }
      }
    }
    assert DataUrl(mimeType, payload) == head + [','] + payload;
    Text.AfterFirstOf(head, payload, ',');
    var u := Text.UpTo(payload, ',');
    if ',' !in payload {
      assert u == payload;
    }
  }
}
