/**
  The records and enumerations shared by the planner, the enhancement
  workspace and the services (types.ts, plus the GridItem, UserProfile and
  Language types that the components import).
 */
module Types {

  datatype Option<+T> = None | Some(value: T) {
    function GetOr(default: T): T {
      match this
      case Some(v) => v
      case None => default
    }
  }

  datatype Result<+T, +E> = Ok(value: T) | Err(error: E)

  /** JavaScript truthiness of an optional string: absent and '' are both falsy. */
  predicate Truthy(s: Option<string>) {
    s.Some? && s.value != ""
  }

  /** `a || b || null` over optional strings. */
  function FirstTruthy(a: Option<string>, b: Option<string>): (r: Option<string>)
    ensures Truthy(a) ==> r == a
    ensures !Truthy(a) && Truthy(b) ==> r == b
    ensures !Truthy(a) && !Truthy(b) ==> r == None
  {
    if Truthy(a) then a else if Truthy(b) then b else None
  }

  /** A browser `File`: only the name and the MIME type are observed by the model. */
  datatype File = File(name: string, mimeType: string)

  datatype Platform = Instagram | TikTok | Threads

  /** The string value of each Platform member. */
  function PlatformValue(p: Platform): string {
    match p
    case Instagram => "Instagram"
    case TikTok => "TikTok"
    case Threads => "Threads"
  }

  datatype VisualStyle = Microblog | Typography | Showcase | Aesthetic | Collage | Infographic | Meme

  /** The string value of each VisualStyle member. */
  function StyleValue(s: VisualStyle): string {
    match s
    case Microblog => "Microblog"
    case Typography => "Typography"
    case Showcase => "Showcase"
    case Aesthetic => "Aesthetic"
    case Collage => "Collage"
    case Infographic => "Data Infographic"
    case Meme => "Meme"
  }

  /** Two platforms with the same string value are the same platform. */
  lemma PlatformValuesDistinct(a: Platform, b: Platform)
    ensures PlatformValue(a) == PlatformValue(b) ==> a == b
  {
  }

  /** The seven style values are pairwise distinct. */
  lemma StyleValuesDistinct(a: VisualStyle, b: VisualStyle)
    ensures StyleValue(a) == StyleValue(b) ==> a == b
  {
  }

  /** Only the infographic style has a space in its value. */
  lemma StyleValueSpace(s: VisualStyle)
    ensures ' ' in StyleValue(s) <==> s == Infographic
  {
    if s == Infographic {
      assert StyleValue(s)[4] == ' ';
    }
  }

  datatype VideoIdea = VideoIdea(title: string, script: string, storyboard: string)

  datatype GeneratedContent = GeneratedContent(
    headline: string,
    hook: string,
    caption: string,
    callToAction: string,
    videoIdeas: seq<VideoIdea>)

  datatype Language = En | Id

  /** Settings of the enhancement workspace; only the frame file may be absent. */
  datatype EnhanceSettings = EnhanceSettings(
    aspectRatio: string,
    backgroundColor: string,
    customBackgroundColor: string,
    objectColor: string,
    frameFile: Option<File>)

  datatype JobStatus = Idle | Processing | Completed | Error

  /** The status does not determine resultUrl or error: both are free optional fields. */
  datatype EnhanceJob = EnhanceJob(
    id: string,
    originalFile: File,
    previewUrl: string,
    status: JobStatus,
    resultUrl: Option<string>,
    error: Option<string>)

  /** One planner slot. */
  datatype GridItem = GridItem(
    id: string,
    url: Option<string>,
    file: Option<File>,
    caption: string,
    storagePath: Option<string>)

  /** The Firestore profile document of an account; createdAt is a timestamp in milliseconds. */
  datatype UserProfile = UserProfile(
    uid: string,
    email: Option<string>,
    displayName: Option<string>,
    photoURL: Option<string>,
    createdAt: nat,
    storagePath: Option<string>)
}
