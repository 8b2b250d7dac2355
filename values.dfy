/**
 * The values that travel through an action context (a Java Map<String, Object>), and the
 * screenshots and model calls that the core exchanges with its external services.
 */
module Values {
  import opened Wrappers

  /** A captured screen image (a java.awt.image.BufferedImage), known only by identity. */
  datatype Image = Image(id: nat)

  /** The run-time class of a context value. */
  datatype Tag = TextTag | BuilderTag | FlagTag | TextsTag | ImageTag | HandleTag

  /** A context value, tagged with its Java class. */
  datatype Value =
    | Text(text: string)          // java.lang.String
    | Builder(content: string)    // java.lang.StringBuilder
    | Flag(flag: bool)            // java.lang.Boolean
    | Texts(items: seq<string>)   // java.util.List<String>
    | Screenshot(image: Image)    // java.awt.image.BufferedImage
    | Handle(name: string)        // any other object (a context, the action manager)
  {
    function TagOf(): Tag {
      match this
      case Text(_) => TextTag
      case Builder(_) => BuilderTag
      case Flag(_) => FlagTag
      case Texts(_) => TextsTag
      case Screenshot(_) => ImageTag
      case Handle(_) => HandleTag
    }
  }

  /** What a remote model call gives back: a reply (possibly null) or an exception. */
  datatype Reply = Answer(text: Option<string>) | Fault(message: string)

  /** One call made to an external service, in the order the core made them. */
  datatype Call =
    | AnalyzeImage(image: Image, question: Option<string>)
    | GenerateResponse(prompt: string)
    | AnalyzeImageMultimodal(shot: Image, instruction: string)
    | Speak(text: string, voice: Option<string>, language: Option<string>)

  /**
   * The remote model client (api.ApiClient), as total functions from a request to its
   * reply. Network, JSON and timeouts are behind these functions.
   */
  datatype Services = Services(
    analyzeImage: (Image, Option<string>) -> Reply,
    generateResponse: string -> Reply,
    analyzeImageMultimodal: (Image, string) -> Reply)
}
