/** The value types shared by the application (types.ts). */
module Types {

  /** A value that may be absent: `null` / `undefined` / an optional property. */
  datatype Option<+T> = None | Some(value: T)

  /** The two film styles a request may ask for. */
  datatype FilmStyle = Cinematic | Animation

  /** How the characters' costumes are to be treated by the generator. */
  datatype CostumeMode = Original | Auto | Sexy

  /** One submission from the input form. The two images are optional and each is
      given as base64 data plus its MIME type. `duration` is a JavaScript number
      (minutes). */
  datatype ScriptRequest = ScriptRequest(
    idea: string,
    duration: real,
    style: FilmStyle,
    imageData: Option<string>,
    imageMimeType: Option<string>,
    optionalImageData: Option<string>,
    optionalImageMimeType: Option<string>,
    costumeMode: CostumeMode)

  /** A Vietnamese/English pair: the unit of every piece of generated prose. */
  datatype PromptItem = PromptItem(vi: string, en: string)

  /** What a successful generation yields; `script` is the ordered list of scenes. */
  datatype GeneratedContent = GeneratedContent(
    title: PromptItem,
    context: seq<PromptItem>,
    generatedCostumePrompt: Option<PromptItem>,
    characters: seq<PromptItem>,
    script: seq<PromptItem>)
}
