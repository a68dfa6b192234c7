/** The app's shared record types and the values a failed call throws. */
module Types {

  /** The two stored credentials. */
  datatype ApiKeys = ApiKeys(visionApiKey: string, claudeApiKey: string)

  /** One recognised entry: the characters and their reading in hiragana. */
  datatype RecognizedKanji = RecognizedKanji(character: string, reading: string)

  /** The four screens of the app. */
  datatype Screen = HomeScreen | CameraScreen | ResultScreen | SettingsScreen

  /**
   * What a rejected promise or a `throw` carries: an `Error` object (with its message)
   * or any other value.
   */
  datatype Thrown = ErrorObject(message: string) | NonError

  /** `response.ok` of the Fetch API. */
  predicate IsOkStatus(status: int) {
    200 <= status <= 299
  }
}
