# OnBorder onboarding: block decoding and view-model model

This project models the core of the OnBorder iOS onboarding flow in Dafny.

- **The screen data model and its JSON decoding** (`Models.swift`). A `Screen` holds a
  `ScreenContent`, which holds an ordered list of `Block`s. Each block carries a `type` tag
  and a `BlockData` payload. `BlockData`'s hand-written decoder never looks at the tag. It
  tries the five payload structs in the fixed order image, header, button, paragraph, list.
  It keeps the first one that decodes, and throws "Invalid block data" when none does.
- **The onboarding view model** (`OnboardingScreen.swift`). The load `state` is set by the
  fetch callbacks. The `isOnboarding` flag is cleared by `showAppMain`. `buttonAction`
  dispatches on the closed `ButtonAction` enum; in the model this method is `HandleButtonAction`, to keep it apart from the `ButtonAction` datatype.

The files:

- `wrappers.dfy`: `Option` and `Result`. `Result` is failure-compatible, so `:-` plays the
  role of Swift's `try`.
- `json.dfy`: an already-parsed JSON value (`JValue`). It also holds the rules by which
  Foundation's `JSONDecoder` reads primitive fields. A missing key is `keyNotFound`; `null`
  is `valueNotFound`; a wrong JSON type is `typeMismatch`; an `Int` outside 64 bits is
  `dataCorrupted`; a `[String]` fails on its first non-string element. Other keys are
  ignored.
- `models.dfy`: the records, the five synthesized payload decoders, `DecodeBlockData`, and
  the decoders of `Block`, `[Block]`, `ScreenContent` and `Screen`. The payload shapes are
  also stated declaratively: `Fits(v, s)` says that a JSON value has every field shape `s`
  declares, with the declared type. `Build(v, s)` reads the payload out of such a value.
  `DECODE_ORDER` is the priority list. Every decoder is specified against these definitions.
- `decoder_properties.dfy`: what first-match decoding implies. It covers overlapping shapes,
  no shape, extra keys, a `type` tag that disagrees with the data, and block failures
  reaching the screen.
- `onboarding.dfy`: the view model as a class. It has fields `state` and `isOnboarding`, and
  a ghost list `conversions` of the screen ids handed to the repository's `logConversion`.

## Model

| member | source | states |
|---|---|---|
| `Json.AsStrings` | OnBorder/Onboarding/Models/Models.swift:70 | a `[String]` decodes iff every element is a string; the result keeps the length, the order and every element |
| `Json.DecodeString` | OnBorder/Onboarding/Models/Models.swift:64-66 | a `String` field decodes iff the key is present with a JSON string, and yields that string |
| `Json.DecodeBool` | OnBorder/Onboarding/Models/Models.swift:51-57 | a `Bool` field decodes iff the key is present with a JSON `true` or `false`, and yields it |
| `Json.DecodeStrings` | OnBorder/Onboarding/Models/Models.swift:68-71 | a `[String]` field decodes iff the key is present with an array of strings only; the result keeps length, order and elements |
| `Json.DecodeInt` | OnBorder/Onboarding/Models/Models.swift:59-62 | an `Int` field decodes iff the key is present with a JSON number that fits in 64 bits, and yields that number |
| `Models.ParseBlockType` | OnBorder/Onboarding/Models/Models.swift:15-17 | `BlockType(rawValue:)` recognises exactly the five raw strings; a recognised tag's raw value is the input |
| `Models.DecodeBlockType` | OnBorder/Onboarding/Models/Models.swift:15-21 | the `type` field decodes iff it is present as a string equal to one of the five raw values |
| `Models.DecodeImageData` | OnBorder/Onboarding/Models/Models.swift:51-57 | `ImageData` decodes iff the payload has string `url` and `caption` and boolean `withBorder`, `withBackground` and `stretched`; it carries those values |
| `Models.DecodeHeaderData` | OnBorder/Onboarding/Models/Models.swift:59-62 | `HeaderData` decodes iff the payload has a string `text` and a 64-bit integer `level`; it carries them |
| `Models.DecodeParagraphData` | OnBorder/Onboarding/Models/Models.swift:64-66 | `ParagraphData` decodes iff the payload has a string `text`; it carries it |
| `Models.DecodeListData` | OnBorder/Onboarding/Models/Models.swift:68-71 | `ListData` decodes iff the payload has a string `style` and an `items` array of strings only; it carries them in order |
| `Models.DecodeButtonData` | OnBorder/Onboarding/Models/Models.swift:73-76 | `ButtonData` decodes iff the payload has string `link` and `text`; it carries them |
| `Models.DecodeBlockData` | OnBorder/Onboarding/Models/Models.swift:32-48 | decoding succeeds iff some shape fits; the result is the payload of a fitting shape with no earlier shape in image, header, button, paragraph, list order fitting; failure is always "Invalid block data" |
| `Models.DecodeBlock` | OnBorder/Onboarding/Models/Models.swift:19-23 | a block decodes iff it is an object with a string `id`, a `type` naming one of the five block types and a `data` key whose payload decodes; `data` is decoded from the payload alone |
| `Models.DecodeBlocks` | OnBorder/Onboarding/Models/Models.swift:9-13 | the block array decodes iff every block decodes; the result keeps length and order; on failure the error is that of the first failing block |
| `Models.DecodeScreenContent` | OnBorder/Onboarding/Models/Models.swift:9-13 | content decodes iff `time` is a 64-bit integer, `blocks` an array whose blocks all decode and `version` a string; it carries them |
| `Models.DecodeScreen` | OnBorder/Onboarding/Models/Models.swift:3-7 | a screen decodes iff `id` is a 64-bit integer, `name` a string and `content` decodes; it carries them |
| `DecoderProperties.EarliestFitIsDecoded` | OnBorder/Onboarding/Models/Models.swift:35-44 | if a shape fits and no earlier shape does, decoding yields exactly that shape's payload (converse of `DecodeBlockData`) |
| `DecoderProperties.FailsIffNothingFits` | OnBorder/Onboarding/Models/Models.swift:45-46 | decoding fails exactly when no shape fits, and then with "Invalid block data"; it never defaults to a variant |
| `DecoderProperties.ParagraphIsLooserThanHeaderAndButton` | OnBorder/Onboarding/Models/Models.swift:59-76 | every payload fitting header or button also fits paragraph, which is why the order decides |
| `DecoderProperties.HeaderIsNeverParagraph` | OnBorder/Onboarding/Models/Models.swift:37-42 | a payload with string `text` and integer `level` decodes, never as paragraph; when it is not an image it is that header |
| `DecoderProperties.ButtonIsNeverParagraph` | OnBorder/Onboarding/Models/Models.swift:39-42 | a payload with string `link` and `text` decodes, never as paragraph; when it is neither image nor header it is that button |
| `DecoderProperties.TextAloneIsParagraph` | OnBorder/Onboarding/Models/Models.swift:41-42 | string `text` without integer `level` or string `link` (and not an image) decodes as that paragraph |
| `DecoderProperties.ParagraphBeatsList` | OnBorder/Onboarding/Models/Models.swift:41-44 | a list payload that also has a string `text` (and fits no earlier shape) decodes as paragraph, not list |
| `DecoderProperties.ListNeedsStringItems` | OnBorder/Onboarding/Models/Models.swift:68-71 | one non-string element of `items` makes `ListData` fail, so the block is never a list |
| `DecoderProperties.FitsReadsOnlyDeclaredKeys` | OnBorder/Onboarding/Models/Models.swift:51-76 | whether a payload fits a shape, and what it builds, depends only on the keys that shape declares |
| `DecoderProperties.UndeclaredKeyIsIgnored` | OnBorder/Onboarding/Models/Models.swift:32-48 | adding or changing a key that no shape declares leaves the decoding result unchanged |
| `DecoderProperties.TypeTagDoesNotSelectVariant` | OnBorder/Onboarding/Models/Models.swift:19-23 | any two recognised `type` tags give the same success or failure and the same `data` for one payload |
| `DecoderProperties.UnknownTypeTagFails` | OnBorder/Onboarding/Models/Models.swift:15-23 | a `type` string outside the five raw values fails the block whatever its data |
| `DecoderProperties.TagAndVariantMayDisagree` | OnBorder/Onboarding/Models/Models.swift:21-22 | a block tagged "image" with data `{"text": "hi"}` decodes with type image and paragraph data |
| `DecoderProperties.BadBlockFailsScreen` | OnBorder/Onboarding/Models/Models.swift:3-13 | one block that fails to decode makes the whole screen fail |
| `DecoderProperties.ScreenKeepsBlockOrder` | OnBorder/Onboarding/Models/Models.swift:9-13 | a decoded screen has one block per payload entry, each the decoding of the entry at the same index |
| `DecoderProperties.WelcomeScreenDecodes` | OnBorder/Onboarding/Models/Models.swift:3-23 | a screen with one header block "Welcome" decodes to that screen with that header |
| `Onboarding.ParseButtonAction` | OnBorder/Onboarding/Screens/OnboardingScreen.swift:10-12 | `ButtonAction(rawValue:)` recognises exactly "onboardingComplete" and nothing else |
| `Onboarding.ButtonActionRoundTrip` | OnBorder/Onboarding/Screens/OnboardingScreen.swift:10-12 | parsing a member's raw value gives that member back |
| `Onboarding.OnboardingViewModel.constructor` | OnBorder/Onboarding/Screens/OnboardingScreen.swift:14-27 | a new view model is in state loading, with the given onboarding flag and no conversions |
| `Onboarding.OnboardingViewModel.ReceiveValue` | OnBorder/Onboarding/Screens/OnboardingScreen.swift:39-41 | a received screen becomes state `loaded(screen)`, whatever the previous state; nothing else changes |
| `Onboarding.OnboardingViewModel.ReceiveCompletion` | OnBorder/Onboarding/Screens/OnboardingScreen.swift:31-38 | a failure becomes state `error`; `finished` leaves the state as it was; nothing else changes |
| `Onboarding.OnboardingViewModel.ShowAppMain` | OnBorder/Onboarding/Screens/OnboardingScreen.swift:46-48 | clears `isOnboarding` and changes neither the state nor the conversions, so a second call changes nothing |
| `Onboarding.OnboardingViewModel.LogConversion` | OnBorder/Onboarding/Screens/OnboardingScreen.swift:54 | records one conversion for the screen id |
| `Onboarding.OnboardingViewModel.HandleButtonAction` | OnBorder/Onboarding/Screens/OnboardingScreen.swift:50-58 | "onboardingComplete" records exactly one conversion for the screen id and clears `isOnboarding`; any other string changes nothing; the state is never changed |
| `Onboarding.Deliver` | OnBorder/Onboarding/Screens/OnboardingScreen.swift:28-41 | a payload that decodes leaves the state `loaded` with the decoded screen; one that does not leaves it `error` with the decoding error |
| `Onboarding.FailedFetchThenFallback` | OnBorder/Onboarding/Screens/OnboardingScreen.swift:121-133 | after a failed fetch the state is `error`, and the fallback button leaves onboarding without any conversion |
| `Onboarding.PressCompleteButton` | OnBorder/Onboarding/Screens/OnboardingScreen.swift:81-86 | pressing a loaded screen's button whose link is "onboardingComplete", whatever its label, logs that screen's id once and leaves onboarding; an unknown action before it changes nothing |

## Left out

- Byte-level JSON parsing and the network fetch (`ScreenRepository`, URLSession, URL building) are not modelled. The decoders start from an already-parsed `JValue`.
- JSON numbers with a fraction or exponent are not represented. `JNumber` holds integers only.
- Duplicate keys in a JSON object cannot be represented, since an object is a `map`.
- The Combine pipeline is reduced to the client method `Deliver`, which calls the two callbacks as the fetch publisher would. Not modelled: the main-queue hop, `[weak self]` (a callback after the view model is gone does nothing) and the cancel bag. The two callbacks are plain methods; the order in which the publisher calls them is up to the caller.
- `isOnboarding` is a SwiftUI `@Binding` that writes through to the app's `@State`. It is modelled as a field of the view model, and the app side (`OnBorderApp.swift`) is not part of this model.
- `Onboarding.OnboardingViewModel.HandleButtonAction`: the order "log, then leave onboarding" is not stated. Only the combined effect is. `logConversion` itself is a fire-and-forget network request, recorded here as the ghost `conversions` list.
- The error carried by `state` is abstracted to `FetchError` (transport failure, or the `DecodeError` of the screen). Error messages and coding paths are simplified.
- The encoding direction of `Codable` is not modelled. `BlockData`'s synthesized `encode(to:)` does not mirror the custom decoder, so no round trip holds.
- The SwiftUI views (`OnboardingScreen.body`, `renderScreen`, previews) and `FakeScreenRepository` are UI or fixtures. Only the two button paths are modelled, as the client methods `FailedFetchThenFallback` and `PressCompleteButton`.
- No guard against late or repeated callbacks is modelled: the code has none, and every callback overwrites `state`.
