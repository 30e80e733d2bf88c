# Space Triage — a Dafny model of the assessment core

Space Triage is an ultrasound triage assistant for astronauts. A FastAPI backend (`sam/app.py`) receives an
image and an organ name. It asks a vision model whether the organ is visible, how to move the probe, or
what the diagnosis is. A Streamlit front end (`streamlit_app.py`) drives a chat-style assessment through a
small stage machine over the session state, and shows a 30-day health chain with mocked daily reports.
A segmentation script (`sam/src/model.py`) blacks out the background of an image and computes the
centroid of a mask.

The project models:

- **`Bytes`** (`bytes.dfy`): the octet type shared by image data and pixel channels.
- **`Text`** (`text.dfy`): the Python string operations the code relies on, namely `sub in s`,
  `split(...)[1]`, ASCII `lower()` and `strip()`, and decimal rendering and parsing.
- **`Backend`** (`backend.dfy`): data-URL stripping, the single-turn vision request, the reading of a
  true/false answer, the description fallback text, and the status codes of the four POST endpoints.
  The image codecs, base64, the prompt templates and the vision service are function-valued
  parameters.
- **`Health`** (`health.dfy`): the health chain, with the loop that builds it proved against its
  specification. Also the mocked daily-report map, day selection and the Active Alerts card.
- **`Assessment`** (`assessment.dfy`): the session state and its operations. Each operation is a
  specification function on a `SessionState` value. The `Session` class holds the same keys as fields,
  and each of its methods is proved to leave them exactly as that function says. The JPEG conversion
  of the upload, which may raise, and the three backend calls are function-valued parameters; the
  calls return the JSON the front end reads.
- **`Mask`** (`mask.dfy`): `mask_centroid` over a mask given as rows of integers. Also the in-place
  background blackout on an `array2` of RGB pixels, and the copy-then-blackout that leaves the
  original untouched.

Two behaviours of the code that the model keeps as written:

- **Every error is a 500.** Each endpoint raises its own 400 ("Image data is required", "Invalid image
  format") inside the `try`, so the handler's catch-all turns it into a 500. The client sees
  `500` with detail `"400: <detail>"`, the string form of an `HTTPException`.
- **Assent is a substring test.** The identification verdict and the "yes/sure/ok" check only look for
  substrings. So "Not true" counts as found, and "No, not okay" counts as assent.

## Model

| member | source | states |
|---|---|---|
| Text.FindFrom | sam/app.py:36 | the index found is an occurrence of the substring at or after the start, and no earlier occurrence exists; `None` means no occurrence at all |
| Text.ContainsIff | sam/app.py:36 | `sub in s` holds exactly when the substring occurs at some index |
| Text.Lower | sam/app.py:98 | the result has the same length and no letter A–Z left; each A–Z becomes its lower-case letter and every other character is unchanged |
| Text.LowerIdempotent | streamlit_app.py:537 | lower-casing an already lower-cased reply changes nothing |
| Text.StripEmptyIff | streamlit_app.py:1047 | a stripped name is empty exactly when every character is whitespace |
| Text.Strip | streamlit_app.py:1047 | the result is the slice of the input between its leading and trailing whitespace: everything outside it is whitespace, and a non-empty result starts and ends with a non-space |
| Text.ParseNatToString | streamlit_app.py:83 | the decimal label of a number reads back as that number |
| Text.NatToStringInjective | streamlit_app.py:104 | distinct day numbers get distinct labels |
| Text.Pad2 | streamlit_app.py:84 | `{i:02d}` is a single digit after a `0` below ten and the plain decimal from ten on, so always at least two digits, and it reads back as `i` |
| Backend.StripDataUrlPrefix | sam/app.py:36-37 | without the marker the string is unchanged; with it, the result is the text after the first `base64,`, up to the next marker or the end |
| Backend.StripDataUrlHeader | sam/app.py:36-37 | a comma-free data-URL header followed by `base64,` is dropped, and a bare base64 payload is kept as is |
| Backend.ReadBuildPayload | sam/app.py:71-91 | the single-turn request (text part, then a JPEG data-URL image part) reads back as the instruction, image and token budget it was built from |
| Backend.BuildReadPayload | sam/app.py:71-91 | every request of that shape is the one built from what it carries |
| Backend.BuildPayload | sam/app.py:71-91 | builds the single-turn request; `ReadBuildPayload` and `BuildReadPayload` prove it is inverted by reading the request back |
| Backend.IdentifyPayload | sam/app.py:71-91 | the identification request reads back as the yes/no question about the entity, the given JPEG text and a budget of 10 tokens |
| Backend.NavigatePayload | sam/app.py:257-277 | the navigate request reads back as the navigation prompt for the entity, the given JPEG text and a budget of 4096 tokens |
| Backend.DescribePayload | sam/app.py:316-336 | the describe request reads back as the diagnostic prompt for the organ, the given JPEG text and a budget of 4096 tokens |
| Backend.FoundInAnswer | sam/app.py:98-104 | the verdict is true exactly when the lower-cased answer contains "true"; "false" and unclear answers are both false |
| Backend.IdentifyPrompt | sam/app.py:79 | the yes/no question about the entity; `IdentifyPayload` states that it is the instruction of the identification request |
| Backend.FoundInAnswerIgnoresCase | sam/app.py:98-101 | the verdict does not depend on letter case |
| Backend.NegatedAnswerReadsAsFound | sam/app.py:98-99 | "Not true" reads as found, and "False" as not found |
| Backend.IdentifyEntity | sam/app.py:55-110 | an error of the JPEG encoder escapes as that error; otherwise it returns, and the entity is found exactly when the service answers with text containing "true" in any case, so a failing service gives false |
| Backend.FallbackNamesWidthThenHeight | sam/app.py:163-164 | the fallback description names the width and then the height, and both read back unchanged |
| Backend.DescriptionFallback | sam/app.py:163-164 | the fallback text; `FallbackNamesWidthThenHeight` proves it names the width, then the height, both recoverable |
| Backend.Str | sam/app.py:193-194 | `str(e)` of a raised exception; `StrOf400` proves the 400 case reads "400: " and the detail |
| Backend.CatchAll | sam/app.py:193-194 | the handler's catch-all; `IdentifyUpload`, `IdentifyBase64`, `Navigate` and `Describe` state through it that every error leaves as a 500 |
| Backend.StrOf400 | sam/app.py:193-194 | the detail of the 500 that wraps an explicit 400 is "400: " followed by the original detail |
| Backend.DecodeImage | sam/app.py:33-50 | decode_image raises only 400s; a base64 error or an OpenCV exception gives 400 with detail "Invalid image format: " and the error's text; otherwise it returns the decoded image, or `None` when OpenCV cannot read the bytes |
| Backend.DecodeImageIgnoresHeader | sam/app.py:33-50 | a data-URL header does not change what decode_image produces |
| Backend.DecodeUpload | sam/app.py:181-186 | the upload decoding of the endpoints; `UndecodableUploadIsServerError` proves an undecodable upload ends as 500 "400: Invalid image format" |
| Backend.IdentifyUpload | sam/app.py:179-194 | every error is a 500; success exactly when the upload decodes and re-encodes as JPEG, with the verdict and the entity name echoed; an OpenCV exception or an encoder error is a 500 carrying its message |
| Backend.IdentifyBase64 | sam/app.py:208-224 | every error is a 500; a missing or empty image gives "400: Image data is required"; a decode_image error gives "400: " and its detail; an undecodable image gives "400: Invalid image format"; an encoder error gives its message; success exactly when the image is present, decodes and re-encodes |
| Backend.Navigate | sam/app.py:239-284 | every error is a 500; success exactly when the upload decodes, re-encodes as JPEG and the service answers; the answer is returned verbatim; an OpenCV exception, an encoder error or a service failure is a 500 carrying its message |
| Backend.Describe | sam/app.py:298-345 | every error is a 500; success exactly when the upload decodes, re-encodes as JPEG and the service answers; the answer is returned verbatim; an OpenCV exception, an encoder error or a service failure is a 500 carrying its message |
| Backend.UndecodableUploadIsServerError | sam/app.py:185-194 | an upload OpenCV cannot decode gives 500 with detail "400: Invalid image format" on identify, navigate and describe |
| Backend.ServiceFailureIsNotFound | sam/app.py:106-110 | a failing service never fails /identify: the entity is reported as not found |
| Backend.UnencodableImageIsServerError | sam/app.py:65-68 | an image the JPEG encoder refuses gives 500 with the encoder's message on all four endpoints, although identify_entity_in_image catches service errors |
| Health.BuildHealthChain | streamlit_app.py:101-115 | the rendering loop produces, in order, one cell per day of the chain specification |
| Health.HealthChain | streamlit_app.py:101-115 | the chain specification; `BuildHealthChain` computes it, and `HealthChainShape` and `HealthChainTitles` state its 30 cells, history, today marker and titles |
| Health.MockHistoriesWellFormed | streamlit_app.py:70-78 | every mocked history has seven days, each green, yellow or red |
| Health.HistoryWellFormed | streamlit_app.py:101 | with the all-green default, every organ's history has seven active days |
| Health.HealthChainShape | streamlit_app.py:101-110 | the chain has 30 cells; cell `i` is labelled exactly `str(i + 1)` (so it reads back as `i + 1`); the first seven carry the history (all green for an unknown organ), the rest are inactive, and only the seventh is today |
| Health.HealthChainTitles | streamlit_app.py:111-115 | inactive days are titled "No data", and active days Healthy, Warning or Critical by status |
| Health.DayCell | streamlit_app.py:109-115 | one cell of the chain; `HealthChainShape` and `HealthChainTitles` state its label, status, title and today marker |
| Health.ReportConcernRule | streamlit_app.py:85-97 | a day is unhealthy with one alert exactly when its number is a multiple of three; otherwise it is healthy with none |
| Health.Report | streamlit_app.py:83-98 | day `i`'s mocked report; `ReportConcernRule` states the every-third-day rule |
| Health.DailyReports | streamlit_app.py:82-98 | the map of mocked reports; `DailyReportsLookup` and `DailyReportsKeys` state its keys and entries |
| Health.DailyReportsLookup | streamlit_app.py:82-98 | the report stored under day `i`'s label is day `i`'s report, and its date ends in day `i` |
| Health.DailyReportsKeys | streamlit_app.py:82-98 | every key of the reports is the label of a day from 1 to 30 |
| Health.SelectedReport | streamlit_app.py:134-135 | the report the selected day opens; `SelectingAChainDayOpensItsReport` states that a chain day opens its own report |
| Health.SelectingAChainDayOpensItsReport | streamlit_app.py:134-135 | selecting a day of the chain opens that day's report |
| Health.AlertsCardOf | streamlit_app.py:161-172 | "No active alerts" is shown exactly when there are neither notes nor alerts; notes are shown exactly when non-empty, and then verbatim; the alerts listed are the report's alerts |
| Health.MockReportsShowNotes | streamlit_app.py:86 | no mocked report ever shows "No active alerts" |
| Assessment.Session.constructor | streamlit_app.py:278-295 | the session starts at welcome with an empty chat, nothing uploaded and an empty name |
| Assessment.Session.ProcessImageFlow | streamlit_app.py:462-527 | the new session state is the flow function of the old one; it reports a raise exactly when the upload cannot be converted to JPEG |
| Assessment.Session.HandleUserInput | streamlit_app.py:529-552 | the new session state is the input function of the old one; it reports a raise exactly when accepted help runs the flow on an unconvertible upload |
| Assessment.Session.RestartSession | streamlit_app.py:554-565 | every key is deleted, then the chat keys are set afresh at the initial stage |
| Assessment.Session.Login | streamlit_app.py:1046-1052 | the new state is the login function of the old one |
| Assessment.Session.SelectOrgan | streamlit_app.py:1228-1231 | the organ becomes both the selected and the target organ, and the stage returns to initial |
| Assessment.Session.Greet | streamlit_app.py:1320-1324 | the greeting moves an empty chat from initial to waiting_for_image, and changes nothing otherwise |
| Assessment.Session.UploadImage | streamlit_app.py:1335-1361 | the new state is the upload function of the old one; it reports a raise exactly when a new file with a target organ cannot be converted to JPEG |
| Assessment.Flow | streamlit_app.py:462-527 | process_image_flow on a session value; specified case by case by the `Flow…` lemmas below and implemented by `Session.ProcessImageFlow` |
| Assessment.AfterInput | streamlit_app.py:529-552 | handle_user_input on a session value; specified by `EmptyInputIgnored`, `InputRecordedFirst`, `AssentRunsNavigation`, `DeclineAsksForNewImage`, `ChatGetsCannedReply` and `InputOtherwiseOnlyRecorded` |
| Assessment.AfterUpload | streamlit_app.py:1335-1361 | the upload handler on a session value; specified by `UploadWithoutOrgan`, `UploadWithOrgan`, `UploadUnconvertible` and `UploadSameFile` |
| Assessment.AfterLogin | streamlit_app.py:1046-1052 | the login button on a session value; specified by `LoginNeedsName` |
| Assessment.AfterSelectOrgan | streamlit_app.py:1228-1231 | the organ buttons on a session value; implemented by `Session.SelectOrgan` |
| Assessment.AfterGreeting | streamlit_app.py:1320-1324 | the greeting on a session value; implemented by `Session.Greet` |
| Assessment.FlowWithoutImage | streamlit_app.py:464-465 | without an uploaded image the flow changes nothing |
| Assessment.FlowUnconvertible | streamlit_app.py:467 | an upload the JPEG conversion rejects raises before any write, so the flow changes nothing |
| Assessment.FlowIdentifyFound | streamlit_app.py:469-487 | a found organ appends the identification and the diagnosis, stores the description and moves to describe; every other followed key is unchanged |
| Assessment.FlowIdentifyMissed | streamlit_app.py:489-507 | a missed organ (false or no "found" key) appends the miss and the guidance and moves to wait_for_new_image; every other followed key is unchanged |
| Assessment.FlowNavigate | streamlit_app.py:509-517 | navigate appends the guidance (with the default text when absent), stores the response and waits for a new image; every other followed key is unchanged |
| Assessment.FlowDescribe | streamlit_app.py:519-527 | describe appends the diagnosis, stores the response and opens the chat; every other followed key is unchanged |
| Assessment.FlowSuccessor | streamlit_app.py:469-527 | identify ends at describe or wait_for_new_image, and every stage other than identify, navigate and describe is left alone |
| Assessment.FlowAppendsOnly | streamlit_app.py:462-527 | the flow only appends to the chat |
| Assessment.FlowKeepsSessionKeys | streamlit_app.py:462-527 | of the followed keys, the flow changes only the stage, the chat and the two stored responses |
| Assessment.EmptyInputIgnored | streamlit_app.py:531 | empty input changes nothing |
| Assessment.InputRecordedFirst | streamlit_app.py:531-533 | non-empty input is appended first, after the unchanged earlier messages |
| Assessment.AssentRunsNavigation | streamlit_app.py:536-540 | accepting help acknowledges, moves to navigate and runs the flow there; with a convertible image this ends in wait_for_new_image with the guidance posted, and otherwise it stays at navigate |
| Assessment.DeclineAsksForNewImage | streamlit_app.py:541-543 | declining help asks for another image and waits for it |
| Assessment.InputOtherwiseOnlyRecorded | streamlit_app.py:529-552 | input at any stage other than chat, or at ask_navigation without a pending offer, is only recorded in the chat |
| Assessment.ChatGetsCannedReply | streamlit_app.py:546-552 | in chat every question gets exactly the canned reply |
| Assessment.AssentIsSubstringTest | streamlit_app.py:537 | "No, not okay" counts as assent, and "no" does not |
| Assessment.Assent | streamlit_app.py:537 | the assent test on the lower-cased reply; `AssentIsSubstringTest`, `AssentIgnoresCase` and `Text.ContainsIff` state its meaning |
| Assessment.AssentIgnoresCase | streamlit_app.py:537 | a reply and its lower-cased form are judged alike |
| Assessment.LoginNeedsName | streamlit_app.py:1046-1052 | login stores the name and moves to the dashboard exactly when the name has a non-blank character |
| Assessment.UploadWithoutOrgan | streamlit_app.py:1335-1358 | a new file without a target organ becomes the uploaded image and is recorded in the chat; every other followed key, the stage included, is unchanged |
| Assessment.UploadWithOrgan | streamlit_app.py:1352-1355 | a new file with a target organ that converts to JPEG is identified at once, ending at describe or wait_for_new_image with three new messages |
| Assessment.UploadUnconvertible | streamlit_app.py:1335-1355 | a new file with a target organ that the JPEG conversion rejects is recorded with its upload message at the identify stage, and nothing else changes |
| Assessment.UploadSameFile | streamlit_app.py:1335 | no file, or the same file again, changes nothing |
| Mask.RowHits | sam/src/model.py:36 | exactly the positive cells of the row are reported, in increasing column order |
| Mask.Hits | sam/src/model.py:36 | `np.where(mask > 0)` reports exactly the positive cells of the mask, in row-major order and so without repeats |
| Mask.MeanBetween | sam/src/model.py:41 | the truncated mean lies between any lower and upper bound of the indices |
| Mask.Mean | sam/src/model.py:41 | `int(np.mean(xs))` as the floor of the exact mean; `MeanBetween` and `MeanWithinElements` bound it by the elements |
| Mask.MeanWithinElements | sam/src/model.py:41 | some index is at or below the truncated mean, and some at or above it |
| Mask.Centroid | sam/src/model.py:33-41 | mask_centroid; specified by `CentroidFallback`, `CentroidInBoundingBox`, `CentroidInBounds`, `SingleCellCentroid` and `CentroidOfBinarized` |
| Mask.CentroidFallback | sam/src/model.py:37-40 | with no positive cell the centroid is `(w // 2, h // 2)` |
| Mask.CentroidInBoundingBox | sam/src/model.py:36-41 | each centroid coordinate lies between the least and greatest coordinate of the positive cells |
| Mask.CentroidInBounds | sam/src/model.py:33-41 | the centroid is a cell of the mask whenever the mask has a positive cell or a non-empty shape |
| Mask.SingleCellCentroid | sam/src/model.py:36-41 | a mask whose only positive cell is at row `r`, column `c` has centroid `(c, r)` |
| Mask.CentroidOfBinarized | sam/src/model.py:34-36 | only positivity matters: the 0/1 mask has the same centroid |
| Mask.BlackOutBackground | sam/src/model.py:27 | every pixel where the mask is zero becomes black; every other pixel keeps its value |
| Mask.MaskedImage | sam/src/model.py:26-27 | a fresh image of the same size holds the masked pixels, and the original is untouched |
| Mask.MaskedKeepsHits | sam/src/model.py:26-27 | for a 0/1 mask, the pixels kept are exactly the positive cells the centroid is taken over |
| Mask.MaskedIdempotent | sam/src/model.py:27 | blacking out twice is blacking out once |
| Mask.Masked | sam/src/model.py:26-27 | the masked pixels, of the mask's shape; `BlackOutBackground`, `MaskedKeepsHits` and `MaskedIdempotent` state what it keeps and blacks out |

## Left out

- **How the model talks to the outside world**:
  - HTTP transport, multipart parsing, `UploadFile.read` and FastAPI's JSON encoding are not modelled. Requests and responses are values.
  - OpenCV decoding, base64, the BGR-to-RGB conversion and JPEG re-encoding are parameters. Only an image's size is observed. The JPEG encoder may refuse an image (libjpeg's 65500-pixel limit) with an error message, and the model carries that outcome through every endpoint.
  - The vision service and its client library are a parameter. This covers `messages.create` and `completions.create`, which read `choices[0].message.content`. It also covers the module-level `anthropic.chat.completions.create` in /describe, which would fail in practice.
  - The prompt templates are a parameter; the prompts module is not part of this model.
- **Text**:
  - `lower()` acts on ASCII letters only; Unicode case mapping is not modelled.
  - `strip()` removes ASCII whitespace and the separators U+001C to U+001F. The non-ASCII characters Python also strips (U+0085, U+00A0, U+1680, U+2000 to U+200A, U+2028, U+2029, U+202F, U+205F, U+3000) are not modelled.
  - The temperature's float formatting is modelled as exact tenths.
- **Backend**:
  - `generate_description` appears only as its fallback text (`DescriptionFallback`). No endpoint calls it, and it calls the diagnostic prompt without the organ argument.
  - The logging `print` calls are left out, and so is the `GET /` API listing, a constant.
- **Front end and rendering**:
  - Streamlit rendering, CSS, HTML strings, spinners, text-to-speech (`speak`), `st.rerun` and the query-parameter bridge for day clicks are not modelled.
  - The page-navigation buttons (welcome, login, dashboard, select_organ) are left out apart from login and organ selection.
  - The front end's HTTP helpers that call the backend are left out; `Services` stands for them.
  - `image_to_bytes` is the `toJpeg` parameter, and `None` stands for its exception. That exception ends the script run. The session methods keep the writes made before it and report it as `raised`. Streamlit's error display and the `st.rerun` that the exception skips are not modelled.
- **Session keys**:
  - `health_records`, `daily_reports`, `selected_day` and the widget keys are not among the followed keys.
  - `others` holds the keys this model does not give a field of their own, with their values abstracted to strings.
  - `voice_bytes` is not followed. `speak` writes it in the missed-organ branch of the flow (streamlit_app.py:399, called at 505), so `FlowKeepsSessionKeys` speaks only of the followed keys.
  - The script never sets `needs_navigation` to true, nor enters `ask_navigation`. The model still covers that branch of the input handler.
- **Mask**:
  - SAM2 inference and the image and model file I/O are not modelled.
  - The mask is given as rectangular rows of integers; `np.mean` float arithmetic is modelled as exact integer division, which agrees with `int()` for non-negative indices.
  - Mask.BlackOutBackground: the image is an `array2` of RGB pixels rather than an `(h, w, 3)` byte array, so "all channels" is one black pixel value.
