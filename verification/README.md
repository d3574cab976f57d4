# E-Guardian core, modelled in Dafny

E-Guardian is an e-waste assistant. A user names a device and its category. The
server classifies the device against a small keyword table of hazard profiles
and stores a device record. A dashboard shows per-user statistics and a
seven-day activity chart. An optional AI service returns a detailed analysis,
or an "enhanced fallback" analysis when the provider cannot be used.
Registration, login and an OTP-based password reset complete the picture.

This project models the decision logic of that core as pure Dafny functions,
with two methods for the statistics handler and its loop, and proves what each piece promises.

- `Text`: the JavaScript string operations the code relies on.
  - `toLowerCase`, for ASCII letters only.
  - `includes`, as a recursive predicate, with a lemma relating it to a
    positional definition.
  - `Array.join`, and a `StartsWith` predicate used to state contracts.
  - The `\D` regular-expression strip.
  - `slice(0, n)`.
- `Hazard`: the three hazard levels, with their stored spellings and parser,
  and the material/profile records.
- `KnowledgeBase`: the keyword table and the generic profile, copied verbatim
  from the controller in declaration order. Declaration order matters because
  the first matching key wins.
- `Classifier`: the controller's keyword classifier. The first key that occurs
  in the lower-cased name or the lower-cased category selects its profile.
  Otherwise the generic profile applies.
- `DeviceSchema`: the device model's validation.
  - Required strings must be present and non-empty, as a Mongoose `required`
    String demands.
  - The two enumerations must hold one of their listed spellings.
  - Defaults are filled in.
  - Every failing path is reported.
- `DeviceController`: the classify request handler and the statistics handler.
  - The statistics handler builds the activity series from the aggregation
    buckets. A later bucket's count overwrites the count stored for its date. The series
    is listed oldest day first.
  - The impact score is also modelled.
- `Json` and `AiService`: the fallback analysis, its binary high-risk test and
  the service entry point.
  - The entry point returns the provider's parsed object unchecked, or the
    fallback when anything fails.
  - The fallback is rendered to JSON, with a decode round trip.
- `ResetPassword`: the reset page's pure logic.
  - The OTP input sanitiser.
  - The submit handler's two gates.
  - The submit button's disabled state and the inline mismatch notice.
  - The resend handler's email gate.
- `Auth`: the register and login handlers' branch structure. Each awaited step
  is an input that either completes or throws.
- `HeuristicsCompared`: the keyword table and the fallback test disagree on
  the same device.

## Model

| member | source | states |
|---|---|---|
| Text.Lower | server/controllers/deviceController.js:93 | `toLowerCase` keeps the length and folds each upper-case ASCII letter to lower case, character by character |
| Text.Contains | server/controllers/deviceController.js:93 | `includes`: an included block is never longer than the text, and a prefix is always included |
| Text.LowerIsLower | server/controllers/deviceController.js:93 | lower-cased text has no upper-case letter, and lower-casing twice equals lower-casing once |
| Text.ContainsIffOccurs | server/controllers/deviceController.js:93 | `includes(k)` holds exactly when `k` occurs as a contiguous block at some position |
| Text.MissingCharNotContained | server/services/aiService.js:62-65 | a keyword with a character absent from the text is not included in it |
| Text.JoinContainsItem | server/controllers/deviceController.js:105 | every item of `join(", ")` occurs in the joined text |
| Text.Join | server/controllers/deviceController.js:105 | `join(sep)`: the joined text starts with the first item |
| Text.Digits | client/src/app/reset-password/page.js:141 | stripping `\D` leaves only digits and never lengthens the text |
| Text.DigitsAppend | client/src/app/reset-password/page.js:141 | stripping distributes over concatenation, so digit order is kept |
| Text.DigitsOfDigits | client/src/app/reset-password/page.js:141 | stripping a string of digits changes nothing |
| Text.DigitsOfNonDigits | client/src/app/reset-password/page.js:141 | stripping a text with no digit leaves the empty string |
| Text.Take | client/src/app/reset-password/page.js:141 | `slice(0, n)` is the prefix of length min(length, n) |
| Hazard.ParseLevel | server/models/Device.js:7 | a spelling is accepted exactly when it is the name of one of Low, Medium, High, and it reads as that level |
| Hazard.ParseLevelName | server/models/Device.js:7 | every level's stored name parses back to that level |
| Hazard.Elements | server/controllers/deviceController.js:105 | `hazards.map(h => h.element)` has the same length and lists each material's name at its position |
| KnowledgeBase.TableShape | server/controllers/deviceController.js:5-85 | the table keys in declaration order are smartphone, laptop, battery, monitor, cable; the first four are High and cable Medium; each entry has 3-4 steps and 2-3 materials; the generic profile is Medium with 4 steps and 3 materials |
| Classifier.FindKeyFrom | server/controllers/deviceController.js:92-94 | `find` from a position returns the first matching index at or after it, or none when nothing after it matches |
| Classifier.FindKey | server/controllers/deviceController.js:92-94 | a key is found iff some key matches; the one found matches and none before it does |
| Classifier.Matches | server/controllers/deviceController.js:93 | a key matches when it occurs in the lower-cased name or in the lower-cased category |
| Classifier.ScientificSummary | server/controllers/deviceController.js:105 | the matched-entry text: the fixed opening, the material names joined by ", ", then " were identified." |
| Classifier.GeneralSummary | server/controllers/deviceController.js:111 | the no-match text quotes the raw, not lower-cased, category |
| Classifier.Classify | server/controllers/deviceController.js:87-113 | the first matching entry decides profile and summary; with no match the generic profile and category text apply; level and recommendations come from the profile; never Low; 3 or 4 steps |
| Classifier.ClassifyCaseInsensitive | server/controllers/deviceController.js:92-94 | inputs equal after lower-casing get the same level, steps and profile, and the same summary when a key matches |
| Classifier.ClassifyHighIffHighKey | server/controllers/deviceController.js:5-70 | the level is High iff one of the first four table keys matches |
| Classifier.HighRiskKeysSpelledOut | server/controllers/deviceController.js:5-57 | the first four table keys are smartphone, laptop, battery and monitor |
| Classifier.ClassifyMediumIff | server/controllers/deviceController.js:96-113 | the level is Medium iff none of smartphone, laptop, battery, monitor matches |
| Classifier.ScientificSummaryNamesMaterials | server/controllers/deviceController.js:105 | the scientific summary names every material of the profile |
| Classifier.SummaryNamesMaterials | server/controllers/deviceController.js:101-106 | on a match, the stored summary names every material of the matched entry |
| Classifier.SmartphoneKeyWins | server/controllers/deviceController.js:6-19 | any mention of "smartphone" selects the smartphone profile, whatever else matches |
| Classifier.SmartphoneBeatsBattery | server/controllers/deviceController.js:92-94 | "smartphone battery" matches two keys and is classified by the earlier one |
| Classifier.NoMatchGivesGenericProfile | server/controllers/deviceController.js:107-113 | with no key matching, the result is the generic profile at Medium with the category-quoting summary |
| Classifier.NoKeyLettersNoMatch | server/controllers/deviceController.js:92-94 | fields without the first letter of each key match no key |
| Classifier.UnknownGadgetGetsGenericProfile | server/controllers/deviceController.js:72-85 | "Unknown Gadget X" in "Unknown" gets the generic profile |
| DeviceSchema.ParseStatus | server/models/Device.js:23 | a status spelling is accepted exactly when it names one of the three states |
| DeviceSchema.Validate | server/models/Device.js:3-26 | accepted iff name, category and summary are non-empty and both enums are admitted; the error names exactly the failing paths; absent level, status and details default to Low, detected and the empty object; each absent list field defaults to [] and a supplied one is kept; supplied texts, image URL and details are kept |
| DeviceSchema.ValidateToDraft | server/models/Device.js:3-26 | a valid device written out in full validates back to the same device |
| DeviceSchema.MissingRequiredRejected | server/models/Device.js:5-11 | a draft missing, or emptying, any required field is rejected |
| DeviceSchema.EmptyDraftFailures | server/models/Device.js:5-11 | an empty draft fails on exactly the three required paths, not on the defaulted enums |
| DeviceController.StoredImageUrl | server/controllers/deviceController.js:89-90 | an uploaded file always wins and is stored as `/uploads/<file name>`; without one the body's `imageUrl` is kept as given |
| DeviceController.ClassifyDraft | server/controllers/deviceController.js:115-124 | the draft carries the request's name, category and image URL, an admitted non-Low level, a non-empty summary and a profile, and leaves status unset |
| DeviceController.HandleClassify | server/controllers/deviceController.js:87-131 | 201 iff name and category are non-empty and the save succeeds; the stored device carries the classifier's outputs, is valid, not Low and detected, and leaves the analysis lists empty and the analysis texts unset; its image URL is `/uploads/<file name>` when a file was uploaded and the body's `imageUrl` otherwise; otherwise 500 |
| DeviceController.LastCount | server/controllers/deviceController.js:171-175 | a day's count is 0 when no bucket names it, otherwise the count of the last bucket that names it |
| DeviceController.ActivitySeries | server/controllers/deviceController.js:162-177 | the reference series: seven entries, the window reversed so the oldest day is first, each with its label and its last bucket's count |
| DeviceController.LastCountAppend | server/controllers/deviceController.js:171-175 | a later bucket for a day overrides every earlier one; otherwise the earlier count stands |
| DeviceController.LastCountAbsent | server/controllers/deviceController.js:163-169 | a day no bucket mentions keeps its initial 0 |
| DeviceController.SeriesZeroWhereAbsent | server/controllers/deviceController.js:163-177 | days without a bucket show count 0 in the series |
| DeviceController.OutsideWindowIgnored | server/controllers/deviceController.js:171-175 | a bucket dated outside the window changes nothing, wherever it appears |
| DeviceController.WindowIndex | server/controllers/deviceController.js:172 | the lookup by date key finds the window day with that key, or reports that none has it |
| DeviceController.CountsStep | server/controllers/deviceController.js:171-175 | overwriting the matching day's count with one more bucket keeps every count equal to that day's last bucket |
| DeviceController.SeriesOf | server/controllers/deviceController.js:177 | `Object.values(activityMap).reverse()`: seven entries, oldest day first, each with its window label |
| DeviceController.SeriesFromCounts | server/controllers/deviceController.js:177 | counts that agree with each day's last bucket give the activity series, reversed to oldest first |
| DeviceController.DailyActivity | server/controllers/deviceController.js:162-177 | the computed chart is the reference series: seven days, oldest first, each with its window label and its last bucket's count, 0 where none |
| DeviceController.ImpactScore | server/controllers/deviceController.js:183 | the score is a multiple of 50 between 50 and 150 points per device |
| DeviceController.ImpactScoreStep | server/controllers/deviceController.js:183 | one more device adds 50 points, or 150 when it is high-hazard |
| DeviceController.GetStats | server/controllers/deviceController.js:142-185 | the reply carries both counts, the score 50 per device plus 100 per high-hazard device, and the seven-day series |
| Json.Lookup | server/services/aiService.js:49 | a member is found iff some field has the key, and what is found is one of that key's values |
| Json.LookupLastWins | server/services/aiService.js:49 | a repeated key reads as the value of its last field, as `JSON.parse` keeps it |
| Json.LookupDistinct | server/services/aiService.js:49 | in an object without repeated keys a member's key finds that member |
| Json.FromStrings | server/services/aiService.js:67-101 | a list of strings becomes an array of the same strings in order |
| Json.AsStrings | server/services/aiService.js:69-96 | the decoder for the fallback's list members: an array reads as strings iff every element is a string, and the i-th string read is the i-th element's text |
| Json.AsStringsFromStrings | server/services/aiService.js:69-96 | reading back a written array of strings gives the same strings |
| AiService.FallbackTemplate | server/services/aiService.js:67-101 | the template's level, material count, seven steps, five precautions and warnings, name-prefixed texts and carbon text follow the risk flag |
| AiService.IsHighRisk | server/services/aiService.js:62-65 | high risk when the lower-cased category contains "battery" or "monitor", or the lower-cased name contains "phone" or "laptop" |
| AiService.SafetyPrecautions | server/services/aiService.js:73-79 | five precautions; the second is the battery warning when high risk and the sharp-edges warning otherwise |
| AiService.DisposalWarnings | server/services/aiService.js:90-96 | five warnings; the fourth is the explosion warning when high risk and the mercury warning otherwise |
| AiService.GetFallbackAnalysis | server/services/aiService.js:61-102 | High iff the device is high risk, otherwise Medium; six or three materials accordingly; fixed steps; texts start with the device name |
| AiService.IsHighRiskCaseInsensitive | server/services/aiService.js:62-65 | the risk test depends only on the lower-cased fields |
| AiService.TemplatesShareFixedPrecautions | server/services/aiService.js:73-79 | every precaution but the second is the same for both risks |
| AiService.TemplatesShareFixedWarnings | server/services/aiService.js:90-96 | every warning but the fourth is the same for both risks |
| AiService.TemplatesDifferWhereRiskMatters | server/services/aiService.js:73-96 | the second precaution and the fourth warning differ between the two risks |
| AiService.FallbackDependsOnlyOnRisk | server/services/aiService.js:61-102 | two devices with equal risk get analyses equal except for the two name-quoting texts |
| AiService.FallbackTextsQuoteName | server/services/aiService.js:72 | the impact and breakdown texts are the device name followed by fixed wording |
| AiService.IPhoneIsHighRisk | server/services/aiService.js:62-71 | "iPhone 12" contains "phone" and gets High with the six high-risk materials |
| AiService.IPhoneNameMentionsPhone | server/services/aiService.js:63 | the lower-cased "iPhone 12" contains "phone" |
| AiService.PlasticTrayNotHighRisk | server/services/aiService.js:62-65 | "Plastic Tray" in "Plastic" fails all four keyword tests |
| AiService.PlasticTrayIsDefault | server/services/aiService.js:68-71 | "Plastic Tray" in "Plastic" gets Medium and the three default materials |
| AiService.KeywordInWrongFieldIsNotHighRisk | server/services/aiService.js:62-65 | "battery" as the name with "phone" as the category is not high risk, yet the same words swapped are: each keyword counts only in its own field |
| AiService.ToJsonTextFields | server/services/aiService.js:67-101 | every text member of the rendered analysis reads back as written |
| AiService.ToJsonListFields | server/services/aiService.js:67-101 | every list member of the rendered analysis reads back as written |
| AiService.ToJson | server/services/aiService.js:67-101 | the analysis is an object of nine members with distinct keys |
| AiService.FromJsonToJson | server/services/aiService.js:67-101 | rendering an analysis and decoding it gives the same analysis |
| AiService.AnalyzeDevice | server/services/aiService.js:11-56 | a parsed reply is returned unchanged; any failure yields an object that decodes to the fallback analysis |
| AiService.AnalyzeDeviceEitherOr | server/services/aiService.js:49-54 | the result is the provider's object or the fallback, and the kind of failure does not matter |
| AiService.ShapelessReplyPassesThrough | server/services/aiService.js:49-50 | a parsed object with none of the analysis fields is still returned as is |
| ResetPassword.SanitizeOtp | client/src/app/reset-password/page.js:141 | the value is all digits, is the input's digits cut to at most six, and keeps their order |
| ResetPassword.SanitizeOtpIdempotent | client/src/app/reset-password/page.js:141 | sanitising a sanitised value changes nothing |
| ResetPassword.SanitizeOtpIgnoresNonDigit | client/src/app/reset-password/page.js:141 | a non-digit typed anywhere leaves the value unchanged |
| ResetPassword.SanitizeOtpKeepsShortCode | client/src/app/reset-password/page.js:141 | up to six digits are kept exactly |
| ResetPassword.SanitizeOtpDropsExtraDigits | client/src/app/reset-password/page.js:141 | once six digits are in, anything typed after them is dropped |
| ResetPassword.HandleSubmit | client/src/app/reset-password/page.js:43-62 | mismatch is reported before shortness; the request is sent iff the passwords agree and have at least six characters, and carries email, OTP and new password |
| ResetPassword.SubmitDisabled | client/src/app/reset-password/page.js:198 | the submit button is disabled while loading or while the two passwords differ |
| ResetPassword.ShowMismatchNotice | client/src/app/reset-password/page.js:192 | the inline notice shows when both passwords are non-empty and differ |
| ResetPassword.EnabledSubmitNeverMismatches | client/src/app/reset-password/page.js:198 | through an enabled button the mismatch alert is unreachable, and the request goes out iff the password is long enough |
| ResetPassword.MismatchNoticeDisablesSubmit | client/src/app/reset-password/page.js:192 | whenever the mismatch notice shows, the submit button is disabled |
| ResetPassword.HandleResend | client/src/app/reset-password/page.js:26-34 | a resend is requested iff the email field is non-empty, for that email |
| Auth.ServerMessage | server/controllers/authController.js:29 | the message is the error's own when non-empty and `Server error` when empty |
| Auth.RegisterFault | server/controllers/authController.js:21-30 | a duplicate key gives 400 "Email is already registered", then a validation error 400 with its message, anything else 500 |
| Auth.Register | server/controllers/authController.js:4-31 | gates apply in order (fields 400, secret 500, existing user 400); a thrown lookup or save is answered by the catch block; a token is issued iff every gate passes, no user exists and the save completes, with status 201 |
| Auth.DuplicateOnSaveIsReported | server/controllers/authController.js:13-24 | a duplicate key on save and an existing user found by lookup give different 400 messages |
| Auth.LoginFault | server/controllers/authController.js:50-53 | every thrown fault is a 500 whose message is the fault's own when non-empty and `Server error` otherwise |
| Auth.Login | server/controllers/authController.js:33-54 | gates apply in order; an unknown user or a failed comparison is 400 "Invalid credentials"; a thrown lookup or comparison is the catch block's 500; a token is issued iff the fields and secret are set, the user exists and the password matches, with status 200 |
| Auth.UnknownEmailLooksLikeWrongPassword | server/controllers/authController.js:42-46 | an unknown email and a wrong password give the identical 400 reply |
| HeuristicsCompared.BatteryNameIsHighForTable | server/controllers/deviceController.js:34-45 | a device named "Battery" in "Other" is High for the keyword table |
| HeuristicsCompared.BatteryNameIsMediumForFallback | server/services/aiService.js:62-68 | the same device is Medium for the fallback, which looks for "battery" only in the category |
| HeuristicsCompared.BatteryNameSplitsTheHeuristics | server/services/aiService.js:62-65 | the two heuristics give that device different levels |

## Left out

- I/O is not modelled. This covers HTTP request parsing, the database queries and writes, and the provider call. The outcome of each of these is a parameter. Examples: the save result in `HandleClassify`, the user lookup and save in `Register`, and the provider reply in `AnalyzeDevice`.
- The prompt text and model settings of the provider call (`server/services/aiService.js:13-47`) are left out. They only shape the request to a foreign service.
- `console.error` logging is left out.
- The two count queries and the aggregation pipeline of the statistics handler are inputs (`total`, `highHazard`, and the buckets).
- DeviceController.DailyActivity and DeviceController.GetStats require the seven window keys to be distinct (`DistinctKeys`); date arithmetic is left out, and the window days come in as date keys with weekday labels. The source does not guarantee distinct keys. Each key is the UTC date of a local time moved back by whole local days (`server/controllers/deviceController.js:165-168`). Across a daylight-saving change, two consecutive local days can be 23 hours apart and share a UTC date. The source's map then has six keys and the chart six entries. Example: America/New_York, a request at 2026-03-10 19:30 local time, where the offsets 2 and 3 both give "2026-03-08". The model does not cover that case.
- The floating-point `co2Saved: total * 2.5` figure of the statistics reply is left out, because Dafny has no IEEE doubles.
- `Text.Lower` folds ASCII letters only. JavaScript's `toLowerCase` also folds non-ASCII letters. Every table key and keyword is ASCII, but a non-ASCII upper-case letter in a name is not folded here.
- `Json.Value` holds numbers as integers. A provider reply with a fractional number cannot be represented, so the pass-through of `AnalyzeDevice` is stated for integer-only replies.
- Strings are sequences of Unicode characters. JavaScript measures `length` in UTF-16 code units, so a password with characters outside the Basic Multilingual Plane can meet the six-character minimum in one measure and not in the other.
- The device record's `userId` and `createdAt` are not modelled. They come from the session and the clock. The upload middleware is not modelled either: `HandleClassify` receives the stored file name, or none, as its `upload` parameter.
- A non-string name or category in a request is not modelled; the model only distinguishes a missing field, as `None`. In the source, a non-string name always throws at `toLowerCase`. A non-string category reaches `toLowerCase` only when the name does not contain "smartphone": `find` stops at the first key and `||` short-circuits. When the category is skipped, the record's schema casts a number to a string and the reply is 201.
- Password hashing, password comparison, JWT signing and the user model are inputs: a token string and `Step` outcomes.
- The user record returned on login and register, and the role, are not part of the reply body modelled.
- `getDevices` and `getMe` are single database reads with no logic of their own, so they are not modelled.
- The email service, the resend-OTP and reset-password server endpoints, and the page's navigation, timers and loading spinners are not part of this model.
- The reset page's HTML `required`, `minLength` and `maxLength` attributes are browser-side form constraints and are not modelled. The OTP value is not validated before submit beyond what the sanitiser already guarantees.
- The service does not validate or normalise the provider's parsed object. `AnalyzeDevice` returns it as a raw JSON value, as the code does.
- No handler copies the first recycling steps of an analysis into the device recommendations, so nothing like that is modelled.
- The classify handler does not call the AI service, so the classification record never carries the analysis fields. `Validate` still checks and defaults them.
- The initial assignments in the classify handler are not modelled: `'Low'`, the single generic recommendation, and the `Detected ... as ...` text. Both branches overwrite them, so they never reach a stored record.
