# Emergency push fan-out and image-sensitivity check

A Dafny model of the two server-side handlers of an emergency-alert app.

- **emergency-push** (`emergency_push.dfy`, module `EmergencyPush`). A request names an
  emergency, its reporter and its location. The handler asks the `user_locations`
  directory for users who are not the reporter, have a push token, and lie in an
  inclusive box of ±0.0045° (about 500 m) around the location. It then pushes one
  notification to each of them, in the order the directory returned them. A push that
  throws is recorded as a failure for that user only. The answer lists one entry per
  user and counts `sent` and `failed`. A directory error, or a body that is not JSON,
  gives status 500 and no push is made. A CORS preflight (`OPTIONS`) gets `ok`.
- **verify-image** (`verify_image.dfy`, module `VerifyImage`). A crime category is
  *sensitive* when, lower-cased, it contains one of `killing`, `murder`, `homicide`,
  `dead body` or `violent death`. That one flag sets the verification record's
  `needs_human_review` and `overall_status` (`needs_review` / `approved`), and the
  response's `next_step` (`human_moderation` / `publish`). A missing or non-string
  category makes lower-casing throw, which gives status 500.

`wrappers.dfy` holds `Option` (for nullable values) and `Result` (for calls that return
a value or throw).

Collaborators are inputs of the model:
- The directory is a `Directory`: a table of rows the query filter runs over, a reply
  with null data, or an unreachable store with its error message.
- The push transport is a sequence `sends` with one `Ok(receipt)` or `Err(message)` per
  attempted push, in call order. The handler returns `calls`, the pushes it made.
- The clock is the `now` string given to the verify-image handler.

`success: true` for a user means only that the push call did not throw. The push helper
parses the reply body as JSON and does not look at the HTTP status. So a reply with an
error status whose body parses as JSON counts as a success, and its receipt may hold an
error from the push service. A reply whose body is not JSON throws, and that user's entry
gets `success: false`. The `sends` input can express both cases.

Further behaviours of the code that the model keeps:
- The handler sends pushes one after another, awaiting each before the next.
- Each user gets one push attempt; nothing is retried.
- The handler does not validate the body's fields, so a body with missing fields is not rejected with a 4xx (see "Left out").

## Model

| member | source | states |
|---|---|---|
| EmergencyPush.SelectMember | supabase/functions/emergency-push/index.ts:61-70 | a user is in the query result iff some directory row passes the filter (not the reporter, token non-null, inside the box) and projects to that user |
| EmergencyPush.SelectedAreEligible | supabase/functions/emergency-push/index.ts:64-65 | no returned user is the reporter, and every returned user has a non-null token |
| EmergencyPush.SelectAppend | supabase/functions/emergency-push/index.ts:61-70 | selecting from two concatenated row sequences gives the two selections concatenated, so matching rows keep the order in which the database yields them |
| EmergencyPush.RowSelectedIffMatches | supabase/functions/emergency-push/index.ts:64-70 | a row contributes its projection at its own place iff it passes the filter; a row that fails it, a token-less row included, contributes nothing |
| EmergencyPush.InBoxIsDistanceBox | supabase/functions/emergency-push/index.ts:67-70 | the four one-sided comparisons hold iff the absolute latitude and longitude differences are both at most 0.0045 |
| EmergencyPush.BoxBoundary | supabase/functions/emergency-push/index.ts:67-70 | the bounds are inclusive: a point exactly 0.0045 away on an axis is inside; any point farther on one axis is outside |
| EmergencyPush.SendAll | supabase/functions/emergency-push/index.ts:76-96 | one result per user, in user order; each result carries the user's id and `success` holds iff that push did not throw, with its receipt or its error message; every push uses the user's token, the fixed title, the body `<type> emergency within 500m! Tap to respond.` and data with the emergency id, type, both coordinate strings and `FLUTTER_NOTIFICATION_CLICK` |
| EmergencyPush.HandleEmergencyPush | supabase/functions/emergency-push/index.ts:43-117 | OPTIONS answers `ok` with no push; a body parse error or a directory error answers 500 with that message and no push; otherwise it answers the details of the pushes to the query's users (none for a null reply), `sent` and `failed` as the counts of successful and failed entries; status is 500 exactly on the error paths |
| EmergencyPush.DetailsAt | supabase/functions/emergency-push/index.ts:77-96 | the i-th details entry is the outcome of the i-th user's push and names that user |
| EmergencyPush.SendIsolation | supabase/functions/emergency-push/index.ts:79-95 | changing the outcome of one push changes that user's entry only; every other user, earlier or later, gets the same entry |
| EmergencyPush.CountsPartition | supabase/functions/emergency-push/index.ts:100-102 | `sent + failed == results.length`; the sent entries all succeeded and the failed entries all failed, all drawn from the results |
| EmergencyPush.CountsMatchSends | supabase/functions/emergency-push/index.ts:92-102 | `sent` is the number of pushes that did not throw and `failed` the number that threw |
| EmergencyPush.DetailsExcludeIneligible | supabase/functions/emergency-push/index.ts:61-104 | for a table reply, no details entry names the reporter and `sent + failed` equals the number of selected users, so token-less rows are never counted |
| EmergencyPush.ThreeNeighbours | supabase/functions/emergency-push/index.ts:61-102 | around (23.8103, 90.4125), of a near user with a token, a near user without one and a far user, only the first is selected, and one successful push gives sent 1, failed 0, one entry |
| VerifyImage.Lower | supabase/functions/verify-image/index.ts:25 | lower-casing keeps the length and maps each character through ASCII lower-casing |
| VerifyImage.IncludesIffOccurs | supabase/functions/verify-image/index.ts:25 | the left-to-right inclusion search succeeds iff the substring occurs at some index |
| VerifyImage.AnyIncludedIff | supabase/functions/verify-image/index.ts:24-26 | the `some` over the keyword list holds iff some keyword, lower-cased, is included in the text |
| VerifyImage.CategoriesLowercase | supabase/functions/verify-image/index.ts:23-25 | each keyword is already lower case and none is empty |
| VerifyImage.SensitiveIff | supabase/functions/verify-image/index.ts:23-26 | a category is sensitive iff one of the five keywords occurs in its lower-cased form |
| VerifyImage.SensitiveIgnoresCase | supabase/functions/verify-image/index.ts:25 | two categories that differ only in ASCII letter case get the same classification |
| VerifyImage.SensitiveOfUpper | supabase/functions/verify-image/index.ts:25 | upper-casing a category does not change its classification |
| VerifyImage.SensitiveInContext | supabase/functions/verify-image/index.ts:24-26 | adding text before or after a sensitive category leaves it sensitive |
| VerifyImage.EmptyNotSensitive | supabase/functions/verify-image/index.ts:23-26 | the empty category is not sensitive |
| VerifyImage.SampleMurderCase | supabase/functions/verify-image/index.ts:23-26 | `Murder Case` is sensitive |
| VerifyImage.SampleTheft | supabase/functions/verify-image/index.ts:23-26 | `theft` is not sensitive |
| VerifyImage.HandleVerifyImage | supabase/functions/verify-image/index.ts:9-79 | OPTIONS answers `ok`; a body parse error or a missing or non-string category answers 500 with no record; otherwise the response's `is_sensitive` is the classification, `overall_status` is `needs_review` iff sensitive and `approved` iff not, `next_step` is `human_moderation` iff sensitive and `publish` iff not, and the record agrees with the response on `is_sensitive`, `needs_human_review` and `overall_status` |

## Left out

- The HTTP calls to the push service and the database client: the push transport and the directory are inputs. Only the filter predicate the query carries is modelled.
- The push request's fixed fields: sound, priority, Android channel and full-screen flag. These are constants of the push helper and do not depend on the input.
- Floating-point arithmetic: coordinates are exact reals, so `lat ± 0.0045` is not rounded. `String(lat)` is not computed; each coordinate carries its text as an input.
- Unicode lower-casing: only the ASCII letters `A`–`Z` are folded.
- Missing or mistyped fields in the emergency-push body, which reach the query as `undefined` or `NaN`: the model's request always has every field, and a row's `user_id`, `lat` and `lng` are never null.
- The exact text of the TypeError thrown when the category is not a string: the model records only its cause (`CategoryNotText`).
- The verification record of verify-image is only built; the handler neither stores nor returns it. The model returns it beside the response so that their agreement can be stated. Its pass-through fields (`report_id`, `image_url`, `user_id`, `client_check`) are opaque strings. The model does not capture that they may be missing or, for `client_check`, an object.
- Environment variables, logging, the CORS header maps, JSON serialisation of responses, and the timestamp format.
- Concurrency: the handler awaits one push at a time, and the model is that sequential loop.
- The Android receivers, the activity and the Gradle build files: platform glue and build configuration with no logic of their own.
