# CNHS Alumni Association portal — a verified model of its front-end logic

The portal is a React front end for a school's alumni association. Alumni register with their
batch year and address, and receive a QR code. Staff sign in, see the member list with
payment totals, edit a member's payment status, and scan QR codes at the event door. A page
also generates class banners and T-shirt prints on a canvas.

This project models the logic under that UI in Dafny:

- the member list pipeline and bookkeeping on the dashboard (`dashboard.dfy`);
- the amount formatting and save rules of the member editing dialog (`member_editing.dfy`);
- registration: validation, the province → city → barangay cascade, submission and the QR payload (`registration.dfy`);
- the door scanner: `parseInt` of the QR payload, the lookup state machine and the chip colours (`qr_scanner.dfy`);
- the banner generator's contain-fit geometry and its drawing-command sequence (`background_image.dfy`);
- the T-shirt print's year picker and drawing sequence (`text_generator.dfy`);
- the sign-in form (`login_form.dfy`);
- the dashboard card's colour lookup (`data_card.dfy`).

Shared pieces:

- `wrappers.dfy` holds `Option` and the outcome of an HTTP call. An outcome is `Ok(status, data)`, `Failed(status, message)` for an error response, or `NoResponse`.
- `text.dfy` holds decimal rendering, JavaScript white-space trimming, ASCII lower-casing and the string order used for sorting.
- `canvas.dfy` holds a 2D canvas reduced to its size, its style, its scale and the list of drawing calls issued since the last reset. Each call records the style in force.

Each asynchronous handler is split at its `await`. The first part (`Submit`, `BeginFetch`, …) is modelled up to the request. The second part (`Settle`, `EndFetch`, …) takes the server's outcome as a parameter. State the component keeps in `useState` and updates through setters becomes a class with those fields. Handlers that only return a new value become functions.

## Model

| member | source | states |
|---|---|---|
| Dashboard.WithNames | src/components/Dashboard.tsx:143-147 | every member keeps its position and gets `name` = first name, a space, last name |
| Dashboard.SortByNameCorrect | src/components/Dashboard.tsx:148 | the sorted list is ordered by name and is a permutation of its input |
| Dashboard.InsertWithName | src/components/Dashboard.tsx:148 | inserting a member puts it ahead of every member with the same name and leaves the order of the other names' members alone |
| Dashboard.SortByNameStable | src/components/Dashboard.tsx:148 | the sort is stable: for every name, the members with that name come out in the order they came in |
| Dashboard.DedupeCorrect | src/components/Dashboard.tsx:149-155 | on a sorted list, de-duplication keeps the order, leaves no two names equal after lower-casing, keeps only the first member of each group, and keeps a member for every group |
| Dashboard.Reindex | src/components/Dashboard.tsx:156 | the rows are the same members, numbered 1..n in list order |
| Dashboard.NormalizeRows | src/components/Dashboard.tsx:143-156 | after the whole pipeline, row k has index k+1 and its name is its display name |
| Dashboard.NormalizeOrderedDistinct | src/components/Dashboard.tsx:148-155 | the normalised list is sorted by name and has no two names equal after lower-casing |
| Dashboard.NormalizeKeepsFirsts | src/components/Dashboard.tsx:143-156 | each row is the first member of its case-insensitive group in sorted order (renumbered), and every fetched member's group has a row |
| Dashboard.AccountedMoney | src/components/Dashboard.tsx:118-126 | the fold's totals are the sum of `paid_amount` and the sum of `sponsored_amount` over all members |
| Dashboard.SumsAppend | src/components/Dashboard.tsx:119-126 | the totals of a concatenation are the sums of the totals of its parts |
| Dashboard.PaidMembers | src/components/Dashboard.tsx:210-212 | the filter keeps only members of the list that are paid or sponsored, and is no longer than the list |
| Dashboard.PaidCountIsPositions | src/components/Dashboard.tsx:210-212 | the paid-member count equals the number of positions holding a paid or sponsored member |
| Dashboard.Merged | src/components/Dashboard.tsx:96-106 | the merged member takes the seven returned fields (name, first and last name, batch year, status, paid and sponsored amounts) and keeps its id, row number, e-mail, mobile number and capture fields |
| Dashboard.MergeUpdated | src/components/Dashboard.tsx:94-109 | the length is unchanged; members with another id are unchanged; every member with the answer's id is merged with it |
| Dashboard.MergeUpdatedIdempotent | src/components/Dashboard.tsx:94-109 | merging the same answer twice is the same as merging it once |
| Dashboard.MergeUpdatedTotals | src/components/Dashboard.tsx:94-109 | when one member has the id, the totals move by the difference between the new and the old amounts |
| Dashboard.DashboardState.constructor | src/components/Dashboard.tsx:58-66 | the list starts empty, nothing is in progress, and the totals start at 0 and 0 |
| Dashboard.DashboardState.MembersChanged | src/components/Dashboard.tsx:165-169 | the totals are recomputed from a non-empty list; an empty list leaves the old totals |
| Dashboard.DashboardState.BeginFetchMembers | src/components/Dashboard.tsx:133 | fetching is raised |
| Dashboard.DashboardState.FinishFetchMembers | src/components/Dashboard.tsx:142-159 | on success the list becomes the normalised data, fetching ends and the totals follow the list; a failure leaves everything as it was |
| Dashboard.DashboardState.BeginStatusUpdate | src/components/Dashboard.tsx:76 | the update is marked in progress |
| Dashboard.DashboardState.FinishStatusUpdate | src/components/Dashboard.tsx:90-115 | a 200 selects the returned member, opens the dialog and merges it into the list; anything else changes only the in-progress flag; the flag ends false |
| MemberEditing.DigitsOfEmptyIff | src/components/utils/MemberEditingModal.tsx:74 | the digits of a string are empty exactly when it holds no ASCII digit |
| MemberEditing.FormatNumberEmptyIff | src/components/utils/MemberEditingModal.tsx:73-78 | `formatNumber` returns "" exactly when its input holds no ASCII digit |
| MemberEditing.GroupCorrect | src/components/utils/MemberEditingModal.tsx:77 | en-US grouping of a digit string keeps its digits and puts a comma before every group of three counted from the right |
| MemberEditing.FormatNumberShape | src/components/utils/MemberEditingModal.tsx:73-78 | the output holds only digits and commas, and a non-empty output is well grouped in threes |
| MemberEditing.FormatNumberRoundTrip | src/components/utils/MemberEditingModal.tsx:77-107 | removing the commas from `formatNumber(s)` and reading the number gives the value of the digits of `s` |
| MemberEditing.FormatNumberIdempotent | src/components/utils/MemberEditingModal.tsx:73-78 | formatting a formatted amount leaves it unchanged |
| MemberEditing.InitialState | src/components/utils/MemberEditingModal.tsx:68-71 | the dialog starts pending, with no form, a paid amount reading 100 and a sponsored amount reading 0 |
| MemberEditing.SyncMember | src/components/utils/MemberEditingModal.tsx:97-102 | a selected member sets the status and the form to that member's values; no member changes nothing |
| MemberEditing.ChangeMemberForm | src/components/utils/MemberEditingModal.tsx:92-95 | only the named field of the form changes; a form never filled starts empty |
| MemberEditing.HandlersKeepValid | src/components/utils/MemberEditingModal.tsx:80-102 | every handler keeps both amount inputs as digits-and-commas text |
| MemberEditing.HandleSave | src/components/utils/MemberEditingModal.tsx:104-122 | a request exists exactly when a member is selected, for that member's id, with the selected status; the paid amount is sent for paid or sponsored and 0 otherwise; the sponsored amount only for sponsored; the first name, last name and batch year are the form's values, each "" when missing or when no form was filled |
| MemberEditing.SaveEditedFormRoundTrip | src/components/utils/MemberEditingModal.tsx:92-111 | after opening the dialog on a member and editing one field, saving sends the typed value for that field and the member's own values for the other two |
| MemberEditing.SavePaidAmountRoundTrip | src/components/utils/MemberEditingModal.tsx:87-118 | typing an amount, then saving with a paid or sponsored status, sends the value of the typed digits |
| MemberEditing.SaveSponsoredAmountRoundTrip | src/components/utils/MemberEditingModal.tsx:80-118 | typing a sponsored amount, then saving as sponsored, sends the value of the typed digits; any other status sends 0 |
| Registration.SetText | src/components/Registration.tsx:188 | only the named text field takes the value; every other field is unchanged |
| Registration.BatchYears | src/components/Registration.tsx:130-134 | the choices are exactly 1973..currentYear, in ascending order, with currentYear − 1972 entries |
| Registration.FilterCities | src/components/Registration.tsx:138-140 | the cities kept are exactly those of the selected province |
| Registration.FilterBarangays | src/components/Registration.tsx:152-154 | the barangays kept are exactly those of the selected city |
| Registration.FindProvince | src/components/Registration.tsx:246-248 | the first province with the id, or none exactly when no province has it |
| Registration.FindCity | src/components/Registration.tsx:249 | the first city with the id, or none exactly when no city has it |
| Registration.ProvinceLabel | src/components/Registration.tsx:204-206 | the name of a province with the id, or "" when there is none |
| Registration.CityLabel | src/components/Registration.tsx:207-209 | the name of a city with the id, or "" when there is none |
| Registration.ClearError | src/components/Registration.tsx:190-192 | a shown error for the field is blanked; every other error and the set of keys are unchanged |
| Registration.ClearAddressErrorAsWritten | src/components/Registration.tsx:215-217 | as written: only the id key's error is blanked, so the name key's error is kept |
| Registration.AddressErrorPersistsAsWritten | src/components/Registration.tsx:215-217 | as written, a shown "Province is required" survives picking a province |
| Registration.ClearAddressError | src/components/Registration.tsx:215-217 | corrected: the errors of both the id key and the name key are blanked, and nothing else changes |
| Registration.NameErrors | src/components/Registration.tsx:223-226 | first or last name has an error exactly when it is blank (white space only), with the fixed message |
| Registration.ValidIffNoErrors | src/components/Registration.tsx:220-237 | there are no errors exactly when the names are not blank, a gender and a batch year are chosen, and province, city, barangay and birth date are non-empty |
| Registration.InitialFormErrors | src/components/Registration.tsx:220-237 | the initial form fails every required check except birth date |
| Registration.BuildParams | src/components/Registration.tsx:246-257 | the request copies the form, has status "active", and has province and city names and a zip code exactly when the selected ids are found |
| Registration.QrPayload | src/components/Registration.tsx:340-342 | the payload starts with the member id's decimal form followed by "_" |
| Registration.RegistrationForm.constructor | src/components/Registration.tsx:82-117 | empty lists, the initial form, no errors, not loading, no member |
| Registration.RegistrationForm.LoadAddress | src/components/Registration.tsx:162-180 | the three address lists are stored |
| Registration.RegistrationForm.ProvinceEffect | src/components/Registration.tsx:136-148 | a selected province lists its cities and clears city and barangay; no province lists nothing; the barangay list is emptied either way |
| Registration.RegistrationForm.CityEffect | src/components/Registration.tsx:150-160 | a selected city lists its barangays and clears the barangay; no city lists nothing |
| Registration.RegistrationForm.HandleInputChange | src/components/Registration.tsx:182-193 | the form changes only in the named field, and only that field's error is blanked |
| Registration.RegistrationForm.HandleBatchYearChange | src/components/Registration.tsx:182-193 | the batch year is set and its error blanked |
| Registration.RegistrationForm.HandleConsentChange | src/components/Registration.tsx:807-816 | the checkbox's checked state becomes the consent flag; nothing else changes and no error is cleared |
| Registration.RegistrationForm.SelectProvince | src/components/Registration.tsx:195-218 | the id and its name are stored; when the id changed, the cascade runs; the errors are cleared as corrected |
| Registration.RegistrationForm.SelectCity | src/components/Registration.tsx:195-218 | the id and its name are stored; when the id changed, the barangays are re-listed; the errors are cleared as corrected |
| Registration.RegistrationForm.ValidateForm | src/components/Registration.tsx:220-238 | the errors are replaced by the required-field errors, and the result is true exactly when the form is valid |
| Registration.RegistrationForm.Submit | src/components/Registration.tsx:240-306 | a valid form yields the request while loading stays raised; an invalid form yields no request and loading ends |
| Registration.RegistrationForm.Settle | src/components/Registration.tsx:269-306 | success stores the member, shows the thank-you message, resets the form and runs the cascades; failure shows the warning; loading ends false |
| QrScanner.DigitPrefix | src/components/QrScanner.tsx:83 | the longest prefix made of digits of the radix |
| QrScanner.RadixValueDecimal | src/components/QrScanner.tsx:83 | in radix 10 the digit value is the decimal value |
| QrScanner.DecimalPrefix | src/components/QrScanner.tsx:83 | the leading digits of a numeral followed by a non-digit are the numeral |
| QrScanner.DecimalMagnitude | src/components/QrScanner.tsx:83 | a numeral not followed by a digit or `x` reads as its own value |
| QrScanner.ParseIntDecimal | src/components/QrScanner.tsx:83 | `parseInt` of a numeral followed by such text is the numeral's value |
| QrScanner.ParseIntMinus | src/components/QrScanner.tsx:83 | the same numeral after a minus sign reads as the negated value |
| QrScanner.ParseIntNegative | src/components/QrScanner.tsx:83 | a negative integer's decimal form, followed by such text, reads back as that integer |
| QrScanner.ParseIntRendered | src/components/QrScanner.tsx:83 | any integer's decimal form, followed by such text, reads back as that integer |
| QrScanner.QrPayloadRoundTrip | src/components/QrScanner.tsx:82-83 | the id read from a registration payload is the member's id, for every id, year and time |
| QrScanner.StatusChipColor | src/components/QrScanner.tsx:161-167 | paid ↔ success, active ↔ primary, any other status ↔ error |
| QrScanner.CapturedChipColor | src/components/QrScanner.tsx:174-180 | valid ↔ success, invalid ↔ error, any other ↔ warning |
| QrScanner.FailureAlert | src/components/QrScanner.tsx:60-72 | a 403 shows the server's message; any other failure shows "Failed to fetch data."; both with severity error |
| QrScanner.Scanner.constructor | src/components/QrScanner.tsx:34-41 | no results, not fetching, not scanned, camera off, alert "Something went wrong!" as a warning |
| QrScanner.Scanner.BeginFetch | src/components/QrScanner.tsx:44-45 | fetching is raised and scanned lowered |
| QrScanner.Scanner.EndFetch | src/components/QrScanner.tsx:56-76 | success replaces the results with the alert "Scanned results:"; a failure keeps them and shows the failure alert; either way fetching ends and scanned is raised |
| QrScanner.Scanner.OnResult | src/components/QrScanner.tsx:81-86 | the id requested is `parseInt` of the first code's text; with no code nothing changes |
| QrScanner.Scanner.HandleScan | src/components/QrScanner.tsx:79 | the camera flag is flipped |
| BackgroundImage.ContainFit | src/components/BackgroundImageGenerator.tsx:38-53 | a picture wider than the canvas spans its width at x = 0, centred vertically; any other spans its height at y = 0, centred horizontally |
| BackgroundImage.FitKeepsAspect | src/components/BackgroundImageGenerator.tsx:38-50 | the fitted rectangle has the picture's width-to-height ratio |
| BackgroundImage.FitInsideCanvas | src/components/BackgroundImageGenerator.tsx:38-53 | the fitted rectangle is non-empty and lies inside the canvas |
| BackgroundImage.FitCentred | src/components/BackgroundImageGenerator.tsx:43-53 | the room left on each side of the fitted rectangle is equal |
| BackgroundImage.PreviewFallback | src/components/BackgroundImageGenerator.tsx:56-59 | with no picture the whole 800×600 canvas is filled #f0f0f0 after clearing and before the caption |
| BackgroundImage.CaptionLast | src/components/BackgroundImageGenerator.tsx:62-71 | the caption is drawn last, at (595, 360), white, centred, with a 2px shadow offset |
| BackgroundImage.PictureFitted | src/components/BackgroundImageGenerator.tsx:36-55 | a loaded picture is drawn over exactly the contain-fit rectangle |
| BackgroundImage.HdMatchesPreview | src/components/BackgroundImageGenerator.tsx:93-134 | the HD copy makes the preview's drawing calls at the same coordinates, without the clearing, at scale 2 |
| BackgroundImage.Paint | src/components/BackgroundImageGenerator.tsx:36-71 | draws the picture or the grey fill, then the caption, from the default style |
| BackgroundImage.BannerGenerator.constructor | src/components/BackgroundImageGenerator.tsx:7-82 | no picture yet, and the preview is drawn with the grey fill |
| BackgroundImage.BannerGenerator.DrawCanvas | src/components/BackgroundImageGenerator.tsx:23-78 | the preview is resized to 800×600 (clearing it), holds exactly the preview picture, and ends with the shadow off; without a canvas nothing happens |
| BackgroundImage.BannerGenerator.TextChanged | src/components/BackgroundImageGenerator.tsx:78-82 | a new caption redraws the preview |
| BackgroundImage.BannerGenerator.ImageLoaded | src/components/BackgroundImageGenerator.tsx:14-21 | the loaded picture becomes the background and the preview is redrawn |
| BackgroundImage.BannerGenerator.DownloadImage | src/components/BackgroundImageGenerator.tsx:84-149 | a file is offered exactly when there is a canvas, a context and image data; it is "hd-class-banner.png", 1600×1200, with the layers at scale 2 |
| TextGenerator.YearOptions | src/components/TextGenerator.tsx:197-207 | 53 entries; entry k is the decimal year 2025 − k |
| TextGenerator.YearOptionsShape | src/components/TextGenerator.tsx:198-206 | the entries are 53 years from 2025 down to 1973, strictly descending, with no repeats, and "2025" first |
| TextGenerator.Label | src/components/TextGenerator.tsx:67-71 | the label is "CLASS " followed by the year |
| TextGenerator.PixelRatio | src/components/TextGenerator.tsx:38 | the device pixel ratio, or 1 when it is missing |
| TextGenerator.StrokeBeforeFill | src/components/TextGenerator.tsx:59-93 | each text is outlined, then filled at the same spot: the label at (400, 200), the tagline at (400, 270) |
| TextGenerator.ShirtDesigner.constructor | src/components/TextGenerator.tsx:109-124 | the year starts as "2025" (line 24) and the mount run of the `[text]` effect draws its print: the canvas is 800·dpr × 400·dpr, scaled by dpr, and holds exactly the "CLASS 2025" print |
| TextGenerator.ShirtDesigner.DrawText | src/components/TextGenerator.tsx:29-97 | the canvas is 800·dpr × 400·dpr, scaled by dpr, and holds exactly the print; without a canvas nothing happens |
| TextGenerator.ShirtDesigner.SelectYear | src/components/TextGenerator.tsx:109-124 | picking a year stores it and redraws the print |
| TextGenerator.ShirtDesigner.DownloadCanvas | src/components/TextGenerator.tsx:99-107 | the canvas is offered as "hd-back-t-shirt-design.png" exactly when there is one |
| LoginForm.LoginErrors | src/components/LoginForm.tsx:34-38 | an email error exactly when the email is blank, a password error exactly when the password is blank, with the fixed messages |
| LoginForm.LoginValidIff | src/components/LoginForm.tsx:34-41 | there are no errors exactly when neither field is blank |
| LoginForm.WithField | src/components/LoginForm.tsx:44-49 | only the field named by the input changes |
| LoginForm.SignIn.constructor | src/components/LoginForm.tsx:26-32 | empty fields, no errors, not loading, no message |
| LoginForm.SignIn.HandleChange | src/components/LoginForm.tsx:44-49 | the form changes in the named field only |
| LoginForm.SignIn.ValidateForm | src/components/LoginForm.tsx:34-42 | the errors are replaced by the new ones, and the result is true exactly when neither field is blank |
| LoginForm.SignIn.Submit | src/components/LoginForm.tsx:51-67 | a valid form raises loading, clears the message and sends the credentials; an invalid one sends nothing and leaves loading and the message unchanged |
| LoginForm.SignIn.Settle | src/components/LoginForm.tsx:69-87 | a 200 stores the token and the user; a 403 gives "Invalid credentials."; any other failure the generic message; loading ends false |
| DataCard.ColorHex | src/components/utils/DashboardDataCard.tsx:31-41 | a known colour name gives its table value, and any other name gives "#1976d2" |
| DataCard.ColorHexInTable | src/components/utils/DashboardDataCard.tsx:31-41 | the result is always one of the six table values |
| DataCard.DefaultIsPrimaryBlue | src/components/utils/DashboardDataCard.tsx:26-33 | a card with no colour given is "#1976d2" |

## Left out

- Network I/O: every request is replaced by its outcome, passed as a parameter. The request URLs, headers and API keys are not modelled.
- Reading the address lists and the member list from the response bodies is not modelled. A malformed body is one of the failure outcomes.
- Pixels: glyph shapes, fonts and font loading, image decoding, PNG encoding, object URLs and anchor clicks are not modelled. A canvas is the list of drawing calls it received.
- Object URL lifetime: the URL is created and revoked inside one callback, so no URL outlives a download. It is not modelled.
- QR symbol encoding, camera scanning and the QR image export are not modelled. `src/components/QRReader.tsx` and `src/components/MemberQRCode.tsx` are not part of this model; only the payload text and its decoding are.
- Locale: `localeCompare` is modelled as lexicographic order on Unicode code points (Dafny characters), which agrees with UTF-16 code-unit order below U+10000 only. `toLowerCase` is ASCII lower-casing. `Intl.NumberFormat("en-US")` is three-digit comma grouping of a non-negative integer.
- JavaScript `Number`: numbers above 2^53 lose precision in the source but are exact here. Negative zero is not modelled.
- Floating point: `devicePixelRatio` and the fit geometry are Dafny reals. The truncation of a fractional canvas size to whole pixels is not modelled.
- `devicePixelRatio || 1`: only the zero ratio falls back to 1; NaN is not modelled.
- BackgroundImage.ContainFit: requires a picture of positive size. A decoded picture always has one; the Infinity and NaN sizes a zero-sized picture would give are not modelled.
- React timing: effects run synchronously after the change that triggers them. Re-render order, interleaved requests and the 200 ms font-load retry are not modelled. `drawText` runs with or without the fonts.
- The try/catch around `drawText` only logs; drawing never fails in the model.
- Registration.RegistrationForm.ValidateForm: the source builds the error map one `if` at a time. The model computes the same map in one step, as `RequiredErrors` of the form.
- Registration.RegistrationForm.SelectProvince: the errors are cleared with the corrected `ClearAddressError`, which blanks both `province_id` and the displayed `province` key. The source blanks only `province_id` (`ClearAddressErrorAsWritten`), so after a failed submit the model drops the "Province is required" message that the page keeps showing; see "## Findings".
- Registration.RegistrationForm.SelectCity: the same for `city_id` and the displayed `city` key; the source leaves "City is required" on screen.
- Registration: an undefined province or city name (an id not in the lists) is stored as "". Both are falsy, so validation treats them the same.
- Registration: the consent checkbox only disables the submit button in the markup. No handler checks it, and neither does the model.
- Registration.RegistrationForm.Settle: any 2xx answer counts as success, as in the source. The contents of the success body beyond the member id and slug are not modelled.
- Dashboard: amounts are whole numbers; fractional amounts from the server, which the source would add as floating-point numbers, are not modelled.
- Dashboard: routing to the login page without a user, and the dialog open and close handlers, are not modelled.
- LoginForm: navigation after sign-in, and the shared user context beyond the stored user, are not modelled.

## Findings

| source | as written | input that shows it | evidently intended | confidence | as-written member | corrected member |
|---|---|---|---|---|---|---|
| src/components/Registration.tsx:215-217 | picking a province or city blanks `errors.province_id` or `errors.city_id`. Validation only ever sets `errors.province` and `errors.city` (lines 230-231), and those are the messages shown under the selects (lines 644-646 and 681-683). | submit with no province ("Province is required" appears), then pick a province: the message stays until the next submit | picking an address clears the error shown for it | not executed | Registration.ClearAddressErrorAsWritten (with Registration.AddressErrorPersistsAsWritten) | Registration.ClearAddressError |
