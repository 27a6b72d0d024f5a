# Restaurant discovery backend: a verified model of the business core

This project models the domain and application core (`src/core/`) of a
restaurant-discovery backend written in TypeScript. Clients browse
restaurants, mark favorites, download menus, upload visit photos and answer
surveys. Restaurant owners submit onboarding applications and manage their
restaurants, menus, documents, images and zones. Administrators approve or
reject applications and may act on any resource.

The model covers:

- **Onboarding workflow.** An application moves through PENDING, IN_REVIEW,
  APPROVED and REJECTED (`ApplicationEntity`, `Onboarding`). A restaurant can
  be created only from an APPROVED application, and at most once per
  application (`Onboarding.CreateRestaurant`).
- **Engagement ledger.** Favorites are a set of (client, restaurant) pairs.
  Each restaurant keeps a like counter that never goes below zero. The model
  proves that toggling keeps every counter equal to the number of favorites
  naming its restaurant, and that toggling twice restores the store. Being a
  favorite unlocks menu downloads and photo uploads (`Engagement`,
  `RestaurantEntity`).
- **Access control.** Many use cases repeat one guard: an administrator, or
  the owner of the resource, may act, and anyone else gets Forbidden
  NOT_OWNER. It is defined once (`Access.CanActOn`), and each use case is
  proved to refuse exactly the requests it excludes (`Restaurants`, `Menus`,
  `Documents`, `Images`, `Zones`, `Engagement`).
- **Identity flows.** Registration, login, account creation, update and
  deletion, password change and promotion (`Auth`, `Accounts`). Password
  hashing and comparison are function parameters.
- **Value objects and validators.** The phone cleaner and formatter, the
  email validator, normaliser and masker, file-URL name and extension
  parsing, the password strength score and the strength validator
  (`PhoneValue`, `EmailValue`, `FileUrlValue`, `PasswordValue`,
  `PasswordPolicy`). They rest on a small string library (`Text`).
- **Popularity rules, aggregations and listings.** Like-count levels and
  milestones (`LikeCounter`), owner, global and survey statistics
  (`Statistics`), and paged listings (`Listings`).

The repositories are one in-memory store (`Persistence.Store`). Each table
is a map from id to the entity's persisted fields, and all tables share one
id counter. `Persistence.Db` is the value of the whole store.

Each use case that changes state has two parts:

- a function from one `Db` to the next, with the outcome, on which the
  properties are proved;
- a class with an `Execute` method that performs the same steps on the store
  and is proved to agree with that function.

Entities whose methods assign their own fields are classes (`Application`,
`Restaurant`, `Menu`, `Document`, `Zone`, `User`, `Client`, `Download`).
Validating factories are functions returning a `Result`. Errors are one
`Failure` datatype (`Outcomes`). It carries the reason codes the use cases
raise: Validation with its field errors, NotFound, Conflict, Forbidden,
Unauthorized, and a plain failure for `Error` throws.

Two behaviours of the application workflow are worth stating:

- The ApproveApplication and RejectApplication use cases refuse an
  application that is no longer PENDING or IN_REVIEW with a Validation error
  (`ApproveApplication.usecase.ts:24-28`).
- `setInReview` moves an application to IN_REVIEW from any status, closed
  ones included (`Application.entity.ts:66-69`).

## Model

| member | source | states |
|---|---|---|
| PhoneValue.Clean | src/core/domain/value-objects/Phone.vo.ts:14-17 | the cleaned text is no longer than the input and holds no white space, '-', '(', ')' or '+' |
| PhoneValue.NewPhone | src/core/domain/value-objects/Phone.vo.ts:4-12 | a phone is built exactly when the cleaned text is ten digits, not all the same and not starting with 0; the cleaned text is what is stored; otherwise the error is "El teléfono debe tener 10 dígitos" |
| PhoneValue.TelLink | src/core/domain/value-objects/Phone.vo.ts:60-62 | the link is "tel:+52" followed by the ten stored digits |
| PhoneValue.CleanValid | src/core/domain/value-objects/Phone.vo.ts:14-37 | a valid number is left unchanged by cleaning |
| PhoneValue.CleanIdempotent | src/core/domain/value-objects/Phone.vo.ts:14-17 | cleaning twice is the same as cleaning once |
| PhoneValue.CleanAppend | src/core/domain/value-objects/Phone.vo.ts:14-17 | cleaning works piecewise: cleaning a concatenation is the concatenation of the cleaned parts |
| PhoneValue.CleanDigits | src/core/domain/value-objects/Phone.vo.ts:14-17 | digits are never removed |
| PhoneValue.CleanSeparators | src/core/domain/value-objects/Phone.vo.ts:14-17 | a run of separators cleans to nothing |
| PhoneValue.CleanPieces | src/core/domain/value-objects/Phone.vo.ts:14-17 | three digit groups with separator runs before and between them clean to the three groups joined |
| PhoneValue.FormattedRoundTrip | src/core/domain/value-objects/Phone.vo.ts:44-47 | building a phone from its "(ddd) ddd-dddd" form gives the same phone back |
| PhoneValue.SpacedRoundTrip | src/core/domain/value-objects/Phone.vo.ts:49-52 | building a phone from its "ddd ddd dddd" form gives the same phone back |
| PhoneValue.DashedRoundTrip | src/core/domain/value-objects/Phone.vo.ts:54-57 | building a phone from its "ddd-ddd-dddd" form gives the same phone back |
| PhoneValue.EqualsIffSameDigits | src/core/domain/value-objects/Phone.vo.ts:73-75 | two accepted inputs give equal phones exactly when they clean to the same digits |
| PhoneValue.Formatted | src/core/domain/value-objects/Phone.vo.ts:45-48 | the ten digits laid out as "(ddd) ddd-dddd"; FormattedRoundTrip proves this form builds the same phone again |
| PhoneValue.FormattedWithSpaces | src/core/domain/value-objects/Phone.vo.ts:50-53 | the ten digits laid out as "ddd ddd dddd"; SpacedRoundTrip proves this form builds the same phone again |
| PhoneValue.FormattedWithDashes | src/core/domain/value-objects/Phone.vo.ts:55-58 | the ten digits laid out as "ddd-ddd-dddd"; DashedRoundTrip proves this form builds the same phone again |
| PhoneValue.Equals | src/core/domain/value-objects/Phone.vo.ts:73-75 | two phones are equal exactly when their stored digits are; EqualsIffSameDigits relates this to the inputs |
| EmailValue.NewEmail | src/core/domain/value-objects/Email.vo.ts:4-12 | an email is built exactly when the trimmed input passes the validity rules; the stored value is the trimmed input lower-cased; the failure is "Email inválido" |
| EmailValue.DomainPatternIff | src/core/domain/value-objects/Email.vo.ts:20 | the domain part of the pattern (`[a-zA-Z0-9.-]+\.[a-zA-Z]{2,}`) holds exactly when the domain ends in a dot, then two or more letters, after a non-empty run of domain characters |
| EmailValue.NoAtInLocal | src/core/domain/value-objects/Email.vo.ts:20 | a local part made of the pattern's characters holds no '@' |
| EmailValue.NoAtInDomain | src/core/domain/value-objects/Email.vo.ts:20 | a domain that matches the pattern holds no '@' |
| EmailValue.PatternGivesSplit | src/core/domain/value-objects/Email.vo.ts:20-32 | an address matching the pattern splits at '@' into exactly a valid local part and a valid domain |
| EmailValue.SplitGivesPattern | src/core/domain/value-objects/Email.vo.ts:20-32 | two parts of that shape joined by '@' match the pattern |
| EmailValue.PatternBySplit | src/core/domain/value-objects/Email.vo.ts:20-32 | matching the pattern is the same as splitting into two well-formed parts, so the two-part check after the pattern never fails on its own |
| EmailValue.SplitLower | src/core/domain/value-objects/Email.vo.ts:11 | lower-casing and splitting at '@' commute, piece by piece |
| EmailValue.LowerKeepsValidity | src/core/domain/value-objects/Email.vo.ts:11-55 | an address is valid exactly when its lower-cased form is valid |
| EmailValue.LowerKeepsTrimmed | src/core/domain/value-objects/Email.vo.ts:5-11 | lower-casing a trimmed text leaves it trimmed |
| EmailValue.NormalisedRoundTrip | src/core/domain/value-objects/Email.vo.ts:4-12 | the stored value is itself a valid address, and building an email from it gives the same email back |
| EmailValue.EqualsIgnoresCase | src/core/domain/value-objects/Email.vo.ts:69-71 | two inputs that differ only in letter case and surrounding white space give equal emails |
| EmailValue.PartsRebuildValue | src/core/domain/value-objects/Email.vo.ts:57-67 | a stored email splits into exactly two non-empty parts, and local part + "@" + domain is the stored value |
| EmailValue.MaskedParts | src/core/domain/value-objects/Email.vo.ts:78-84 | the masked form is the first character (local part of at most 3) or the first three characters of the local part, then "***@", then the whole domain |
| EmailValue.MaskedDefined | src/core/domain/value-objects/Email.vo.ts:78-84 | masking is defined on every built email: it has a non-empty local part and a domain |
| EmailValue.Equals | src/core/domain/value-objects/Email.vo.ts:69-71 | two emails are equal exactly when their normalised values are; EqualsIgnoresCase relates this to the inputs |
| EmailValue.Masked | src/core/domain/value-objects/Email.vo.ts:78-84 | the masked form keeps at most three leading characters of the local part and the whole domain; MaskedParts states its exact shape |
| FileUrlValue.NewFileUrl | src/core/domain/value-objects/FileUrl.vo.ts:4-25 | a file URL is built exactly when the trimmed input is 1 to 2048 UTF-16 code units long (JavaScript's `length`); the trimmed text is what is stored; otherwise the error is "La URL del archivo no puede estar vacía" |
| FileUrlValue.BlankRejected | src/core/domain/value-objects/FileUrl.vo.ts:14-17 | an input of white space only is refused |
| FileUrlValue.FileNameAfterLastSlash | src/core/domain/value-objects/FileUrl.vo.ts:32-35 | the file name is the text after the last '/' and holds no '/' |
| FileUrlValue.ExtensionOfLastDot | src/core/domain/value-objects/FileUrl.vo.ts:38-47 | the extension of a name is "" when it has no '.', else the lower-cased text after its last '.' |
| FileUrlValue.ExtensionAfterLastDot | src/core/domain/value-objects/FileUrl.vo.ts:38-47 | the extension of a file URL is "" when the file name has no '.', else the lower-cased text after the file name's last '.' |
| FileUrlValue.NameAndExtensionRebuildFileName | src/core/domain/value-objects/FileUrl.vo.ts:38-59 | with a '.', the name without extension, a '.', and the raw extension give back the file name, and the raw extension holds no '.' |
| FileUrlValue.NoDotNoExtension | src/core/domain/value-objects/FileUrl.vo.ts:38-59 | without a '.', the name without extension is the whole file name and the extension is "" |
| FileUrlValue.ExtensionOfParts | src/core/domain/value-objects/FileUrl.vo.ts:32-47 | "dir/stem.ext" with no '/' or '.' inside the parts and a lower-case extension has exactly that extension |
| FileUrlValue.ImageMime | src/core/domain/value-objects/FileUrl.vo.ts:62-65 | every image extension maps to an "image/" MIME type |
| FileUrlValue.VideoMime | src/core/domain/value-objects/FileUrl.vo.ts:79-82 | every video extension maps to a "video/" MIME type |
| FileUrlValue.EntryIffListed | src/core/domain/value-objects/FileUrl.vo.ts:62-117 | the MIME table has an entry exactly for the listed image, document and video extensions |
| FileUrlValue.MimeAgreesWithList | src/core/domain/value-objects/FileUrl.vo.ts:62-119 | image extensions get "image/", video extensions "video/", document extensions their table entry, "pdf" is a document with "application/pdf", anything else "application/octet-stream" |
| FileUrlValue.MimeAgreesWithKind | src/core/domain/value-objects/FileUrl.vo.ts:62-119 | the same agreement between isImage, isVideo, isDocument, isPdf and getMimeType on any file URL |
| FileUrlValue.AsWrittenAgreesOnExtension | src/core/domain/value-objects/FileUrl.vo.ts:88-119 | the lookup on the object literal gives the intended MIME type exactly when the extension is not a lower-case member of Object.prototype |
| FileUrlValue.AsWrittenAgreesElsewhere | src/core/domain/value-objects/FileUrl.vo.ts:85-120 | the same for the extension of any file URL |
| FileUrlValue.ConstructorLookup | src/core/domain/value-objects/FileUrl.vo.ts:119 | for the extension "constructor" the lookup yields the inherited member, while the intended type is "application/octet-stream" |
| FileUrlValue.ConstructorExtensionLeaks | src/core/domain/value-objects/FileUrl.vo.ts:85-120 | a file URL whose extension is "constructor" gets the inherited member instead of a MIME type |
| FileUrlValue.ConstructorExtensionOccurs | src/core/domain/value-objects/FileUrl.vo.ts:32-47 | such file URLs exist: "dir/stem.constructor" has the extension "constructor" |
| FileUrlValue.FileName | src/core/domain/value-objects/FileUrl.vo.ts:32-35 | the last piece of the value split at '/'; FileNameAfterLastSlash proves it is the text after the last '/' |
| FileUrlValue.Extension | src/core/domain/value-objects/FileUrl.vo.ts:38-48 | the lower-cased last piece of the file name split at '.', or "" without a '.'; ExtensionAfterLastDot proves it is the text after the last '.' |
| FileUrlValue.FileNameWithoutExtension | src/core/domain/value-objects/FileUrl.vo.ts:50-59 | the file name up to its last '.'; NameAndExtensionRebuildFileName and NoDotNoExtension prove it rebuilds the file name |
| FileUrlValue.IsImage | src/core/domain/value-objects/FileUrl.vo.ts:62-65 | the extension is one of the eight image extensions; ImageMime proves its MIME type is an image type |
| FileUrlValue.IsPdf | src/core/domain/value-objects/FileUrl.vo.ts:68-71 | the extension is "pdf"; MimeAgreesWithKind proves a PDF is also a document |
| FileUrlValue.IsDocument | src/core/domain/value-objects/FileUrl.vo.ts:73-76 | the extension is one of the eight document extensions |
| FileUrlValue.IsVideo | src/core/domain/value-objects/FileUrl.vo.ts:79-82 | the extension is one of the seven video extensions; VideoMime proves its MIME type is a video type |
| FileUrlValue.MimeType | src/core/domain/value-objects/FileUrl.vo.ts:85-120 | the table's type for the extension, "application/octet-stream" when it has none; MimeAgreesWithKind ties it to the kind predicates |
| FileUrlValue.IsAbsolute | src/core/domain/value-objects/FileUrl.vo.ts:129-133 | the value starts with "http://", "https://" or "//" |
| FileUrlValue.IsRelative | src/core/domain/value-objects/FileUrl.vo.ts:136-138 | exactly the values that are not absolute |
| FileUrlValue.Equals | src/core/domain/value-objects/FileUrl.vo.ts:154-156 | two file URLs are equal exactly when their trimmed values are |
| PasswordValue.NewPassword | src/core/domain/value-objects/Password.vo.ts:5-24 | a password is built exactly when it is marked hashed or is 6 to 100 UTF-16 code units long; value and flag are stored as given; otherwise the error is "La contraseña debe tener al menos 6 caracteres" |
| PasswordValue.Score | src/core/domain/value-objects/Password.vo.ts:43-57 | one point each for 8+ and 12+ UTF-16 code units and for each of the four character classes: at most 6, exactly 6 when the password has 12+ code units and all four classes, and at most 4 under 8 code units |
| PasswordValue.BuiltPlainHasMinimumLength | src/core/domain/value-objects/Password.vo.ts:5-24 | every plain password the constructor accepts passes hasMinimumLength and is not marked hashed |
| PasswordValue.GradeMonotone | src/core/domain/value-objects/Password.vo.ts:59-61 | a higher score never gives a weaker grade |
| PasswordValue.NonEmptyScores | src/core/domain/value-objects/Password.vo.ts:47-57 | a non-empty password scores at least one point (each character falls in one of the four classes) |
| PasswordValue.StrengthByLength | src/core/domain/value-objects/Password.vo.ts:35-62 | a plain password under 8 code units is never strong; one of 12 or more code units with lower case, upper case, a digit and a special character is always strong |
| PasswordPolicy.ValidateStrength | src/core/domain/services/PasswordHasher.service.ts:50-133 | the report of the step-by-step check is the declarative report: errors for the short length and for a common pattern, the grade of the score, the suggestions unless strong, valid only without errors and with at least 6 code units |
| PasswordPolicy.ScoreAndSuggest | src/core/domain/services/PasswordHasher.service.ts:56-98 | the length and class checks earn one point for 6+ UTF-16 code units plus the strength score, and list the tips for exactly the missing classes, in order |
| PasswordPolicy.FindCommonPattern | src/core/domain/services/PasswordHasher.service.ts:101-115 | the pattern loop finds a match exactly when one of the five common patterns matches; the repeated-character pattern reads code units, so a character above U+FFFF never starts a repeated run |
| PasswordPolicy.ValidIff | src/core/domain/services/PasswordHasher.service.ts:127-132 | a password is reported valid exactly when it has at least 6 code units and matches no common pattern |
| PasswordPolicy.ShortIsInvalid | src/core/domain/services/PasswordHasher.service.ts:61-63 | a password under 6 code units is invalid and its first error is the length error |
| PasswordPolicy.AtMostTwoErrors | src/core/domain/services/PasswordHasher.service.ts:60-115 | there are at most two errors, and the pattern error is among them exactly when a common pattern matches |
| PasswordPolicy.SuggestionsOnlyWhenNotStrong | src/core/domain/services/PasswordHasher.service.ts:131 | a strong password gets no suggestions; any other gets all the suggestions collected |
| PasswordPolicy.CommonCostsOnePoint | src/core/domain/services/PasswordHasher.service.ts:58-115 | the score is the length point plus the strength score, one less on a common pattern, and lies between -1 and 7 |
| PasswordPolicy.CompromisedIgnoresCase | src/core/domain/services/PasswordHasher.service.ts:204-236 | the compromised check gives the same answer for a password and its lower-cased form |
| PasswordPolicy.PasswordWordIsCommon | src/core/domain/services/PasswordHasher.service.ts:104 | any password holding "password" in any letter case matches a common pattern |
| PasswordPolicy.IsCompromised | src/core/domain/services/PasswordHasher.service.ts:204-236 | the lower-cased password is one of the 26 listed common passwords; CompromisedIgnoresCase proves letter case never matters |
| PasswordPolicy.ThreeEmojiPassword | src/core/domain/services/PasswordHasher.service.ts:108 | three characters above U+FFFF are six code units, so the password is long enough, and the repeated-character pattern, which compares code units, does not match it |
| ApplicationStatusEnum.ParseIsInverse | src/core/domain/enums/ApplicationStatus.enum.ts:8-62 | every status's code parses back to that status, a text parses to a status only when it is that status's code, and a text is valid exactly when it is one of the codes |
| ApplicationStatusEnum.LookupsAreTotal | src/core/domain/enums/ApplicationStatus.enum.ts:16-58 | label, colour, icon and description always come from their table, never from the fallback, and are never empty |
| DocumentTypeEnum.ParseIsInverse | src/core/domain/enums/DocumentType.enum.ts:11-66 | every document type's code parses back to that type, a text parses to a type only when it is its code, and validity is membership among the codes |
| DocumentTypeEnum.RequiredDocuments | src/core/domain/enums/DocumentType.enum.ts:68-84 | a type is required exactly when it is proof of address, operating license, health permit or tax id; the four required types are among the seven, each listed once |
| DocumentTypeEnum.LookupsAreTotal | src/core/domain/enums/DocumentType.enum.ts:22-62 | label, description and icon always come from their table and are never empty |
| MenuStatusEnum.ParseIsInverse | src/core/domain/enums/MenuStatus.enum.ts:8-40 | every menu status's code parses back to it, a text parses to a status only when it is its code, and validity is membership among the codes |
| MenuStatusEnum.LookupsAreTotal | src/core/domain/enums/MenuStatus.enum.ts:16-36 | label and colour always come from their table and are never empty |
| UserTypeEnum.ParseIsInverse | src/core/domain/enums/UserType.enum.ts:7-26 | every user type's code parses back to it, a text parses to a type only when it is its code, and validity is membership among the codes |
| UserTypeEnum.LabelIsTotal | src/core/domain/enums/UserType.enum.ts:14-22 | the label always comes from its table and is never empty |
| ValidationErrors.ErrorForField | src/core/domain/exceptions/ValidationException.ts:43-45 | an error is found exactly when some error names the field; it is the first error for that field |
| ValidationErrors.AllMessages | src/core/domain/exceptions/ValidationException.ts:50-52 | one message per error, in order |
| ValidationErrors.Fields | src/core/domain/exceptions/ValidationException.ts:29 | one field name per error, in order |
| ValidationErrors.FromSingleError | src/core/domain/exceptions/ValidationException.ts:21-23 | a validation failure with the given message and exactly one error, for the given field and message |
| ValidationErrors.FromMultipleErrors | src/core/domain/exceptions/ValidationException.ts:28-31 | a validation failure that keeps the errors and whose message is "Errores de validación: " followed by the fields joined with ", " |
| ValidationErrors.MultipleOfOne | src/core/domain/exceptions/ValidationException.ts:28-31 | with one error the message is the prefix followed by that error's field |
| ValidationErrors.ErrorForFieldStable | src/core/domain/exceptions/ValidationException.ts:43-45 | appending more errors does not change the error found for a field that already has one |
| ValidationErrors.AllMessagesAppend | src/core/domain/exceptions/ValidationException.ts:50-52 | the messages of two lists of errors joined are the two lists of messages joined |
| ApplicationStatusEnum.Parse | src/core/domain/enums/ApplicationStatus.enum.ts:60-62 | a text names a status exactly when it is one of the four stored codes; ParseIsInverse proves it is the inverse of the code |
| ApplicationStatusEnum.Label | src/core/domain/enums/ApplicationStatus.enum.ts:44-46 | the status's entry in the label table, or its code when the entry is missing; LookupsAreTotal proves the table always answers |
| ApplicationStatusEnum.IsPendingApplication | src/core/domain/enums/ApplicationStatus.enum.ts:64-66 | holds for the pending status only |
| ApplicationStatusEnum.IsApprovedApplication | src/core/domain/enums/ApplicationStatus.enum.ts:68-70 | holds for the approved status only |
| ApplicationStatusEnum.IsRejectedApplication | src/core/domain/enums/ApplicationStatus.enum.ts:72-74 | holds for the rejected status only |
| ApplicationStatusEnum.CanEdit | src/core/domain/enums/ApplicationStatus.enum.ts:76-78 | an application can be edited exactly when it is pending or rejected |
| DocumentTypeEnum.Parse | src/core/domain/enums/DocumentType.enum.ts:64-66 | a text names a document type exactly when it is one of the stored codes; ParseIsInverse proves it is the inverse of the code |
| DocumentTypeEnum.Label | src/core/domain/enums/DocumentType.enum.ts:52-54 | the type's entry in the label table, or its code when the entry is missing; LookupsAreTotal proves the table always answers |
| DocumentTypeEnum.IsRequired | src/core/domain/enums/DocumentType.enum.ts:82-84 | a type is required exactly when it is in the list of required types; RequiredDocuments names the four |
| MenuStatusEnum.Parse | src/core/domain/enums/MenuStatus.enum.ts:38-40 | a text names a menu status exactly when it is one of the stored codes; ParseIsInverse proves it is the inverse of the code |
| MenuStatusEnum.Label | src/core/domain/enums/MenuStatus.enum.ts:30-32 | the status's entry in the label table, or its code when the entry is missing; LookupsAreTotal proves the table always answers |
| MenuStatusEnum.IsActiveMenu | src/core/domain/enums/MenuStatus.enum.ts:42-44 | holds for the active status only |
| UserTypeEnum.Parse | src/core/domain/enums/UserType.enum.ts:24-26 | a text names a user type exactly when it is one of the three stored codes; ParseIsInverse proves it is the inverse of the code |
| UserTypeEnum.Label | src/core/domain/enums/UserType.enum.ts:20-22 | the type's entry in the label table, or its code when the entry is missing; LabelIsTotal proves the table always answers |
| ApplicationEntity.Create | src/core/domain/entities/Application.entity.ts:17-48 | an application is created exactly when the restaurant name and owner name trim to 3+ UTF-16 code units, the schedule is not blank, the owner id is positive and the email is valid; it is pending, with trimmed texts and the normalised email; a short restaurant name is reported first, then a short owner name, and with valid fields the only failure left is the email's |
| ApplicationEntity.Application.constructor | src/core/domain/entities/Application.entity.ts:5-15 | the new object holds exactly the given record |
| ApplicationEntity.Application.Approve | src/core/domain/entities/Application.entity.ts:50-56 | approving fails exactly when already approved ("La solicitud ya está aprobada"); either way the status ends approved and nothing else changes |
| ApplicationEntity.Application.Reject | src/core/domain/entities/Application.entity.ts:58-64 | rejecting fails exactly when already rejected ("La solicitud ya está rechazada"); either way the status ends rejected and nothing else changes |
| ApplicationEntity.Application.SetInReview | src/core/domain/entities/Application.entity.ts:66-69 | from any status the application goes in review and nothing else changes |
| RestaurantEntity.Link | src/core/domain/entities/Restaurant.entity.ts:58-59 | an omitted or empty link stays absent; a supplied one is accepted exactly when the URL parser accepts it, and the parsed URL is kept; otherwise the URL error |
| RestaurantEntity.Create | src/core/domain/entities/Restaurant.entity.ts:21-64 | a restaurant is created exactly when name (3+ UTF-16 code units), schedule (not blank), address (5+ code units) after trimming, owner and application ids (positive), the phone and both links are valid; the record holds the trimmed texts, the phone, the tags, the links and zero likes; a short name is the first error; invalid fields give a plain error |
| RestaurantEntity.Decremented | src/core/domain/entities/Restaurant.entity.ts:70-74 | likes go down by one when positive and stay as they are otherwise, so they never become negative |
| RestaurantEntity.Without | src/core/domain/entities/Restaurant.entity.ts:108-111 | the filtered tags are exactly the old tags other than the removed one, and the list does not grow |
| RestaurantEntity.WithTag | src/core/domain/entities/Restaurant.entity.ts:101-106 | after adding, the tags are exactly the old tags plus the new one |
| RestaurantEntity.AssignText | src/core/domain/entities/Restaurant.entity.ts:85-90 | name and schedule become the trimmed supplied values when supplied; nothing else changes |
| RestaurantEntity.AssignListing | src/core/domain/entities/Restaurant.entity.ts:92-93 | tags are replaced when supplied, the address by its trimmed value when supplied; nothing else changes |
| RestaurantEntity.ApplyLinks | src/core/domain/entities/Restaurant.entity.ts:95-96 | only the links can change, and a link not supplied keeps its value |
| RestaurantEntity.ApplyFromPhone | src/core/domain/entities/Restaurant.entity.ts:91-96 | from the phone on, only phone, tags, address and links can change, each only when supplied |
| RestaurantEntity.ApplyInfo | src/core/domain/entities/Restaurant.entity.ts:76-99 | updateInfo never changes id, owner, application or likes; a new name under 3 code units after trimming fails with "El nombre debe tener al menos 3 caracteres" and changes nothing; a field not supplied keeps its value |
| RestaurantEntity.Restaurant.constructor | src/core/domain/entities/Restaurant.entity.ts:4-19 | the new object holds exactly the given record |
| RestaurantEntity.Restaurant.IncrementLikes | src/core/domain/entities/Restaurant.entity.ts:66-68 | likes go up by one and nothing else changes |
| RestaurantEntity.Restaurant.DecrementLikes | src/core/domain/entities/Restaurant.entity.ts:70-74 | likes are decremented without going below zero, and nothing else changes |
| RestaurantEntity.Restaurant.UpdateInfo | src/core/domain/entities/Restaurant.entity.ts:76-99 | the step-by-step update ends in the state and outcome the declarative update gives, including the partial state left when a later field throws |
| RestaurantEntity.Restaurant.AssignTextFields | src/core/domain/entities/Restaurant.entity.ts:85-90 | the name and schedule steps of updateInfo |
| RestaurantEntity.Restaurant.UpdateFromPhone | src/core/domain/entities/Restaurant.entity.ts:91-96 | the phone, tags, address and link steps of updateInfo |
| RestaurantEntity.Restaurant.UpdateLinks | src/core/domain/entities/Restaurant.entity.ts:94-96 | the link steps of updateInfo |
| RestaurantEntity.Restaurant.AddTag | src/core/domain/entities/Restaurant.entity.ts:101-106 | the tags become the tags with the new one added once |
| RestaurantEntity.Restaurant.RemoveTag | src/core/domain/entities/Restaurant.entity.ts:108-111 | the tags become the tags without every copy of the removed one |
| RestaurantEntity.IncrementThenDecrement | src/core/domain/entities/Restaurant.entity.ts:66-74 | from a non-negative count, one like then one unlike restores the count |
| RestaurantEntity.WithTagKeepsDistinct | src/core/domain/entities/Restaurant.entity.ts:101-106 | adding a tag keeps a list of distinct tags distinct |
| RestaurantEntity.WithoutAppend | src/core/domain/entities/Restaurant.entity.ts:108-111 | removing a tag from two lists joined is removing it from each |
| RestaurantEntity.WithoutAbsent | src/core/domain/entities/Restaurant.entity.ts:108-111 | removing a tag that is not there leaves the list as it is |
| RestaurantEntity.WithoutCounts | src/core/domain/entities/Restaurant.entity.ts:108-111 | removing a tag keeps the number of copies of every other tag and leaves none of it |
| RestaurantEntity.AddThenRemove | src/core/domain/entities/Restaurant.entity.ts:101-111 | adding a tag and then removing it is the same as only removing it |
| RestaurantEntity.ShortNameChangesNothing | src/core/domain/entities/Restaurant.entity.ts:85-88 | a supplied name too short after trimming leaves the restaurant unchanged and fails |
| ApplicationEntity.Application.IsPending | src/core/domain/entities/Application.entity.ts:71-73 | holds exactly when the status is pending |
| ApplicationEntity.Application.IsApproved | src/core/domain/entities/Application.entity.ts:75-77 | holds exactly when the status is approved |
| ApplicationEntity.Application.IsRejected | src/core/domain/entities/Application.entity.ts:79-81 | holds exactly when the status is rejected |
| ApplicationEntity.Application.IsInReview | src/core/domain/entities/Application.entity.ts:83-85 | holds exactly when the status is in review |
| FavoriteEntity.Create | src/core/domain/entities/Favorite.entity.ts:9-18 | a favorite is created exactly when both ids are positive; the client id is checked first ("El ID del cliente es inválido"), then the restaurant id |
| MenuEntity.Create | src/core/domain/entities/Menu.entity.ts:16-36 | a menu is created exactly when the restaurant id is positive and both URLs are valid file URLs; it starts with zero downloads; the id check comes first, then the URL error |
| MenuEntity.Menu.constructor | src/core/domain/entities/Menu.entity.ts:5-14 | the new object holds exactly the given record |
| MenuEntity.Menu.Activate | src/core/domain/entities/Menu.entity.ts:38-41 | the status becomes active and nothing else changes |
| MenuEntity.Menu.Deactivate | src/core/domain/entities/Menu.entity.ts:43-46 | the status becomes inactive and nothing else changes |
| MenuEntity.Menu.SetToPending | src/core/domain/entities/Menu.entity.ts:48-51 | the status becomes pending and nothing else changes |
| MenuEntity.Menu.SetToRevision | src/core/domain/entities/Menu.entity.ts:53-56 | the status becomes revision and nothing else changes |
| MenuEntity.Menu.IncrementDownloadCount | src/core/domain/entities/Menu.entity.ts:58-61 | the download count goes up by one and nothing else changes |
| UserPhotoEntity.Create | src/core/domain/entities/UserPhoto.entity.ts:12-31 | a photo is created exactly when client and restaurant ids are positive and the URL is valid; the client id is checked first, then the restaurant id |
| OwnedFileGuard.FirstInvalidId | src/core/domain/entities/Document.entity.ts:22-30 | no error exactly when all three ids are positive; otherwise the error of the first bad id, in the order restaurant, application, owner |
| DocumentEntity.Create | src/core/domain/entities/Document.entity.ts:15-41 | a document is created exactly when the three ids are positive and the URL is valid; a bad id gives its error before the URL is looked at |
| DocumentEntity.Document.constructor | src/core/domain/entities/Document.entity.ts:5-13 | the new object holds exactly the given record |
| DocumentEntity.Document.UpdateType | src/core/domain/entities/Document.entity.ts:43-45 | the type becomes the new one and nothing else changes |
| ImageEntity.Create | src/core/domain/entities/Image.entity.ts:13-37 | an image is created exactly when the three ids are positive and the URL is valid; a bad id gives its error before the URL is looked at |
| ZoneEntity.Create | src/core/domain/entities/Zone.entity.ts:10-19 | a zone is created exactly when the name trims to 3+ UTF-16 code units and the owner id is positive; the name is stored trimmed; the name is checked first |
| ZoneEntity.Zone.constructor | src/core/domain/entities/Zone.entity.ts:2-8 | the new object holds exactly the given record |
| ZoneEntity.Zone.UpdateName | src/core/domain/entities/Zone.entity.ts:21-27 | renaming fails exactly when the new name trims to under 3 UTF-16 code units, and then changes nothing; otherwise the name becomes the trimmed new name and nothing else changes |
| ZoneEntity.RenameAgreesWithCreate | src/core/domain/entities/Zone.entity.ts:10-27 | for a valid owner, create accepts a name exactly when rename does, and stores the same trimmed name |
| MenuEntity.Menu.IsActive | src/core/domain/entities/Menu.entity.ts:63-65 | holds exactly when the status is active |
| MenuEntity.Menu.IsInactive | src/core/domain/entities/Menu.entity.ts:67-69 | holds exactly when the status is inactive |
| MenuEntity.Menu.IsPending | src/core/domain/entities/Menu.entity.ts:71-73 | holds exactly when the status is pending |
| UserEntity.Create | src/core/domain/entities/User.entity.ts:16-31 | a user is created exactly when the email and the plain password are valid; the name is trimmed, the email normalised, the password kept unhashed; a bad email is reported before a bad password |
| UserEntity.EmailUpdated | src/core/domain/entities/User.entity.ts:41-44 | the email becomes the new normalised email when it is valid and stays as it was when building it throws |
| UserEntity.User.constructor | src/core/domain/entities/User.entity.ts:6-14 | the new object holds exactly the given record |
| UserEntity.User.UpdateName | src/core/domain/entities/User.entity.ts:33-39 | renaming fails exactly when the new name trims to under 3 UTF-16 code units ("El nombre debe tener al menos 3 caracteres") and then changes nothing; otherwise the name becomes the trimmed new name and nothing else changes |
| UserEntity.User.UpdateEmail | src/core/domain/entities/User.entity.ts:41-44 | the update fails exactly when the new email is invalid; only the email can change |
| UserEntity.User.UpdatePassword | src/core/domain/entities/User.entity.ts:46-49 | the password becomes the new one and nothing else changes |
| ClientEntity.Create | src/core/domain/entities/Client.entity.ts:9-23 | a client is created exactly when the user id is positive and a supplied phone has ten digits once white space is removed; the phone is stored as given; a bad id is reported first |
| ClientEntity.Client.constructor | src/core/domain/entities/Client.entity.ts:2-7 | the new object holds exactly the given record |
| ClientEntity.Client.UpdatePhone | src/core/domain/entities/Client.entity.ts:25-36 | a supplied phone that is not ten digits without white space fails and changes nothing; a good one is stored with white space removed; an omitted or empty one clears the phone |
| ClientEntity.StoredPhoneIsStripped | src/core/domain/entities/Client.entity.ts:15-31 | a phone stored by updatePhone is already stripped and is accepted again by create |
| ClientEntity.CreateKeepsRawPhone | src/core/domain/entities/Client.entity.ts:15-23 | create keeps the phone exactly as given, white space included, and hasPhone is true exactly when it is not empty |
| SurveyEntity.TrimAnswer | src/core/domain/entities/Survey.entity.ts:34-38 | an answer is present after trimming exactly when it was given |
| SurveyEntity.Create | src/core/domain/entities/Survey.entity.ts:14-41 | a survey is created exactly when client and restaurant ids are positive, with each given answer trimmed; the client id is checked first |
| SurveyEntity.AnsweredCount | src/core/domain/entities/Survey.entity.ts:53-61 | between 0 and 5 answers count, and none count exactly when no answer is a non-empty text |
| SurveyEntity.CompletionPercentage | src/core/domain/entities/Survey.entity.ts:63-65 | the percentage is a multiple of 20 up to 100, and is 100 exactly when the survey is complete |
| SurveyEntity.CompleteIffFiveAnswers | src/core/domain/entities/Survey.entity.ts:43-61 | a survey is complete exactly when all five answers count |
| SurveyEntity.BlankAnswerDoesNotCount | src/core/domain/entities/Survey.entity.ts:34-59 | an answer of white space only trims to empty and is not counted |
| DownloadEntity.Create | src/core/domain/entities/Download.entity.ts:15-37 | a download record is created exactly when the count is not negative and the owner id is positive; the count is checked first |
| DownloadEntity.Download.constructor | src/core/domain/entities/Download.entity.ts:5-13 | the new object holds exactly the given record |
| DownloadEntity.Download.IncrementCount | src/core/domain/entities/Download.entity.ts:39-42 | the count goes up by one and nothing else changes |
| DownloadEntity.Download.UpdateOpinion | src/core/domain/entities/Download.entity.ts:44-47 | the opinion becomes the new one and nothing else changes |
| DownloadEntity.Download.UpdateOrigin | src/core/domain/entities/Download.entity.ts:49-52 | the origin becomes the new one and nothing else changes |
| UserEntity.User.IsAdmin | src/core/domain/entities/User.entity.ts:51-53 | holds exactly when the user type is administrator |
| UserEntity.User.IsRestaurantOwner | src/core/domain/entities/User.entity.ts:55-57 | holds exactly when the user type is restaurant owner |
| UserEntity.User.IsClient | src/core/domain/entities/User.entity.ts:59-61 | holds exactly when the user type is client |
| LikeCounter.FirstAbove | src/core/domain/services/LikeCounter.services.ts:194 | no milestone is found exactly when every milestone is at or below the count; a found milestone is in the list and above the count, and on an ascending list it is the lowest such |
| LikeCounter.GetInsights | src/core/domain/services/LikeCounter.services.ts:153-172 | growth is the difference of the counts, growing exactly when it is positive; level and next milestone are those of the current count; popular exactly when the level is not low, trending exactly when the level is trending |
| LikeCounter.LevelMonotone | src/core/domain/services/LikeCounter.services.ts:45-50 | more likes never give a lower popularity level |
| LikeCounter.LevelAgreesWithFlags | src/core/domain/services/LikeCounter.services.ts:19-50 | isPopular holds exactly when the level is not low, isTrending exactly when it is trending, and trending implies popular |
| LikeCounter.FeatureBounds | src/core/domain/services/LikeCounter.services.ts:104-112 | a featured restaurant has at least 5 likes; 10 likes always feature; after 30 days only popular restaurants feature |
| LikeCounter.NextMilestoneBelowTop | src/core/domain/services/LikeCounter.services.ts:179-201 | below 1000 likes the next milestone is the lowest one above the count, with a positive remainder equal to the gap |
| LikeCounter.NextMilestoneAtTop | src/core/domain/services/LikeCounter.services.ts:203-208 | from 1000 likes on, the next milestone is the count itself, "Máximo Nivel", with nothing remaining |
| LikeCounter.RecommendationsContent | src/core/domain/services/LikeCounter.services.ts:218-244 | the share and invite tips appear exactly below 10 likes and then come first; the photo tip exactly below 5 photos; the menu tip exactly when downloads are under half the likes; the update and reply tips exactly between 10 and 49 likes; at most six tips |
| LikeCounter.IsPopular | src/core/domain/services/LikeCounter.services.ts:19-21 | ten likes or more; LevelAgreesWithFlags proves it is the same as a level above low |
| LikeCounter.IsTrending | src/core/domain/services/LikeCounter.services.ts:36-38 | fifty likes or more; LevelAgreesWithFlags proves it is the same as the trending level and implies popular |
| LikeCounter.PopularityLevel | src/core/domain/services/LikeCounter.services.ts:45-50 | low below 10, medium below 30, high below 50, trending from 50; LevelMonotone proves more likes never lower the level |
| LikeCounter.ShouldFeature | src/core/domain/services/LikeCounter.services.ts:104-112 | a restaurant at most 30 days old with 5 likes, or any popular one; FeatureBounds states the consequences |
| LikeCounter.NextMilestone | src/core/domain/services/LikeCounter.services.ts:179-208 | the first milestone above the count with the likes still missing, or the count itself at the top; NextMilestoneBelowTop and NextMilestoneAtTop prove both cases |
| LikeCounter.Recommendations | src/core/domain/services/LikeCounter.services.ts:218-244 | the tips for few likes, few photos, few menu downloads and a growing restaurant, in that order; RecommendationsContent proves which appear when |
| Persistence.Store.constructor | src/core/domain/repositories/IUserRepository.ts:11-56 | an empty store, whose first id is 1, in the well-formed shape |
| Persistence.Store.SaveApplication | src/core/domain/repositories/IApplicationRepository.ts:31 | the application is stored under the next id, which is returned and then used up; nothing else changes |
| Persistence.Store.UpdateApplication | src/core/domain/repositories/IApplicationRepository.ts:36 | the application replaces the one under its id; nothing else changes |
| Persistence.Store.SaveRestaurant | src/core/domain/repositories/IRestaurantRepository.ts:35 | the restaurant is stored under the next id, which is returned; nothing else changes |
| Persistence.Store.UpdateRestaurant | src/core/domain/repositories/IRestaurantRepository.ts:40 | the restaurant replaces the one under its id; nothing else changes |
| Persistence.Store.DeleteRestaurant | src/core/domain/repositories/IRestaurantRepository.ts:45 | the restaurant under the id is removed; nothing else changes |
| Persistence.Store.SaveMenu | src/core/domain/repositories/IMenuRepository.ts:41 | the menu is stored under the next id, which is returned; nothing else changes |
| Persistence.Store.UpdateMenu | src/core/domain/repositories/IMenuRepository.ts:46 | the menu replaces the one under its id; nothing else changes |
| Persistence.Store.DeleteMenu | src/core/domain/repositories/IMenuRepository.ts:51 | the menu under the id is removed; nothing else changes |
| Persistence.Store.SavePhoto | src/core/domain/repositories/IUserPhotoRepository.ts:30 | the photo is stored under the next id, which is returned; nothing else changes |
| Persistence.Store.DeletePhoto | src/core/domain/repositories/IUserPhotoRepository.ts:35 | the photo under the id is removed; nothing else changes |
| Persistence.Store.SaveDocument | src/core/domain/repositories/IDocumentRepository.ts:41 | the document is stored under the next id, which is returned; nothing else changes |
| Persistence.Store.DeleteDocument | src/core/domain/repositories/IDocumentRepository.ts:46 | the document under the id is removed; nothing else changes |
| Persistence.Store.SaveImage | src/core/domain/repositories/IImageRepository.ts:35 | the image is stored under the next id, which is returned; nothing else changes |
| Persistence.Store.DeleteImage | src/core/domain/repositories/IImageRepository.ts:40 | the image under the id is removed; nothing else changes |
| Persistence.Store.SaveZone | src/core/domain/repositories/IZoneRepository.ts:30 | the zone is stored under the next id, which is returned; nothing else changes |
| Persistence.Store.UpdateZone | src/core/domain/repositories/IZoneRepository.ts:35 | the zone replaces the one under its id; nothing else changes |
| Persistence.Store.DeleteZone | src/core/domain/repositories/IZoneRepository.ts:40 | the zone under the id is removed; nothing else changes |
| Persistence.Store.SaveUser | src/core/domain/repositories/IUserRepository.ts:31 | the user is stored under the next id, which is returned; nothing else changes |
| Persistence.Store.UpdateUser | src/core/domain/repositories/IUserRepository.ts:36 | the user replaces the one under its id; nothing else changes |
| Persistence.Store.DeleteUser | src/core/domain/repositories/IUserRepository.ts:41 | the user under the id is removed; nothing else changes |
| Persistence.Store.SaveSurvey | src/core/domain/repositories/ISurveyRepository.ts:30 | the survey is stored under the next id, which is returned; nothing else changes |
| Persistence.Store.SaveClient | src/core/domain/repositories/IClientRepository.ts:20 | the client record is stored under its user id; nothing else changes |
| Persistence.Store.UpdateClient | src/core/domain/repositories/IClientRepository.ts:25 | the client record replaces the one under its user id; nothing else changes |
| Persistence.Store.DeleteClient | src/core/domain/repositories/IClientRepository.ts:30 | the client record under the user id is removed; nothing else changes |
| Persistence.Store.SaveAdministrator | src/core/domain/repositories/IAdministratorRepository.ts:20 | the user id joins the administrator records; nothing else changes |
| Persistence.Store.DeleteAdministrator | src/core/domain/repositories/IAdministratorRepository.ts:25 | the user id leaves the administrator records; nothing else changes |
| Persistence.Store.SaveRestaurantOwner | src/core/domain/repositories/IRestaurantOwnerRepository.ts:20 | the user id joins the restaurant-owner records; nothing else changes |
| Persistence.Store.DeleteRestaurantOwner | src/core/domain/repositories/IRestaurantOwnerRepository.ts:25 | the user id leaves the restaurant-owner records; nothing else changes |
| Persistence.Store.SaveFavorite | src/core/domain/repositories/IFavoriteRepository.ts:38 | the (client, restaurant) pair joins the favorites; nothing else changes |
| Persistence.Store.DeleteFavorite | src/core/domain/repositories/IFavoriteRepository.ts:43 | the (client, restaurant) pair leaves the favorites; nothing else changes |
| Persistence.Store.IncrementDownloadCount | src/core/domain/repositories/IMenuRepository.ts:56 | the menu's download count goes up by one; nothing else changes |
| Persistence.Store.IncrementLikesCount | src/core/domain/repositories/IRestaurantRepository.ts:50 | the restaurant's cached like count goes up by one and the new count is returned; nothing else changes |
| Persistence.Store.DecrementLikesCount | src/core/domain/repositories/IRestaurantRepository.ts:55 | the restaurant's cached like count goes down by one but not below zero, and the new count is returned; nothing else changes |
| Persistence.FindUserByEmail | src/core/domain/repositories/IUserRepository.ts:21 | a found user is stored with exactly this email; in a well-formed store nothing is found exactly when no user has it |
| Persistence.FindZoneByName | src/core/domain/repositories/IZoneRepository.ts:25 | a found zone is stored with exactly this name; in a well-formed store nothing is found exactly when no zone has it |
| Persistence.FindActiveMenu | src/core/domain/repositories/IMenuRepository.ts:36 | a found menu belongs to the restaurant and is active; in a well-formed store nothing is found exactly when the restaurant has no active menu |
| Persistence.FavoritesOfAdd | src/core/domain/repositories/IFavoriteRepository.ts:38-48 | saving a new favorite adds one to its restaurant's favorite count and nothing to any other's |
| Persistence.FavoritesOfRemove | src/core/domain/repositories/IFavoriteRepository.ts:43-48 | deleting a favorite takes one from its restaurant's favorite count and nothing from any other's |
| Access.CanActOn | src/core/application/use-cases/users/UpdateUser.usecase.ts:36 | an administrator may act on anything, anyone else only on what they own; every ownership guard refuses exactly when this fails |
| Auth.FieldErrors | src/core/application/use-cases/auth/ClientRegister.usecase.ts:49-52 | one field error per message, each naming the given field and carrying its message in order |
| Auth.FieldErrorsMessages | src/core/application/use-cases/auth/ClientRegister.usecase.ts:47-53 | the messages of those errors are exactly the given messages and every field is the given field |
| Auth.WeakFailure | src/core/application/use-cases/auth/ClientRegister.usecase.ts:45-54 | a validation failure with the given message whose error messages are exactly the strength check's errors, all on the given field |
| Auth.Register | src/core/application/use-cases/auth/Register.usecase.ts:31-80 | a taken email is a conflict; a client type is refused; a name under 3 UTF-16 code units after trimming is a "name" validation error; each of these leaves the store unchanged; registration succeeds exactly when none applies and the user can be built from the hashed password; the new user is stored under the next id with the role record of its type, and the client records are untouched |
| Auth.RegisterUseCase.constructor | src/core/application/use-cases/auth/Register.usecase.ts:24-29 | the use case works on the given store |
| Auth.RegisterUseCase.Execute | src/core/application/use-cases/auth/Register.usecase.ts:31-80 | the step-by-step registration returns and leaves the store exactly as Register says |
| Auth.ClientRegister | src/core/application/use-cases/auth/ClientRegister.usecase.ts:29-89 | a taken email is a conflict; then a name under 3 UTF-16 code units after trimming, a weak password (with its strength errors on "password") and a supplied phone that is not ten digits are refused in that order, each leaving the store unchanged; success exactly when none applies; the new client user is stored under the next id with a client record holding the phone as given |
| Auth.ClientRegisterUseCase.constructor | src/core/application/use-cases/auth/ClientRegister.usecase.ts:23-27 | the use case works on the given store |
| Auth.ClientRegisterUseCase.Execute | src/core/application/use-cases/auth/ClientRegister.usecase.ts:29-89 | the step-by-step client registration returns and leaves the store exactly as ClientRegister says |
| Auth.Login | src/core/application/use-cases/auth/Login.usecase.ts:29-61 | an unknown email or a wrong password for a staff user gives invalid credentials, and only these do; a client gets the wrong-user-type error; success exactly for a staff user with the right password, returning that user's view, never a client's |
| Auth.ClientLogin | src/core/application/use-cases/auth/ClientLogin.usecase.ts:29-61 | an unknown email or a wrong password for a client gives wrong credentials, and only these do; a staff user gets the wrong-user-type error; success exactly for a client with the right password, returning that client's view |
| Auth.LoginsAreDisjoint | src/core/application/use-cases/auth/Login.usecase.ts:37-40 | no credentials open both logins; a user who passes one login gets the wrong-user-type error from the other |
| Auth.WithPassword | src/core/application/use-cases/auth/ChangePassword.usecase.ts:69-72 | the user gets the hash of the new password, marked hashed, and nothing else changes |
| Auth.ChangePassword | src/core/application/use-cases/auth/ChangePassword.usecase.ts:24-74 | an unknown user is not found; a wrong current password is unauthorized; a new password equal to the current one is a validation error; a weak one fails with its strength errors on "newPassword"; every failure leaves the store unchanged; success exactly otherwise, storing the user with the hashed new password |
| Auth.ChangePasswordUseCase.constructor | src/core/application/use-cases/auth/ChangePassword.usecase.ts:19-22 | the use case works on the given store |
| Auth.ChangePasswordUseCase.Execute | src/core/application/use-cases/auth/ChangePassword.usecase.ts:24-74 | the step-by-step change returns and leaves the store exactly as ChangePassword says |
| Auth.RegisterThenLogin | src/core/application/use-cases/auth/Register.usecase.ts:31-80 | after a staff registration with a normalised email, logging in with the same email and password returns the registered user's view |
| Auth.ClientRegisterThenLogin | src/core/application/use-cases/auth/ClientRegister.usecase.ts:29-89 | after a client registration with a normalised email, the client login returns the new user's view and the staff login refuses with the wrong-user-type error |
| Auth.SavedUserIsFound | src/core/application/use-cases/auth/Register.usecase.ts:33-68 | a user saved under a fresh email is the one findByEmail then returns |
| Auth.ChangeIsNotRepeatable | src/core/application/use-cases/auth/ChangePassword.usecase.ts:44-54 | once changed, changing to the same new password again is refused as equal to the current one and changes nothing |
| Auth.ChangeTouchesOnlyPassword | src/core/application/use-cases/auth/ChangePassword.usecase.ts:71-73 | a successful change replaces only that user's password with the hash of the new one |
| Accounts.ViewNamesUserType | src/core/application/use-cases/auth/Login.usecase.ts:53-60 | the user type code in a returned user view parses back to the user's own type |
| Accounts.NewAccount | src/core/domain/entities/User.entity.ts:16-31 | building the account succeeds exactly when the email is valid and the hash has a plain password's length in code units; the account then has the trimmed name, the normalised email and the hash marked hashed; an invalid email fails with the email message |
| Accounts.AddRoleRecord | src/core/application/use-cases/users/CreateUser.usecase.ts:73-89 | an admin or owner id is added to its role set, a client gets a client record with the given phone; an id that is not positive or a client whose phone is not ten digits fails and changes nothing |
| Accounts.Signup | src/core/application/use-cases/users/CreateUser.usecase.ts:56-89 | an account that cannot be built changes nothing; otherwise the user is saved under the next id, and only then is the role record added; when that record fails the user stays saved |
| Accounts.SaveAccount | src/core/application/use-cases/users/CreateUser.usecase.ts:56-89 | saving the account and its role record step by step returns and leaves the store as Signup says |
| Accounts.SaveRoleRecord | src/core/application/use-cases/users/CreateUser.usecase.ts:73-89 | saving the role record returns and leaves the store as AddRoleRecord says |
| Accounts.SignupKeepsRoleRecords | src/core/application/use-cases/users/CreateUser.usecase.ts:70-89 | a successful signup keeps every user's role record and gives the new user the record of its type |
| Accounts.CreateUser | src/core/application/use-cases/users/CreateUser.usecase.ts:36-92 | a taken email is a conflict, then a name under 3 UTF-16 code units after trimming and an unknown type code are validation errors, each changing nothing; success exactly when these pass and the signup succeeds; the user gets the next id, its type, the normalised email and the hashed password, and the store gains exactly that user and its role record |
| Accounts.CreateUserUseCase.constructor | src/core/application/use-cases/users/CreateUser.usecase.ts:28-34 | the use case works on the given store |
| Accounts.CreateUserUseCase.Execute | src/core/application/use-cases/users/CreateUser.usecase.ts:36-92 | the step-by-step creation returns and leaves the store as CreateUser says |
| Accounts.CreateUserBadPhoneLeavesOrphan | src/core/application/use-cases/users/CreateUser.usecase.ts:71-88 | for a client with a supplied phone that is not ten digits, creation fails with the phone message yet the user is already saved and findable by email, with no client record |
| Accounts.CreateUserChecked | src/core/application/use-cases/users/CreateUser.usecase.ts:36-92 | the corrected creation refuses a bad client phone as a "phone" validation error before anything is saved, and otherwise succeeds exactly as CreateUser does |
| Accounts.CreateUserCheckedAllOrNothing | src/core/application/use-cases/users/CreateUser.usecase.ts:36-92 | every failure of the corrected creation leaves the store unchanged, and every user keeps its role record |
| Accounts.EditedUser | src/core/domain/entities/User.entity.ts:33-44 | only a supplied name (trimmed) and a supplied email (normalised) change; id, password and type are kept |
| Accounts.PhoneUpdated | src/core/domain/entities/Client.entity.ts:25-36 | a supplied phone that is not ten digits once white space is removed is refused; otherwise the phone becomes that stripped phone, and an absent or empty phone clears it |
| Accounts.UserPhoneStep | src/core/application/use-cases/users/UpdateUser.usecase.ts:61-68 | the phone changes only for a client with a client record when a phone is given, and fails exactly when the client's phone update fails |
| Accounts.EmailFailure | src/core/application/use-cases/users/UpdateUser.usecase.ts:51-59 | an email held by another user is a conflict, an invalid one fails with the email message, and there is no failure exactly when the email is absent or free and valid |
| Accounts.EditFailure | src/core/application/use-cases/users/UpdateUser.usecase.ts:40-59 | a new name under 3 UTF-16 code units after trimming fails first; otherwise the email check decides |
| Accounts.EditName | src/core/application/use-cases/users/UpdateUser.usecase.ts:40-49 | a new name under 3 UTF-16 code units after trimming fails and otherwise the user has only its name changed, to the trimmed name |
| Accounts.EditEmail | src/core/application/use-cases/users/UpdateUser.usecase.ts:51-59 | the email step fails as EmailFailure says and otherwise the user has only its email changed |
| Accounts.EditUser | src/core/application/use-cases/users/UpdateUser.usecase.ts:40-59 | the name and email steps fail as EditFailure says and otherwise leave the user as EditedUser says |
| Accounts.ClientPhoneStep | src/core/application/use-cases/clients/UpdateClient.usecase..ts:57-60 | a given phone is applied to the client record, failing exactly when the phone update fails; no phone leaves it alone |
| Accounts.PhoneStep | src/core/application/use-cases/users/UpdateUser.usecase.ts:61-68 | the phone step of the user update computes what UserPhoneStep says |
| Accounts.SaveEdit | src/core/application/use-cases/users/UpdateUser.usecase.ts:66-71 | the edited user and the optional client record are written back and nothing else changes |
| Accounts.FinishUserEdit | src/core/application/use-cases/users/UpdateUser.usecase.ts:40-71 | the edit steps of the user update return and leave the store as the spec of the update says |
| Accounts.FinishClientEdit | src/core/application/use-cases/clients/UpdateClient.usecase..ts:36-63 | the edit steps of the client update return and leave the store as the spec of the update says |
| Accounts.ClientPhone | src/core/application/use-cases/clients/UpdateClient.usecase..ts:57-60 | updating the client object's phone computes what ClientPhoneStep says |
| Accounts.UpdateUser | src/core/application/use-cases/users/UpdateUser.usecase.ts:28-72 | an unknown user is not found; a requester who is neither that user nor an admin is forbidden; then the name, email and phone checks fail in that order; every failure changes nothing; success exactly otherwise, writing the edited user and the updated client record |
| Accounts.UpdateUserUseCase.constructor | src/core/application/use-cases/users/UpdateUser.usecase.ts:23-26 | the use case works on the given store |
| Accounts.UpdateUserUseCase.Execute | src/core/application/use-cases/users/UpdateUser.usecase.ts:28-72 | the step-by-step update returns and leaves the store as UpdateUser says |
| Accounts.OwnEmailIsNotTaken | src/core/application/use-cases/users/UpdateUser.usecase.ts:54-57 | when a user's email is held by nobody else, resubmitting it is not a conflict |
| Accounts.UpdateUserKeepsRoleRecords | src/core/application/use-cases/users/UpdateUser.usecase.ts:28-72 | an update never loses a role record, since the user type never changes |
| Accounts.RemoveRoleRecord | src/core/application/use-cases/users/DeleteUser.usecase.ts:62-75 | the user's record of the given type is gone, every other role record stays, and users and restaurants are untouched |
| Accounts.DeleteUser | src/core/application/use-cases/users/DeleteUser.usecase.ts:31-83 | a non-admin requester is forbidden, deleting oneself is forbidden, an unknown user is not found, an owner with restaurants is a resource-in-use conflict; every failure changes nothing; success exactly otherwise, removing the user and its role record |
| Accounts.DeleteUserUseCase.constructor | src/core/application/use-cases/users/DeleteUser.usecase.ts:23-29 | the use case works on the given store |
| Accounts.DeleteUserUseCase.Execute | src/core/application/use-cases/users/DeleteUser.usecase.ts:31-83 | the step-by-step deletion returns and leaves the store as DeleteUser says |
| Accounts.DeleteUserKeepsRoleRecords | src/core/application/use-cases/users/DeleteUser.usecase.ts:62-82 | deleting a user keeps every remaining user's role record |
| Accounts.UpdateClient | src/core/application/use-cases/clients/UpdateClient.usecase..ts:23-64 | an unknown user and a user without a client record are not found; then the name, email and phone checks fail in that order; every failure changes nothing; success exactly otherwise, writing the edited user and, when a phone is given, the client's new phone |
| Accounts.UpdateClientUseCase.constructor | src/core/application/use-cases/clients/UpdateClient.usecase..ts:18-21 | the use case works on the given store |
| Accounts.UpdateClientUseCase.Execute | src/core/application/use-cases/clients/UpdateClient.usecase..ts:23-64 | the step-by-step client update returns and leaves the store as UpdateClient says |
| Accounts.EmptyPhoneClears | src/core/domain/entities/Client.entity.ts:25-36 | an empty phone succeeds and clears the client's phone |
| Accounts.CreateClient | src/core/application/use-cases/clients/CreateClient.usecase.ts:37-79 | a taken email is a conflict and a name under 3 UTF-16 code units after trimming a validation error, each changing nothing; success exactly when these pass and the signup succeeds; the result names the new id for both user and client, the normalised email, the trimmed name and the phone as given, which is also what the client record holds |
| Accounts.CreateClientUseCase.constructor | src/core/application/use-cases/clients/CreateClient.usecase.ts:31-35 | the use case works on the given store |
| Accounts.CreateClientUseCase.Execute | src/core/application/use-cases/clients/CreateClient.usecase.ts:37-79 | the step-by-step creation returns and leaves the store as CreateClient says |
| Accounts.CreateStaff | src/core/application/use-cases/restaurant-owners/CreateRestaurantOwner.usecase.ts:34-67 | a taken email is a conflict; success exactly when the email is free and the account can be built; the result is the new id, trimmed name, normalised email and type code, and the store gains that user and its role record |
| Accounts.CreateRestaurantOwnerUseCase.constructor | src/core/application/use-cases/restaurant-owners/CreateRestaurantOwner.usecase.ts:28-32 | the use case works on the given store |
| Accounts.CreateRestaurantOwnerUseCase.Execute | src/core/application/use-cases/restaurant-owners/CreateRestaurantOwner.usecase.ts:34-67 | creating an owner returns and leaves the store as CreateStaff says for the owner type |
| Accounts.CreateAdministratorUseCase.constructor | src/core/application/use-cases/administrators/CreateAdministrator.usecase.ts:28-32 | the use case works on the given store |
| Accounts.CreateAdministratorUseCase.Execute | src/core/application/use-cases/administrators/CreateAdministrator.usecase.ts:34-67 | creating an administrator returns and leaves the store as CreateStaff says for the admin type |
| Accounts.Promote | src/core/application/use-cases/restaurant-owners/PromoteUserToOwner.usecase.ts:23-61 | an unknown user is not found, a user already of the target type is a conflict, a client is a validation error, each changing nothing; success otherwise (for a positive id), changing only the user's type and adding its new role record while every old role record stays |
| Accounts.PromoteUserToOwnerUseCase.constructor | src/core/application/use-cases/restaurant-owners/PromoteUserToOwner.usecase.ts:18-21 | the use case works on the given store |
| Accounts.PromoteUserToOwnerUseCase.Execute | src/core/application/use-cases/restaurant-owners/PromoteUserToOwner.usecase.ts:23-61 | the step-by-step promotion returns and leaves the store as Promote says for the owner type |
| Accounts.PromoteUserToAdminUseCase.constructor | src/core/application/use-cases/administrators/PromoteUserToAdmin.usecase.ts:18-21 | the use case works on the given store |
| Accounts.PromoteUserToAdminUseCase.Execute | src/core/application/use-cases/administrators/PromoteUserToAdmin.usecase.ts:23-61 | the step-by-step promotion returns and leaves the store as Promote says for the admin type |
| Accounts.PromoteKeepsRoleRecords | src/core/application/use-cases/restaurant-owners/PromoteUserToOwner.usecase.ts:45-60 | promotion keeps every role record present; an owner promoted to admin keeps the owner record as well |
| Accounts.CreateClientBadPhoneLeavesOrphan | src/core/application/use-cases/clients/CreateClient.usecase.ts:66-69 | a supplied phone that is not ten digits fails creation with the phone message, yet the user is already saved, findable by email, and has no client record |
| Accounts.CreateClientChecked | src/core/application/use-cases/clients/CreateClient.usecase.ts:37-79 | the corrected creation refuses a bad phone as a "phone" validation error before anything is saved, and otherwise succeeds exactly as CreateClient does |
| Accounts.CreateClientCheckedAllOrNothing | src/core/application/use-cases/clients/CreateClient.usecase.ts:37-79 | every failure of the corrected creation leaves the store unchanged, and every user keeps its role record |
| Onboarding.CreateApplication | src/core/application/use-cases/applications/CreateApplication.usecase.ts:31-58 | an unknown owner is not found; an owner with a pending application is a conflict; an application the entity refuses fails with its error; every failure changes nothing; success exactly otherwise, storing a pending application of that owner under the next id and returning that id with the pending code |
| Onboarding.RegisterRestaurant | src/core/application/use-cases/registration/RegisterRestaurant.usecase.ts:44-80 | an unknown owner is not found; an owner with a pending or in-review application is a conflict; a restaurant name under 3 UTF-16 code units after trimming is a validation error; every failure changes nothing; success exactly otherwise, storing the new application with the pending code and the fixed message, and no restaurant is created |
| Onboarding.ApproveApplication | src/core/application/use-cases/applications/ApproveApplication.usecase.ts:17-34 | an unknown application is not found, one that is neither pending nor in review is a validation error, each changing nothing; success exactly for an open application, which alone becomes approved |
| Onboarding.RejectApplication | src/core/application/use-cases/applications/RejectApplication.usecase.ts:18-37 | an unknown application is not found, one that is neither pending nor in review is a validation error, each changing nothing; success exactly for an open application, which alone becomes rejected |
| Onboarding.CreateRestaurant | src/core/application/use-cases/restaurants/CreateRestaurant.usecase.ts:29-56 | an unknown application is not found, one not approved is a validation error, one that already has a restaurant is a conflict; every failure changes nothing; success exactly when the entity accepts the data, storing the restaurant under the next id with no likes, for that application and owner |
| Onboarding.CreateApplicationUseCase.constructor | src/core/application/use-cases/applications/CreateApplication.usecase.ts:26-29 | the use case works on the given store |
| Onboarding.CreateApplicationUseCase.Execute | src/core/application/use-cases/applications/CreateApplication.usecase.ts:31-58 | the step-by-step submission returns and leaves the store as CreateApplication says |
| Onboarding.RegisterRestaurantUseCase.constructor | src/core/application/use-cases/registration/RegisterRestaurant.usecase.ts:38-42 | the use case works on the given store |
| Onboarding.RegisterRestaurantUseCase.Execute | src/core/application/use-cases/registration/RegisterRestaurant.usecase.ts:44-80 | the step-by-step registration returns and leaves the store as RegisterRestaurant says |
| Onboarding.ApproveApplicationUseCase.constructor | src/core/application/use-cases/applications/ApproveApplication.usecase.ts:15 | the use case works on the given store |
| Onboarding.ApproveApplicationUseCase.Execute | src/core/application/use-cases/applications/ApproveApplication.usecase.ts:17-34 | the step-by-step approval returns and leaves the store as ApproveApplication says |
| Onboarding.RejectApplicationUseCase.constructor | src/core/application/use-cases/applications/RejectApplication.usecase.ts:16 | the use case works on the given store |
| Onboarding.RejectApplicationUseCase.Execute | src/core/application/use-cases/applications/RejectApplication.usecase.ts:18-37 | the step-by-step rejection returns and leaves the store as RejectApplication says |
| Onboarding.CreateRestaurantUseCase.constructor | src/core/application/use-cases/restaurants/CreateRestaurant.usecase.ts:24-27 | the use case works on the given store |
| Onboarding.CreateRestaurantUseCase.Execute | src/core/application/use-cases/restaurants/CreateRestaurant.usecase.ts:29-56 | the step-by-step creation returns and leaves the store as CreateRestaurant says |
| Onboarding.ClosedApplicationsAreFinal | src/core/application/use-cases/applications/ApproveApplication.usecase.ts:24-28 | an approved or rejected application can be neither approved nor rejected again, and trying changes nothing |
| Onboarding.DecisionKeepsOthers | src/core/application/use-cases/applications/ApproveApplication.usecase.ts:31-33 | approving or rejecting one application leaves every other application as it was |
| Onboarding.InReviewBlocksOnlyRegistration | src/core/application/use-cases/applications/CreateApplication.usecase.ts:39-46 | an owner whose only open application is in review may still submit through the application use case but is refused by the registration |
| Onboarding.RegistrationLeavesOneOpen | src/core/application/use-cases/registration/RegisterRestaurant.usecase.ts:52-73 | after a successful registration the owner has exactly one open application, the new one |
| Onboarding.SecondRestaurantRefused | src/core/application/use-cases/restaurants/CreateRestaurant.usecase.ts:41-55 | once a restaurant is created for an application, a second one for it is a conflict that changes nothing |
| Engagement.ToggleFavorite | src/core/application/use-cases/favorites/ToggleFavorite.usecase.ts:20-50 | an unknown restaurant is not found and changes nothing; an existing like is removed and the count decremented (never below zero); otherwise a like is added (when both ids are positive) and the count incremented; the result says whether the pair is now a favorite, the opposite of before, and carries the stored count |
| Engagement.DownloadMenu | src/core/application/use-cases/menus/DownloadMenu.usecase.ts:21-45 | without a like the download is forbidden; without an active menu for the restaurant it is not found; both change nothing; success exactly otherwise, returning the active menu's URL and the file name for the restaurant and counting one download of that menu |
| Engagement.UploadUserPhoto | src/core/application/use-cases/user-photos/UploadUserPhoto.usecase.ts:35-74 | an unknown restaurant is not found; a client without a like is forbidden; a failed upload fails with its error; every failure changes nothing; success exactly when the photo entity accepts the uploaded URL, storing it under the next id for that client and restaurant |
| Engagement.DeleteUserPhoto | src/core/application/use-cases/user-photos/DeleteUserPhoto.usecase.ts:23-42 | an unknown photo is not found; a requester who is neither admin nor the photo's client is forbidden; a failing file delete fails; every failure changes nothing; success exactly otherwise, removing the photo record |
| Engagement.SubmitSurvey | src/core/application/use-cases/survey/SubmitSurvey.usecase.ts:34-67 | an unknown client or restaurant is not found; a second survey for the same pair is a conflict; every failure changes nothing; success exactly when the ids are positive, storing the survey under the next id and reporting whether it is complete and its completion percentage |
| Engagement.ToggleFavoriteUseCase.constructor | src/core/application/use-cases/favorites/ToggleFavorite.usecase.ts:15-18 | the use case works on the given store |
| Engagement.ToggleFavoriteUseCase.Execute | src/core/application/use-cases/favorites/ToggleFavorite.usecase.ts:20-50 | the step-by-step toggle returns and leaves the store as ToggleFavorite says |
| Engagement.DownloadMenuUseCase.constructor | src/core/application/use-cases/menus/DownloadMenu.usecase.ts:16-19 | the use case works on the given store |
| Engagement.DownloadMenuUseCase.Execute | src/core/application/use-cases/menus/DownloadMenu.usecase.ts:21-45 | the step-by-step download returns and leaves the store as DownloadMenu says |
| Engagement.UploadUserPhotoUseCase.constructor | src/core/application/use-cases/user-photos/UploadUserPhoto.usecase.ts:28-33 | the use case works on the given store |
| Engagement.UploadUserPhotoUseCase.Execute | src/core/application/use-cases/user-photos/UploadUserPhoto.usecase.ts:35-74 | the step-by-step upload returns and leaves the store as UploadUserPhoto says |
| Engagement.DeleteUserPhotoUseCase.constructor | src/core/application/use-cases/user-photos/DeleteUserPhoto.usecase.ts:18-21 | the use case works on the given store |
| Engagement.DeleteUserPhotoUseCase.Execute | src/core/application/use-cases/user-photos/DeleteUserPhoto.usecase.ts:23-42 | the step-by-step deletion returns and leaves the store as DeleteUserPhoto says |
| Engagement.SubmitSurveyUseCase.constructor | src/core/application/use-cases/survey/SubmitSurvey.usecase.ts:28-32 | the use case works on the given store |
| Engagement.SubmitSurveyUseCase.Execute | src/core/application/use-cases/survey/SubmitSurvey.usecase.ts:34-67 | the step-by-step submission returns and leaves the store as SubmitSurvey says |
| Engagement.ToggleKeepsLikesConsistent | src/core/application/use-cases/favorites/ToggleFavorite.usecase.ts:36-47 | when every restaurant's like count equals its number of likes, a toggle keeps it so |
| Engagement.ToggleTwiceRestores | src/core/application/use-cases/favorites/ToggleFavorite.usecase.ts:36-47 | with consistent counts, toggling the same pair twice succeeds and restores the store exactly |
| Engagement.DownloadKeepsLikes | src/core/application/use-cases/menus/DownloadMenu.usecase.ts:21-45 | a download never changes likes or restaurants |
| Engagement.DownloadCountsOnce | src/core/application/use-cases/menus/DownloadMenu.usecase.ts:33-39 | a successful download adds exactly one to the active menu's count and leaves every other menu as it was |
| Engagement.SubmitKeepsOneSurveyPerPair | src/core/application/use-cases/survey/SubmitSurvey.usecase.ts:47-60 | submissions keep at most one survey per client and restaurant |
| Restaurants.UpdateRestaurant | src/core/application/use-cases/restaurants/UpdateRestaurant.usecase.ts:25-51 | an unknown restaurant is not found; a requester who is neither admin nor its owner is forbidden; an update the entity refuses fails; every failure changes nothing; success exactly otherwise, storing the updated restaurant, whose id, owner, application and like count never change |
| Restaurants.DeleteRestaurant | src/core/application/use-cases/restaurants/DeleteRestaurant.usecase.ts:18-36 | an unknown restaurant is not found; a requester who is neither admin nor its owner is forbidden; each changes nothing; success exactly otherwise, removing the restaurant |
| Restaurants.UpdateRestaurantUseCase.constructor | src/core/application/use-cases/restaurants/UpdateRestaurant.usecase.ts:23 | the use case works on the given store |
| Restaurants.UpdateRestaurantUseCase.Execute | src/core/application/use-cases/restaurants/UpdateRestaurant.usecase.ts:25-51 | the step-by-step update returns and leaves the store as UpdateRestaurant says |
| Restaurants.DeleteRestaurantUseCase.constructor | src/core/application/use-cases/restaurants/DeleteRestaurant.usecase.ts:16 | the use case works on the given store |
| Restaurants.DeleteRestaurantUseCase.Execute | src/core/application/use-cases/restaurants/DeleteRestaurant.usecase.ts:18-36 | the step-by-step deletion returns and leaves the store as DeleteRestaurant says |
| Restaurants.UpdateKeepsLikesConsistent | src/core/application/use-cases/restaurants/UpdateRestaurant.usecase.ts:40-50 | an information update keeps every like count equal to the restaurant's number of likes |
| Restaurants.EmptyUpdateChangesNothing | src/core/application/use-cases/restaurants/UpdateRestaurant.usecase.ts:40-50 | an allowed update with no fields succeeds and leaves the store exactly as it was |
| Menus.CreateMenu | src/core/application/use-cases/menus/CreateMenu.usecase.ts:27-51 | an unknown restaurant is not found; a requester who is neither admin nor its owner is forbidden; a menu the entity refuses fails; every failure changes nothing; success exactly otherwise, storing the menu under the next id with the requested status, no downloads, for that restaurant |
| Menus.WithStatus | src/core/application/use-cases/menus/UpdateMenu.usecase.ts:45-61 | a given status replaces the menu's status and nothing else; no status leaves the menu as it was |
| Menus.UpdateMenu | src/core/application/use-cases/menus/UpdateMenu.usecase.ts:26-64 | an unknown menu or a menu whose restaurant is gone is not found; a requester who is neither admin nor the restaurant's owner is forbidden; every failure changes nothing; success exactly otherwise, storing the menu with only its status changed |
| Menus.RequestedDeletions | src/core/application/use-cases/menus/DeleteMenu.usecase.ts:43-49 | the file URL is always asked to be deleted; the menu URL is asked for only when that first delete did not fail |
| Menus.DeleteMenu | src/core/application/use-cases/menus/DeleteMenu.usecase.ts:24-53 | an unknown menu or a menu whose restaurant is gone is not found; a requester who is neither admin nor the restaurant's owner is forbidden; every failure changes nothing and deletes no file; success exactly otherwise, removing the menu whatever the file deletes do |
| Menus.CreateMenuUseCase.constructor | src/core/application/use-cases/menus/CreateMenu.usecase.ts:22-25 | the use case works on the given store |
| Menus.CreateMenuUseCase.Execute | src/core/application/use-cases/menus/CreateMenu.usecase.ts:27-51 | the step-by-step creation returns and leaves the store as CreateMenu says |
| Menus.UpdateMenuUseCase.constructor | src/core/application/use-cases/menus/UpdateMenu.usecase.ts:21-24 | the use case works on the given store |
| Menus.UpdateMenuUseCase.Execute | src/core/application/use-cases/menus/UpdateMenu.usecase.ts:26-64 | the step-by-step update, through the menu object's status methods, returns and leaves the store as UpdateMenu says |
| Menus.DeleteMenuUseCase.constructor | src/core/application/use-cases/menus/DeleteMenu.usecase.ts:18-22 | the use case works on the given store |
| Menus.DeleteMenuUseCase.Execute | src/core/application/use-cases/menus/DeleteMenu.usecase.ts:24-53 | the step-by-step deletion returns, leaves the store and asks for the file deletions as DeleteMenu says |
| Menus.ActivatedMenuIsDownloadable | src/core/application/use-cases/menus/UpdateMenu.usecase.ts:46-50 | after a menu is activated, its restaurant has an active menu to download |
| Menus.UpdateMenuIdempotent | src/core/application/use-cases/menus/UpdateMenu.usecase.ts:26-64 | repeating a successful menu update succeeds and changes nothing more |
| Menus.DeleteMenuIgnoresStorageFailures | src/core/application/use-cases/menus/DeleteMenu.usecase.ts:44-52 | the outcome and the resulting store do not depend on which file deletes fail |
| Documents.UploadDocument | src/core/application/use-cases/documents/UploadDocument.usecase.ts:38-77 | an unknown restaurant is not found; a requester who is neither admin nor its owner is forbidden; a failed upload fails with its error; every failure changes nothing; success exactly when the document entity accepts the uploaded URL, storing it under the next id and returning that id, the trimmed URL and the type |
| Documents.StoreDocument | src/core/application/use-cases/documents/UploadDocument.usecase.ts:60-76 | building and saving the document record step by step returns and leaves the store as its specification says |
| Documents.DeleteDocument | src/core/application/use-cases/documents/DeleteDocument.usecase.ts:24-48 | an unknown document or a document whose restaurant is gone is not found; a requester who is neither admin nor the owner is forbidden; a failing file delete fails; every failure changes nothing; success exactly otherwise, removing the document |
| Documents.UploadDocumentUseCase.constructor | src/core/application/use-cases/documents/UploadDocument.usecase.ts:32-36 | the use case works on the given store |
| Documents.UploadDocumentUseCase.Execute | src/core/application/use-cases/documents/UploadDocument.usecase.ts:38-77 | the step-by-step upload returns and leaves the store as UploadDocument says |
| Documents.DeleteDocumentUseCase.constructor | src/core/application/use-cases/documents/DeleteDocument.usecase.ts:18-22 | the use case works on the given store |
| Documents.DeleteDocumentUseCase.Execute | src/core/application/use-cases/documents/DeleteDocument.usecase.ts:24-48 | the step-by-step deletion returns and leaves the store as DeleteDocument says |
| Documents.UploadThenDeleteRestores | src/core/application/use-cases/documents/UploadDocument.usecase.ts:38-77 | deleting a just-uploaded document by the same requester succeeds and restores the store except for the consumed id |
| Images.UploadImage | src/core/application/use-cases/zones/UploadImage.usecase.ts:35-72 | an unknown restaurant is not found; a requester who is neither admin nor its owner is forbidden; a failed upload fails with its error; every failure changes nothing; success exactly when the image entity accepts the uploaded URL, storing it under the next id and returning that id and the trimmed URL |
| Images.DeleteImage | src/core/application/use-cases/images/DeleteImage.usecase.ts:24-48 | an unknown image or an image whose restaurant is gone is not found; a requester who is neither admin nor the owner is forbidden; a failing file delete fails; every failure changes nothing; success exactly otherwise, removing the image |
| Images.UploadImageUseCase.constructor | src/core/application/use-cases/zones/UploadImage.usecase.ts:29-33 | the use case works on the given store |
| Images.UploadImageUseCase.Execute | src/core/application/use-cases/zones/UploadImage.usecase.ts:35-72 | the step-by-step upload returns and leaves the store as UploadImage says |
| Images.DeleteImageUseCase.constructor | src/core/application/use-cases/images/DeleteImage.usecase.ts:18-22 | the use case works on the given store |
| Images.DeleteImageUseCase.Execute | src/core/application/use-cases/images/DeleteImage.usecase.ts:24-48 | the step-by-step deletion returns and leaves the store as DeleteImage says |
| Images.UploadThenDeleteRestores | src/core/application/use-cases/zones/UploadImage.usecase.ts:35-72 | deleting a just-uploaded image by the same requester succeeds and restores the store except for the consumed id |
| Zones.CreateZone | src/core/application/use-cases/zones/CreateZone.usecase.ts:16-27 | a name already used by a zone is a conflict; every failure changes nothing; success exactly when the name is free and the entity accepts it, storing the zone with the trimmed name under the next id |
| Zones.UpdateZone | src/core/application/use-cases/zones/UpdateZone.usecase.ts:20-42 | an unknown zone is not found; a requester who is neither admin nor its owner is forbidden; a name held by another zone is a conflict; every failure changes nothing; success exactly when the trimmed name has at least three UTF-16 code units, changing only the zone's name |
| Zones.DeleteZone | src/core/application/use-cases/zones/DeleteZone.usecase.ts:23-46 | an unknown zone is not found; a requester who is neither admin nor its owner is forbidden; a zone with restaurants is a resource-in-use conflict; every failure changes nothing; success exactly otherwise, removing the zone |
| Zones.CreateZoneUseCase.constructor | src/core/application/use-cases/zones/CreateZone.usecase.ts:14 | the use case works on the given store |
| Zones.CreateZoneUseCase.Execute | src/core/application/use-cases/zones/CreateZone.usecase.ts:16-27 | the step-by-step creation returns and leaves the store as CreateZone says |
| Zones.UpdateZoneUseCase.constructor | src/core/application/use-cases/zones/UpdateZone.usecase.ts:18 | the use case works on the given store |
| Zones.UpdateZoneUseCase.Execute | src/core/application/use-cases/zones/UpdateZone.usecase.ts:20-42 | the step-by-step rename returns and leaves the store as UpdateZone says |
| Zones.DeleteZoneUseCase.constructor | src/core/application/use-cases/zones/DeleteZone.usecase.ts:18-21 | the use case works on the given store |
| Zones.DeleteZoneUseCase.Execute | src/core/application/use-cases/zones/DeleteZone.usecase.ts:23-46 | the step-by-step deletion returns and leaves the store as DeleteZone says |
| Zones.CreateKeepsNamesUnique | src/core/application/use-cases/zones/CreateZone.usecase.ts:17-26 | creating a zone with an already trimmed name keeps zone names unique |
| Zones.PaddedNameDuplicates | src/core/application/use-cases/zones/CreateZone.usecase.ts:17-26 | a name that differs from an existing zone's only by surrounding white space passes the exact-name check and yields two zones with the same name |
| Zones.RenameToOwnNameAllowed | src/core/application/use-cases/zones/UpdateZone.usecase.ts:34-41 | renaming a zone to its own name is not a conflict and succeeds |
| Zones.UpdateKeepsNamesUnique | src/core/application/use-cases/zones/UpdateZone.usecase.ts:34-41 | renaming to an already trimmed name keeps zone names unique |
| Zones.CreateKeepsNamesTrimmed | src/core/application/use-cases/zones/CreateZone.usecase.ts:24-26 | creation keeps every stored zone name trimmed |
| Zones.UpdateKeepsNamesTrimmed | src/core/application/use-cases/zones/UpdateZone.usecase.ts:40-41 | renaming keeps every stored zone name trimmed |
| Zones.DeleteKeepsZonesAssigned | src/core/application/use-cases/zones/DeleteZone.usecase.ts:37-45 | deletion never leaves a restaurant pointing to a missing zone |
| Zones.CreateZoneChecked | src/core/application/use-cases/zones/CreateZone.usecase.ts:16-27 | a zone already carrying the trimmed name is a conflict that changes nothing; otherwise creation succeeds exactly when Zone.create accepts, and the zone is stored trimmed |
| Zones.CreateZoneCheckedKeepsNamesUnique | src/core/application/use-cases/zones/CreateZone.usecase.ts:16-27 | the corrected creation keeps zone names unique for every requested name, padded or not |
| Statistics.OfRestaurant | src/core/application/use-cases/survey/GetSurveyStats.usecase.ts:22-23 | the surveys kept are exactly those of the given restaurant |
| Statistics.CompletedCount | src/core/application/use-cases/survey/GetSurveyStats.usecase.ts:29 | the completed count never exceeds the number of surveys and equals it exactly when every survey is complete |
| Statistics.CompletionRate | src/core/application/use-cases/survey/GetSurveyStats.usecase.ts:30-49 | the rounded rate lies between 0 and 100, is 0 with no surveys or none completed, and 100 when all are completed |
| Statistics.RatioBounds | src/core/application/use-cases/survey/GetSurveyStats.usecase.ts:30-49 | the percentage of completed surveys and its rounding to cents stay within 0 and 100, and all completed rounds to exactly 100 |
| Statistics.Ids | src/core/application/use-cases/survey/GetSurveyStats.usecase.ts:36-38 | the restaurant ids of the surveys, one per survey in order |
| Statistics.FirstSeen | src/core/application/use-cases/survey/GetSurveyStats.usecase.ts:35-44 | the map's key order: each restaurant id once, exactly the ids that occur |
| Statistics.Occurrences | src/core/application/use-cases/survey/GetSurveyStats.usecase.ts:37-38 | the count of an id is positive exactly when the id occurs and never exceeds the number of surveys |
| Statistics.Tally | src/core/application/use-cases/survey/GetSurveyStats.usecase.ts:41-44 | one entry per key, pairing the key with its number of occurrences |
| Statistics.GroupedCountsSum | src/core/application/use-cases/survey/GetSurveyStats.usecase.ts:35-44 | the per-restaurant counts add up to the number of surveys |
| Statistics.SurveyStatsOf | src/core/application/use-cases/survey/GetSurveyStats.usecase.ts:19-52 | the total is the number of selected surveys, the completed count is at most the total, the rate is within 0 and 100 and 0 with no surveys; every restaurant of a selected survey appears once in the grouping, every count there is positive and the counts add up to the total |
| Statistics.GetSurveyStats | src/core/application/use-cases/survey/GetSurveyStats.usecase.ts:19-52 | the computed statistics are exactly SurveyStatsOf of the repository's surveys |
| Statistics.CountByRestaurant | src/core/application/use-cases/survey/GetSurveyStats.usecase.ts:35-44 | the loop that fills the map yields, in insertion order, each restaurant id with its number of surveys |
| Statistics.ListStats | src/core/application/use-cases/statistics/GetOwnerStats.usecase.ts:40-56 | one entry per owned restaurant, in order, with that restaurant's likes, photos and downloads |
| Statistics.GetOwnerStats | src/core/application/use-cases/statistics/GetOwnerStats.usecase.ts:35-74 | the total is the number of owned restaurants; each is listed in order with its id, name, its number of favorites, photos and menu downloads; the three totals are the sums of those columns, and the like and photo totals are never negative |
| Statistics.OwnerTotalsOfOneMore | src/core/application/use-cases/statistics/GetOwnerStats.usecase.ts:40-61 | listing one more restaurant keeps the earlier rows and adds exactly that restaurant's favorites, photos and downloads to the three totals |
| Statistics.OwnerLikesMatchCounters | src/core/application/use-cases/statistics/GetOwnerStats.usecase.ts:42-59 | when the like counters are consistent, the likes counted per restaurant equal its stored counter and the total equals their sum |
| Statistics.ListLikesMatch | src/core/application/use-cases/statistics/GetOwnerStats.usecase.ts:59 | with consistent counters, the sum of counted likes equals the sum of the restaurants' counters |
| Statistics.RestaurantDownloadsWithinTotal | src/core/application/use-cases/statistics/GetGlobalStats.usecase.ts:60-61 | a restaurant's downloads lie between zero and the total downloads of all menus |
| Statistics.Popular | src/core/application/use-cases/statistics/GetGlobalStats.usecase.ts:72-76 | one entry per popular restaurant in order, with its id, name and like count |
| Statistics.GetGlobalStats | src/core/application/use-cases/statistics/GetGlobalStats.usecase.ts:42-85 | the clients, owners and administrators add up to the total users; restaurants and favorites are counted; the popular list has one entry per restaurant the repository ranks among the top five, in its order, with that restaurant's id, name and like count; downloads are the sum over all menus |
| Statistics.UserTypesPartition | src/core/application/use-cases/statistics/GetGlobalStats.usecase.ts:44-49 | every user is of exactly one of the three types, so the per-type counts add up to the total |
| Listings.SliceIndex | src/core/application/use-cases/restaurants/GetAllRestaurants.usecase.ts:46 | the position `slice` takes for an index: a non-negative index clamped to the length; a negative one counts from the end (length + index), and 0 when that is still negative |
| Listings.Slice | src/core/application/use-cases/restaurants/GetAllRestaurants.usecase.ts:46 | the slice holds exactly the elements from the start position up to, not including, the end position, and nothing when the end position does not come after the start |
| Listings.PageStart | src/core/application/use-cases/restaurants/GetAllRestaurants.usecase.ts:43-46 | the first position of a page lies within the sequence |
| Listings.Paged | src/core/application/use-cases/restaurants/GetAllRestaurants.usecase.ts:43-47 | with neither offset nor limit the whole sequence is kept; otherwise a contiguous run starting at the page start |
| Listings.PagedBounded | src/core/application/use-cases/restaurants/GetAllRestaurants.usecase.ts:45-46 | a positive limit bounds the page length |
| Listings.PagedWindow | src/core/application/use-cases/restaurants/GetAllRestaurants.usecase.ts:44-46 | with a non-negative offset and positive limit the page is the window from the offset of that length, cut at the end |
| Listings.FirstPage | src/core/application/use-cases/restaurants/GetAllRestaurants.usecase.ts:44-46 | with no offset the page starts at the beginning |
| Listings.PagedRest | src/core/application/use-cases/restaurants/GetAllRestaurants.usecase.ts:44-46 | with no limit (or a zero limit) the page runs from the offset to the end |
| Listings.PagesTile | src/core/application/use-cases/restaurants/GetAllRestaurants.usecase.ts:43-47 | two consecutive pages of one size together make the page of twice that size |
| Listings.Summaries | src/core/application/use-cases/restaurants/GetAllRestaurants.usecase.ts:50-61 | one summary per restaurant, in order |
| Listings.GetAllRestaurants | src/core/application/use-cases/restaurants/GetAllRestaurants.usecase.ts:32-69 | the total is the repository count; the listed restaurants are the summaries of a contiguous page of the tag search or of all restaurants; without filters all restaurants are listed; a positive limit bounds the page |
| Listings.Views | src/core/application/use-cases/users/GetAllUsers.usecase.ts:50-57 | one view per user, in order |
| Listings.GetAllUsers | src/core/application/use-cases/users/GetAllUsers.usecase.ts:29-63 | the total is the repository count; the listed users are the views of a contiguous page of the type search or of all users; a positive limit bounds the page |
| Listings.Kept | src/core/application/use-cases/favorites/GetClientFavorites.usecae.ts:32-54 | exactly the favorites whose restaurant still exists are kept, each with its restaurant card; with every restaurant present none is dropped |
| Listings.KeptAppend | src/core/application/use-cases/favorites/GetClientFavorites.usecae.ts:32-54 | the filter works favorite by favorite, so it distributes over concatenation and keeps order |
| Listings.GetClientFavorites | src/core/application/use-cases/favorites/GetClientFavorites.usecae.ts:29-60 | the total is the number of favorites listed; each listed one carries its existing restaurant's card; every favorite with an existing restaurant is listed and none whose restaurant is gone |
| Text.TrimShape | src/core/domain/value-objects/Email.vo.ts:5 | trim removes only white space, and only from both ends: what remains is a contiguous piece of the input that neither starts nor ends with white space |
| Text.TrimEmptyIffBlank | src/core/domain/value-objects/Email.vo.ts:5-8 | trimming yields the empty string exactly when the input is all white space |
| Text.TrimIdempotent | src/core/domain/value-objects/Email.vo.ts:5 | trimming twice is trimming once |
| Text.Lower | src/core/domain/value-objects/Email.vo.ts:11 | lower-casing maps every character by itself and keeps the length |
| Text.LowerIdempotent | src/core/domain/value-objects/Email.vo.ts:11 | lower-casing twice is lower-casing once |
| Text.LowerAppend | src/core/domain/value-objects/Email.vo.ts:11 | lower-casing works character by character, so it distributes over concatenation |
| Text.Remove | src/core/domain/value-objects/Phone.vo.ts:14-17 | the characters kept are exactly those not dropped |
| Text.RemoveAppend | src/core/domain/value-objects/Phone.vo.ts:14-17 | removal distributes over concatenation |
| Text.SplitPiecesLackSeparator | src/core/domain/value-objects/FileUrl.vo.ts:33 | no piece of a split contains the separator |
| Text.SplitJoin | src/core/domain/value-objects/FileUrl.vo.ts:33 | joining the pieces of a split with the separator gives back the string |
| Text.SplitCount | src/core/domain/value-objects/FileUrl.vo.ts:40-44 | a split has at least two pieces exactly when the separator occurs |
| Text.LastIndexOf | src/core/domain/value-objects/FileUrl.vo.ts:33-34 | the last index of a character holds it with no later occurrence, and -1 means it does not occur |
| Text.SplitLast | src/core/domain/value-objects/FileUrl.vo.ts:33-46 | the last piece of a split is what follows the last separator |
| Text.Utf16Length | src/core/domain/value-objects/Password.vo.ts:15-21 | JavaScript's `length`: one code unit per character, two above U+FFFF, so between the number of characters and twice that |
| Text.Utf16LengthAppend | src/core/domain/value-objects/Password.vo.ts:15-21 | the code units of two strings joined are the sum of their code units |
| Text.Utf16LengthOfBasic | src/core/domain/value-objects/Password.vo.ts:15-21 | a string without characters above U+FFFF has as many code units as characters |
| Text.TwoEmojiAreFourUnits | src/core/domain/value-objects/Password.vo.ts:15-21 | two characters above U+FFFF count as four code units |

## Left out

- Mail, file storage and logging services (SMTP, cloud and local storage, the logger) are outside the model. A storage upload is a parameter holding its outcome, and failing deletes are a map from file URL to failure.
- The HTTP layer is not part of this model: the error middleware, the request and token middlewares and the request schemas. So are the JSON Web Token service and the bcrypt hasher; hashing and comparison are function parameters of the identity use cases.
- `Url.vo.ts` is not part of this model. Every one of its methods delegates to the platform's URL parser, which is not visible.
- Creation and update timestamps (`createdAt`, `updatedAt`, `new Date()`) are dropped, because they come from the clock.
- `LikeCounter.calculateRestaurantScore`, `calculatePopularityPercentage` and the `toFixed` growth percentage of `getInsights` are left out, because they use the clock and floating point. `GetInsights` keeps the growth as a whole number.
- `GetDownloadStats` percentages and `PasswordValidationService.estimateCrackTime` are left out, because they are floating point.
- `PasswordValidationService.generateSecure` is left out, because it depends on randomness.
- `FileUrl.toAbsolute`, `FileUrl.getSizeFromUrl` and `Phone.toWhatsAppLink` are left out, because they depend on the environment and on URL encoding.
- Debug and display strings are left out, such as `toDebugString` and the exception messages' stack-trace and prototype plumbing. The exception classes become the one `Outcomes.Failure` datatype with the reason codes.
- The `RestaurantStatus`, `DownloadOrigin` and `OpinionType` label, icon and colour tables are left out, because no rule uses them. A download's origin and opinion are plain strings.
- Read-only single-query projections are left out because they carry no rule: GetRestaurant, GetUser, GetUserByEmail, GetClient, GetClientByEmail, the clients' GetClientFavorites, the by-owner and by-zone restaurant queries, the GetMenusBy*, GetDocumentsBy*, GetImagesBy* and GetUserPhotosBy* queries, GetActiveMenuByRestaurant, the like queries, CheckIsFavorite, GetApplicationsByOwner, GetAllZones, GetZonesByOwner, the administrator and owner lists, GetRestaurantStatus, GetClientSurveys, GetDownloadsByOwner, TrackDownload and UpdateDownload.
- Accounts.ViewOf: the user projection has no contract of its own. What it keeps is stated by the lemma that names its user type.
- LikeCounter.PopularityLabel: a plain lookup on the level, with no contract beyond its table, and so is LikeCounter.PopularityColor.
- The asynchronous `Promise.all` fan-outs of the statistics use cases are modelled as sequential reads. The race between two concurrent toggles and the check-then-act race between two application submissions are persistence-layer concerns and are not modelled.
- Repository queries whose order the database decides (`findAll`, `findByOwnerId`, `findByRestaurantId` and similar) are sequence parameters of the query use cases. The model does not fix their order.
- Repository deletes that report `false` after a successful lookup are not modelled. In a single-threaded store that branch cannot be reached.
- A find-one query over several matching rows (`findByEmail`, `findByName`) returns the lowest id. The database's choice is not visible.
- `findByEmail` matches the stored email exactly. Stored emails are lower-cased, but several use cases look up the raw email they are given, and the model keeps that behaviour.
- Favorites are a set of (client, restaurant) pairs with no favorite ids, because no rule depends on a favorite's id.
- All tables share one id counter, where the database would have one sequence per table. No rule compares ids across tables.
- Text.LowerChar lower-cases ASCII letters only. JavaScript's `toLowerCase` also folds other scripts, which the email rules never meet once validated.
- RegisterRestaurant's request fields kept "for when the application is approved" (phone, tags, address, facebook, instagram) are not modelled. The use case never reads them.
- Menus.UpdateMenu applies only the requested status. The links the request carries are ignored, as they are in the code.
- Accounts.Promote: for a user id that is not positive, the source rewrites the user's type before the role record's constructor refuses the id. The model reproduces this partial state but states only the success case and the early failures. Stored ids are always positive, so the case cannot arise from stored data.
- Statistics.CompletionRate: computed on exact rationals. The source divides, multiplies by 100 and rounds to cents with `Math.round` in IEEE doubles, so for some counts the last cent may differ. The stated bounds hold in both: 0 to 100, 0 with no completed survey, and 100 when every survey is complete.
- Strings are sequences of Unicode scalar values, so the lone surrogates a JavaScript string may hold are not modelled. Lengths are counted in UTF-16 code units through `Text.Utf16Length`.
- `Password.toJSON` and `Password.toString` are not modelled: they return a constant mask and carry no rule.
- The status and role predicates of the entities (`isPending`, `isAdmin` and the others) are exclusive by construction: each compares one datatype field with one constructor, so no separate lemma states it.
- Persistence.Store.DecrementLikesCount: the repository's implementation is not part of this model, only its signature (`IRestaurantRepository.ts:55`). The decrement is taken to stop at zero, as `Restaurant.decrementLikes` does (`Restaurant.entity.ts:70-74`).

## Findings

For each row, the as-written member models the code and exhibits the input, and the corrected member is proved to have the intended property. `FileUrlValue.MimeType` is the corrected lookup, and the as-written one is kept beside it for comparison. `Accounts.CreateUserUseCase`, `Accounts.CreateClientUseCase` and `Zones.CreateZoneUseCase` follow the code as written, and `Accounts.CreateUserChecked`, `Accounts.CreateClientChecked` and `Zones.CreateZoneChecked` are the corrected definitions.

| source | as written | input that shows it | evidently intended | confidence | as-written member | corrected member |
|---|---|---|---|---|---|---|
| src/core/application/use-cases/users/CreateUser.usecase.ts:70-88 | the user is saved first, and only then does `Client.create` check a CLIENT's phone | a CLIENT request with a new email, a valid name and password, and the phone "12345" | refuse the bad phone before anything is saved, as `ClientRegister` does. As written, the request fails with the phone error, but the user stays saved with no client record, and a retry meets DUPLICATE_EMAIL | not executed | Accounts.CreateUserBadPhoneLeavesOrphan | Accounts.CreateUserChecked, with Accounts.CreateUserCheckedAllOrNothing |
| src/core/domain/value-objects/FileUrl.vo.ts:85-120 | the extension is looked up as `mimeTypes[ext]` in a plain object literal, and the generic type is the fallback only when that lookup is falsy | the URL "files/menu.constructor", whose lower-cased extension is "constructor" | an extension missing from the table gives `application/octet-stream`. As written, the lookup returns the inherited `Object.prototype.constructor` function, not a MIME string | not executed | FileUrlValue.ConstructorExtensionLeaks, with FileUrlValue.ConstructorExtensionOccurs | FileUrlValue.MimeAgreesWithKind |
| src/core/application/use-cases/clients/CreateClient.usecase.ts:66-69 | the user is saved first, and only then does `Client.create` check the phone | a request with a new email, a valid name and password, and the phone "12345" | refuse the bad phone before anything is saved, as `ClientRegister` does. As written, the request fails with the phone error, but the user stays saved with no client record, and a retry meets DUPLICATE_EMAIL | not executed | Accounts.CreateClientBadPhoneLeavesOrphan | Accounts.CreateClientChecked, with Accounts.CreateClientCheckedAllOrNothing |
| src/core/application/use-cases/zones/CreateZone.usecase.ts:17-26 | the duplicate check looks up the name as requested, but `Zone.create` stores it trimmed | an existing zone "Centro" and a request for " Centro " | no two zones share a name. As written, the padded name is not found, and a second zone named "Centro" is stored | not executed | Zones.PaddedNameDuplicates | Zones.CreateZoneChecked, with Zones.CreateZoneCheckedKeepsNamesUnique |
