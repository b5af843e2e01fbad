# Admin console client core, modelled in Dafny

This project models the client-side core of a small product-administration console.

- **Stores.** Four in-memory stores:
  - the session (user, token, authenticated flag);
  - the product catalog;
  - the dashboard metrics, with a recent-activity log capped at ten entries;
  - the UI state and its notification list.

  Adding a product, and updating or deleting one that is found, records one activity in the metrics store.
- **API client.** It holds the session token and builds request headers. In a browser the local storage entry `"local-products"` is the catalog's source of truth: listing, reading, creating, updating, deleting and attaching a thumbnail work on that entry. Reading and updating ask the remote service only when the entry has no product with the id. Deleting always sends the remote request after the local removal, and returns the remote answer when it succeeds. Outside a browser, reads, updates, deletes and uploads go to the remote service.
- **Validation rules.** The forms' validation rules: login, register, product, change password, file upload and the bulk operations. There are also two helpers that turn a list of validation issues into a message or a map from field path to message.
- **Password meter.** The registration form's password-strength meter and its bar colours.

The stores and the API client are classes whose methods update their fields. Each method's `ensures` gives the complete new state, in terms of specification functions:

- `Lists.IndexOf`, `Lists.FindFirst` and `Lists.Without` model `findIndex`, `find` and `filter` by id;
- `Entities.Merge` models `{...p, ...patch}`;
- `Stores.PushActivity` models the capped log push.

Lemmas prove what those functions promise. The validation schemas are pure functions. Each returns the list of issues the schema reports, in the order it reports them. That order, and object refinements running even after a field has failed, follow zod 3. Each one's contract says exactly when that list is empty.

Module layout:

| file | module | models |
|---|---|---|
| `outcomes.dfy` | `Outcomes` | optional values and results |
| `lists.dfy` | `Lists` | `findIndex`, `find` and `filter` by id |
| `jstext.dfy` | `JsText` | the JavaScript string semantics used: UTF-16 `length`, `\s`, `trim`, the character classes, `String(n)` |
| `entities.dfy` | `Entities` | user, product, thumbnail, partial-product patch, file metadata |
| `stores.dfy` | `Stores` | `lib/store.ts` |
| `api.dfy` | `Api` | `lib/api.ts` |
| `validations.dfy` | `Validations` | `lib/validations.ts` |
| `register_form.dfy` | `RegisterForm` | `getPasswordStrength` and `getBarColor` |

Inputs the program takes from its environment are parameters of the model:

- `Date.now()` ids;
- ISO timestamps;
- the data URL a file reader produces (or its failure);
- each remote response;
- whether the code runs in a browser;
- the contents of device storage at start-up.

## Model

| member | source | states |
|---|---|---|
| Lists.IndexOf | lib/api.ts:189 | `findIndex` by id: -1 when no element has the id, otherwise the first index whose element has it |
| Lists.FindFirst | lib/store.ts:100 | `find` by id: present exactly when some element has the id, and then it is the element at the first such index |
| Lists.Without | lib/store.ts:112 | `filter` by id: keeps exactly the elements without the id, and only elements of the list |
| Lists.WithoutConcat | lib/store.ts:112 | filtering distributes over concatenation, so the kept elements stay in their order |
| Lists.WithoutAbsent | lib/store.ts:211-214 | removing an id that no element carries changes nothing: removal is safe after the entry is gone |
| Lists.WithoutIdempotent | lib/api.ts:207 | removing the same id twice is removing it once |
| Lists.WithoutCount | lib/store.ts:112 | the list shrinks by exactly the number of elements with the id, and keeps its length exactly when the id is absent |
| Lists.FindAppended | lib/api.ts:158 | after appending an element with a fresh id, `find` and `findIndex` for that id return it, at the end |
| Lists.WithoutAppendedFresh | lib/store.ts:205-213 | appending an element with a fresh id and then removing that id gives back the original list |
| JsText.JsLength | lib/validations.ts:4 | `length` counts UTF-16 code units: between the character count and twice it |
| JsText.BmpLength | lib/validations.ts:4 | a string of Basic Multilingual Plane characters has `length` equal to its character count |
| JsText.FirstLine | lib/validations.ts:27 | what `^(?=.*X)` can inspect: the longest prefix with no line terminator; a terminator follows it unless it is the whole string |
| JsText.LeadingSpaces | lib/validations.ts:62 | the length of the whitespace run at the start |
| JsText.TrailingSpaces | lib/validations.ts:62 | the length of the whitespace run at the end |
| JsText.Trim | lib/validations.ts:62 | `trim`: a contiguous slice that neither starts nor ends with whitespace, with everything cut off being whitespace |
| JsText.TrimUntouched | lib/validations.ts:62 | a string with no whitespace at either end is its own trim |
| JsText.DigitChar | lib/validations.ts:193 | the decimal digit character for a value below ten |
| JsText.DecimalString | lib/validations.ts:193 | `String(i)` for an array index: a string of digits whose decimal value is `i`, with no leading zero |
| Entities.Merge | lib/store.ts:98 | `{...p, ...patch}` (also lib/api.ts:192): each field present in the patch replaces the product's, each absent one is kept, and the empty patch changes nothing |
| Entities.MergeLaws | lib/store.ts:98 | merging the empty patch is the identity, and merging is idempotent |
| Stores.ActorName | lib/store.ts:93 | the actor is the signed-in user's name when non-empty, otherwise "Usuário"; it is never empty |
| Stores.PushActivity | lib/store.ts:185 | `[a, ...log.slice(0, 9)]`: the log has min(10, old+1) entries, the new one first, followed by a prefix of the old log |
| Stores.Reversed | lib/store.ts:178-187 | helper for stating `Stores.PushAllKeepsNewest`: the recordings in the opposite order, newest first, element by element |
| Stores.PushAllKeepsNewest | lib/store.ts:178-187 | after any run of pushes the log holds the most recent activities, newest first, cut to ten entries |
| Stores.AuthStore.constructor | lib/store.ts:70-72 | the session starts anonymous: no user, no token, not authenticated |
| Stores.AuthStore.SetAuth | lib/store.ts:73 | stores the user and the token and marks the session authenticated, keeping "authenticated exactly when a token is held" |
| Stores.AuthStore.ClearAuth | lib/store.ts:74 | clears user and token and marks the session anonymous, keeping the same invariant |
| Stores.MetricsStore.constructor | lib/store.ts:127-175 | the store starts with the given seed values |
| Stores.MetricsStore.SetMetrics | lib/store.ts:176 | each field present in the patch is overwritten and every other field is kept |
| Stores.MetricsStore.UpdateSalesData | lib/store.ts:177 | replaces the sales series and nothing else |
| Stores.MetricsStore.AddActivity | lib/store.ts:178-187 | the new activity, stamped with the given id and "agora", goes first, followed by at most nine older entries; the log never exceeds ten |
| Stores.MergeWhere | lib/store.ts:97-99 | the mapped catalog keeps its length and every product with another id; each product with the id becomes its merge with the patch |
| Stores.UpdateFindsMerged | lib/store.ts:96-108 | after a merge, a product with the id is found exactly when one was there before and the patch keeps the id; the one found is the first former match, merged |
| Stores.FirstIndexMergeAgrees | lib/api.ts:186-196 | when ids are unique, the local adapter's first-index update agrees with the store's merge-by-id of the same patch plus `updatedAt` |
| Stores.DeleteAbsentIsNoOp | lib/store.ts:109-121 | deleting an id that is not in the catalog leaves the catalog unchanged |
| Stores.ProductStore.constructor | lib/store.ts:83-86 | empty catalog, no current product, not loading, no error |
| Stores.ProductStore.Logged | lib/store.ts:90-94 | the activity record for a mutation: its kind, the product's title, the given id, "agora", and the actor name (the user's name when non-empty, never empty) |
| Stores.ProductStore.SetProducts | lib/store.ts:87 | stores the list verbatim and clears the error; the activity log is outside its frame |
| Stores.ProductStore.AddProduct | lib/store.ts:88-95 | appends the product and pushes one "create" activity with its title and the actor name |
| Stores.ProductStore.UpdateProduct | lib/store.ts:96-108 | merges the patch into every product with the id; an "update" activity with the post-merge title is pushed exactly when a product with the id exists after the merge, otherwise the log is unchanged |
| Stores.ProductStore.DeleteProduct | lib/store.ts:109-121 | removes every product with the id; a "delete" activity with the pre-removal title is pushed exactly when the id was present, otherwise the log is unchanged |
| Stores.ProductStore.SetCurrentProduct | lib/store.ts:122 | sets the current product and nothing else |
| Stores.ProductStore.SetLoading | lib/store.ts:123 | sets the loading flag and nothing else |
| Stores.ProductStore.SetError | lib/store.ts:124 | sets the error and nothing else |
| Stores.UIStore.constructor | lib/store.ts:193-195 | sidebar closed, theme "system", no notifications |
| Stores.UIStore.SetSidebarOpen | lib/store.ts:196 | sets the sidebar flag and nothing else |
| Stores.UIStore.SetTheme | lib/store.ts:197 | sets the theme and nothing else |
| Stores.UIStore.AddNotification | lib/store.ts:198-206 | appends one notification with the given id and time at the end |
| Stores.UIStore.RemoveNotification | lib/store.ts:211-214 | removes every notification with the id and keeps the others in order |
| Stores.UIStore.ClearNotifications | lib/store.ts:215 | empties the list |
| Stores.LampScenario | lib/store.ts:88-121 | a signed-in user who creates, updates and deletes one product leaves an empty catalog and three activities for it, delete, update and create, newest first, all with the user's actor name (the name when non-empty, otherwise "Usuário") |
| Api.ErrorMessage | lib/api.ts:121 | the error body's message when non-empty, otherwise "API Error"; never empty |
| Api.Outcome | lib/api.ts:119-124 | a request resolves exactly when the response is OK, and with its body; otherwise it rejects with the error message or the transport failure |
| Api.Authorize | lib/api.ts:110-112 | an Authorization header "Bearer <token>" is added exactly when the token is non-empty; all other headers are kept, and none is added |
| Api.LocalThumbnail | lib/api.ts:229-240 | the local thumbnail record: the data URL, the file's size, name and type, owner "local-user", module "local", key "local-" plus the clock reading, and the given stamps |
| Api.ApiClient.constructor | lib/api.ts:82-87 | the base URL is fixed, and the saved token is picked up only in a browser |
| Api.ApiClient.Stored | lib/api.ts:157 | the catalog a read of `"local-products"` yields: the stored list, or the empty list when there is no entry |
| Api.ApiClient.Outgoing | lib/api.ts:103-112 | the request goes to base URL + endpoint, with a JSON content type, and carries a bearer header exactly when a non-empty token is set |
| Api.ApiClient.SetToken | lib/api.ts:89-94 | sets the token, and in a browser saves it to storage |
| Api.ApiClient.ClearToken | lib/api.ts:96-101 | clears the token, and in a browser removes it from storage |
| Api.ApiClient.Request | lib/api.ts:103-125 | sends the request built by `Outgoing` and resolves or rejects as `Outcome` says |
| Api.ApiClient.GetProducts | lib/api.ts:147-153 | the stored catalog in a browser when the entry exists; otherwise the empty list |
| Api.ApiClient.GetProduct | lib/api.ts:155-165 | a locally stored product with the id is returned without any remote request; only when there is none is the remote service asked |
| Api.ApiClient.CreateProduct | lib/api.ts:167-184 | the new record takes the draft's fields plus the given id and timestamps, owner "local-user" and an empty `idThumbnail`; in a browser it is appended to the stored catalog |
| Api.ApiClient.UpdateProduct | lib/api.ts:186-202 | with a stored match, only the first matching index changes, to the merge with `updatedAt` set to now, and that record is returned; otherwise the storage is unchanged and the remote PUT decides |
| Api.ApiClient.DeleteProduct | lib/api.ts:204-218 | in a browser the stored catalog becomes the catalog without the id; the call always resolves, with the local acknowledgement when the remote request fails |
| Api.ApiClient.UpdateProductThumbnail | lib/api.ts:220-274 | in a browser, a stored product with the id gets a thumbnail holding the file's size, name and type, and the local acknowledgement is returned. An unknown id or a failed read rejects and leaves storage unchanged. Outside a browser the remote PATCH decides |
| Api.CreateThenGet | lib/api.ts:155-184 | a product created with a fresh id is what reading that id back returns, from local storage and with no remote request |
| Validations.CharsLength | lib/validations.ts:19 | a string drawn from a character class inside the Basic Multilingual Plane has `length` equal to its character count |
| Validations.EmailIssues | lib/validations.ts:4 | the e-mail is accepted exactly when it is non-empty, in e-mail format and at most 255 code units; every issue is at path `email` |
| Validations.NameIssues | lib/validations.ts:14-19 | the name is accepted exactly when it has 2 to 100 characters, each a letter a-z, A-Z, U+00C0 to U+00FF or whitespace |
| Validations.CountryIssues | lib/validations.ts:32-36 | the country is accepted exactly when it is two or three upper-case ASCII letters |
| Validations.DddIssues | lib/validations.ts:37-42 | the DDD is accepted exactly when it is two or three digits |
| Validations.NumberIssues | lib/validations.ts:43-48 | the phone number is accepted exactly when it is eight or nine digits |
| Validations.PhoneIssues | lib/validations.ts:31-49 | the phone is accepted exactly when all three of its parts are; every issue sits under `phone` |
| Validations.LoginPasswordIssues | lib/validations.ts:5-9 | the login password is accepted exactly when its length is 6 to 100 |
| Validations.LoginIssues | lib/validations.ts:3-10 | the login form is accepted exactly when both the e-mail and the password are |
| Validations.ValidateEmail | lib/validations.ts:172-174 | true exactly when the login e-mail rule accepts the string |
| Validations.ValidatePassword | lib/validations.ts:176-178 | true exactly when the length is 6 to 100 |
| Validations.StrongPattern | lib/validations.ts:27 | a password the lookahead accepts has a lower-case letter, an upper-case letter and a digit; for a password without line terminators the converse holds |
| Validations.RegisterPasswordIssues | lib/validations.ts:21-29 | the register password is accepted exactly when its length is 6 to 100 and its first line has a lower-case letter, an upper-case letter and a digit |
| Validations.RegisterIssues | lib/validations.ts:12-54 | the register form is accepted exactly when every field rule holds and the confirmation equals the password; the `verifyPassword` mismatch issue is reported exactly when they differ |
| Validations.FieldIssuesNotMismatch | lib/validations.ts:14-49 | no field-level check reports the mismatch issue |
| Validations.ValidatePhone | lib/validations.ts:180-182 | `validatePhone` as written: `registerSchema.shape` is undefined on the refined schema, so every call throws a TypeError before any check runs |
| Validations.ValidatePhoneIntended | lib/validations.ts:31-49 | what `validatePhone` evidently means: true exactly when the country, DDD and number rules all hold |
| Validations.ValidatePhoneThrowsOnValidPhone | lib/validations.ts:180-182 | a phone the intended rule accepts (e.g. "BR", "11", "999999999") still makes the call as written throw |
| Validations.ProductIssues | lib/validations.ts:56-68 | no issue exactly when the title as typed has 3 to 100 code units and the description 10 to 1000; every issue is at `title` or `description` |
| Validations.ParseProduct | lib/validations.ts:56-71 | parsing succeeds exactly when the untrimmed title has 3 to 100 code units and the untrimmed description 10 to 1000; the result holds the trimmed texts and a status that defaults to true; otherwise the issues are listed |
| Validations.TrimAfterLengthCheck | lib/validations.ts:57-62 | because trimming follows the length checks, a title of two spaces and one letter is accepted and stored as one character |
| Validations.ChangePasswordIssues | lib/validations.ts:107-128 | accepted exactly when the current password is given, the new one passes the strength rule, the confirmation equals it and it differs from the current one; each refinement's issue appears exactly when its condition fails |
| Validations.FileUploadIssues | lib/validations.ts:136-144 | a file is accepted exactly when it is at most 10 MiB and its type is JPEG, PNG, GIF or WebP |
| Validations.ItemIssues | lib/validations.ts:148 | no element issue exactly when every id is a UUID; each issue says "ID inválido" |
| Validations.IdsIssues | lib/validations.ts:147-150 | the id list is accepted exactly when it has 1 to 50 entries, each a UUID |
| Validations.BulkDeleteIssues | lib/validations.ts:146-151 | accepted exactly when there are 1 to 50 ids, each a UUID |
| Validations.BulkUpdateStatusIssues | lib/validations.ts:153-159 | accepted exactly when there are 1 to 50 ids, each a UUID |
| Validations.FirstErrorMessage | lib/validations.ts:184-187 | the first issue's message when it is non-empty, otherwise "Dados inválidos"; never empty |
| Validations.JoinPathAppend | lib/validations.ts:193 | `join(".")` works left to right: appending a step to a non-empty path appends a dot and that step's text |
| Validations.Formatted | lib/validations.ts:189-198 | writing each issue's message under its joined path in order gives a map whose keys are exactly the issues' joined paths |
| Validations.FormattedLastWins | lib/validations.ts:192-195 | for each path, the message kept is that of the last issue with that path |
| Validations.FormatValidationErrors | lib/validations.ts:189-198 | the loop builds the map of `Formatted`: keys are exactly the issues' joined paths, each holding the last message written under it |
| RegisterForm.Criteria | components/auth/register-form.tsx:128-138 | the four criteria, in the order they are checked |
| RegisterForm.Unfold4 | components/auth/register-form.tsx:125-140 | over four criteria, the score is the sum of their points and the feedback is the concatenation of their hints |
| RegisterForm.ScorePlusHints | components/auth/register-form.tsx:128-139 | every criterion either adds a point or adds a hint, so score plus hints equals the number of criteria |
| RegisterForm.HintShownIff | components/auth/register-form.tsx:128-138 | with distinct hints, a hint is in the feedback exactly when its criterion fails |
| RegisterForm.NotInMissing | components/auth/register-form.tsx:128-138 | a hint that belongs to no criterion never appears |
| RegisterForm.HintsDistinct | components/auth/register-form.tsx:129-138 | the four hint texts are pairwise different |
| RegisterForm.GetPasswordStrength | components/auth/register-form.tsx:122-141 | the empty password scores 0 with no feedback. Otherwise the score counts the criteria met, the feedback lists the other criteria's hints in order, and score plus feedback length is 4 |
| JsText.FirstLineClasses | lib/validations.ts:27 | a letter or digit in the first line is one in the whole string |
| RegisterForm.AcceptedPasswordIsStrong | components/auth/register-form.tsx:122-141 | a password the register schema accepts meets all four criteria: full score, no feedback |
| RegisterForm.BarColor | components/auth/register-form.tsx:19-24 | `getBarColor`: gray exactly when the score is below the level; otherwise green at score 4, yellow at 3 and above, red below |
| RegisterForm.BarsShowScore | components/auth/register-form.tsx:18-29 | bar `i` is lit exactly when `i` < score, and all lit bars share one colour: green at 4, yellow at 3, red below; unlit bars are gray |

## Left out

- `fetch`, JSON parsing and any network behaviour. Each remote answer is a `Response` parameter, and the model records each request's verb, URL and headers but not its body.
- `login`, `register` and `refreshSession` (lib/api.ts:127-145): each is one call of `request` with a fixed endpoint, so they are covered by `Api.ApiClient.Request`.
- A corrupt `"local-products"` entry: the source's `JSON.parse` throws there. The model stores the parsed catalog, so a corrupt entry cannot be represented.
- The asynchronous file reader (lib/api.ts:222-248): the data URL it produces, or its failure, is the `reading` parameter.
- The 5000 ms notification expiry (lib/store.ts:207-209): that is timer behaviour. `Lists.WithoutAbsent` shows the delayed removal is harmless once the entry is gone.
- The `persist` middleware and `partialize` (lib/store.ts:76-79, 217-220): serialisation to storage is not modelled.
- The seeded metric values (lib/store.ts:128-175): `Stores.MetricsStore.constructor` takes the seeds as parameters.
- `console.log` calls: these are output only.
- `updateProfileSchema` and `searchSchema` (lib/validations.ts:73-105, 130-134): no core operation uses them.
- The e-mail format and UUID checks: zod internals, passed in as predicates `isEmail` and `isUuid`.
- Api.ApiClient.CreateProduct, Api.ApiClient.UpdateProduct, Api.ApiClient.DeleteProduct, Api.ApiClient.UpdateProductThumbnail: storage access that throws is not modelled. `localStorage.getItem`/`setItem` can throw when storage is disabled or its quota is exceeded. The first three then reject. In `updateProductThumbnail` the throw happens inside the reader's `onload` handler (lib/api.ts:241), so the returned promise never settles. The model's local branches always complete. In addition, `Api.ApiClient.UpdateProductThumbnail`'s `old(Stored())` stands for the catalog as the source re-reads it when the reader completes (lib/api.ts:225), not at the time of the call.
- Validations.FileUploadIssues: a value that is not a `File` (zod's `instanceof` check) cannot be represented. The model's file is always file metadata.
- Numbers are unbounded integers. Sizes, scores and metrics never come near JavaScript's safe-integer range in these operations.
- Entities.Merge: a patch field explicitly set to `undefined` is treated as absent. JavaScript's spread would copy the `undefined`.
- Stores.MetricsStore.SetMetrics: the same holds for `{...state, ...metrics}` (lib/store.ts:176). A metrics field explicitly set to `undefined` is treated as absent, where the spread would overwrite the field with `undefined`.
- Validations.FormatValidationErrors: writing the key `__proto__` into a plain object is treated like any other key.
- The `typeof window` test is the `browser` field of the client. Device storage is the `storedToken` and `localProducts` fields.

Behaviour of the code worth noting:

- `updateProductThumbnail` itself performs no size or MIME check. The upload schema (`Validations.FileUploadIssues`) states the rule, but nothing calls that schema. The product form (components/products/product-form.tsx:59-75, not part of this model) repeats the two tests inline before uploading.
- A bearer header is sent only for a non-empty token. An empty string is falsy in the source's `if (this.token)`.
- The store's update activity depends on whether a product with the id exists after the merge. A patch that changes the id therefore records no activity.
- The not-found rejection of a local thumbnail upload carries the message exactly as the source spells it, "Produto nÃ£o encontrado".
- `getProducts` has no fallback for a corrupt storage entry; see above.

## Findings

| source | as written | input that shows it | evidently intended | confidence | as-written member | corrected member |
|---|---|---|---|---|---|---|
| lib/validations.ts:181 | `registerSchema.shape.phone.safeParse(phone)`. In zod 3, `.refine` (lib/validations.ts:51-54) returns an effects schema with no `shape`, so the property read throws a TypeError on every call | `Phone("BR", "11", "999999999")`: valid under the phone rule, yet the call throws | check the phone object on its own, for example via the refined schema's inner object schema, returning whether it is valid | high, not executed | Validations.ValidatePhone, Validations.ValidatePhoneThrowsOnValidPhone | Validations.ValidatePhoneIntended |
