# tinylink, modelled in Dafny

tinylink is a small URL shortener. A user types a long URL into a dialog on
the home page. The page checks it and POSTs it to `/api/links`. The handler
derives a five-character slug from a random UUID and writes a row
`(slug, original_url, shorten_url)` into the `urls` table. The dashboard
table lists the rows, and a delete can be confirmed in a dialog.

This project models the four pieces of logic in that flow:

- `url.dfy` (module `Url`, from `lib/url.ts`): the slug is the UUID with
  every `-` removed, cut to five characters. `isValidUrl` is a total wrapper
  around the URL parser. The UUID is a parameter.
- `links_route.dfy` (module `LinksRoute`, from `app/api/links/route.ts`):
  the `BASE_URL` fallback, the short link `BASE_URL + "/" + slug`, and the
  POST and GET handlers. Class `Links` holds the `urls` table as a
  `seq<Row>`. The SQL INSERT and SELECT are methods that may fail
  nondeterministically.
- `home_page.dfy` (module `HomePage`, from `app/page.tsx`): `trim`,
  `validateUrl`, and the three checks of `handleAddURL` in their order. Class
  `Home` holds the component's `open`, `formState` and `tableKey` cells.
- `link_table.dfy` (module `LinkTable`, from `app/components/table.tsx`):
  the five-field `TableState`. Each `setState(prev => ...)` updater is a
  function. Class `TableComponent` holds the state cell, and its handlers
  apply the updaters in the component's order.
- `number_text.dfy` (module `NumberText`): decimal printing of an HTTP
  status inside a template literal.
- `url_parser.dfy` (module `UrlParser`): the abstract parser. `new URL(s)`
  either throws or returns a record with a `protocol`. The parser is the
  WHATWG URL Standard's basic URL parser (section 4.4, "URL parsing"). Every
  operation that parses takes it as a parameter of type
  `string -> ParseResult`.
- `end_to_end.dfy` (module `EndToEnd`): how the form and the POST handler
  behave together on the form's own example input `example.com`.
- `wrappers.dfy` (module `Wrappers`): `Option`, for JavaScript's `null` and
  `undefined`.

Behaviours of the code that the model keeps as they are:

- An invalid URL is answered with the JSON body
  `{error: "Invalid URL.", status: 400}` sent with HTTP status 200. The 400
  is only a field of the body. `LinksRoute.HttpStatus` states this.
- The server accepts any URL the parser accepts, whatever its scheme. Only
  the client's `validateUrl` demands `http:` or `https:`.
- The 2048-character limit exists only in the form. The POST handler does
  not check length.
- The slug is derived from whatever UUID string it is given, and no store is
  consulted. `Url.SlugsCanCollide` exhibits two distinct UUIDs with the same
  slug.
- The form validates `https://` + the input when the input does not start
  with `http`, but it sends the unprefixed input. The server then validates
  that unprefixed string. For `example.com`, with a parser that behaves on
  `example.com` and `https://example.com` as the URL Standard says,
  `EndToEnd.SchemelessInputRefusedSilently` proves that the form's checks
  pass, that the server's check fails, and that the refusal carries an ok
  HTTP status. `EndToEnd.ExampleSubmission` runs the whole trace on a fresh
  `Home` and an empty `Links`. The form sends `example.com` unchanged. The
  server answers `Rejected` and the table stays empty. `HomePage.ReplyOf`
  turns the ok status into a success reply, so the dialog closes and
  `tableKey` becomes 1, as after a real addition.

## Model

| member | source | states |
|---|---|---|
| `Url.IsValidUrl` | lib/url.ts:3-10 | total: true exactly when the parser returns (any protocol), false exactly when it throws |
| `Url.RemoveHyphens` | lib/url.ts:13 | the result has no `-`; every other character keeps its multiplicity; no character is invented; a hyphen-free string is unchanged |
| `Url.RemoveHyphensAppend` | lib/url.ts:13 | removing hyphens distributes over concatenation |
| `Url.GenerateUniqueSlug` | lib/url.ts:12-15 | the slug is a prefix of the hyphen-free UUID, of length min(5, its length); it has no `-`; each of its characters occurs in the UUID |
| `Url.LowerHexSlug` | lib/url.ts:13-14 | a UUID of lowercase hex digits and hyphens gives a slug of lowercase hex digits |
| `Url.SlugOfCanonicalUuid` | lib/url.ts:13-14 | for a canonical 8-4-4-4-12 UUID the slug is exactly its first five characters, five lowercase hex digits |
| `Url.SlugsCanCollide` | lib/url.ts:12-15 | two distinct canonical UUIDs give the same slug, so generated slugs are not guaranteed to differ |
| `LinksRoute.BaseUrl` | app/api/links/route.ts:5 | a set, non-empty environment value is used as is; an unset or empty one falls back to `http://localhost:3000`; the base is never empty |
| `LinksRoute.ShortUrl` | app/api/links/route.ts:16 | the short link is the base, then `/`, then the slug, with the matching length |
| `LinksRoute.SlugOfShortUrl` | app/api/links/route.ts:16-22 | not code of the source: an inverse, written for this model, of the short-link composition at lines 16 and 22, defined exactly on strings of the form base + `/` + rest, and composing its result gives the input back |
| `LinksRoute.ShortUrlRoundTrip` | app/api/links/route.ts:16 | the slug can be read back from the short link built from it |
| `LinksRoute.ShortUrlInjective` | app/api/links/route.ts:16 | under one base, two short links are equal if and only if their slugs are |
| `LinksRoute.HttpStatus` | app/api/links/route.ts:11-30 | the success and the invalid-URL bodies go out with an ok status; only the caught-exception body goes out with 500 |
| `LinksRoute.Links.Insert` | app/api/links/route.ts:35 | the INSERT either appends exactly the given row or fails and leaves the table unchanged |
| `LinksRoute.Links.SelectAll` | app/api/links/route.ts:44 | `SELECT *`, when it succeeds, yields every row of the table exactly as often as it is stored, in any order (the query has no `ORDER BY`) |
| `LinksRoute.Links.SaveUrl` | app/api/links/route.ts:33-39 | an insert failure is swallowed: the table has gained exactly the row `(slug, url, shorten_url)` or is unchanged |
| `LinksRoute.Links.Post` | app/api/links/route.ts:7-31 | an unreadable body gives `Internal server error` with no insert. An invalid url gives `{error: "Invalid URL.", status: 400}` with no insert. Otherwise the reply carries the UUID's slug, the submitted url unchanged, `BASE_URL/slug` (equal to the row's `shorten_url`), the date and `data` undefined, and the table gained exactly that row or is unchanged |
| `LinksRoute.Links.Get` | app/api/links/route.ts:42-52 | lists every row of the table with its multiplicity, in no promised order, or answers `Internal Server Error`; the table is not changed |
| `HomePage.LeadingSpace` | app/page.tsx:48 | counts the leading white space: all of it is white space and the next character is not |
| `HomePage.ContentEnd` | app/page.tsx:48 | the length without trailing white space: everything after it is white space and the character before it is not |
| `HomePage.Trim` | app/page.tsx:48 | the trimmed input is a contiguous piece of the input with only white space cut off on both sides; it is empty exactly when the input is all white space, and otherwise neither starts nor ends with white space |
| `HomePage.TrimIdempotent` | app/page.tsx:48 | trimming twice is trimming once |
| `HomePage.FieldValue` | app/page.tsx:48 | a missing form field reads as the empty string, a present one is trimmed |
| `HomePage.Utf16Length` | app/page.tsx:68 | JavaScript `.length`: between the number of code points and twice it, equal to it when no code point is above U+FFFF |
| `HomePage.ValidationCandidate` | app/page.tsx:35 | the parsed string always starts with `http`; it is the input itself exactly when the input starts with `http`, and `https://` + input otherwise |
| `HomePage.ValidateUrl` | app/page.tsx:33-40 | accepts exactly when the candidate parses with protocol `http:` or `https:`; a throwing parse rejects |
| `HomePage.FirstInputError` | app/page.tsx:52-74 | the checks run in order: `URL is required` exactly for the empty input, the invalid-URL message exactly for a non-empty invalid one, the too-long message exactly for a valid one over 2048 code units; no error exactly when all three pass |
| `HomePage.EmptyInputIgnoresParser` | app/page.tsx:52-58 | the empty input is refused before the parser is consulted: the result is the same for every parser |
| `HomePage.ValidityBeforeLength` | app/page.tsx:60-74 | an input that is both invalid and too long reports only the validity failure |
| `HomePage.LengthBoundary` | app/page.tsx:68 | 2048 code units pass, 2049 or more are refused |
| `HomePage.FailureMessage` | app/page.tsx:85-100 | a non-ok reply shows the body's non-empty `message`, else `Failed to add URL (<status>)`; a thrown `Error` shows its message, any other thrown value `An unexpected error occurred` |
| `HomePage.ReplyOf` | app/page.tsx:85-90 | the reply is a success exactly when the status is in 200-299 (`response.ok`); otherwise it is the non-ok reply with that status and the body's message |
| `HomePage.Home.constructor` | app/page.tsx:26-31 | the dialog starts closed, the form idle, `tableKey` 0 |
| `HomePage.Home.HandleAddUrl` | app/page.tsx:42-111 | a failing check sends nothing and leaves `{isSubmitting: false, error: <first failure>}` with `open` and `tableKey` unchanged. Otherwise the trimmed input itself is sent. Success closes the dialog, resets the form and raises `tableKey` by exactly 1; failure stores the message and changes nothing else |
| `HomePage.Home.HandleOpenChange` | app/page.tsx:113-118 | `open` takes the new value; closing resets the form state, opening leaves it; `tableKey` unchanged |
| `NumberText.DecimalString` | app/page.tsx:87 | a status prints as a non-empty string of decimal digits without a leading zero |
| `NumberText.DecimalRoundTrip` | app/page.tsx:87 | the printed digits denote the status printed |
| `LinkTable.WithoutSlug` | app/components/table.tsx:98 | no kept row has the slug; every other row is kept exactly as often as it occurred; the result is a subsequence of the input (original relative order) |
| `LinkTable.WithoutSlugUnchanged` | app/components/table.tsx:98 | filtering out a slug no row has changes nothing |
| `LinkTable.WithoutSlugIdempotent` | app/components/table.tsx:98 | filtering the same slug twice is filtering once |
| `LinkTable.FetchStarted` | app/components/table.tsx:45 | loading on, error cleared; data, deletingSlug and selectedForDelete unchanged |
| `LinkTable.FetchSucceeded` | app/components/table.tsx:57 | data replaced by the fetched list, loading off; the other fields unchanged |
| `LinkTable.FetchFailed` | app/components/table.tsx:59-65 | loading off, error set to the message; data and the delete fields unchanged |
| `LinkTable.FetchFailureMessage` | app/components/table.tsx:52-60 | `Failed to fetch links (<status>)` for a non-ok reply, the thrown `Error`'s message, or `Failed to load URLs` |
| `LinkTable.FetchEndsLoading` | app/components/table.tsx:44-67 | start followed by either outcome leaves loading off; success leaves no error, failure keeps the old data |
| `LinkTable.DeleteSelected` | app/components/table.tsx:78-80 | only selectedForDelete changes, to the slug |
| `LinkTable.DeleteStarted` | app/components/table.tsx:84 | only deletingSlug changes, to the slug |
| `LinkTable.DeleteSucceeded` | app/components/table.tsx:96-101 | no row has the slug, the other rows are kept with their multiplicity and order, both delete fields null, loading and error unchanged |
| `LinkTable.DeleteFailed` | app/components/table.tsx:108-112 | both delete fields null; data, loading and error unchanged |
| `LinkTable.DeleteCancelled` | app/components/table.tsx:120-122 | only selectedForDelete changes, to null |
| `LinkTable.DialogOpen` | app/components/table.tsx:243 | the confirmation dialog is open exactly when selectedForDelete is non-null |
| `LinkTable.ConfirmTarget` | app/components/table.tsx:265-270 | the Delete button calls the confirm handler exactly when no delete is in flight and the selection is non-null and non-empty, and then with the selection |
| `LinkTable.ClickThenConfirmTargetsSlug` | app/components/table.tsx:78-80 | after clicking a row's delete button (no delete in flight, non-empty slug) the dialog is open and confirming targets that slug |
| `LinkTable.DeleteEndsClosed` | app/components/table.tsx:96-122 | cancelling, and a delete that ends either way, close the dialog; a finished delete leaves no slug in flight |
| `LinkTable.TableComponent.constructor` | app/components/table.tsx:35-41 | the table mounts with no data, loading, no error, nothing being deleted or selected |
| `LinkTable.TableComponent.FetchData` | app/components/table.tsx:44-68 | on success data is the fetched list, loading off and error null; on failure loading off and error the message, data kept; the delete fields never change |
| `LinkTable.TableComponent.HandleDeleteClick` | app/components/table.tsx:78-80 | the new state is the old one with selectedForDelete set to the slug |
| `LinkTable.TableComponent.HandleConfirmDelete` | app/components/table.tsx:82-118 | while the request is in flight deletingSlug is the slug. On success the slug's rows are filtered out, on failure data is kept. Either way both delete fields end up null and everything else is unchanged |
| `LinkTable.TableComponent.HandleCancelDelete` | app/components/table.tsx:120-122 | the new state is the old one with selectedForDelete null |
| `LinkTable.TableComponent.HandleDialogOpenChange` | app/components/table.tsx:244-248 | closing the dialog cancels the selection; opening it changes nothing |
| `LinkTable.TableComponent.ClickConfirm` | app/components/table.tsx:265-271 | a click that the button's guard blocks changes nothing; otherwise the state is the result of confirming the selected slug |
| `EndToEnd.SchemelessInputRefusedSilently` | app/api/links/route.ts:11-12 | take a parser that rejects `example.com` and accepts `https://example.com`. The form's checks pass on `example.com`, the server's check refuses it, and the refusal goes out with an ok HTTP status |
| `EndToEnd.ExampleSubmission` | app/page.tsx:60-95 | with such a parser, submitting `example.com` sends it unchanged, the server answers `Invalid URL.` and inserts nothing, and the form, reading an ok status as success, closes the dialog and raises `tableKey` to 1 |

## Left out

- `new URL(...)`, the URL parser, is a parameter. Its behaviour is not specified here.
- `crypto.randomUUID()` is a parameter `uuid`. So is `new Date().toDateString()` (`today`). So is `process.env.NEXT_PUBLIC_BASE_URL` (`env`).
- The SQL engine is foreign. The INSERT and SELECT are nondeterministic choices between success and failure. A successful SELECT hands back the rows in an order of its own choosing, since `SELECT * FROM urls` has no `ORDER BY`.
- The columns the database fills in (`id`, `track`, `created_at`) are not part of `Row`. The dashboard's `LinkRecord` has them as plain fields.
- `console.error` logging in `saveUrl` is left out.
- `LinksRoute.Links.Post`: the request body is either unreadable or carries a string `url`. A `url` that is missing or not a string is not modelled. JavaScript would stringify it, for instance to `"undefined"`, before parsing.
- `app/api/links/[code]/route.ts` (GET and DELETE by slug) and `app/code/[code]/page.tsx` are not part of this model. They are called by the core but are not core code. The dashboard sees the DELETE only through whether its reply was ok.
- `app/dashboard/page.tsx` is layout only.
- Rendering (JSX, skeleton rows, CSS, dialog markup), `toast` notifications and `formatDate` are left out. So are `form.reset()` and `handleSelectURL`'s navigation through `window.location.href`.
- `handleRetry` and the mount effect only call `fetchData`, which is `TableComponent.FetchData`.
- React's scheduling of state updates and the interleaving of concurrent handlers are left out. Each handler runs as one sequential trace, and every network reply is a parameter.
- `HomePage.Trim`: cuts code points, while JavaScript cuts UTF-16 code units. Every white-space character JavaScript trims lies in the Basic Multilingual Plane, so the two agree.
- `Url.GenerateUniqueSlug`: `slice(0, 5)` counts UTF-16 code units. The model counts code points. The two differ only for characters above U+FFFF, which no UUID contains.
- The input element's `maxLength={2048}` and `disabled` attributes are browser behaviour. Only the handler's own length check is modelled.
