# Natours request logic in Dafny

Natours is a tour-booking REST API and server-rendered website built on
Express and Mongoose. This project models the three parts of it that hold
request-independent logic, and proves what they promise:

- **The query translator** (`APIFeatures`, utils/apiFeatures.js). It turns
  the parsed query string of a list request into calls on a database
  query, in four stages:
  - `filter`: drops the reserved keys `page`, `sort`, `limit` and `fields`,
    and puts `$` in front of every whole word `gte`, `gt`, `lte` or `lt`;
  - `sort`: sorts by the comma list, or by `-createdAt`;
  - `limitFields`: projects the comma list, or `-__v`;
  - `paginate`: skip `(page - 1) * limit`, with defaults 1 and 100.

  The database query is a recorder class, `Query`, whose `ops` field lists
  the calls made on it. `APIFeatures` is a class whose methods reassign its
  `query` field and return the instance itself, as in the source.
- **The global error handler** (controllers/errorController.js). It fills
  in a default status code and status. In production it reclassifies
  database and login-token errors as operational errors. It then answers
  with JSON for `/api` URLs and with the rendered error page otherwise, and
  hides non-operational errors in production. `ErrorController.Respond` is
  the decision table as a function. `GlobalErrorHandler` is the handler
  itself: it writes the defaults into the error object and runs the
  classifiers one after another over a copy.
- **Review id defaulting** (`setTourUserIds`, controllers/reviewController.js).
  It takes a review's tour from the route and its author from the signed-in
  user when the body does not give them, then calls `next` once.

Modules:
- `JsText` (js_text.dfy) holds the JavaScript string and number behaviour
  that the others rely on: `split`/`join`, the `\w` class, and `s * 1`.
- `OperatorRewrite` (operator_rewrite.dfy) holds the `$` rewrite.
- `ApiFeatures` (api_features.dfy) holds the query translator.
- `ErrorController` (error_controller.dfy) holds the error handler.
- `ReviewController` (review_controller.dfy) holds the review middleware.

The source runs the operator rewrite as a regular expression over the JSON
text of the filter. The model states it three ways and proves them
related:
- `ScanReplace` is the regular-expression scan, one character at a time.
- `Wordwise` is its meaning: cut the text into maximal words and prefix the
  operator words.
- `StripSigils` is its inverse.

Because the rewrite can be undone, two keys never rewrite to the same key.
So no entry is lost when the JSON text is read back into an object, and a
reserved key can never reappear in the filter.

## Model

| member | source | states |
|---|---|---|
| JsText.Split | utils/apiFeatures.js:22 | `split(',')` yields at least one piece and no piece contains the separator |
| JsText.JoinSplit | utils/apiFeatures.js:22 | splitting at a character and joining with a separator replaces each occurrence of the character by the separator and keeps everything else in order |
| JsText.SplitJoinRoundTrip | utils/apiFeatures.js:22 | the split pieces joined back with the same character give the original text: nothing is lost or reordered |
| JsText.JoinKeepsEach | controllers/errorController.js:18-19 | each piece occurs in the joined text |
| JsText.ToNumber | utils/apiFeatures.js:43-44 | `s * 1` of the empty string is 0; a value reads as a number only when it is a numeral (an optional sign, then decimal digits), and it is negative only with a leading `-` |
| JsText.ToNumberDecimal | utils/apiFeatures.js:43-44 | `s * 1` of the decimal numeral of an integer is that integer; in JavaScript this holds for \|n\| <= 2^53, while the model's numbers are exact integers of any size |
| OperatorRewrite.MatchLengthIsWholeWord | utils/apiFeatures.js:14 | an alternative among `gte`, `gt`, `lte`, `lt` followed by a word boundary matches at a word start exactly when the whole first word is one of them, and then matches all of it |
| OperatorRewrite.ScanIsWordwise | utils/apiFeatures.js:14 | the global regular-expression replacement equals the word-level rewrite: exactly the whole words `gte`, `gt`, `lte`, `lt` get a `$` |
| OperatorRewrite.StripWordwise | utils/apiFeatures.js:14 | taking the inserted `$` signs out again gives back the original text |
| OperatorRewrite.Rewrite | utils/apiFeatures.js:13-14 | the rewrite of one key or string equals the word-level rewrite and has an inverse |
| OperatorRewrite.RewriteWord | utils/apiFeatures.js:14 | a single word becomes `$` + word when it is an operator (a value that is exactly `lt` included) and stays as it is otherwise (`budget`, `ltd`) |
| OperatorRewrite.RewriteInjective | utils/apiFeatures.js:13-16 | two different keys never rewrite to the same key |
| OperatorRewrite.RewriteValue | utils/apiFeatures.js:13-16 | a string stays a string and becomes its word-level rewrite; an object stays an object, and each of its keys `k` is present as the word-level rewrite of `k` with its value rewritten in turn, at every depth |
| OperatorRewrite.StripRewriteValue | utils/apiFeatures.js:13-16 | taking the `$` signs out of every key and string of a rewritten value gives back the original value at every depth: no key, string or nesting is lost |
| OperatorRewrite.RewriteObject | utils/apiFeatures.js:13-16 | every key `k` is present as `Rewrite(k)` with its rewritten value, and every key of the result is the rewrite of exactly one original key |
| OperatorRewrite.RewriteSingleton | utils/apiFeatures.js:13-16 | a one-entry object rewrites to the one-entry object of the rewritten key and value |
| ApiFeatures.SortArgument | utils/apiFeatures.js:21-26 | the stage fails exactly when `sort` is an object (it has no `split`); a missing or empty `sort` gives `-createdAt` |
| ApiFeatures.SelectArgument | utils/apiFeatures.js:32-37 | the stage fails exactly when `fields` is an object; a missing or empty `fields` gives `-__v` |
| ApiFeatures.NumberOr | utils/apiFeatures.js:43-44 | `value * 1 \|\| default` is the number the value reads as whenever that number is non-zero (`007` and `+5` included), and otherwise the default; it is never 0 when the default is not |
| ApiFeatures.FilterOf | utils/apiFeatures.js:7-16 | no reserved key is in the object passed to `find`; every other key is there, rewritten, with its rewritten value; nothing else is there |
| ApiFeatures.APIFeatures.constructor | utils/apiFeatures.js:2-5 | the instance holds the given query and query string |
| ApiFeatures.APIFeatures.Filter | utils/apiFeatures.js:7-18 | deletes the reserved keys from a copy one by one and appends exactly `Find(FilterOf(queryString))`; earlier calls, the query string and the query handle are unchanged; returns the instance |
| ApiFeatures.APIFeatures.Sort | utils/apiFeatures.js:20-28 | appends exactly one `Sort` with the comma list joined by two spaces, or `-createdAt` when `sort` is missing or empty; an object `sort` throws and appends nothing |
| ApiFeatures.APIFeatures.LimitFields | utils/apiFeatures.js:30-39 | appends exactly one `Select` with the comma list joined by one space, or `-__v`; an object `fields` throws and appends nothing |
| ApiFeatures.APIFeatures.Paginate | utils/apiFeatures.js:41-50 | appends `Skip((page - 1) * limit)` and then `Limit(limit)`, in that order, and returns the instance |
| ApiFeatures.TranslateQuery | utils/apiFeatures.js:7-50 | the four stages chained on a fresh query record exactly find, sort, select, skip, limit in that order, or stop at the stage that throws |
| ApiFeatures.SortKeepsFieldOrder | utils/apiFeatures.js:21-22 | a non-empty `sort` list becomes the list with each comma replaced by two spaces, and its pieces rejoined with commas are the list itself |
| ApiFeatures.SelectKeepsFieldOrder | utils/apiFeatures.js:32-33 | a non-empty `fields` list becomes the list with each comma replaced by a space |
| ApiFeatures.ProjectTwoFields | utils/apiFeatures.js:32-34 | `fields=a,b` with comma-free `a` and `b` (either may be empty) is projected as `a b` |
| ApiFeatures.PageNumberUsed | utils/apiFeatures.js:43 | a page written as a non-zero integer is used as it is, whatever the page size |
| ApiFeatures.PageSizeUsed | utils/apiFeatures.js:44 | a page size written as a non-zero integer is used as it is, whatever the page |
| ApiFeatures.PageWithoutLimit | utils/apiFeatures.js:43-45 | a page without a page size, such as `?page=2`, uses 100 documents per page and skips `(page - 1) * 100` |
| ApiFeatures.PaginationUsesNumbers | utils/apiFeatures.js:43-45 | non-zero integer page and limit are used unclamped, so skip is `(page - 1) * limit`, negative for a negative page |
| ApiFeatures.PaginationDefaults | utils/apiFeatures.js:43-45 | a missing, zero or non-numeric page and limit give page 1, limit 100 and skip 0 |
| ApiFeatures.FilterComparison | utils/apiFeatures.js:7-16 | `field[op]=value`, where `field` and `value` are single words of letters, digits and `_` other than the four operators, beside any reserved keys reaches `find` as `{field: {$op: value}}` |
| ApiFeatures.ExampleSort | utils/apiFeatures.js:21-23 | `sort=-price` sorts by `-price` |
| ApiFeatures.ExamplePagination | utils/apiFeatures.js:43-47 | `page=2&limit=5` skips 5 and limits to 5 |
| ErrorController.FillDefaults | controllers/errorController.js:79-80 | a missing or zero status code becomes 500 and a missing or empty status becomes `error`; present values and every other property are kept |
| ErrorController.AppError | controllers/errorController.js:5 | the built error carries the message and status code, is operational, is named `Error` and has no code |
| ErrorController.HandleCastErrorDB | controllers/errorController.js:3-6 | an operational 400 error with message `Invalid {path}: {value}`, which no later check recognises again |
| ErrorController.HandleDuplicateError | controllers/errorController.js:8-11 | an operational 409 error with message `Duplicate field value: {name}. Please use another value`, `undefined` for a missing name, which no later check recognises again |
| ErrorController.KeyValueName | controllers/errorController.js:86 | `err.keyValue?.name` is present exactly when the key exists and has a `name` entry, and is then that entry |
| ErrorController.HandleJWTError | controllers/errorController.js:13 | an operational 401 error `Invalid token. Please login again!`, which no later check recognises again |
| ErrorController.HandleJWTExpiredError | controllers/errorController.js:15 | an operational 401 error `Your token has expired. Please login again!`, which no later check recognises again |
| ErrorController.HandleValidationError | controllers/errorController.js:17-22 | an operational 400 error whose message is `Invalid input data. ` followed by the field messages joined by `. `, which no later check recognises again |
| ErrorController.Classify | controllers/errorController.js:89-93 | an unrecognised error is left as it is; a recognised one becomes operational with status 400, 401 or 409; the result is never recognised again |
| ErrorController.Respond | controllers/errorController.js:77-96 | nothing is sent exactly outside development and production; development answers at the defaulted status code with the defaulted error itself (JSON) or its message (page); production leaves an unrecognised error unreclassified and answers a recognised one at 400, 401 or 409 with the production body |
| ErrorController.SendErrorDev | controllers/errorController.js:24-41 | JSON exactly for `/api` URLs, with status, the error itself, message and stack at the error's status code; otherwise the page with the error's message |
| ErrorController.SendErrorProd | controllers/errorController.js:43-75 | JSON exactly for `/api` URLs: status and message of an operational error, a generic 500 otherwise; pages at the error's status code with its message when operational and `Please try again later` otherwise |
| ErrorController.GlobalErrorHandler | controllers/errorController.js:77-96 | writes the defaults into the error object and nothing else, and sends exactly `Respond` of the error as it arrived |
| ErrorController.ClassifyIsFirstMatch | controllers/errorController.js:89-93 | the five checks run in sequence, but the first one that fires decides the outcome; an unrecognised error passes unchanged |
| ErrorController.ClassifiedStatus | controllers/errorController.js:3-22 | a recognised error becomes operational with status 400, 401 or 409; an unrecognised one keeps its status code and operational flag |
| ErrorController.ResponseFormFollowsUrl | controllers/errorController.js:26-45 | in both modes a request gets JSON exactly when its URL starts with `/api` and the page exactly when it does not |
| ErrorController.DevelopmentShowsError | controllers/errorController.js:82-83 | in development nothing is reclassified: JSON carries the error, its message and stack at its own status code; pages show its message |
| ErrorController.ProductionHidesInternals | controllers/errorController.js:52-72 | in production an unrecognised non-operational error is answered with the generic 500 JSON or the generic page text, never its own message |
| ErrorController.ProductionPageKeepsStatus | controllers/errorController.js:61-72 | in production pages are rendered at the (reclassified) error's status code, not a forced 500 |
| ErrorController.ProductionShowsOperational | controllers/errorController.js:47-66 | in production an unrecognised operational error is answered with its own status and message |
| ErrorController.OtherEnvironmentSendsNothing | controllers/errorController.js:82-95 | outside development and production no response is produced |
| ErrorController.ProductionCastError | controllers/errorController.js:3-6 | a cast error is answered 400 `Invalid {path}: {value}` |
| ErrorController.ProductionDuplicateName | controllers/errorController.js:8-11 | a duplicate key whose `name` entry is `v` is answered 409 `Duplicate field value: v. Please use another value` |
| ErrorController.ProductionDuplicateEverest | controllers/errorController.js:8-11 | a duplicate tour name `Everest` is answered 409 with a message starting `Duplicate field value: Everest` |
| ErrorController.DuplicateOtherFieldIsUndefined | controllers/errorController.js:86-90 | a duplicate key without a `name` entry is reported as `Duplicate field value: undefined` |
| ErrorController.ProductionValidationError | controllers/errorController.js:17-22 | a validation error becomes 400 and operational, and every field message occurs in its message after `Invalid input data. ` |
| ErrorController.ProductionTokenErrors | controllers/errorController.js:13-15 | an invalid or expired login token is answered 401 with its fixed message |
| ReviewController.WithIds | controllers/reviewController.js:6-7 | `tour` and `user` are replaced exactly when falsy; every other key keeps its value; no key is removed and only `tour` and `user` may be added |
| ReviewController.SetTourUserIds | controllers/reviewController.js:5-9 | the body becomes `WithIds` of the old body, the route's tour id and the user's id, and `next` is called once, with the finished body |
| ReviewController.WithIdsIdempotent | controllers/reviewController.js:6-7 | filling in the ids twice changes nothing more |
| ReviewController.WithIdsKeepsGivenIds | controllers/reviewController.js:6-7 | a body that names its tour and author is left as it is |
| ReviewController.EmptyBodyGetsBothIds | controllers/reviewController.js:6-7 | a body without ids gets the route's tour id and the signed-in user's id |

## Left out

- app.js is Express configuration and is not modelled. That includes the rate limiter, whose `windowMs: 24 * 60 * 60` (app.js:87) is 86,400 milliseconds, about 86 seconds, although its message speaks of an hour.
- server.js, bookingController.js, viewsController.js, tourRoutes.js and the browser scripts are process control, payment, database, rendering and DOM code. They are not modelled.
- The generic CRUD handlers and `utils/handlerFactory.js` are not part of this model. `TranslateQuery` chains the four stages the way a list handler does.
- `utils/appError.js` is not part of this model. `AppError`'s `status` is the parameter `statusOf`, an unknown function of the status code.
- Express's query parser (`duration[gte]=10` into a nested object) is not modelled. The parsed map is the input, and arrays from repeated keys are not represented.
- OperatorRewrite.RewriteObject: the stringify/replace/parse round trip is not modelled; the rewrite is applied to every key and string of the value tree instead. The two agree wherever the JSON text of a key or value is the text itself between quotes, because quotes, colons, commas and braces are not word characters; an escaped quote or backslash agrees too, since the character before the next word is still not a word character. They differ when a control character (or a lone surrogate) stands right before a word: `JSON.stringify` writes it as `\n`, `\t`, `\r`, `\b`, `\f` or `\u00XX`, whose letters or digits join the word. For the key `a` + newline + `gt` the source's regular expression sees the word `ngt` and changes nothing, while the model gives `a` + newline + `$gt`.
- JsText.ToNumber: reads only the empty string (as 0) and an optional sign followed by decimal digits, and gives the exact integer of any length. JavaScript's `* 1` gives a double: above 2^53 it rounds (`"9007199254740993"` gives 9007199254740992), and a numeral of more than 309 digits gives `Infinity`, which is truthy and used. Every other numeral JavaScript accepts is read by the model as not a number, so `NumberOr` falls back to the default where JavaScript would use the value: fractions (`4.5`, `.5`), exponents (`1e3`), `0x`, `0o` and `0b` numerals, `Infinity` and `-Infinity`, and numerals with surrounding whitespace.
- JsText.ToNumberDecimal: holds for every integer in the model; it matches JavaScript only for |n| <= 2^53, where a double represents the integer exactly.
- `Query` records calls instead of running them. Mongoose's execution of find, sort, select, skip and limit is not modelled.
- `res.status/json/render` and `console` are not modelled. The handler returns a `Response` value, and logging is dropped.
- ErrorController.GlobalErrorHandler: the production copy `{ ...err }` is not built as a separate object. Its replaced `keyValue` (the `name` entry of the duplicated key) is passed to the duplicate handler directly. Its other properties are read from the defaulted error, which the copy equals in every property the handler reads.
- ErrorController.HandleValidationError: a validation error without `errors` would throw a TypeError. The model assumes the field messages are present.
- ErrorController.Error: a non-numeric `code`, or a `statusCode` that is `NaN`, is represented as absent.
- ReviewController.SetTourUserIds: `req.user` is assumed to be set by the authentication middleware. Without it, `req.user.id` would throw.
- ReviewController.Json: numbers are integers, so `NaN` and fractions are not represented.

Three behaviours of the code are worth knowing, and the model keeps them:
- An unrecognised error keeps its own `isOperational` in production. So an operational error raised elsewhere (a 404, say) is shown with its message (`ProductionShowsOperational`).
- A query-string value such as the `10` of `duration[gte]=10` reaches `find` as the string `"10"`, not as a number (`FilterComparison`).
- Page and limit are not clamped: a negative or huge page or limit is used as it is (`PaginationUsesNumbers`).
