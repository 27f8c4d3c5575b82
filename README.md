# A verified model of the `curl-assignment` command-line client

The program is a small curl-like HTTP client written in Rust, all in one
`main` function. It runs these steps:

1. Read the command line. `args[1]`, trimmed, is the URL. `-X <method>` sets
   the method, upper-cased, and `-d <data>` sets the form data; the last
   occurrence of each wins, and every other token is skipped.
2. Echo the URL, the method and the data (when there is any).
3. Check the URL. A parse error gets one of four messages. A scheme other
   than `http`/`https`, compared in ASCII lower case, is refused.
4. Send one request: a form-urlencoded POST carrying the data when the
   method is exactly `POST`, otherwise a GET with no body.
5. Print the outcome:
   - the connect-failure message;
   - the status line for a status outside 2xx;
   - a JSON object as `{`, one `  "key": value,` line per top-level key in
     ascending key order (the last line keeps its comma as well), then `}`;
   - any other JSON value pretty-printed;
   - a body that is not JSON, verbatim.

The model splits `main` into modules along those steps:

- `Text`: `str::trim` with the exact Unicode `White_Space` set,
  upper/lower-casing, and decimal printing.
- `KeyOrder`: the ordering of Rust `String`s, which is lexicographic by code
  point.
- `Sorting`: `sort_by_key`, modelled as an in-place stable insertion sort over
  an `array`, specified by a pure `SortByKey`.
- `Args`: the argument loop. It is a `while` loop over a mutable index and
  two mutable slots, proved equal to a pure scan.
- `UrlCheck`: the URL verdict.
- `Request`: the choice of request.
- `Render`: the status line and the printing of objects.
- `Cli`: the whole of `main`. `Transcript` is a pure function of the arguments
  and of the three outside calls. `Run` is the step-by-step method proved to
  produce exactly that transcript.

Three outside calls become function-typed parameters: `Url::parse`, the
HTTP client's `send` together with `text`, and `serde_json::from_str`.
Printing is modelled as appending one element per `println!` to a sequence
of lines.

Three behaviours that a reader of a curl-like tool might not expect come
straight from the code, and the model keeps them:
- the URL is always `args[1]`, trimmed, even if it looks like a flag;
- tokens the loop does not recognise are skipped silently;
- there are no `-H`, `--json`, `-I`, `-o`, `-L` or `-s` options, because the
  code has none.

## Model

| member | source | states |
|---|---|---|
| `Text.Trim` | src/main.rs:20 | the result is the piece of the input after its leading whitespace; everything cut off on either side is Unicode whitespace, and the result neither starts nor ends with whitespace |
| `Text.Upper` | src/main.rs:28 | the method keeps its length; no ASCII lower-case letter is left; each one is shifted to upper case and every other character is kept |
| `Text.Lower` | src/main.rs:64 | `to_ascii_lowercase`: same length, no ASCII upper-case letter left, each one shifted to lower case, every other character kept |
| `Text.Decimal` | src/main.rs:90-93 | the printed status code is non-empty, all digits, with no leading zero |
| `Text.DecimalRoundTrip` | src/main.rs:90-93 | reading the printed digits back gives the code |
| `KeyOrder.Less` | src/main.rs:104 | defines the order `sort_by_key` uses on `String` keys: lexicographic by code point, with a proper prefix first; its properties are stated by the lemmas below |
| `KeyOrder.LessIrreflexive` | src/main.rs:104 | no key sorts before itself |
| `KeyOrder.LessTransitive` | src/main.rs:104 | the string order used for keys is transitive |
| `KeyOrder.LessTotal` | src/main.rs:104 | any two different keys are ordered one way or the other |
| `KeyOrder.LessAsymmetric` | src/main.rs:104 | two keys are never each before the other |
| `KeyOrder.LessEqAntisymmetric` | src/main.rs:104 | keys that are each at most the other are equal |
| `Sorting.SortByKey` | src/main.rs:104 | the pure stable sort by key; it keeps the length, and `Sorting.SortByKeySorted`, `Sorting.SortByKeyPermutation` and `Sorting.SortedUnique` state what it computes |
| `Sorting.SortByKeySorted` | src/main.rs:104 | the sorted fields are in non-decreasing key order |
| `Sorting.SortByKeyPermutation` | src/main.rs:104 | sorting keeps exactly the same fields, as a multiset |
| `Sorting.SortedUnique` | src/main.rs:104 | with distinct keys there is only one sorted arrangement of a given multiset, so every correct sort, stable or not, gives this result |
| `Sorting.SortByKeyOrderIrrelevant` | src/main.rs:103-104 | with distinct keys the result does not depend on the order the map yields its entries |
| `Sorting.InsertInPlace` | src/main.rs:104 | one insertion pass on the array: the new array is element `i` inserted into the sorted prefix, followed by the untouched rest |
| `Sorting.SortInPlace` | src/main.rs:104 | the array afterwards holds `SortByKey` of its old contents |
| `Args.Scan` | src/main.rs:24-41 | defines the slots after the loop: from index `i`, a `-X` or `-d` with a value sets its slot and skips two tokens, and any other token skips one; `Args.LastMethodWins`, `Args.LastDataWins`, `Args.MethodDefaultKept` and `Args.DataDefaultKept` state its result |
| `Args.ParseArgs` | src/main.rs:10-41 | no configuration exactly when there are fewer than two arguments; otherwise the URL is the trimmed `args[1]` |
| `Args.ParseArgsLoop` | src/main.rs:15-41 | the `while` loop over the arguments, with its mutable index and slots, returns exactly `ParseArgs(args)` |
| `Args.ExaminedBounds` | src/main.rs:24-41 | every index the loop examines lies in range |
| `Args.ExaminedSteps` | src/main.rs:24-41 | each examined index is the previous one plus one, or plus two after a flag that takes a value; the final step lands exactly on the argument count |
| `Args.ExaminedIncreasing` | src/main.rs:24-41 | the examined indices strictly increase, so the loop terminates |
| `Args.ExaminedShape` | src/main.rs:23-41 | the four facts above together |
| `Args.ValueNeverExamined` | src/main.rs:26-37 | the token consumed as the value of `-X` or `-d` is never examined as a flag |
| `Args.EveryTokenAccountedFor` | src/main.rs:24-41 | every token after the URL is either examined or consumed as the value of the flag before it |
| `Args.MethodDefaultKept` | src/main.rs:16-41 | without a `-X` that has a value, the method stays `GET` |
| `Args.DataDefaultKept` | src/main.rs:17-41 | without a `-d` that has a value, the data stays empty |
| `Args.LastMethodWins` | src/main.rs:26-31 | the method is the upper-cased value of the last examined `-X` that has a value |
| `Args.LastDataWins` | src/main.rs:32-37 | the data is the value of the last examined `-d` that has a value |
| `Args.FlagLikeValueIsData` | src/main.rs:32-37 | in `-d -X` the `-X` is the data, not a flag |
| `Args.TrailingFlagIgnored` | src/main.rs:26-30 | a final `-X` with no value leaves the earlier method in place |
| `Args.UrlIsSecondToken` | src/main.rs:20-38 | a flag-looking `args[1]` is still the URL, and an unknown token after it is skipped |
| `Args.PostWithData` | src/main.rs:24-41 | `-X post -d a=1` gives the method `POST` and the data `a=1` |
| `UrlCheck.ErrorMessage` | src/main.rs:54-59 | the IPv6, IPv4 and port errors each get their own message, and every other error kind gets the base-protocol message, in both directions |
| `UrlCheck.Check` | src/main.rs:50-68 | the URL passes exactly when it parses and its lower-cased scheme is `http` or `https`; a parse error gets its kind's message and a refused scheme the base-protocol message |
| `UrlCheck.SchemeCaseIgnored` | src/main.rs:64-65 | `HTTP` and `Https` pass |
| `UrlCheck.OtherSchemesRefused` | src/main.rs:64-67 | `ftp` and `httpx` are refused with the base-protocol message |
| `Request.Choose` | src/main.rs:71-79 | a form-urlencoded POST with body equal to the data exactly when the method is `POST`, otherwise a GET with no header and no body; either way the target is the URL |
| `Request.OtherMethodsSendGet` | src/main.rs:71-78 | `HEAD`, `PUT` and `GET` all send a body-less GET |
| `Render.KeyLine` | src/main.rs:107 | defines one field line: two spaces, the key in quotes, a colon and a space, the value, and a comma; `Render.KeyLineEndsWithComma` states the comma |
| `Render.ObjectLines` | src/main.rs:105-109 | the lines of an object are its field lines in order, between a `{` line and a `}` line: n + 2 lines for n fields |
| `Render.IsSuccess` | src/main.rs:89 | defines the 2xx range `200..=299` of `is_success`; `Cli.FailedStatusEndsOutput` and `Cli.JsonObjectOutput` state what each side of it prints |
| `Render.RenderObject` | src/main.rs:102-109 | the lines printed for an object are `{`, the field lines of the fields sorted by key, and `}` |
| `Render.KeyLineEndsWithComma` | src/main.rs:107 | every field line ends with a comma, the last one included |
| `Render.ObjectLinesShape` | src/main.rs:105-109 | an object with n fields prints n + 2 lines: `{`, the k-th sorted field on line k, `}` |
| `Render.ObjectFieldsSorted` | src/main.rs:103-104 | the printed fields are sorted, are a permutation of the object's fields, and strictly ascend when the keys are distinct |
| `Render.ObjectLinesOrderIrrelevant` | src/main.rs:102-109 | two collections of the same fields with distinct keys print identically |
| `Render.StatusLine` | src/main.rs:89-93 | the line starts with the fixed prefix and ends with a full stop; between them are digits that read back as the status code |
| `Cli.EchoLines` | src/main.rs:43-47 | the echo is two or three lines: the URL line, the method line, and a data line exactly when the data is not empty |
| `Cli.BodyLines` | src/main.rs:99-117 | defines what a 2xx body prints: the announcement with the rendered sorted object, the announcement with the pretty text of any other JSON, or `Response body:`, a newline and the raw text; `Cli.ObjectReplyLines`, `Cli.JsonObjectOutput` and `Cli.TextBodyOutput` state these |
| `Cli.ReplyLines` | src/main.rs:81-117 | defines what the reply prints: the connect-failure message, the status line for a status outside 2xx, or the body lines; `Cli.Respond` computes it step by step and `Cli.FailedStatusEndsOutput` and `Cli.ObjectReplyLines` state its cases |
| `Cli.Transcript` | src/main.rs:7-117 | defines the whole run of `main` as a function of the arguments and the three outside calls: printed lines, the URL checked, the request sent; `Cli.Run` produces it step by step and every other `Cli` lemma states a property of it |
| `Cli.Respond` | src/main.rs:81-117 | the response handling, step by step, prints exactly the lines the reply calls for |
| `Cli.Run` | src/main.rs:7-117 | `main`, step by step, produces exactly `Transcript`: the same lines, the same URL checked, the same request sent |
| `Cli.UsageOnly` | src/main.rs:10-13 | with fewer than two arguments only the usage line is printed; nothing is parsed or sent |
| `Cli.EchoComesFirst` | src/main.rs:43-47 | the output begins with the echo of the trimmed URL and the method, with the data line exactly when the data is not empty; the URL handed to the parser is the trimmed `args[1]` |
| `Cli.RejectedUrlStops` | src/main.rs:50-68 | nothing is sent exactly when the URL fails to parse or has a refused scheme, and then the one error message follows the echo |
| `Cli.RequestFollowsMethod` | src/main.rs:71-79 | once the URL passes, the one request sent goes to the trimmed URL; it is a form POST of the data exactly when the method is `POST` and a body-less GET otherwise |
| `Cli.AcceptedSession` | src/main.rs:70-117 | once the URL passes, the output is the echo followed by the lines for the reply to the chosen request |
| `Cli.FailedStatusEndsOutput` | src/main.rs:89-95 | a status outside 2xx prints only the status line after the echo; its digits read back as the code |
| `Cli.ObjectReplyLines` | src/main.rs:100-109 | a 2xx reply holding an object prints the announcement and the rendered object: n + 3 lines for n fields |
| `Cli.JsonObjectOutput` | src/main.rs:100-109 | the whole output for an object reply is the echo, the announcement and the rendered object; its length, and the fields in sorted order |
| `Cli.TextBodyOutput` | src/main.rs:114-116 | a body that is not JSON is printed after `Response body:` and a newline |
| `Cli.PostExample` | src/main.rs:71-76 | `curl http://h -X post -d a=1` sends a form POST of `a=1` to `http://h` |

## Left out

- Transport: the HTTP client, DNS and TLS. `send` is a parameter that
  returns either a connect failure or a status with a body.
- `text()` failing: this appears only as an absent body, which prints as
  the empty string, as `unwrap_or_default` does.
- `Url::parse` internals: it is a parameter that returns the scheme or one
  of the ten `url::ParseError` kinds. The rest of the parsed URL is not used
  by the program.
- JSON parsing and printing: `serde_json::from_str`, `Display` of a value and
  `to_string_pretty` are outside the model. A parsed object is given as its
  key/printed-value pairs in the map's iteration order. Any other value is
  given as its pretty-printed text. Keys are printed verbatim, as the
  program does with `{}`; no escaping is modelled.
- `Text.Upper`: this is `str::to_uppercase` restricted to ASCII. Full Unicode
  case mapping, for example `ß` becoming `SS`, is not modelled, so a method
  with non-ASCII letters is upper-cased differently.
- Status codes: a status code is any `u16`. The HTTP library's narrower range
  of valid codes is not modelled.
- `std::env::args` and standard output. The arguments are a sequence of
  strings, and the output is a sequence of lines, one per `println!`. An
  element can contain a newline, as `Response body:\n` followed by the text
  does.
- The `-H`, `--json`, `-I`, `-o`, `-L` and `-s` options do not exist in the
  code, so they are not modelled.
- The sorting algorithm: the model sorts by stable insertion sort, while
  the library's `sort_by_key` uses a merge sort. The result is the same
  because `Sorting.SortedUnique` shows there is only one sorted order for
  distinct keys. Running time and the allocation pattern are not modelled.
