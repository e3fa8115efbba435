# awsenvsec, modelled in Dafny

awsenvsec is a command-line tool that reads secrets from AWS Secrets Manager and
parameters from AWS Parameter Store under a path and prints them as environment
variables. This project models what it computes once the flags are parsed:

- **Listing** (`aws.dfy`). The paginated listing of both stores reads at most 50 pages.
  An error on any page discards everything gathered so far. A failed secret fetch
  gives the empty string.
- **Key derivation** (`keys.dfy`). A key is the part of a name after its last `/`,
  upper-cased.
- **Merge** (`merge.dfy`). This is the loop that fills `resultsMap`. A secret whose
  text is a JSON object contributes one key per distinct upper-cased field name. A
  secret whose text is other valid JSON contributes none. Any other text contributes
  one key, its derived name. Parameters come after the secrets, and the last write
  to a key wins.
- **Output** (`render.dfy`, `cli.dfy`). This covers the banner, the check on the
  output flag (exit status 2 for a non-empty value other than `env` or `json`), and three
  kinds of output:
  - `env`: sorted `K="V"` lines;
  - `json`: the indented map;
  - no flag: `export K=$"V"` lines in map order.
- **Sort order** (`byteorder.dfy`). This is the order `sort.Strings` uses.

The remote services are data:
- a listing is the sequence of page responses the paginator receives;
- `GetSecretValue` is a function from a name to a text or an error;
- JSON parsing is a classifier function;
- `json.Marshal` followed by `json.Indent` is a rendering function.

Standard output is a string. The diagnostics for an unavailable listing are reported
as `Notice`s.

Two behaviours of the code differ from a naive reading:

- A secret whose text is valid JSON but not an object (an array, a number, a quoted
  string, `true`, `null`) adds no key at all. `json.Unmarshal` into a map fails and the
  error is printed; for `null` it succeeds and leaves the map nil, so nothing is
  printed. Either way the loop over the nil map writes nothing. It does not become a
  single scalar entry.
- A secret whose fetch fails is not omitted. `decryptSecret` returns `""`, which is
  not JSON, so the scalar branch writes its derived key with the value `""`.

## Model

| member | source | states |
|---|---|---|
| Keys.ToUpper | cmd/awsenvsec/main.go:140 | keeps the length; each character is upper-cased on its own |
| Keys.LastIndex | cmd/awsenvsec/main.go:145 | the index of the last separator, or -1 when there is none; no separator follows it |
| Keys.DeriveKey | cmd/awsenvsec/main.go:145 | the derived key never contains `/`, holds no lower-case letter, and is no longer than the name |
| Keys.DeriveKeyAfterLastSlash | cmd/awsenvsec/main.go:161 | `dir/base` with a slash-free `base` gives the upper-cased `base`, whatever `dir` holds |
| Keys.DeriveKeyWithoutSlash | cmd/awsenvsec/main.go:145 | a name without `/` is upper-cased whole (LastIndex returns -1) |
| Keys.ToUpperIdempotent | cmd/awsenvsec/main.go:140 | upper-casing a key again changes nothing |
| Keys.DeriveKeyExample | cmd/awsenvsec/main.go:145 | `product/dev/DB_PASSWORD` gives `DB_PASSWORD` |
| Keys.DeriveKeyUpperSegment | cmd/awsenvsec/main.go:161 | a path whose last segment is already upper-case yields that segment unchanged |
| Aws.DecryptSecret | cmd/awsenvsec/aws.go:53-59 | a failed fetch gives `""`, a successful one the secret's text |
| Aws.Listed | cmd/awsenvsec/aws.go:117-136 | what a listing returns: non-empty only when every page read succeeded, and then the items of those pages in order |
| Aws.GetAllPages | cmd/awsenvsec/aws.go:117-136 | the loop returns exactly `Listed(pages)`: the items of the first 50 pages in order, or nothing if one of them is an error |
| Aws.ListedBound | cmd/awsenvsec/aws.go:113-119 | with pages of at most 10 items a listing has at most 500 items |
| Aws.ListedAtCap | cmd/awsenvsec/aws.go:185-192 | 50 full pages, with any number after them, give exactly 500 items |
| Aws.ListedIgnoresLaterPages | cmd/awsenvsec/aws.go:192 | pages after the fiftieth never influence the result |
| Aws.ListedErrorDiscards | cmd/awsenvsec/aws.go:194-199 | an error on any page read makes the whole listing empty |
| Aws.ListedEmptyIff | cmd/awsenvsec/aws.go:119-136 | the listing is empty exactly when a page read failed or every page read was empty |
| Aws.FlattenEmptyIff | cmd/awsenvsec/aws.go:128-133 | no items are gathered exactly when every page is empty |
| Aws.ListedInOrder | cmd/awsenvsec/aws.go:201-208 | item j of page k sits after all items of earlier pages, in page order and then in-page order |
| Aws.ListedFromPages | cmd/awsenvsec/aws.go:128-133 | every returned item is an item of a page that was read |
| Aws.FlattenAppend | cmd/awsenvsec/aws.go:128-134 | gathering two runs of pages is gathering each and concatenating |
| Merge.LastFor | cmd/awsenvsec/main.go:162 | the index of the last entry for a key, or -1; no later entry has that key |
| Merge.ApplyLastWriterWins | cmd/awsenvsec/main.go:142-162 | after the writes a key is present iff it was present or written; its value is that of the last write to it, or else the old value |
| Merge.ApplyAppend | cmd/awsenvsec/main.go:130-163 | writing two runs of entries in turn is writing their concatenation |
| Merge.SecretEntries | cmd/awsenvsec/main.go:131-148 | the writes of one secret: one per field of a JSON object, none for other JSON, and otherwise one write of the fetched text under the derived name; every key is upper-case |
| Merge.AllSecretEntries | cmd/awsenvsec/main.go:130-149 | the writes of all listed secrets in listing order; every key is upper-case |
| Merge.ParameterEntry | cmd/awsenvsec/main.go:161-162 | a parameter writes its value under an upper-case key without `/` |
| Merge.ParameterEntries | cmd/awsenvsec/main.go:160-163 | one write per parameter, in listing order, each with the parameter's value under an upper-case key |
| Merge.ScalarSecretEntry | cmd/awsenvsec/main.go:144-148 | a non-JSON secret sets exactly its derived key to its text |
| Merge.ObjectSecretEntries | cmd/awsenvsec/main.go:134-143 | a JSON object sets exactly the upper-cased field names; a field whose upper-cased name is unique gets its own value; the secret's own name sets nothing |
| Merge.FieldKey | cmd/awsenvsec/main.go:139-143 | a key is set by a field loop iff it was already present or some field upper-cases to it |
| Merge.FieldValue | cmd/awsenvsec/main.go:139-143 | a field whose upper-cased name no other field shares keeps its value |
| Merge.NonObjectSecretAddsNothing | cmd/awsenvsec/main.go:134-143 | valid JSON that is not an object leaves the map unchanged |
| Merge.FailedFetchSetsEmpty | cmd/awsenvsec/aws.go:53-58 | a secret whose fetch fails sets its derived key to `""` |
| Merge.TestSecrets | cmd/awsenvsec/main_test.go:17-28 | `testString` is stored whole under the derived name; `{"mySecret": "myPassword"}` sets `MYSECRET` only |
| Merge.UpperOfMySecret | cmd/awsenvsec/main.go:140 | `mySecret` upper-cases to `MYSECRET` |
| Merge.Aggregator.constructor | cmd/awsenvsec/main.go:124 | resultsMap starts empty |
| Merge.Aggregator.MergeSecrets | cmd/awsenvsec/main.go:130-149 | the loop leaves the map as the old map with every listed secret's entries written in listing order |
| Merge.Aggregator.MergeSecret | cmd/awsenvsec/main.go:131-148 | one secret writes exactly its entries: object fields, nothing for other JSON, or the derived key |
| Merge.Aggregator.MergeFields | cmd/awsenvsec/main.go:139-143 | the field loop writes each upper-cased field name with its value, in order |
| Merge.Aggregator.MergeParameters | cmd/awsenvsec/main.go:160-163 | the loop writes each parameter's derived key with its value, in listing order |
| ByteOrder.LessIrreflexive | cmd/awsenvsec/main.go:176 | no string sorts before itself |
| ByteOrder.LessTransitive | cmd/awsenvsec/main.go:176 | the sort order is transitive |
| ByteOrder.LessTotal | cmd/awsenvsec/main.go:176 | of two different strings one sorts before the other |
| ByteOrder.LessAsymmetric | cmd/awsenvsec/main.go:176 | two strings never sort before each other |
| ByteOrder.SortedEnumerationUnique | cmd/awsenvsec/main.go:172-176 | a set of keys has one ascending enumeration, so the `env` order does not depend on the map's iteration order |
| ByteOrder.SortedDistinctIsStrict | cmd/awsenvsec/main.go:176 | sorted without repetitions is strictly ascending |
| Render.Header | cmd/awsenvsec/main.go:27-35 | the header opens with a rule of 102 dashes and a newline, and its length is two rules plus the three fields plus 32 characters of labels and newlines |
| Render.ModeOf | cmd/awsenvsec/main.go:109-121 | no flag selects `export`; `env` and `json` select their modes; any other value is invalid |
| Render.EnvLine | cmd/awsenvsec/main.go:179 | the line is the key, `="`, the value and a closing quote |
| Render.ExportLine | cmd/awsenvsec/main.go:202 | the line is `export `, the key, `=$"`, the value and a closing quote |
| Render.EnvHeading | cmd/awsenvsec/main.go:177 | a blank line, the heading naming the date, and a blank line after it |
| Render.FirstIndex | cmd/awsenvsec/main.go:179 | the index of the first occurrence of a character, or -1; none occurs before it |
| Render.EnvLineKeyEnd | cmd/awsenvsec/main.go:179 | in an `env` line whose key holds no `=`, the first `=` ends the key |
| Render.ExportLineKeyEnd | cmd/awsenvsec/main.go:202 | in an `export` line whose key holds no `=`, the first `=` ends the key |
| Render.EnvLineInjective | cmd/awsenvsec/main.go:179 | for keys without `=`, an `env` line determines its key and its value |
| Render.ExportLineInjective | cmd/awsenvsec/main.go:202 | for keys without `=`, an `export` line determines its key and its value |
| Render.PrintEnvLines | cmd/awsenvsec/main.go:178-180 | the loop prints one `K="V"` line per key, in the given order |
| Render.Repeat | cmd/awsenvsec/main.go:28 | n copies of the character |
| Render.HeaderFiveLines | cmd/awsenvsec/main.go:27-35 | the banner is five newline-ended lines; the first and the last are 102 dashes |
| Render.BannerFiveLines | cmd/awsenvsec/main.go:29-33 | the framed banner is its five lines joined, and holds exactly five newlines |
| Render.JoinLinesCount | cmd/awsenvsec/main.go:179 | n lines without newlines print as exactly n newlines |
| Render.GatherKeys | cmd/awsenvsec/main.go:172-175 | the range loop collects every key of the map exactly once |
| Render.InsertAt | cmd/awsenvsec/main.go:176 | one insertion step extends the sorted prefix by one and permutes the array |
| Render.SortStrings | cmd/awsenvsec/main.go:176 | the array ends sorted and is a permutation of what it held |
| Render.SortedKeys | cmd/awsenvsec/main.go:172-176 | the keys of the map, each once, strictly ascending |
| Render.RenderEnv | cmd/awsenvsec/main.go:171-180 | the heading, then one `K="V"` line per key of the map in ascending order |
| Render.RenderExport | cmd/awsenvsec/main.go:201-203 | one `export K=$"V"` line per key, each key exactly once, in some order |
| Cli.CliBanner | cmd/awsenvsec/main.go:112-114 | what a set flag prints first: the header, then a blank line, ending in a newline |
| Cli.InvalidModeOutput | cmd/awsenvsec/main.go:112-118 | a rejected flag prints the banner first, then the problem, the usage and the flag |
| Cli.Collect | cmd/awsenvsec/main.go:124-167 | the map is the secrets' entries and then the parameters' entries written into an empty map; a notice is reported iff the store's path is set and its listing came back empty |
| Cli.Present | cmd/awsenvsec/main.go:170-203 | per mode: banner, heading and sorted lines; banner, heading and indented JSON; or export lines for each key once |
| Cli.Run | cmd/awsenvsec/main.go:108-204 | an invalid output flag prints banner and usage and exits 2 before reading any store and reports nothing; otherwise exit 0 with the output of the mode over the merged map, and a notice for each store whose path is set and whose listing came back empty |
| Cli.ParametersOverrideSecrets | cmd/awsenvsec/main.go:156-163 | a key written by a parameter holds the last such parameter's value; any other key keeps what the secrets gave it |
| Cli.ParameterWins | cmd/awsenvsec/main.go:160-163 | the last listed parameter deriving to a key decides its value, whatever the secrets wrote |
| Cli.EmptyPathsContributeNothing | cmd/awsenvsec/main.go:127-156 | a store whose path is empty is not read; with both empty the map is empty and `env` lists no variable |
| Cli.ResultKeysAreUpper | cmd/awsenvsec/main.go:140-161 | every key of the merged map is upper-case |
| Cli.ResultsWrittenByStores | cmd/awsenvsec/main.go:124-167 | every key in the map was written by a secret or a parameter |

## Left out

- Keys.DeriveKey: `fmt.Sprintf(name)` is taken as the identity. A name containing `%` would be rewritten by fmt's verb handling, and that is not modelled.
- Keys.ToUpper: only ASCII letters are upper-cased. Go's `strings.ToUpper` also maps other Unicode letters.
- Loading the AWS configuration, the profile and region flags, and the panics when loading fails are not modelled. The path filter and the recursive flag are not modelled either, since the service applies them. All of these happen outside the data the model receives.
- Json.IsItJson: `isItJSON` is the classifier's tag test (anything but `NotJson`). JSON syntax (RFC 8259) is not modelled, so no fact about which texts are valid JSON holds beyond `AgreesWithTests`: the two test cases and the empty text. `json.Unmarshal` and the `%v` rendering of field values are part of the same classifier parameter.
- Render.EnvLine, Render.ExportLine: a line does not determine its key and value when the key contains `=`. A JSON field name may contain `=`, and the line `A="B="C"` is printed both for key `A="B` with value `C` and for key `A` with value `B="C`.
- `json.Marshal` and `json.Indent` are a rendering parameter. Their error branches (lines 185-193) cannot be taken for a map of strings, so they are not modelled.
- A successful GetSecretValue response without a `SecretString` (a binary secret) is not modelled. Go would dereference nil and panic there.
- Flag parsing and the `AWS_REGION`, `SM_PATH` and `PS_PATH` environment defaults are not modelled. The usage text is a parameter of the run.
- The clock is not modelled: the formatted start time is a parameter.
- Diagnostic texts are reported as `Notice` values for unavailable listings. The error texts printed on failed pages, failed fetches and failed unmarshalling are not part of the output string.
- Go's map iteration order is a nondeterministic choice. The `export` output is stated for some enumeration of the keys, and the field order of a JSON object is the classifier's.
- Merge.ObjectSecretEntries: states the value only of fields whose upper-cased name is unique. When two fields collide, the one Go's map range visits last wins, and that order is unspecified.
- `sort.Strings` is modelled by an insertion sort. Only its result (sorted, a permutation) is promised, not its algorithm.
