# git-frameworker: template selection and project assembly

git-frameworker is an interactive scaffolding tool. It clones a repository into
the staging directory `.git-repo-temp`. If the clone has a `framework.json`, the
tool asks that file's questions and assembles a new project by copying one full
template directory and then overlaying partial directories chosen by the
answers. Without `framework.json` it copies the whole staged tree into the
project.

This project models the decision logic of that flow in Dafny:

- `strings.dfy` (module `Strings`): ASCII lower-casing and `join`, with their algebra.
- `seqs.dfy` (module `Seqs`): the order-preserving `filter` and `map` the source chains.
- `frameworker.dfy` (module `Frameworker`): the configuration data model, the
  answer-collection loop (`CollectAnswers`, `InquiryCli`), the split into partials
  and fulls, the template key (`TemplateKey`), the copy-plan loop (`BuildProject`)
  and the top-level choice between the two builds (`HasFrameworkConfig`, `Run`).

The prompter is an input: a sequence of responses, one per question. In the
source a response is a string for `input` and `list` questions and a boolean for
`confirm` questions. The model accepts any `Value` for any question type. This
adds no behaviour the source lacks: `ToString` and `Truthy` give the JavaScript
`toString()` and truthiness for every pairing, so every pairing gets the result
the source would compute for it. A recursive
copy becomes an entry `Copy(source, dest)` in an emitted plan. The project name
is a parameter. Boolean `toString` is `"true"`/`"false"`. The confirm test uses
JavaScript truthiness, which for a boolean is the boolean itself.

The two loops of the source are methods with loops. `CollectAnswers` pushes one
record per question. `BuildProject` appends copies per partial. The `ensures` of
each method equates its result with a specification function (`AnswersOf`,
`Plan`). The lemmas are stated
about those functions. The filter/map/join/lower-case pipeline and the
membership test are functions.

## Model

| member | source | states |
|---|---|---|
| `Frameworker.ToString` | src/index.js:196 | `toString()` of a response: a string is itself, a true boolean gives `"true"` and a false one `"false"`, both lower-case |
| `Frameworker.Truthy` | src/index.js:214 | JavaScript truthiness of a response: a boolean is itself, and a string is truthy exactly when it is non-empty |
| `Frameworker.AnswersOf` | src/index.js:176-189 | the answer records for a list of questions and their responses: one per question, in order, each with the question's name, type and partial flag and its own response |
| `Frameworker.CollectAnswers` | src/index.js:176-189 | exactly one answer per question, in question order; each copies the question's name, type and partial flag and holds the response given to it |
| `Frameworker.InquiryCli` | src/index.js:169-201 | the selection is the partials and the template key of the collected answers |
| `Frameworker.Partials` | src/index.js:191 | the answers whose partial flag is set: each one is such an answer, and the result is no longer than the answers |
| `Frameworker.Fulls` | src/index.js:192 | the answers whose partial flag is not set: each one is such an answer, and the result is no longer than the answers |
| `Frameworker.KeyAnswers` | src/index.js:192-195 | the answers that are neither partial nor `input`: each one is such an answer, and the result is no longer than the answers |
| `Frameworker.TemplateKey` | src/index.js:194-198 | the `name:value` segments of the answers that are neither partial nor `input`, joined by `_`, then lower-cased; the key has no upper-case letter |
| `Frameworker.KeyOfAppend` | src/index.js:196-198 | the key built from two non-empty runs of key answers is the two keys joined by `_` |
| `Frameworker.Select` | src/index.js:191-200 | the selection returned to the build: the partial answers and the template key; every selected partial has its flag set and the directory name is lower-case |
| `Frameworker.PartialsFullsPartition` | src/index.js:191-192 | partials and fulls split the answers: multisets add up to the answers, lengths sum to the answer count, each answer is in the side its flag names and only there |
| `Frameworker.PartialsFullsAppend` | src/index.js:191-192 | both filters keep question order: the split of a concatenation is the concatenation of the splits |
| `Frameworker.PartialsFullsSingle` | src/index.js:191-192 | a single answer goes to the partials if its flag is set, otherwise to the fulls |
| `Frameworker.KeyAnswersAreQualifying` | src/index.js:192-195 | the answers feeding the key are exactly those that are neither partial nor `input`, in order |
| `Frameworker.KeyAnswersAppend` | src/index.js:192-195 | the key answers of a concatenation are the key answers of each half, in order |
| `Frameworker.TemplateKeyIsLower` | src/index.js:194-198 | the key has no upper-case letter, and lower-casing it again changes nothing |
| `Frameworker.TemplateKeyEmptyIff` | src/index.js:194-198 | the key is empty if and only if every answer is partial or of `input` type |
| `Frameworker.TemplateKeyIgnores` | src/index.js:191-198 | inserting a partial or `input` answer anywhere leaves the key unchanged |
| `Frameworker.TemplateKeySingle` | src/index.js:194-198 | one qualifying answer gives the key `lower(name) + ":" + lower(toString(value))` |
| `Frameworker.TemplateKeyOfConfirm` | src/index.js:194-198 | a full `confirm` answer gives the key `lower(name) + ":true"` or `lower(name) + ":false"`, following its boolean |
| `Frameworker.TemplateKeyConcat` | src/index.js:194-198 | when both halves have a qualifying answer, the key of the whole is the two keys joined by `_`, in question order |
| `Frameworker.PartialCopy` | src/index.js:213-233 | the copies one partial adds: at most one, exactly one when it is a confirm answered truthily or a list, and always onto the project |
| `Frameworker.PartialCopies` | src/index.js:212-235 | the copies all partials add, in partials order: each one writes onto the project |
| `Frameworker.Plan` | src/index.js:208-235 | the whole copy plan of a selection: the template copy `.git-repo-temp/templates/` + key comes first, and every copy writes onto the project |
| `Frameworker.PartialCopiesSnoc` | src/index.js:212-235 | handling one more partial appends that partial's copies to those of the partials before it |
| `Frameworker.BuildProject` | src/index.js:203-242 | the plan is the specification plan: first exactly one copy of `.git-repo-temp/templates/` + key onto the project, then the partial copies in partials order |
| `Frameworker.PartialCopiesAppend` | src/index.js:212-235 | the partial copies of a concatenation are the concatenation of the copies, so the overlays follow partials order |
| `Frameworker.PartialCopiesAt` | src/index.js:212-235 | the copies of partial i sit after those of every earlier partial and before those of every later one |
| `Frameworker.ConfirmPartialCopiedIffTrue` | src/index.js:213-221 | a confirm partial adds a copy if and only if it is answered true, and that copy is `.git-repo-temp/partials/<name>` |
| `Frameworker.ListAndInputPartialRules` | src/index.js:213-233 | a list partial adds exactly one copy, of `.git-repo-temp/partials/<name>:<lower-cased value>` with the name kept as given; an `input` partial adds none |
| `Frameworker.PartialCopiesCount` | src/index.js:212-235 | the partials add one copy per true confirm plus one per list answer |
| `Frameworker.YieldsCopyCount` | src/index.js:213-233 | the number of copy-yielding partials is the number of true confirms plus the number of list answers |
| `Frameworker.PartialCopiesFromPartials` | src/index.js:212-235 | every partial copy reads from `.git-repo-temp/partials/` and writes onto the project |
| `Frameworker.PlanSize` | src/index.js:191-235 | the whole plan has 1 + (number of partial answers that are a true confirm or a list) entries |
| `Frameworker.HasFrameworkConfig` | src/index.js:131-132 | true if and only if some staged entry is named `framework.json` |
| `Frameworker.Run` | src/index.js:249-255 | without `framework.json` the plan is the single copy `.git-repo-temp` onto the project, and no template or partial copy occurs; with it the plan is the config-driven plan, starting with a template copy |
| `Frameworker.ScenarioSelection` | src/index.js:191-200 | for a full `lang` list question and a partial `tests` confirm question, the key is `lang:` + the lower-cased choice and the only partial is `tests` |
| `Frameworker.ScenarioKey` | src/index.js:194-198 | the single `lang` list answer gives the key `lang:` + the lower-cased choice |
| `Frameworker.PlanOfOnePartial` | src/index.js:208-235 | with one partial, the plan is the template copy followed by that partial's copies |
| `Frameworker.ScenarioPlan` | src/index.js:191-235 | for the `lang`/`tests` configuration, the plan copies `templates/lang:` + the lower-cased choice, then `partials/tests` exactly when `tests` is true |
| `Frameworker.ScenarioTypeScriptWithTests` | src/index.js:194-235 | `lang` = "TS", `tests` = true gives the copies `templates/lang:ts`, then `partials/tests` |
| `Frameworker.ScenarioJavaScriptWithoutTests` | src/index.js:194-235 | `lang` = "JS", `tests` = false gives only the copy `templates/lang:js` |
| `Strings.Lower` | src/index.js:198 | lower-casing keeps the length and leaves no upper-case ASCII letter |
| `Strings.LowerIgnoresOnlyCase` | src/index.js:198 | lower-casing changes only case: each character agrees with the input's once case is ignored |
| `Strings.LowerOfLower` | src/index.js:198 | a string with no upper-case letter is its own lower-case form |
| `Strings.LowerIdempotent` | src/index.js:198 | lower-casing twice is lower-casing once |
| `Strings.LowerAppend` | src/index.js:198 | lower-casing distributes over concatenation |
| `Strings.Join` | src/index.js:197 | `join` of no parts is empty, of one part is that part, and of several starts with the first part and the separator |
| `Strings.JoinAppend` | src/index.js:197 | joining two non-empty lists is joining each with the separator between |
| `Strings.JoinEmptyIff` | src/index.js:197 | when no part is empty, the join is empty if and only if there are no parts |
| `Seqs.Filter` | src/index.js:191-192 | the result keeps only elements that satisfy the predicate, drops none that do, and is no longer than the input |
| `Seqs.FilterAppend` | src/index.js:191-192 | filtering distributes over concatenation |
| `Seqs.FilterSplit` | src/index.js:191-192 | a filter and its negation split the input: multisets and lengths add up |
| `Seqs.FilterFilter` | src/index.js:192-195 | filtering twice equals filtering once by the conjunction |
| `Seqs.Map` | src/index.js:196 | the result has the input's length and holds f of each element at the same index |
| `Seqs.MapAppend` | src/index.js:196 | mapping distributes over concatenation |

## Left out

- Prompting through `inquirer` (src/index.js:68-72, 98-105, 181-186): the responses are an input sequence. Choice validation is the prompter's job and is not modelled, so a `list` response need not be one of `choices`.
- Question types other than `input`, `list` and `confirm`: the model has only these three. The source would put any other type into the key, since its filter only drops `input`, and would skip it in `buildProject`.
- Cloning with `git` and removing `.git` (src/index.js:67-95): subprocess and network I/O.
- Filesystem effects: `mkdir`, `rm`, `readdir` and the merge/overwrite behaviour of `fs.cp` (src/index.js:15-17, 27-30, 114, 131). A copy is a plan entry. Which file wins on a name clash follows from plan order, but is not modelled.
- `JSON.parse` of `framework.json` (src/index.js:149-167): the parsed configuration is an input value. A missing `isPartial` is modelled as `false`, which matches its falsy `undefined`.
- Error exits (`process.exit(1)` in every `catch`): termination is process control. A missing template or partial directory is not detected by the plan.
- The mutable global `projectName` (src/index.js:19, 107): the project name is a parameter.
- Cleanup (`clean` and the `--clean` flag, src/index.js:23-38, 257), banners, spinners, animations and `sleep` (src/index.js:21, 40-65): only directory removal and cosmetics.
- `Strings.Lower`: lower-cases ASCII letters only. JavaScript's `toLowerCase` also maps non-ASCII letters.
- An empty template key makes the template copy read `.git-repo-temp/templates/` itself. The model emits that entry as the source does and says nothing about what the copy then does.
- Reordering questions changes the key exactly when the order of qualifying answers changes: this is not true in general. Two answers with equal segments can swap without effect. So the model proves only the composition laws `TemplateKeyConcat`, `TemplateKeySingle` and `TemplateKeyIgnores`.
