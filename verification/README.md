# ont-basecalling in Dafny

A model of the decision logic in `ont-basecalling.py`, a driver that basecalls
and demultiplexes Oxford Nanopore reads with Guppy. It then merges, filters
and counts the reads with shell pipelines. The model covers what the script
decides before it hands work to the shell:

- **Tables** (`tables.dfy`): the `BASECALLING` and `BARCODING` tables.
  - Models and kits are enumerations, with their keys, configuration files
    and barcode profiles.
  - Looking a key up is total and returns `Option`.
  - Keys round-trip through lookup, and the flag strings are pairwise
    distinct.
  - The argparse `choices` are exactly the table keys.
- **Guppy** (`guppy.dfy`): `get_guppy_command` and `listToString`.
  - The command is built as a list of tagged arguments: a word the builder
    writes, a user value, or a table entry.
  - That list is rendered to the script's exact strings.
  - Lemmas fix the position of every element and the number of times each
    flag occurs. They cover the device choice, the chunk value default and
    the placement of `--resume`.
  - Further lemmas fix the shape of the space-joined string at both ends.
- **Arguments** (`arguments.dfy`): `check_arguments`.
  - Names are lower-cased, then checked against the tables.
  - The input must be a directory, and the output directory must not be a
    file.
  - A missing output directory is created and an existing one is listed;
    either step can fail.
  - Filesystem answers are inputs (`FsFacts`), and each error is a `Result`.
- **Pipeline** (`pipeline.dfy`): the body of `main`.
  - Argparse's `choices` come first: a kit or model not spelled exactly as a
    choice, or a switch other than `on`/`off`, ends the program.
  - Output directory normalisation and the three working directories.
  - Which stages are selected and in what order.
  - The run aborts at the first failing command.
  - The Guppy command is wired to the validated names and the basecalled
    directory.
- **Strings**, **Sequences**, **Wrappers**: ASCII case mapping, `" ".join`,
  a first-index search, and `Option`/`Result`.

Inputs the model takes as parameters:

- The filesystem facts (`FsFacts`).
- Whether each shell command fails (`failing`, a set of stages).
- The absolute paths `os.path.abspath` returns.

Two behaviours of the code are modelled as written:

- The Filtlong version check runs only when `--filtlong` equals `no`, a value
  argparse never admits.
- In the no-barcode case, the filter stage names an undefined variable, so
  that stage always fails.

## Model

| member | source | states |
|---|---|---|
| Tables.ModelFlags | ont-basecalling.py:36-46 | every `BASECALLING` entry is a list of exactly one flag |
| Tables.KitFlags | ont-basecalling.py:48-57 | every `BARCODING` entry is a list of exactly one flag |
| Tables.FlagShapes | ont-basecalling.py:36-57 | model flags start with `--config ` and end in a space; a kit flag is `--disable_trim_barcodes` exactly for `none` and starts with `--barcode_kits "` exactly for the real kits |
| Tables.ModelKeys | ont-basecalling.py:128 | the model key list has one entry per table row, holds every model's key, repeats no key and has no capitals |
| Tables.KitKeys | ont-basecalling.py:123 | the kit key list has one entry per table row, holds every kit's key, repeats no key and has no capitals |
| Tables.ModelKeyList | ont-basecalling.py:36-46 | a list with each model's key at its table position holds every key exactly once, in lower case |
| Tables.KitKeyList | ont-basecalling.py:48-57 | a list with each kit's key at its table position holds every key exactly once, in lower case |
| Tables.LookupModel | ont-basecalling.py:157 | a model is found exactly when the key is in the table, and the model found has that key |
| Tables.LookupKit | ont-basecalling.py:158 | a kit is found exactly when the key is in the table, and the kit found has that key |
| Tables.ModelKeysWellFormed | ont-basecalling.py:36-46 | every model's key is in the table; distinct models have distinct keys; keys contain no capitals |
| Tables.KitKeysWellFormed | ont-basecalling.py:48-57 | every kit's key is in the table; distinct kits have distinct keys; keys contain no capitals |
| Tables.LookupModelRoundTrip | ont-basecalling.py:36-46 | looking up a model's key finds that model, and finds it for no other key |
| Tables.LookupKitRoundTrip | ont-basecalling.py:48-57 | looking up a kit's key finds that kit, and finds it for no other key |
| Tables.ConfigFileInjective | ont-basecalling.py:36-46 | distinct models name distinct Guppy configuration files |
| Tables.KitProfileInjective | ont-basecalling.py:48-57 | distinct real kits name distinct barcode profiles |
| Tables.ModelFlagInjective | ont-basecalling.py:36-46 | distinct models contribute distinct flag strings |
| Tables.KitFlagInjective | ont-basecalling.py:48-57 | distinct kits contribute distinct flag strings |
| Tables.ModelFlagNotKitFlag | ont-basecalling.py:36-57 | no model flag equals any kit flag |
| Tables.ChoicesAreTableKeys | ont-basecalling.py:73-74 | the argparse choices for model and kit are exactly the keys of the two tables |
| Sequences.IndexOf | ont-basecalling.py:125 | the index found holds the element and no earlier index does; none is found exactly when the element is absent |
| Strings.ToLower | ont-basecalling.py:124 | lower-casing keeps the length and maps every character |
| Strings.ToLowerIdempotent | ont-basecalling.py:124 | lower-casing leaves no capital and is idempotent |
| Strings.ToLowerFixedPoint | ont-basecalling.py:129 | a string is unchanged by lower-casing exactly when it has no capital |
| Strings.LowerUndoesUpper | ont-basecalling.py:124 | lower-casing undoes upper-casing of a string without capitals |
| Strings.Join | ont-basecalling.py:218-222 | `" ".join`: a non-empty join begins with its first element |
| Strings.JoinLength | ont-basecalling.py:218-222 | the joined string is the elements' total length plus one separator per neighbouring pair |
| Strings.JoinPiece | ont-basecalling.py:218-222 | each element occurs in the joined string at its offset, preceded by a space unless it is first |
| Strings.JoinCons | ont-basecalling.py:218-222 | the join is the first element, a space, and the join of the rest |
| Strings.JoinSplit | ont-basecalling.py:218-222 | the join is the first k elements each followed by a space, then the join of the rest |
| Strings.JoinFirstNine | ont-basecalling.py:218-222 | the first nine elements of a join, each followed by a space, precede the join of the rest |
| Strings.JoinLastTwo | ont-basecalling.py:218-222 | the last two elements of a join follow the join of the rest, each after a space |
| Strings.JoinLastThree | ont-basecalling.py:218-222 | the last three elements of a join follow the join of the rest, each after a space |
| Guppy.ChunkValue | ont-basecalling.py:164-167 | the chunk value is never empty; it is the override when that is given and non-empty, and `300` otherwise |
| Guppy.GuppyArgs | ont-basecalling.py:151-170 | the described command: the chunk flag at its device-dependent slot followed by the chunk value, and `--resume` last exactly when resuming |
| Guppy.GuppyCommand | ont-basecalling.py:151-173 | the command has 12 elements on CPU and 13 on GPU, plus one when resuming |
| Guppy.CommandPrefix | ont-basecalling.py:152-156 | the command opens with the program name and the base flags, with the two paths after their flags |
| Guppy.CommandPaths | ont-basecalling.py:152-156 | the input path is element 2 and the save path element 5, each right after its flag |
| Guppy.CommandTableEntries | ont-basecalling.py:157-158 | element 7 is the model's table entry and element 8 the kit's |
| Guppy.CommandDevice | ont-basecalling.py:159-162 | on CPU element 9 is the caller count; otherwise elements 9 and 10 are the CUDA device flag and its value |
| Guppy.CommandTail | ont-basecalling.py:164-170 | the chunk flag and its value follow the device choice; the last element is `--resume` when resuming and the chunk value otherwise |
| Guppy.FlagTextIdentifies | ont-basecalling.py:151-173 | apart from user values, two arguments have the same text exactly when they are the same argument |
| Guppy.AbsolutePathIsNoFlag | ont-basecalling.py:246-253 | a path beginning with `/`, as both absolute paths handed to the builder do, never has the text of a builder word or table entry |
| Guppy.ValueArgs | ont-basecalling.py:151-173 | the only user values in the command are the two paths and the chunk value |
| Guppy.FlagPositions | ont-basecalling.py:151-173 | a flag's text occurs in the rendered list exactly where the flag occurs, if no user value has that text |
| Guppy.ModelFlagPositions | ont-basecalling.py:157 | the chosen model's flag occurs exactly once, at element 7, and no other model's flag occurs |
| Guppy.KitFlagPositions | ont-basecalling.py:158 | the chosen kit's flag occurs exactly once, at element 8, and no other kit's flag occurs; kit `none` gives `--disable_trim_barcodes` and no `--barcode_kits` |
| Guppy.WordPositions | ont-basecalling.py:151-173 | each builder word occurs exactly at its reference slots: caller count only on CPU, device flag only on GPU, the chunk flag once, `--resume` last and only when resuming |
| Guppy.CommandLine | ont-basecalling.py:218-222 | `listToString`: the shell string begins with the program name and ends with the last argument |
| Guppy.CommandLineStart | ont-basecalling.py:218-222 | the shell string starts with the program, base flags, paths and both table entries, each followed by a space |
| Guppy.CommandLineEnd | ont-basecalling.py:164-170 | the shell string ends with the chunk flag and value, then ` --resume` exactly when resuming |
| Arguments.OutdirNoteOf | ont-basecalling.py:138-146 | a missing directory is created unless creation fails; an existing one is listed unless listing fails, and the note says whether it has entries; it succeeds exactly when the needed step succeeds |
| Arguments.CheckArguments | ont-basecalling.py:121-148 | the first failing check decides the error, each error stated as an iff: kit, model, input directory, output path a file, creating a missing directory, listing an existing one; acceptance happens exactly when all pass, yields the entries whose keys are the lower-cased names, and carries the note the output directory step gives |
| Arguments.AnyCasingAccepted | ont-basecalling.py:124-131 | names typed in capitals are validated exactly as their lower-case keys are |
| Arguments.CheckedNamesRoundTrip | ont-basecalling.py:121-131 | validation yields a given kit and model exactly when the lower-cased names are their keys |
| Arguments.ChoicesAreExactKeys | ont-basecalling.py:73-74 | a name from the argparse choices is a table key and is unchanged by lower-casing |
| Arguments.ChoicesPassNameChecks | ont-basecalling.py:121-131 | names from the argparse choices always pass the name checks, so only the path checks can reject, and the entries found carry exactly those names |
| Pipeline.NormaliseOutdir | ont-basecalling.py:246-248 | the result ends in `/`, extends the input by at most one character, and is the input when that already ends in `/` |
| Pipeline.NormaliseIdempotent | ont-basecalling.py:246-248 | normalising twice is normalising once |
| Pipeline.NormaliseShortest | ont-basecalling.py:246-248 | the result is the shortest extension of the path that ends in `/`, and the only one of that length |
| Pipeline.OutputLayout | ont-basecalling.py:253-255 | the three working directories lie under the normalised output directory and end in `/` |
| Pipeline.LayoutSeparate | ont-basecalling.py:253-255 | no working directory is a prefix of another |
| Pipeline.Stages | ont-basecalling.py:243-296 | the stage plan: basecalling comes first, after the Filtlong version check only when `--filtlong` is `no`, and merging right after it in the kit's mode |
| Pipeline.StageSelection | ont-basecalling.py:243-296 | each stage is selected by its own condition: version check on `no`, merge mode by kit, rename on kit and key file, filter unless `off`, count unless `off` |
| Pipeline.StagesOrdered | ont-basecalling.py:240-296 | the selected stages follow script order, each at most once |
| Pipeline.NoFiltlongVersionCheck | ont-basecalling.py:243 | with the admitted values `on` and `off`, the Filtlong version check never runs, and filtering runs exactly on `on` |
| Pipeline.Fails | ont-basecalling.py:286-288 | a stage fails when its command fails (`run_command` raising, lines 100-102); the no-barcode filter stage, which names the undefined `cat_fastq`, fails always |
| Pipeline.Run | ont-basecalling.py:92-102 | the attempted stages are a prefix of the plan; all but possibly the last completed; the uncompleted last one failed; with no failure, everything completed |
| Pipeline.RunStopsAtFirstFailure | ont-basecalling.py:92-102 | the run attempts up to and including the first failing stage and completes exactly the stages before it |
| Pipeline.RunWithoutFailure | ont-basecalling.py:92-102 | without a failing stage every stage is attempted and completed |
| Pipeline.RunNeverPassesFailure | ont-basecalling.py:92-102 | nothing after a failing stage is attempted, and that stage is not completed |
| Pipeline.BasecallFailureStopsRun | ont-basecalling.py:266-267 | when basecalling fails, no later stage is attempted and basecalling does not complete |
| Pipeline.NoBarcodeFilterEndsRun | ont-basecalling.py:286-288 | without barcodes and with filtering on, the filter never completes and read counting is never attempted |
| Pipeline.GuppyCommandByName | ont-basecalling.py:157-158 | indexing by name fails exactly when a name is not a key, and reports the model name first |
| Pipeline.GuppyCommandByKeys | ont-basecalling.py:151-158 | indexing by a kit's and a model's keys builds the command for that kit and model |
| Pipeline.ArgparseAccepts | ont-basecalling.py:73-82 | the `choices` argparse enforces: an admitted kit or model name is an exact lower-case table key, and `--filtlong` is never `no` |
| Pipeline.Main | ont-basecalling.py:239-296 | argparse rejects exactly the names and switches outside its choices; a failed Guppy version check then ends the program before validation; rejection happens exactly when validation fails, with validation's error; a run uses the entries named by the lower-cased options and runs exactly the stages those options select |
| Pipeline.MainNamesExact | ont-basecalling.py:73-74 | after argparse, validation never rejects a name, and the entries used are the ones named exactly on the command line |
| Pipeline.MainBasecallFailure | ont-basecalling.py:266-267 | when basecalling fails, the program attempts no stage after it and basecalling does not complete |
| Pipeline.MainSkipsFiltlongVersionCheck | ont-basecalling.py:243-244 | the program never attempts the Filtlong version check, and selects filtering exactly when `--filtlong` is `on` |
| Pipeline.MainCommand | ont-basecalling.py:246-266 | the command run is the one built from the lower-cased names, reading the input path and saving to `002_basecalled/` under the normalised output directory |

## Left out

- Shell execution: the merge, filter, rename and count pipelines are left
  out, and so are globbing and `subprocess.call`. A stage is only its
  decision to run, and whether its command fails is an input.
- Output text: log and print messages, and the text of errors.
- `read_key_file` and `rename_samples`: they read a CSV file and rename files
  on disk. Only the decision to rename is modelled.
- Filesystem effects: creating the output directory, `is_dir`, `is_file`,
  `exists`, `listdir` and `abspath`. Their answers are inputs, including
  whether `makedirs` and `listdir` succeed.
  - `NormaliseOutdir` requires a non-empty path because `abspath` never
    returns an empty string.
- Argparse parsing and the Python version check are left out. Only argparse's
  `choices` check is modelled, as `Pipeline.ArgparseAccepts`; the paths,
  `--cpu`, `--resume`, the key file and the chunk value are taken as parsed.
- The failure mode of errors: `check_arguments` formats its errors with
  names the script never defines (`join_with_or`, `args.in_dir`), and
  `run_command` raises the undefined `CommandError`. In Python these end the
  program with a different exception than intended. The model records only
  which check or stage ended the run.
- `Strings.ToLower`: models `str.lower()` for ASCII letters only and leaves
  other characters unchanged. No name is judged differently because of this.
  Python lower-cases only two non-ASCII characters to ASCII ones: the Kelvin
  sign becomes `k`, which no key contains, and `İ` becomes `i` followed by
  U+0307, which no key contains either.
- `Arguments.AnyCasingAccepted`: describes `check_arguments` on its own. In
  the program, argparse (lines 73-74) has already required the exact
  lower-case choices, so capitals never reach it.
- The directory `check_arguments` returns is left out. `main` ignores it.
- `check_guppy_version` is modelled as a stage that may fail before
  validation. Its output file is left out.
- `Guppy.ModelFlagPositions`: assumes that neither path nor the chunk value
  is itself the flag in question.
- `Guppy.KitFlagPositions`: assumes that neither path nor the chunk value is
  itself the flag in question. With kit `none` and the chunk value
  `--disable_trim_barcodes`, that flag occurs twice.
- `Guppy.WordPositions`: assumes that neither path nor the chunk value is
  itself the word in question.
- In `main` only the chunk value can collide: both paths handed to the
  builder are absolute (lines 246-253) and so begin with `/`, which no flag
  does (`Guppy.AbsolutePathIsNoFlag`). A `--chunks_per_runner` value
  spelled as a flag, such as `--resume`, makes that flag occur once more.
