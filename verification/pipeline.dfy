/** The driver: where the output goes, which stages run and in what order,
    and how one failing shell command ends the run. The shell pipelines
    themselves are not modelled; a stage is only its decision to run, and
    whether its command fails is an input. */
module Pipeline {
  import opened Wrappers
  import opened Strings
  import opened Tables
  import opened Guppy
  import opened Arguments

  /* ---------- Output directory and layout ---------- */

  /** The absolute output directory with a trailing `/` added when missing.
      An absolute path is never empty, hence the precondition. */
  function NormaliseOutdir(p: string): (r: string)
    requires p != ""
    ensures EndsWith(r, "/")
    ensures p <= r && |r| <= |p| + 1
    ensures EndsWith(p, "/") ==> r == p
  {
    if p[|p| - 1] != '/' then p + "/" else p
  }

  /** Normalising twice is normalising once. */
  lemma NormaliseIdempotent(p: string)
    requires p != ""
    ensures NormaliseOutdir(NormaliseOutdir(p)) == NormaliseOutdir(p)
  {
  }

  /** The normalised directory is the shortest extension of `p` that ends
      in `/`, and the only one of that length. */
  lemma NormaliseShortest(p: string, q: string)
    requires p != "" && p <= q && EndsWith(q, "/")
    ensures |NormaliseOutdir(p)| <= |q|
    ensures |NormaliseOutdir(p)| == |q| ==> NormaliseOutdir(p) == q
  {
    var r := NormaliseOutdir(p);
    if !EndsWith(p, "/") {
      assert p != q;
      assert |q| > |p|;
      if |q| == |r| {
        assert q[|p|] == '/';
        assert q == q[..|p|] + [q[|p|]];
      }
    }
  }

  /** The three working directories under the output directory. */
  datatype Layout = Layout(outdir: string, basecalled: string, fastq: string, filtered: string)

  const BasecalledName := "002_basecalled/"
  const FastqName := "003_fastq/"
  const FilteredName := "004_filtered/"

  function OutputLayout(outdirAbs: string): (l: Layout)
    requires outdirAbs != ""
    ensures l.outdir == NormaliseOutdir(outdirAbs)
    ensures l.outdir <= l.basecalled && l.outdir <= l.fastq && l.outdir <= l.filtered
    ensures EndsWith(l.basecalled, "/") && EndsWith(l.fastq, "/") && EndsWith(l.filtered, "/")
  {
    var o := NormaliseOutdir(outdirAbs);
    Layout(o, o + BasecalledName, o + FastqName, o + FilteredName)
  }

  /** The working directories are distinct and none lies inside another:
      they differ in the first character after the output directory's
      slash and its following digits. */
  lemma LayoutSeparate(outdirAbs: string)
    requires outdirAbs != ""
    ensures var l := OutputLayout(outdirAbs);
            !(l.basecalled <= l.fastq) && !(l.fastq <= l.basecalled)
            && !(l.basecalled <= l.filtered) && !(l.filtered <= l.basecalled)
            && !(l.fastq <= l.filtered) && !(l.filtered <= l.fastq)
  {
    var l := OutputLayout(outdirAbs);
    var n := |l.outdir|;
    assert l.basecalled[n + 2] == '2';
    assert l.fastq[n + 2] == '3';
    assert l.filtered[n + 2] == '4';
  }

  /* ---------- Stages ---------- */

  /** How merging (and filtering) treats the basecalled reads: all into one
      file when no kit was used, one file per barcode otherwise. */
  datatype MergeMode = ConcatenateAll | PerBarcode

  /** The shell commands the run may issue, in their order in the script. */
  datatype Stage =
    | GuppyVersionCheck
    | FiltlongVersionCheck
    | Basecall
    | Merge(mergeMode: MergeMode)
    | RenameSamples
    | Filter(filterMode: MergeMode)
    | CountReads

  /** The position of a stage in the script. */
  function Rank(s: Stage): nat
  {
    match s
    case GuppyVersionCheck => 0
    case FiltlongVersionCheck => 1
    case Basecall => 2
    case Merge(_) => 3
    case RenameSamples => 4
    case Filter(_) => 5
    case CountReads => 6
  }

  /** The validated options that choose stages: the kit, whether a key file
      was given, and the raw `--filtlong` and `--fast_count` values. */
  datatype Switches = Switches(kit: Kit, keyFileGiven: bool, filtlong: string, fastCount: string)

  function ModeOf(kit: Kit): MergeMode
  {
    if kit == NoBarcodes then ConcatenateAll else PerBarcode
  }

  /** The stages after validation, in script order. */
  function Stages(sw: Switches): (plan: seq<Stage>)
    ensures var k := if sw.filtlong == "no" then 1 else 0;
            k + 2 <= |plan| && plan[k] == Basecall && plan[k + 1] == Merge(ModeOf(sw.kit))
  {
    var mode := ModeOf(sw.kit);
    (if sw.filtlong == "no" then [FiltlongVersionCheck] else [])
    + [Basecall, Merge(mode)]
    + (if sw.kit != NoBarcodes && sw.keyFileGiven then [RenameSamples] else [])
    + (if sw.filtlong != "off" then [Filter(mode)] else [])
    + (if sw.fastCount != "off" then [CountReads] else [])
  }

  /** Which stages are selected, each by its own condition: the Filtlong
      version check when `--filtlong` is `no`; basecalling always; merging
      always, per barcode exactly when a kit was used; renaming when a kit
      was used and a key file given; filtering unless `--filtlong` is `off`;
      counting unless `--fast_count` is `off`. */
  lemma StageSelection(sw: Switches)
    ensures FiltlongVersionCheck in Stages(sw) <==> sw.filtlong == "no"
    ensures Basecall in Stages(sw)
    ensures forall md :: Merge(md) in Stages(sw) <==> md == ModeOf(sw.kit)
    ensures Merge(PerBarcode) in Stages(sw) <==> sw.kit != NoBarcodes
    ensures RenameSamples in Stages(sw) <==> sw.kit != NoBarcodes && sw.keyFileGiven
    ensures forall md :: Filter(md) in Stages(sw) <==> md == ModeOf(sw.kit) && sw.filtlong != "off"
    ensures CountReads in Stages(sw) <==> sw.fastCount != "off"
    ensures GuppyVersionCheck !in Stages(sw)
  {
  }

  /** The selected stages appear in script order, each at most once. */
  lemma StagesOrdered(sw: Switches)
    ensures forall i, j :: 0 <= i < j < |Stages(sw)| ==> Rank(Stages(sw)[i]) < Rank(Stages(sw)[j])
  {
  }

  /** With the values `--filtlong` accepts, `on` and `off`, the Filtlong
      version check never runs. */
  lemma NoFiltlongVersionCheck(sw: Switches)
    requires sw.filtlong == "on" || sw.filtlong == "off"
    ensures FiltlongVersionCheck !in Stages(sw)
    ensures Filter(ModeOf(sw.kit)) in Stages(sw) <==> sw.filtlong == "on"
  {
    StageSelection(sw);
  }

  /* ---------- Running ---------- */

  /** Whether a stage's command fails. The filter command for runs without
      barcodes names a variable that is never defined, so that stage fails
      whatever the filesystem holds; every other stage fails when the
      environment makes it fail, given as `failing`. */
  predicate Fails(s: Stage, failing: set<Stage>): (b: bool)
    ensures s in failing ==> b
    ensures s == Filter(ConcatenateAll) ==> b
  {
    s in failing || s == Filter(ConcatenateAll)
  }

  /** The stages attempted and those that finished. */
  datatype RunOutcome = RunOutcome(attempted: seq<Stage>, completed: seq<Stage>)

  /** Running stages in order; the first failing command raises and ends
      the program. */
  function Run(stages: seq<Stage>, failing: set<Stage>): (o: RunOutcome)
    ensures o.attempted <= stages
    ensures o.completed <= o.attempted
    ensures |o.completed| <= |o.attempted| <= |o.completed| + 1
    ensures forall i :: 0 <= i < |o.completed| ==> !Fails(o.completed[i], failing)
    ensures |o.attempted| == |o.completed| + 1 ==> Fails(o.attempted[|o.completed|], failing)
    ensures |o.attempted| == |o.completed| ==> o.completed == stages
  {
    if |stages| == 0 then RunOutcome([], [])
    else if Fails(stages[0], failing) then RunOutcome([stages[0]], [])
    else
      var rest := Run(stages[1..], failing);
      assert stages == [stages[0]] + stages[1..];
      RunOutcome([stages[0]] + rest.attempted, [stages[0]] + rest.completed)
  }

  /** The run ends exactly at the first failing stage: everything before it
      completes, it is attempted, and nothing after it is. */
  lemma {:induction false} RunStopsAtFirstFailure(stages: seq<Stage>, failing: set<Stage>, k: nat)
    requires k < |stages| && Fails(stages[k], failing)
    requires forall j :: 0 <= j < k ==> !Fails(stages[j], failing)
    ensures Run(stages, failing) == RunOutcome(stages[..k + 1], stages[..k])
    decreases k
  {
    if k == 0 {
      assert stages[..1] == [stages[0]];
      assert stages[..0] == [];
    } else {
      var rest := stages[1..];
      assert !Fails(stages[0], failing);
      forall j | 0 <= j < k - 1
        ensures !Fails(rest[j], failing)
      {
        assert rest[j] == stages[j + 1];
      }
      assert rest[k - 1] == stages[k];
      RunStopsAtFirstFailure(rest, failing, k - 1);
      var r := Run(rest, failing);
      assert Run(stages, failing) == RunOutcome([stages[0]] + r.attempted, [stages[0]] + r.completed);
      assert stages[..k + 1] == [stages[0]] + rest[..k];
      assert stages[..k] == [stages[0]] + rest[..k - 1];
    }
  }

  /** Without a failing stage, everything is attempted and completed. */
  lemma {:induction false} RunWithoutFailure(stages: seq<Stage>, failing: set<Stage>)
    requires forall j :: 0 <= j < |stages| ==> !Fails(stages[j], failing)
    ensures Run(stages, failing) == RunOutcome(stages, stages)
  {
    if |stages| > 0 {
      RunWithoutFailure(stages[1..], failing);
      assert stages == [stages[0]] + stages[1..];
    }
  }

  /** When basecalling fails, no later stage is attempted. */
  lemma BasecallFailureStopsRun(sw: Switches, failing: set<Stage>)
    requires Basecall in failing
    ensures forall s :: s in Run(Stages(sw), failing).attempted ==> Rank(s) <= Rank(Basecall)
    ensures Run(Stages(sw), failing).completed == Stages(sw)[..|Run(Stages(sw), failing).completed|]
    ensures Basecall !in Run(Stages(sw), failing).completed
  {
    var st := Stages(sw);
    StageSelection(sw);
    StagesOrdered(sw);
    var k := if sw.filtlong == "no" then 1 else 0;
    assert st[k] == Basecall;
    if k == 1 && FiltlongVersionCheck in failing {
      RunStopsAtFirstFailure(st, failing, 0);
    } else {
      RunStopsAtFirstFailure(st, failing, k);
    }
  }

  /** A failing stage bounds the run: nothing after it is attempted and
      it does not complete. */
  lemma {:induction false} RunNeverPassesFailure(stages: seq<Stage>, failing: set<Stage>, f: nat)
    requires f < |stages| && Fails(stages[f], failing)
    ensures |Run(stages, failing).attempted| <= f + 1
    ensures |Run(stages, failing).completed| <= f
    decreases f
  {
    if f > 0 && !Fails(stages[0], failing) {
      RunNeverPassesFailure(stages[1..], failing, f - 1);
    }
  }

  /** Without barcodes and with filtering on, the filter stage always fails,
      so read counting is never reached. */
  lemma NoBarcodeFilterEndsRun(sw: Switches, failing: set<Stage>)
    requires sw.kit == NoBarcodes && sw.filtlong != "off"
    ensures Filter(ConcatenateAll) !in Run(Stages(sw), failing).completed
    ensures CountReads !in Run(Stages(sw), failing).attempted
  {
    var st := Stages(sw);
    var o := Run(st, failing);
    var f := if sw.filtlong == "no" then 3 else 2;
    assert st[f] == Filter(ConcatenateAll);
    RunNeverPassesFailure(st, failing, f);
    assert o.attempted == st[..|o.attempted|];
    assert o.completed == st[..|o.completed|];
  }

  /* ---------- The Guppy command by name and the whole run ---------- */

  /** `get_guppy_command` applied to table keys: indexing a table with an
      unknown key raises, naming that key; the model table is indexed
      first. */
  function GuppyCommandByName(inputDir: string, saveDir: string, kitName: string, modelName: string,
                              resume: bool, cpu: bool, chunks: Option<string>): (r: Result<seq<string>, string>)
    ensures r.Err? <==> modelName !in ModelKeys() || kitName !in KitKeys()
    ensures r.Err? ==> r.error == (if modelName !in ModelKeys() then modelName else kitName)
  {
    match LookupModel(modelName)
    case None => Err(modelName)
    case Some(model) =>
      match LookupKit(kitName)
      case None => Err(kitName)
      case Some(kit) => Ok(GuppyCommand(inputDir, saveDir, kit, model, resume, cpu, chunks))
  }

  /** Indexing by a kit's and a model's keys builds the command for that kit
      and model. */
  lemma GuppyCommandByKeys(inputDir: string, saveDir: string, k: Kit, m: Model,
                           resume: bool, cpu: bool, chunks: Option<string>)
    ensures GuppyCommandByName(inputDir, saveDir, KitKey(k), ModelKey(m), resume, cpu, chunks)
            == Ok(GuppyCommand(inputDir, saveDir, k, m, resume, cpu, chunks))
  {
    LookupKitRoundTrip(k, KitKey(k));
    LookupModelRoundTrip(m, ModelKey(m));
  }

  /** The options the run needs: names as typed, absolute paths, switches. */
  datatype Options = Options(kitArg: string, modelArg: string, inputDir: string, outdir: string,
                             keyFileGiven: bool, filtlong: string, fastCount: string,
                             resume: bool, cpu: bool, chunks: Option<string>)

  /** What argparse lets through: a kit and a model spelled exactly as one
      of their choices (case matters there), and `on` or `off` for the two
      switches. Anything else ends the program before any check runs. */
  predicate ArgparseAccepts(opts: Options): (b: bool)
    ensures b ==> ToLower(opts.kitArg) == opts.kitArg && opts.kitArg in KitKeys()
    ensures b ==> ToLower(opts.modelArg) == opts.modelArg && opts.modelArg in ModelKeys()
    ensures b ==> opts.filtlong != "no"
  {
    if opts.kitArg in KitChoices && opts.modelArg in ModelChoices then
      ChoicesAreExactKeys(opts.kitArg, opts.modelArg);
      (opts.filtlong == "on" || opts.filtlong == "off")
      && (opts.fastCount == "on" || opts.fastCount == "off")
    else false
  }

  /** How the program ends: argparse rejects the options, the Guppy version
      check fails, validation rejects the options, or the stages run with
      the Guppy command built from the validated names. */
  datatype MainOutcome =
    | UsageError
    | VersionCheckFailed
    | Rejected(error: ArgError)
    | Ran(checked: Checked, guppyCommand: seq<string>, run: RunOutcome)

  function SwitchesOf(opts: Options, kit: Kit): Switches
  {
    Switches(kit, opts.keyFileGiven, opts.filtlong, opts.fastCount)
  }

  /** `main`: parsing, the Guppy version check, validation, then the stages
      selected by the validated options, run until the first failure. */
  function Main(opts: Options, fs: FsFacts, failing: set<Stage>): (out: MainOutcome)
    requires opts.outdir != ""
    ensures out == UsageError <==> !ArgparseAccepts(opts)
    ensures out == VersionCheckFailed <==> ArgparseAccepts(opts) && GuppyVersionCheck in failing
    ensures out.Rejected? <==>
              ArgparseAccepts(opts) && GuppyVersionCheck !in failing
              && !Acceptable(opts.kitArg, opts.modelArg, fs)
    ensures out.Rejected? ==> CheckArguments(opts.kitArg, opts.modelArg, fs) == Err(out.error)
    ensures out.Ran? ==> KitKey(out.checked.kit) == ToLower(opts.kitArg)
                         && ModelKey(out.checked.model) == ToLower(opts.modelArg)
    ensures out.Ran? ==> out.run == Run(Stages(SwitchesOf(opts, out.checked.kit)), failing)
  {
    if !ArgparseAccepts(opts) then UsageError
    else if GuppyVersionCheck in failing then VersionCheckFailed
    else
      match CheckArguments(opts.kitArg, opts.modelArg, fs)
      case Err(e) => Rejected(e)
      case Ok(c) =>
        var layout := OutputLayout(opts.outdir);
        Ran(c,
            GuppyCommand(opts.inputDir, layout.basecalled, c.kit, c.model, opts.resume, opts.cpu, opts.chunks),
            Run(Stages(SwitchesOf(opts, c.kit)), failing))
  }

  /** Since argparse admits only exact table keys, validation never rejects
      a name, lower-casing changes nothing, and the entries used are the
      ones named on the command line. */
  lemma MainNamesExact(opts: Options, fs: FsFacts, failing: set<Stage>)
    requires opts.outdir != ""
    ensures var out := Main(opts, fs, failing);
            (out.Rejected? ==> out.error != UnknownBarcodeKit && out.error != UnknownModel)
            && (out.Ran? ==> KitKey(out.checked.kit) == opts.kitArg
                             && ModelKey(out.checked.model) == opts.modelArg)
  {
    var out := Main(opts, fs, failing);
    if out.Rejected? || out.Ran? {
      ChoicesAreExactKeys(opts.kitArg, opts.modelArg);
    }
  }

  /** When basecalling fails, the program attempts no merge, rename, filter
      or count stage, and basecalling does not complete. */
  lemma MainBasecallFailure(opts: Options, fs: FsFacts, failing: set<Stage>)
    requires opts.outdir != "" && Basecall in failing
    ensures var out := Main(opts, fs, failing);
            out.Ran? ==>
              (forall s :: s in out.run.attempted ==> Rank(s) <= Rank(Basecall))
              && Basecall !in out.run.completed
  {
    var out := Main(opts, fs, failing);
    if out.Ran? {
      BasecallFailureStopsRun(SwitchesOf(opts, out.checked.kit), failing);
    }
  }

  /** The Filtlong version check is never attempted by the program, and
      filtering is selected exactly when `--filtlong` is `on`. */
  lemma MainSkipsFiltlongVersionCheck(opts: Options, fs: FsFacts, failing: set<Stage>)
    requires opts.outdir != ""
    ensures var out := Main(opts, fs, failing);
            out.Ran? ==>
              FiltlongVersionCheck !in out.run.attempted
              && (Filter(ModeOf(out.checked.kit)) in Stages(SwitchesOf(opts, out.checked.kit))
                  <==> opts.filtlong == "on")
  {
    var out := Main(opts, fs, failing);
    if out.Ran? {
      var sw := SwitchesOf(opts, out.checked.kit);
      NoFiltlongVersionCheck(sw);
      var st := Stages(sw);
      assert out.run.attempted <= st;
    }
  }

  /** After validation the command is the one `get_guppy_command` builds
      from the lower-cased names, reading from the input directory and
      saving into the basecalled directory under the normalised output
      directory. */
  lemma MainCommand(opts: Options, fs: FsFacts, failing: set<Stage>)
    requires opts.outdir != ""
    ensures var out := Main(opts, fs, failing);
            out.Ran? ==>
              Ok(out.guppyCommand) == GuppyCommandByName(opts.inputDir, OutputLayout(opts.outdir).basecalled,
                                                         ToLower(opts.kitArg), ToLower(opts.modelArg),
                                                         opts.resume, opts.cpu, opts.chunks)
              && out.guppyCommand[2] == opts.inputDir
              && out.guppyCommand[5] == NormaliseOutdir(opts.outdir) + BasecalledName
  {
    var out := Main(opts, fs, failing);
    if out.Ran? {
      var c := out.checked;
      var save := OutputLayout(opts.outdir).basecalled;
      GuppyCommandByKeys(opts.inputDir, save, c.kit, c.model, opts.resume, opts.cpu, opts.chunks);
      CommandPaths(opts.inputDir, save, c.kit, c.model, opts.resume, opts.cpu, opts.chunks);
    }
  }
}
