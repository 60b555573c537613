/** Validation of the command-line options before anything is run: the kit
    and model names are lower-cased and looked up in the tables, the input
    must be a directory, and the output directory must not be a file. The
    filesystem is not modelled; the facts the checks ask of it are inputs. */
module Arguments {
  import opened Wrappers
  import opened Strings
  import opened Tables

  /** Why validation stops the run: a name that is not a table key, an
      input that is not a directory, an output path that is a file, or an
      output directory that cannot be created or, when it exists, listed. */
  datatype ArgError =
    | UnknownBarcodeKit
    | UnknownModel
    | InputNotDirectory
    | OutdirIsFile
    | CannotCreateOutdir
    | CannotListOutdir

  /** What the filesystem answers about the two paths. `outdirCreatable`
      is whether creating a missing output directory succeeds;
      `outdirListable` is whether listing an existing one succeeds (it fails
      for a path that is neither file nor directory, or without permission). */
  datatype FsFacts = FsFacts(inputIsDir: bool, outdirIsFile: bool,
                             outdirExists: bool, outdirHasEntries: bool,
                             outdirCreatable: bool, outdirListable: bool)

  /** What validation reports about an acceptable output directory: it was
      missing and is created, or it exists with or without entries. */
  datatype OutdirNote = CreatedOutdir | OutdirNotEmpty | OutdirEmpty

  /** The validated options: the table entries the names denote, and the
      note about the output directory. */
  datatype Checked = Checked(kit: Kit, model: Model, note: OutdirNote)

  /** True when an output path that is not a file can be used: created when
      missing, listed when present. */
  predicate OutdirUsable(fs: FsFacts) {
    if fs.outdirExists then fs.outdirListable else fs.outdirCreatable
  }

  /** The handling of an output path that is not a file: a missing
      directory is created, an existing one is listed to report whether it
      has entries; either step may raise. */
  function OutdirNoteOf(fs: FsFacts): (r: Result<OutdirNote, ArgError>)
    ensures r.Ok? <==> OutdirUsable(fs)
    ensures r == Err(CannotCreateOutdir) <==> !fs.outdirExists && !fs.outdirCreatable
    ensures r == Err(CannotListOutdir) <==> fs.outdirExists && !fs.outdirListable
    ensures r == Ok(CreatedOutdir) <==> !fs.outdirExists && fs.outdirCreatable
    ensures r == Ok(OutdirNotEmpty) <==> fs.outdirExists && fs.outdirListable && fs.outdirHasEntries
    ensures r == Ok(OutdirEmpty) <==> fs.outdirExists && fs.outdirListable && !fs.outdirHasEntries
  {
    if !fs.outdirExists then
      if fs.outdirCreatable then Ok(CreatedOutdir) else Err(CannotCreateOutdir)
    else if !fs.outdirListable then Err(CannotListOutdir)
    else if fs.outdirHasEntries then Ok(OutdirNotEmpty)
    else Ok(OutdirEmpty)
  }

  /** True when both names are, once lower-cased, table keys. */
  predicate NamesKnown(kitArg: string, modelArg: string) {
    ToLower(kitArg) in KitKeys() && ToLower(modelArg) in ModelKeys()
  }

  /** True when the options pass every check. */
  predicate Acceptable(kitArg: string, modelArg: string, fs: FsFacts) {
    NamesKnown(kitArg, modelArg) && fs.inputIsDir && !fs.outdirIsFile && OutdirUsable(fs)
  }

  /** The checks in their order: kit, model, input directory, output
      directory. The first that fails decides the error. */
  function CheckArguments(kitArg: string, modelArg: string, fs: FsFacts): (r: Result<Checked, ArgError>)
    ensures r == Err(UnknownBarcodeKit) <==> ToLower(kitArg) !in KitKeys()
    ensures r == Err(UnknownModel) <==>
              ToLower(kitArg) in KitKeys() && ToLower(modelArg) !in ModelKeys()
    ensures r == Err(InputNotDirectory) <==> NamesKnown(kitArg, modelArg) && !fs.inputIsDir
    ensures r == Err(OutdirIsFile) <==> NamesKnown(kitArg, modelArg) && fs.inputIsDir && fs.outdirIsFile
    ensures r == Err(CannotCreateOutdir) <==>
              NamesKnown(kitArg, modelArg) && fs.inputIsDir && !fs.outdirIsFile
              && !fs.outdirExists && !fs.outdirCreatable
    ensures r == Err(CannotListOutdir) <==>
              NamesKnown(kitArg, modelArg) && fs.inputIsDir && !fs.outdirIsFile
              && fs.outdirExists && !fs.outdirListable
    ensures r.Ok? <==> Acceptable(kitArg, modelArg, fs)
    ensures r.Ok? ==> KitKey(r.value.kit) == ToLower(kitArg)
                      && ModelKey(r.value.model) == ToLower(modelArg)
    ensures r.Ok? ==> (r.value.note == CreatedOutdir <==> !fs.outdirExists)
    ensures r.Ok? ==> (r.value.note == OutdirNotEmpty <==> fs.outdirExists && fs.outdirHasEntries)
    ensures r.Ok? ==> Ok(r.value.note) == OutdirNoteOf(fs)
  {
    match LookupKit(ToLower(kitArg))
    case None => Err(UnknownBarcodeKit)
    case Some(kit) =>
      match LookupModel(ToLower(modelArg))
      case None => Err(UnknownModel)
      case Some(model) =>
        if !fs.inputIsDir then Err(InputNotDirectory)
        else if fs.outdirIsFile then Err(OutdirIsFile)
        else
          match OutdirNoteOf(fs)
          case Err(e) => Err(e)
          case Ok(note) => Ok(Checked(kit, model, note))
  }

  /** The names are matched without regard to case: a kit and a model named
      in capitals are accepted exactly as their table keys are, and denote
      the same entries. */
  lemma AnyCasingAccepted(k: Kit, m: Model, fs: FsFacts)
    ensures CheckArguments(ToUpper(KitKey(k)), ToUpper(ModelKey(m)), fs)
            == CheckArguments(KitKey(k), ModelKey(m), fs)
    ensures fs.inputIsDir && !fs.outdirIsFile && OutdirUsable(fs) ==>
            CheckArguments(ToUpper(KitKey(k)), ToUpper(ModelKey(m)), fs)
            == Ok(Checked(k, m, OutdirNoteOf(fs).value))
  {
    KitKeysWellFormed(k, k);
    ModelKeysWellFormed(m, m);
    LowerUndoesUpper(KitKey(k));
    LowerUndoesUpper(ModelKey(m));
    ToLowerFixedPoint(KitKey(k));
    ToLowerFixedPoint(ModelKey(m));
    LookupKitRoundTrip(k, KitKey(k));
    LookupModelRoundTrip(m, ModelKey(m));
  }

  /** Validation accepts a kit name exactly when it is, up to case, the key
      of some kit, and then reports that kit; likewise for models. */
  lemma CheckedNamesRoundTrip(kitArg: string, modelArg: string, fs: FsFacts, k: Kit, m: Model)
    requires fs.inputIsDir && !fs.outdirIsFile && OutdirUsable(fs)
    ensures CheckArguments(kitArg, modelArg, fs) == Ok(Checked(k, m, OutdirNoteOf(fs).value))
            <==> ToLower(kitArg) == KitKey(k) && ToLower(modelArg) == ModelKey(m)
  {
    LookupKitRoundTrip(k, ToLower(kitArg));
    LookupModelRoundTrip(m, ToLower(modelArg));
  }

  /** A name offered as a choice is its own lower-cased form and a table
      key. */
  lemma ChoicesAreExactKeys(kitArg: string, modelArg: string)
    requires kitArg in KitChoices && modelArg in ModelChoices
    ensures ToLower(kitArg) == kitArg && kitArg in KitKeys()
    ensures ToLower(modelArg) == modelArg && modelArg in ModelKeys()
  {
    ChoicesAreTableKeys(kitArg);
    ChoicesAreTableKeys(modelArg);
    var k := LookupKit(kitArg).value;
    var m := LookupModel(modelArg).value;
    KitKeysWellFormed(k, k);
    ModelKeysWellFormed(m, m);
    ToLowerFixedPoint(kitArg);
    ToLowerFixedPoint(modelArg);
  }

  /** Every name the command line offers as a choice passes the kit and
      model checks, so with these names only the two path checks can
      reject. */
  lemma ChoicesPassNameChecks(kitArg: string, modelArg: string, fs: FsFacts)
    requires kitArg in KitChoices && modelArg in ModelChoices
    ensures CheckArguments(kitArg, modelArg, fs).Ok? <==>
            fs.inputIsDir && !fs.outdirIsFile && OutdirUsable(fs)
    ensures CheckArguments(kitArg, modelArg, fs).Ok? ==>
            KitKey(CheckArguments(kitArg, modelArg, fs).value.kit) == kitArg
            && ModelKey(CheckArguments(kitArg, modelArg, fs).value.model) == modelArg
  {
    ChoicesAreExactKeys(kitArg, modelArg);
  }
}
