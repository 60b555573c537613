/** The `guppy_basecaller` invocation: the argument list the script builds
    and the single space-joined string it hands to the shell.

    Each element of the list is described by where its text comes from: a
    word the builder writes itself, a value (a path or the chunk count), or
    a table entry. `GuppyCommand` renders that description to the exact
    strings of the script. */
module Guppy {
  import opened Wrappers
  import opened Strings
  import opened Tables

  /** The words the builder writes itself. */
  datatype Word =
    | Program | InputPath | Recursive | SavePath | CompressFastq
    | NumCallers | Device | AllGpus | ChunksPerRunner | Resume

  /** One element of the argument list. */
  datatype Arg =
    | Fixed(word: Word)
    | Value(text: string)
    | ConfigEntry(model: Model)
    | KitEntry(kit: Kit)

  function WordText(w: Word): string
  {
    match w
    case Program => "guppy_basecaller"
    case InputPath => "--input_path "
    case Recursive => "--recursive "
    case SavePath => "--save_path "
    case CompressFastq => "--compress_fastq "
    case NumCallers => "--num_callers 6"
    case Device => "--device "
    case AllGpus => "cuda:all:100%"
    case ChunksPerRunner => "--chunks_per_runner "
    case Resume => "--resume"
  }

  /** The string an argument contributes to the list. */
  function ArgText(a: Arg): string
  {
    match a
    case Fixed(w) => WordText(w)
    case Value(t) => t
    case ConfigEntry(m) => ModelFlag(m)
    case KitEntry(k) => KitFlag(k)
  }

  /** Chunks per runner used when the option is not given. */
  const DefaultChunks := "300"

  /** The value following `--chunks_per_runner `: the override when it is
      truthy in Python (given and non-empty), the default otherwise. The
      command therefore never carries an empty chunk value. */
  function ChunkValue(chunks: Option<string>): (v: string)
    ensures v != ""
    ensures chunks.Some? && chunks.value != "" ==> v == chunks.value
    ensures chunks.None? || chunks.value == "" ==> v == DefaultChunks
  {
    match chunks
    case Some(c) => if c != "" then c else DefaultChunks
    case None => DefaultChunks
  }

  /** Index of `--chunks_per_runner ` in the list: the CPU flag takes one
      slot, the GPU device selection two. */
  function ChunkSlot(cpu: bool): nat { if cpu then 10 else 11 }

  /** Exactly one device selection: the caller count on CPU, otherwise the
      CUDA device flag and its value. */
  function DeviceArgs(cpu: bool): seq<Arg>
  {
    if cpu then [Fixed(NumCallers)] else [Fixed(Device), Fixed(AllGpus)]
  }

  /** `get_guppy_command`, as a list of described arguments: base flags, the
      model's table entry, the kit's table entry, one device selection, the
      chunk setting, and `--resume` last when asked for. */
  function GuppyArgs(inputDir: string, saveDir: string, kit: Kit, model: Model,
                     resume: bool, cpu: bool, chunks: Option<string>): (args: seq<Arg>)
    ensures |args| == ChunkSlot(cpu) + 2 + (if resume then 1 else 0)
    ensures args[ChunkSlot(cpu)] == Fixed(ChunksPerRunner)
            && args[ChunkSlot(cpu) + 1] == Value(ChunkValue(chunks))
    ensures resume <==> args[|args| - 1] == Fixed(Resume)
  {
    [Fixed(Program), Fixed(InputPath), Value(inputDir), Fixed(Recursive),
     Fixed(SavePath), Value(saveDir), Fixed(CompressFastq),
     ConfigEntry(model), KitEntry(kit)]
    + DeviceArgs(cpu)
    + [Fixed(ChunksPerRunner), Value(ChunkValue(chunks))]
    + (if resume then [Fixed(Resume)] else [])
  }

  /** The strings of a described argument list, element by element. */
  function Render(args: seq<Arg>): seq<string>
  {
    seq(|args|, i requires 0 <= i < |args| => ArgText(args[i]))
  }

  /** `get_guppy_command`: the list of strings the script builds. */
  function GuppyCommand(inputDir: string, saveDir: string, kit: Kit, model: Model,
                        resume: bool, cpu: bool, chunks: Option<string>): (cmd: seq<string>)
    ensures |cmd| == ChunkSlot(cpu) + 2 + (if resume then 1 else 0)
  {
    Render(GuppyArgs(inputDir, saveDir, kit, model, resume, cpu, chunks))
  }

  /** The command opens with the program name and the base flags, with
      the input and save paths after their flags. */
  lemma CommandPrefix(inputDir: string, saveDir: string, kit: Kit, model: Model,
                      resume: bool, cpu: bool, chunks: Option<string>)
    ensures GuppyCommand(inputDir, saveDir, kit, model, resume, cpu, chunks)[..7]
            == ["guppy_basecaller", "--input_path ", inputDir, "--recursive ",
                "--save_path ", saveDir, "--compress_fastq "]
  {
  }

  /** Right after the base flags come the model's `BASECALLING` entry and
      then the kit's `BARCODING` entry. */
  lemma CommandTableEntries(inputDir: string, saveDir: string, kit: Kit, model: Model,
                            resume: bool, cpu: bool, chunks: Option<string>)
    ensures var cmd := GuppyCommand(inputDir, saveDir, kit, model, resume, cpu, chunks);
            cmd[7] == ModelFlag(model) && cmd[8] == KitFlag(kit)
  {
  }

  /** The device selection follows the table entries: the caller count on
      CPU, the CUDA device flag and its value otherwise. */
  lemma CommandDevice(inputDir: string, saveDir: string, kit: Kit, model: Model,
                      resume: bool, cpu: bool, chunks: Option<string>)
    ensures var cmd := GuppyCommand(inputDir, saveDir, kit, model, resume, cpu, chunks);
            (cpu ==> cmd[9] == "--num_callers 6") &&
            (!cpu ==> cmd[9] == "--device " && cmd[10] == "cuda:all:100%")
  {
  }

  /** The chunk flag and its value come next; `--resume` is the last
      element when requested, otherwise the chunk value is. */
  lemma CommandTail(inputDir: string, saveDir: string, kit: Kit, model: Model,
                    resume: bool, cpu: bool, chunks: Option<string>)
    ensures var cmd := GuppyCommand(inputDir, saveDir, kit, model, resume, cpu, chunks);
            cmd[ChunkSlot(cpu)] == "--chunks_per_runner " &&
            cmd[ChunkSlot(cpu) + 1] == ChunkValue(chunks) &&
            (resume ==> cmd[|cmd| - 1] == "--resume") &&
            (!resume ==> cmd[|cmd| - 1] == ChunkValue(chunks))
  {
  }

  /** Characters 2 to 4 of a string; they tell every word the builder writes
      and every kind of table entry apart. */
  function Signature(s: string): (char, char, char)
    requires |s| > 4
  {
    (s[2], s[3], s[4])
  }

  /** The signature of each word the builder writes. */
  lemma WordSignature(w: Word)
    ensures |WordText(w)| > 4
    ensures Signature(WordText(w)) !in {('c', 'o', 'n'), ('b', 'a', 'r'), ('d', 'i', 's')}
    ensures forall w' :: WordText(w') == WordText(w) ==> w' == w
  {
    forall w' | WordText(w') == WordText(w)
      ensures w' == w
    {
      assert |WordText(w')| > 4;
      assert Signature(WordText(w')) == Signature(WordText(w));
    }
  }

  /** The signatures of table entries: every model flag reads `--config `,
      every kit flag `--barcode_kits` or `--disable_trim_barcodes`. */
  lemma TableFlagSignatures(m: Model, k: Kit)
    ensures |ModelFlag(m)| > 4 && Signature(ModelFlag(m)) == ('c', 'o', 'n')
    ensures |KitFlag(k)| > 4 && Signature(KitFlag(k)) in {('b', 'a', 'r'), ('d', 'i', 's')}
  {
    assert ModelFlag(m)[..|ConfigPrefix|] == ConfigPrefix;
    if k != NoBarcodes {
      assert KitFlag(k)[..|BarcodePrefix|] == BarcodePrefix;
    }
  }

  /** Apart from values, the text of an argument identifies the argument:
      no two words, models or kits produce the same string, and no word is
      a table entry. */
  lemma FlagTextIdentifies(a: Arg, b: Arg)
    requires !a.Value? && !b.Value?
    ensures ArgText(a) == ArgText(b) <==> a == b
  {
    match a {
      case Fixed(w) => WordSignature(w);
      case ConfigEntry(m) => TableFlagSignatures(m, NoBarcodes);
      case KitEntry(k) => TableFlagSignatures(R95, k);
    }
    match b {
      case Fixed(w) => WordSignature(w);
      case ConfigEntry(m) => TableFlagSignatures(m, NoBarcodes);
      case KitEntry(k) => TableFlagSignatures(R95, k);
    }
    if a.ConfigEntry? && b.ConfigEntry? {
      ModelFlagInjective(a.model, b.model);
    }
    if a.KitEntry? && b.KitEntry? {
      KitFlagInjective(a.kit, b.kit);
    }
  }

  /** The indices at which `s` occurs in `xs`. */
  function Positions<T(==)>(xs: seq<T>, s: T): set<nat>
  {
    set p: nat | p < |xs| && xs[p] == s
  }

  /** The argument slots whose text the user chooses: the input path, the
      save path and the chunk value. The position facts below hold for a
      flag provided the user did not type that very flag into one of them. */
  predicate NotInUserSlots(s: string, inputDir: string, saveDir: string, chunks: Option<string>)
  {
    s != inputDir && s != saveDir && s != ChunkValue(chunks)
  }

  /** No builder word or table entry begins with `/`, so an absolute path
      never has the text of a flag. */
  lemma AbsolutePathIsNoFlag(a: Arg, path: string)
    requires !a.Value? && |path| > 0 && path[0] == '/'
    ensures ArgText(a) != path
  {
  }

  /** The only values in the argument list are the two paths and the chunk value. */
  lemma ValueArgs(inputDir: string, saveDir: string, kit: Kit, model: Model,
                  resume: bool, cpu: bool, chunks: Option<string>)
    ensures var args := GuppyArgs(inputDir, saveDir, kit, model, resume, cpu, chunks);
            forall i :: 0 <= i < |args| && args[i].Value? ==>
              args[i].text in {inputDir, saveDir, ChunkValue(chunks)}
  {
  }

  /** Where a flag's text occurs in the rendered list is where the flag
      itself occurs in the argument list, as long as no value has that text. */
  lemma {:induction false} FlagPositions(args: seq<Arg>, a: Arg)
    requires !a.Value?
    requires forall i :: 0 <= i < |args| && args[i].Value? ==> args[i].text != ArgText(a)
    ensures Positions(Render(args), ArgText(a)) == Positions(args, a)
  {
    var strs := Render(args);
    forall p: nat | p < |args|
      ensures strs[p] == ArgText(a) <==> args[p] == a
    {
      if !args[p].Value? {
        FlagTextIdentifies(args[p], a);
      }
    }
  }

  /** The chosen model's flag occurs exactly once, right after the base
      flags, and no other model's flag occurs at all. */
  lemma ModelFlagPositions(inputDir: string, saveDir: string, kit: Kit, model: Model,
                           resume: bool, cpu: bool, chunks: Option<string>, other: Model)
    requires NotInUserSlots(ModelFlag(other), inputDir, saveDir, chunks)
    ensures Positions(GuppyCommand(inputDir, saveDir, kit, model, resume, cpu, chunks), ModelFlag(other))
            == if other == model then {7} else {}
  {
    var args := GuppyArgs(inputDir, saveDir, kit, model, resume, cpu, chunks);
    ValueArgs(inputDir, saveDir, kit, model, resume, cpu, chunks);
    FlagPositions(args, ConfigEntry(other));
    ArgSlotsIn(args, DeviceArgs(cpu), inputDir, saveDir, kit, model, resume, cpu, ChunkValue(chunks), ConfigEntry(other));
  }

  /** The chosen kit's flag occurs exactly once, right after the model's,
      and no other kit's flag occurs at all: kit `none` contributes
      `--disable_trim_barcodes` and no `--barcode_kits` entry. */
  lemma KitFlagPositions(inputDir: string, saveDir: string, kit: Kit, model: Model,
                         resume: bool, cpu: bool, chunks: Option<string>, other: Kit)
    requires NotInUserSlots(KitFlag(other), inputDir, saveDir, chunks)
    ensures Positions(GuppyCommand(inputDir, saveDir, kit, model, resume, cpu, chunks), KitFlag(other))
            == if other == kit then {8} else {}
  {
    var args := GuppyArgs(inputDir, saveDir, kit, model, resume, cpu, chunks);
    ValueArgs(inputDir, saveDir, kit, model, resume, cpu, chunks);
    FlagPositions(args, KitEntry(other));
    ArgSlotsIn(args, DeviceArgs(cpu), inputDir, saveDir, kit, model, resume, cpu, ChunkValue(chunks), KitEntry(other));
  }

  /** Where each word the builder writes is expected, independently of how
      the list is assembled: the base flags at fixed slots; on CPU the
      caller count and no device flag, otherwise the device flag and its
      value and no caller count; the chunk flag once; `--resume` last when
      resuming, nowhere otherwise. */
  function WordSlots(w: Word, resume: bool, cpu: bool): set<nat>
  {
    match w
    case Program => {0}
    case InputPath => {1}
    case Recursive => {3}
    case SavePath => {4}
    case CompressFastq => {6}
    case NumCallers => if cpu then {9} else {}
    case Device => if cpu then {} else {9}
    case AllGpus => if cpu then {} else {10}
    case ChunksPerRunner => {ChunkSlot(cpu)}
    case Resume => if resume then {ChunkSlot(cpu) + 2} else {}
  }

  /** Where each flag is expected: a word at its `WordSlots`, the chosen
      model's entry right after the base flags and the chosen kit's entry
      after it, any other table entry nowhere. */
  function ArgSlots(a: Arg, kit: Kit, model: Model, resume: bool, cpu: bool): set<nat>
    requires !a.Value?
  {
    match a
    case Fixed(w) => WordSlots(w, resume, cpu)
    case ConfigEntry(m) => if m == model then {7} else {}
    case KitEntry(k) => if k == kit then {8} else {}
  }

  /** Where a flag sits in an argument list made of the base flags, the
      table entries, the device selection `dev`, and the chunk setting, with
      `--resume` last when `resume`. */
  lemma ArgSlotsIn(args: seq<Arg>, dev: seq<Arg>, inputDir: string, saveDir: string,
                   kit: Kit, model: Model, resume: bool, cpu: bool, chunk: string, a: Arg)
    requires !a.Value?
    requires dev == if cpu then [Fixed(NumCallers)] else [Fixed(Device), Fixed(AllGpus)]
    requires var base := [Fixed(Program), Fixed(InputPath), Value(inputDir), Fixed(Recursive),
                          Fixed(SavePath), Value(saveDir), Fixed(CompressFastq),
                          ConfigEntry(model), KitEntry(kit)];
             args == base + dev + [Fixed(ChunksPerRunner), Value(chunk)]
                     + (if resume then [Fixed(Resume)] else [])
    ensures Positions(args, a) == ArgSlots(a, kit, model, resume, cpu)
  {
    if cpu && resume {
      assert args == [Fixed(Program), Fixed(InputPath), Value(inputDir), Fixed(Recursive),
                      Fixed(SavePath), Value(saveDir), Fixed(CompressFastq),
                      ConfigEntry(model), KitEntry(kit), Fixed(NumCallers),
                      Fixed(ChunksPerRunner), Value(chunk), Fixed(Resume)];
    } else if cpu {
      assert args == [Fixed(Program), Fixed(InputPath), Value(inputDir), Fixed(Recursive),
                      Fixed(SavePath), Value(saveDir), Fixed(CompressFastq),
                      ConfigEntry(model), KitEntry(kit), Fixed(NumCallers),
                      Fixed(ChunksPerRunner), Value(chunk)];
    } else if resume {
      assert args == [Fixed(Program), Fixed(InputPath), Value(inputDir), Fixed(Recursive),
                      Fixed(SavePath), Value(saveDir), Fixed(CompressFastq),
                      ConfigEntry(model), KitEntry(kit), Fixed(Device), Fixed(AllGpus),
                      Fixed(ChunksPerRunner), Value(chunk), Fixed(Resume)];
    } else {
      assert args == [Fixed(Program), Fixed(InputPath), Value(inputDir), Fixed(Recursive),
                      Fixed(SavePath), Value(saveDir), Fixed(CompressFastq),
                      ConfigEntry(model), KitEntry(kit), Fixed(Device), Fixed(AllGpus),
                      Fixed(ChunksPerRunner), Value(chunk)];
    }
  }

  /** Each word the builder writes occurs at exactly the slots `WordSlots`
      names, provided the user did not type that word as a path or chunk
      value. So CPU and GPU selection exclude each other, the chunk flag
      occurs once, and `--resume` occurs exactly when resuming, last. */
  lemma WordPositions(inputDir: string, saveDir: string, kit: Kit, model: Model,
                      resume: bool, cpu: bool, chunks: Option<string>, w: Word)
    requires NotInUserSlots(WordText(w), inputDir, saveDir, chunks)
    ensures Positions(GuppyCommand(inputDir, saveDir, kit, model, resume, cpu, chunks), WordText(w))
            == WordSlots(w, resume, cpu)
  {
    var args := GuppyArgs(inputDir, saveDir, kit, model, resume, cpu, chunks);
    ValueArgs(inputDir, saveDir, kit, model, resume, cpu, chunks);
    FlagPositions(args, Fixed(w));
    ArgSlotsIn(args, DeviceArgs(cpu), inputDir, saveDir, kit, model, resume, cpu, ChunkValue(chunks), Fixed(w));
  }

  /** `listToString`: the list joined with single spaces, the string the
      script passes to the shell. */
  function CommandLine(cmd: seq<string>): (line: string)
    ensures |cmd| > 0 ==> cmd[0] <= line && EndsWith(line, cmd[|cmd| - 1])
  {
    Join(cmd)
  }

  /** The input directory and the save directory sit right after their
      flags. */
  lemma CommandPaths(inputDir: string, saveDir: string, kit: Kit, model: Model,
                     resume: bool, cpu: bool, chunks: Option<string>)
    ensures var cmd := GuppyCommand(inputDir, saveDir, kit, model, resume, cpu, chunks);
            cmd[1] == "--input_path " && cmd[2] == inputDir
            && cmd[4] == "--save_path " && cmd[5] == saveDir
  {
    var cmd := GuppyCommand(inputDir, saveDir, kit, model, resume, cpu, chunks);
    CommandPrefix(inputDir, saveDir, kit, model, resume, cpu, chunks);
    assert cmd[1] == cmd[..7][1] && cmd[2] == cmd[..7][2];
    assert cmd[4] == cmd[..7][4] && cmd[5] == cmd[..7][5];
  }

  /** The start of the executed string: the program, the base flags with
      their paths and both table entries, each followed by a space, before
      the rest of the command. Base flags and table entries that already end
      in a space are thus followed by two. */
  lemma CommandLineStart(inputDir: string, saveDir: string, kit: Kit, model: Model,
                         resume: bool, cpu: bool, chunks: Option<string>)
    ensures var cmd := GuppyCommand(inputDir, saveDir, kit, model, resume, cpu, chunks);
            CommandLine(cmd)
            == "guppy_basecaller" + " " + "--input_path " + " " + inputDir + " " + "--recursive " + " "
               + "--save_path " + " " + saveDir + " " + "--compress_fastq " + " "
               + ModelFlag(model) + " " + KitFlag(kit) + " " + CommandLine(cmd[9..])
  {
    var cmd := GuppyCommand(inputDir, saveDir, kit, model, resume, cpu, chunks);
    CommandPrefix(inputDir, saveDir, kit, model, resume, cpu, chunks);
    CommandTableEntries(inputDir, saveDir, kit, model, resume, cpu, chunks);
    assert cmd[0] == cmd[..7][0] && cmd[1] == cmd[..7][1] && cmd[2] == cmd[..7][2];
    assert cmd[3] == cmd[..7][3] && cmd[4] == cmd[..7][4] && cmd[5] == cmd[..7][5];
    assert cmd[6] == cmd[..7][6];
    JoinFirstNine(cmd);
  }

  /** The end of the executed string: after the rest of the command, the
      chunk flag and its value, then `--resume` exactly when resuming, each
      preceded by a space. */
  lemma CommandLineEnd(inputDir: string, saveDir: string, kit: Kit, model: Model,
                       resume: bool, cpu: bool, chunks: Option<string>)
    ensures var cmd := GuppyCommand(inputDir, saveDir, kit, model, resume, cpu, chunks);
            var before := CommandLine(cmd[..ChunkSlot(cpu)]);
            CommandLine(cmd)
            == if resume then before + " " + "--chunks_per_runner " + " " + ChunkValue(chunks) + " " + "--resume"
               else before + " " + "--chunks_per_runner " + " " + ChunkValue(chunks)
  {
    var cmd := GuppyCommand(inputDir, saveDir, kit, model, resume, cpu, chunks);
    CommandTail(inputDir, saveDir, kit, model, resume, cpu, chunks);
    if resume {
      JoinLastThree(cmd);
    } else {
      JoinLastTwo(cmd);
    }
  }
}
