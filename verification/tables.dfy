/** The two configuration tables of the script: basecalling model name to
    the `guppy_basecaller` configuration flag, and barcode-kit name to the
    demultiplexing flag. Both are ordered dictionaries whose values are
    one-element lists of flag strings. */
module Tables {
  import opened Wrappers
  import opened Sequences
  import opened Strings

  /** Keys of the basecalling table (flow cell generation and accuracy tier). */
  datatype Model =
    | R941Fast | R941Hac | R941Sup | R95 | R10Fast | R10Hac
    | R104Sup | R1041Sup | R1041Sup260bps

  /** Keys of the barcoding table; `NoBarcodes` is the key `none`. */
  datatype Kit =
    | Native1To12 | Native13To24 | Native1To24 | Native1To24R104
    | Native1To24R1041 | Native1To96 | Rapid1To12 | NoBarcodes

  /** The basecalling table's keys in dictionary order. */
  const Models: seq<Model> :=
    [R941Fast, R941Hac, R941Sup, R95, R10Fast, R10Hac, R104Sup, R1041Sup, R1041Sup260bps]

  /** The barcoding table's keys in dictionary order. */
  const Kits: seq<Kit> :=
    [Native1To12, Native13To24, Native1To24, Native1To24R104, Native1To24R1041,
     Native1To96, Rapid1To12, NoBarcodes]

  function ModelKey(m: Model): string
  {
    match m
    case R941Fast => "r9.4.1_fast"
    case R941Hac => "r9.4.1_hac"
    case R941Sup => "r9.4.1_sup"
    case R95 => "r9.5"
    case R10Fast => "r10_fast"
    case R10Hac => "r10_hac"
    case R104Sup => "r10.4_sup"
    case R1041Sup => "r10.4.1_sup"
    case R1041Sup260bps => "r10.4.1_260bps_sup"
  }

  function KitKey(k: Kit): string
  {
    match k
    case Native1To12 => "native_1-12"
    case Native13To24 => "native_13-24"
    case Native1To24 => "native_1-24"
    case Native1To24R104 => "native_1-24_r104"
    case Native1To24R1041 => "native_1-24_r1041"
    case Native1To96 => "native_1-96"
    case Rapid1To12 => "rapid_1-12"
    case NoBarcodes => "none"
  }

  /** Name of the Guppy configuration file each model selects. */
  function ConfigFile(m: Model): string
  {
    match m
    case R941Fast => "dna_r9.4.1_450bps_fast.cfg"
    case R941Hac => "dna_r9.4.1_450bps_hac.cfg"
    case R941Sup => "dna_r9.4.1_450bps_sup.cfg"
    case R95 => "dna_r9.5_450bps.cfg"
    case R10Fast => "dna_r10_450bps_fast.cfg"
    case R10Hac => "dna_r10_450bps_hac.cfg"
    case R104Sup => "dna_r10.4_e8.1_sup.cfg"
    case R1041Sup => "dna_r10.4.1_e8.2_400bps_sup.cfg"
    case R1041Sup260bps => "dna_r10.4.1_e8.2_260bps_sup.cfg"
  }

  /** The kit names each real barcode kit passes to `--barcode_kits`. */
  function KitProfile(k: Kit): string
    requires k != NoBarcodes
  {
    match k
    case Native1To12 => "EXP-NBD104"
    case Native13To24 => "EXP-NBD114"
    case Native1To24 => "EXP-NBD104 EXP-NBD114"
    case Native1To24R104 => "SQK-NBD112-24"
    case Native1To24R1041 => "SQK-NBD114-24"
    case Native1To96 => "EXP-NBD196"
    case Rapid1To12 => "SQK-RBK004"
  }

  const ConfigPrefix := "--config "
  const BarcodePrefix := "--barcode_kits \""
  const DisableTrim := "--disable_trim_barcodes"

  /** `BASECALLING[key]`: a single `--config` flag naming the model's Guppy
      configuration file, with the trailing space the table carries. */
  function ModelFlags(m: Model): (flags: seq<string>)
    ensures |flags| == 1
  {
    [ConfigPrefix + ConfigFile(m) + " "]
  }

  /** `BARCODING[key]`: a single flag; every real kit selects its
      `--barcode_kits` profile and `none` disables barcode trimming instead. */
  function KitFlags(k: Kit): (flags: seq<string>)
    ensures |flags| == 1
  {
    if k == NoBarcodes then [DisableTrim]
    else [BarcodePrefix + KitProfile(k) + "\" "]
  }

  /** The one flag string a model contributes. */
  function ModelFlag(m: Model): string { ModelFlags(m)[0] }

  /** The one flag string a kit contributes. */
  function KitFlag(k: Kit): string { KitFlags(k)[0] }

  /** The shape of the table entries: every model selects a configuration
      file with `--config `, every real kit selects its profile with
      `--barcode_kits "`, and only kit `none` contributes
      `--disable_trim_barcodes`. */
  lemma FlagShapes(m: Model, k: Kit)
    ensures ConfigPrefix <= ModelFlag(m)
    ensures ModelFlag(m)[|ModelFlag(m)| - 1] == ' '
    ensures k == NoBarcodes <==> KitFlag(k) == DisableTrim
    ensures k != NoBarcodes <==> BarcodePrefix <= KitFlag(k)
  {
    if k == NoBarcodes {
      assert DisableTrim[2] != BarcodePrefix[2];
    }
  }

  /** `list(BASECALLING.keys())`: one key per model, no key twice, none with
      a capital letter. */
  function ModelKeys(): (keys: seq<string>)
    ensures |keys| == |Models|
    ensures forall m :: ModelKey(m) in keys
    ensures forall i, j :: 0 <= i < j < |keys| ==> keys[i] != keys[j]
    ensures forall i :: 0 <= i < |keys| ==> NoUpper(keys[i])
  {
    var keys := seq(|Models|, i requires 0 <= i < |Models| => ModelKey(Models[i]));
    ModelKeyList(keys);
    keys
  }

  /** `list(BARCODING.keys())`: one key per kit, no key twice, none with a
      capital letter. */
  function KitKeys(): (keys: seq<string>)
    ensures |keys| == |Kits|
    ensures forall k :: KitKey(k) in keys
    ensures forall i, j :: 0 <= i < j < |keys| ==> keys[i] != keys[j]
    ensures forall i :: 0 <= i < |keys| ==> NoUpper(keys[i])
  {
    var keys := seq(|Kits|, i requires 0 <= i < |Kits| => KitKey(Kits[i]));
    KitKeyList(keys);
    keys
  }

  /** The `choices` argparse allows for `--basecalling_model`. */
  const ModelChoices: seq<string> :=
    ["r9.4.1_fast", "r9.4.1_hac", "r9.4.1_sup", "r9.5", "r10_fast", "r10_hac",
     "r10.4_sup", "r10.4.1_sup", "r10.4.1_260bps_sup"]

  /** The `choices` argparse allows for `--barcode_kit` (a different order
      from the table's). */
  const KitChoices: seq<string> :=
    ["none", "native_1-12", "native_13-24", "native_1-24", "native_1-24_r104",
     "native_1-96", "rapid_1-12", "native_1-24_r1041"]

  /** Table lookup by key: the model whose key is `key`, if any. */
  function LookupModel(key: string): (r: Option<Model>)
    ensures r.Some? <==> key in ModelKeys()
    ensures r.Some? ==> ModelKey(r.value) == key
  {
    match IndexOf(ModelKeys(), key)
    case None => None
    case Some(i) => Some(Models[i])
  }

  /** Table lookup by key: the kit whose key is `key`, if any. */
  function LookupKit(key: string): (r: Option<Kit>)
    ensures r.Some? <==> key in KitKeys()
    ensures r.Some? ==> KitKey(r.value) == key
  {
    match IndexOf(KitKeys(), key)
    case None => None
    case Some(i) => Some(Kits[i])
  }

  /** Position of a model among the basecalling table's keys. */
  function ModelIndex(m: Model): (i: nat)
    ensures i < |Models| && Models[i] == m
  {
    match m
    case R941Fast => 0
    case R941Hac => 1
    case R941Sup => 2
    case R95 => 3
    case R10Fast => 4
    case R10Hac => 5
    case R104Sup => 6
    case R1041Sup => 7
    case R1041Sup260bps => 8
  }

  /** Position of a kit among the barcoding table's keys. */
  function KitIndex(k: Kit): (i: nat)
    ensures i < |Kits| && Kits[i] == k
  {
    match k
    case Native1To12 => 0
    case Native13To24 => 1
    case Native1To24 => 2
    case Native1To24R104 => 3
    case Native1To24R1041 => 4
    case Native1To96 => 5
    case Rapid1To12 => 6
    case NoBarcodes => 7
  }

  /** Keys are lower case and tell models apart. */
  lemma ModelKeyDistinct(m: Model, m': Model)
    ensures ModelKey(m) == ModelKey(m') ==> m == m'
    ensures NoUpper(ModelKey(m))
  {
  }

  /** Keys are lower case and tell kits apart. */
  lemma KitKeyDistinct(k: Kit, k': Kit)
    ensures KitKey(k) == KitKey(k') ==> k == k'
    ensures NoUpper(KitKey(k))
  {
  }

  /** The table lists each model once. */
  lemma ModelsDistinct(i: nat, j: nat)
    requires i < j < |Models|
    ensures Models[i] != Models[j]
  {
    assert ModelIndex(Models[i]) == i;
  }

  /** A list holding each model's key at the model's table position holds
      every key once, all in lower case. */
  lemma ModelKeyList(keys: seq<string>)
    requires |keys| == |Models|
    requires forall i :: 0 <= i < |Models| ==> keys[i] == ModelKey(Models[i])
    ensures forall m :: ModelKey(m) in keys
    ensures forall i, j :: 0 <= i < j < |keys| ==> keys[i] != keys[j]
    ensures forall i :: 0 <= i < |keys| ==> NoUpper(keys[i])
  {
    forall m ensures ModelKey(m) in keys {
      assert keys[ModelIndex(m)] == ModelKey(m);
    }
    forall i, j | 0 <= i < j < |keys| ensures keys[i] != keys[j] {
      ModelsDistinct(i, j);
      ModelKeyDistinct(Models[i], Models[j]);
    }
    forall i | 0 <= i < |keys| ensures NoUpper(keys[i]) {
      ModelKeyDistinct(Models[i], Models[i]);
    }
  }

  /** The table lists each kit once. */
  lemma KitsDistinct(i: nat, j: nat)
    requires i < j < |Kits|
    ensures Kits[i] != Kits[j]
  {
    assert KitIndex(Kits[i]) == i;
  }

  /** A list holding each kit's key at the kit's table position holds every
      key once, all in lower case. */
  lemma KitKeyList(keys: seq<string>)
    requires |keys| == |Kits|
    requires forall i :: 0 <= i < |Kits| ==> keys[i] == KitKey(Kits[i])
    ensures forall k :: KitKey(k) in keys
    ensures forall i, j :: 0 <= i < j < |keys| ==> keys[i] != keys[j]
    ensures forall i :: 0 <= i < |keys| ==> NoUpper(keys[i])
  {
    forall k ensures KitKey(k) in keys {
      assert keys[KitIndex(k)] == KitKey(k);
    }
    forall i, j | 0 <= i < j < |keys| ensures keys[i] != keys[j] {
      KitsDistinct(i, j);
      KitKeyDistinct(Kits[i], Kits[j]);
    }
    forall i | 0 <= i < |keys| ensures NoUpper(keys[i]) {
      KitKeyDistinct(Kits[i], Kits[i]);
    }
  }

  /** Every model is a key of the table, and distinct models have distinct
      keys, written entirely in lower case. */
  lemma ModelKeysWellFormed(m: Model, m': Model)
    ensures ModelKey(m) in ModelKeys()
    ensures ModelKey(m) == ModelKey(m') ==> m == m'
    ensures NoUpper(ModelKey(m))
  {
    ModelKeyDistinct(m, m');
  }

  /** Every kit is a key of the table, and distinct kits have distinct keys,
      written entirely in lower case. */
  lemma KitKeysWellFormed(k: Kit, k': Kit)
    ensures KitKey(k) in KitKeys()
    ensures KitKey(k) == KitKey(k') ==> k == k'
    ensures NoUpper(KitKey(k))
  {
    KitKeyDistinct(k, k');
  }

  /** Looking up a model's own key finds that model, and a key is found
      exactly when it is some model's key. */
  lemma LookupModelRoundTrip(m: Model, key: string)
    ensures LookupModel(ModelKey(m)) == Some(m)
    ensures LookupModel(key) == Some(m) <==> key == ModelKey(m)
  {
    ModelKeysWellFormed(m, m);
    var r := LookupModel(ModelKey(m));
    ModelKeysWellFormed(m, r.value);
  }

  /** Looking up a kit's own key finds that kit, and a key is found exactly
      when it is some kit's key. */
  lemma LookupKitRoundTrip(k: Kit, key: string)
    ensures LookupKit(KitKey(k)) == Some(k)
    ensures LookupKit(key) == Some(k) <==> key == KitKey(k)
  {
    KitKeysWellFormed(k, k);
    var r := LookupKit(KitKey(k));
    KitKeysWellFormed(k, r.value);
  }

  /** Distinct models name distinct configuration files. */
  lemma ConfigFileInjective(m: Model, m': Model)
    ensures ConfigFile(m) == ConfigFile(m') ==> m == m'
  {
    if ConfigFile(m) == ConfigFile(m') {
      var f, f' := ConfigFile(m), ConfigFile(m');
      assert |f| == |f'| && f[7] == f'[7] && f[18] == f'[18];
    }
  }

  /** Distinct real kits name distinct barcode profiles. */
  lemma KitProfileInjective(k: Kit, k': Kit)
    requires k != NoBarcodes && k' != NoBarcodes
    ensures KitProfile(k) == KitProfile(k') ==> k == k'
  {
    if KitProfile(k) == KitProfile(k') {
      var p, p' := KitProfile(k), KitProfile(k');
      assert |p| == |p'| && p[0] == p'[0] && p[8] == p'[8] && p[9] == p'[9];
    }
  }

  /** Different models contribute different flag strings. */
  lemma ModelFlagInjective(m: Model, m': Model)
    ensures ModelFlag(m) == ModelFlag(m') ==> m == m'
  {
    if ModelFlag(m) == ModelFlag(m') {
      FramedInjective(ConfigPrefix, ConfigFile(m), ConfigFile(m'), " ");
      ConfigFileInjective(m, m');
    }
  }

  /** Different kits contribute different flag strings; in particular only
      `none` contributes `--disable_trim_barcodes`. */
  lemma KitFlagInjective(k: Kit, k': Kit)
    ensures KitFlag(k) == KitFlag(k') ==> k == k'
  {
    if KitFlag(k) == KitFlag(k') && k != NoBarcodes && k' != NoBarcodes {
      FramedInjective(BarcodePrefix, KitProfile(k), KitProfile(k'), "\" ");
      KitProfileInjective(k, k');
    }
  }

  /** No model flag is a kit flag: the one reads `--config`, the other
      `--barcode_kits` or `--disable_trim_barcodes`. */
  lemma ModelFlagNotKitFlag(m: Model, k: Kit)
    ensures ModelFlag(m) != KitFlag(k)
  {
    assert ModelFlag(m)[2] == 'c';
    assert KitFlag(k)[2] != 'c';
  }

  /** The argparse choices are exactly the table keys, so every value that
      gets past argparse is a key of both tables. */
  lemma ChoicesAreTableKeys(s: string)
    ensures s in ModelChoices <==> s in ModelKeys()
    ensures s in KitChoices <==> s in KitKeys()
  {
    assert ModelChoices == ModelKeys();
    var keys := KitKeys();
    assert KitChoices == [keys[7], keys[0], keys[1], keys[2], keys[3], keys[5], keys[6], keys[4]];
  }
}
