/**
 * Configuration fixed by `RealCugan::new` before it touches the native engine:
 * the pre-padding for the scale, the effective sync gap, the model directory of
 * the variant and the paths of the two model files.
 */
module ModelFiles {
  import opened Results
  import opened MachineInts
  import opened Decimal
  import opened TilePlanner

  /** The three trained model families. */
  datatype ModelType = Nose | Pro | Se

  /**
   * Spatial pre-padding the engine needs per scale; `None` stands for the
   * panic on any scale other than 2, 3 and 4.
   */
  function Prepadding(scale: u32): (p: Option<i32>)
    ensures p.Some? <==> SupportedScale(scale)
    ensures scale == 2 ==> p == Some(18)
    ensures scale == 3 ==> p == Some(14)
    ensures scale == 4 ==> p == Some(19)
  {
    match scale
    case 2 => Some(18)
    case 3 => Some(14)
    case 4 => Some(19)
    case _ => None
  }

  /** The sync gap handed to the engine: the `Nose` variant always gets 0. */
  function EffectiveSyncGap(model: ModelType, requested: u32): (gap: u32)
    ensures model == Nose ==> gap == 0
    ensures model != Nose ==> gap == requested
  {
    if model == Nose then 0 else requested
  }

  /** Directory, under the models root, holding the files of a variant. */
  function ModelDir(model: ModelType): string {
    match model
    case Nose => "models-nose"
    case Pro => "models-pro"
    case Se => "models-se"
  }

  /** Each variant has a directory of its own, all named `models-…`. */
  lemma ModelDirInjective(m1: ModelType, m2: ModelType)
    ensures ModelDir(m1) == ModelDir(m2) <==> m1 == m2
    ensures |ModelDir(m1)| > 7 && ModelDir(m1)[..7] == "models-"
  {
    assert ModelDir(m1)[7] == ModelDir(m2)[7] ==> m1 == m2;
  }

  /** The weights (`.bin`) and network (`.param`) files of one model. */
  datatype ModelFilePaths = ModelFilePaths(bin: string, param: string)

  /** The two file paths for a models root, variant, scale and noise level, as the three `format!` branches build them. */
  function ModelPaths(root: string, model: ModelType, scale: u32, noise: int): ModelFilePaths {
    FileNames(root + "/" + ModelDir(model) + "/up" + FormatNat(scale), noise)
  }

  /** The branches on the noise level, after the common `{root}/{dir}/up{scale}` prefix `up`. */
  function FileNames(up: string, noise: int): ModelFilePaths {
    if noise == -1 then
      ModelFilePaths(up + "x-conservative.bin", up + "x-conservative.param")
    else if noise == 0 then
      ModelFilePaths(up + "x-no-denoise.bin", up + "x-no-denoise.param")
    else
      ModelFilePaths(up + "x-denoise" + FormatInt(noise) + "x.bin", up + "x-denoise" + FormatInt(noise) + "x.param")
  }

  /** The part of a model file name that names the noise level. */
  function NoiseSuffix(noise: int): string {
    if noise == -1 then "conservative"
    else if noise == 0 then "no-denoise"
    else "denoise" + FormatInt(noise) + "x"
  }

  /** Path of a model file without its extension. */
  function Stem(root: string, model: ModelType, scale: u32, noise: int): string {
    root + "/" + ModelDir(model) + "/up" + FormatNat(scale) + "x-" + NoiseSuffix(noise)
  }

  /** Reads the noise level back from a suffix `NoiseSuffix` produced. */
  function ParseNoiseSuffix(s: string): Option<int> {
    if s == "conservative" then Some(-1)
    else if s == "no-denoise" then Some(0)
    else if |s| >= 8 && s[..7] == "denoise" && s[|s| - 1] == 'x' then ParseInt(s[7..|s| - 1])
    else None
  }

  /** Both files share the stem and differ only in their extension. */
  lemma PathsShareStem(root: string, model: ModelType, scale: u32, noise: int)
    ensures ModelPaths(root, model, scale, noise).bin == Stem(root, model, scale, noise) + ".bin"
    ensures ModelPaths(root, model, scale, noise).param == Stem(root, model, scale, noise) + ".param"
  {
    FileNamesShareStem(root + "/" + ModelDir(model) + "/up" + FormatNat(scale), noise);
  }

  lemma FileNamesShareStem(up: string, noise: int)
    ensures FileNames(up, noise).bin == up + "x-" + NoiseSuffix(noise) + ".bin"
    ensures FileNames(up, noise).param == up + "x-" + NoiseSuffix(noise) + ".param"
  {
    BinFileNameIsStem(up, noise);
    ParamFileNameIsStem(up, noise);
  }

  lemma BinFileNameIsStem(up: string, noise: int)
    ensures FileNames(up, noise).bin == up + "x-" + NoiseSuffix(noise) + ".bin"
  {
    if noise == -1 {
      Regroup(up, "x-", "conservative", ".bin", "x-conservative.bin");
    } else if noise == 0 {
      Regroup(up, "x-", "no-denoise", ".bin", "x-no-denoise.bin");
    } else {
      DenoiseRegroup(up, FormatInt(noise), "x.bin", ".bin");
    }
  }

  lemma ParamFileNameIsStem(up: string, noise: int)
    ensures FileNames(up, noise).param == up + "x-" + NoiseSuffix(noise) + ".param"
  {
    if noise == -1 {
      Regroup(up, "x-", "conservative", ".param", "x-conservative.param");
    } else if noise == 0 {
      Regroup(up, "x-", "no-denoise", ".param", "x-no-denoise.param");
    } else {
      DenoiseRegroup(up, FormatInt(noise), "x.param", ".param");
    }
  }

  lemma DenoiseRegroup(up: string, n: string, tail: string, ext: string)
    requires "x" + ext == tail
    ensures up + "x-denoise" + n + tail == up + "x-" + ("denoise" + n + "x") + ext
  {
  }

  lemma Regroup(up: string, a: string, b: string, c: string, whole: string)
    requires a + b + c == whole
    ensures up + whole == up + a + b + c
  {
  }

  /** The noise level can be read back from its suffix. */
  lemma ParseNoiseSuffixInverse(noise: int)
    ensures ParseNoiseSuffix(NoiseSuffix(noise)) == Some(noise)
  {
    if noise != -1 && noise != 0 {
      var s := NoiseSuffix(noise);
      assert s[..7] == "denoise";
      assert s[7..|s| - 1] == FormatInt(noise);
      ParseFormatInt(noise);
    }
  }

  /**
   * Under one models root, a weights file names exactly one variant, scale and
   * noise level: distinct configurations never load the same file.
   */
  lemma ModelFileDeterminesConfig(root: string, m1: ModelType, s1: u32, n1: int, m2: ModelType, s2: u32, n2: int)
    requires ModelPaths(root, m1, s1, n1).bin == ModelPaths(root, m2, s2, n2).bin
    ensures m1 == m2 && s1 == s2 && n1 == n2
  {
    PathsShareStem(root, m1, s1, n1);
    PathsShareStem(root, m2, s2, n2);
    CancelSuffix(Stem(root, m1, s1, n1), Stem(root, m2, s2, n2), ".bin");
    var t1 := DirAndName(m1, s1, n1);
    var t2 := DirAndName(m2, s2, n2);
    StemSplit(root, m1, s1, n1);
    StemSplit(root, m2, s2, n2);
    CancelPrefix(root + "/", t1, t2);
    DirAndNameInjective(m1, s1, n1, m2, s2, n2);
  }

  /** The stem after `{root}/`. */
  function DirAndName(model: ModelType, scale: u32, noise: int): string {
    ModelDir(model) + "/up" + FileStem(scale, noise)
  }

  /** The file name without its `up` prefix and its extension. */
  function FileStem(scale: u32, noise: int): string {
    FormatNat(scale) + "x-" + NoiseSuffix(noise)
  }

  lemma StemSplit(root: string, model: ModelType, scale: u32, noise: int)
    ensures Stem(root, model, scale, noise) == root + "/" + DirAndName(model, scale, noise)
  {
    var d := ModelDir(model);
    var f := FormatNat(scale);
    var n := NoiseSuffix(noise);
    assert root + "/" + d + "/up" + f + "x-" + n == root + "/" + (d + "/up" + (f + "x-" + n));
  }

  lemma DirAndNameInjective(m1: ModelType, s1: u32, n1: int, m2: ModelType, s2: u32, n2: int)
    requires DirAndName(m1, s1, n1) == DirAndName(m2, s2, n2)
    ensures m1 == m2 && s1 == s2 && n1 == n2
  {
    var t1 := DirAndName(m1, s1, n1);
    var t2 := DirAndName(m2, s2, n2);
    assert t1[7] == ModelDir(m1)[7];
    assert t2[7] == ModelDir(m2)[7];
    CancelPrefix(ModelDir(m1) + "/up", FileStem(s1, n1), FileStem(s2, n2));
    FileStemInjective(s1, n1, s2, n2);
  }

  lemma FileStemInjective(s1: u32, n1: int, s2: u32, n2: int)
    requires FileStem(s1, n1) == FileStem(s2, n2)
    ensures s1 == s2 && n1 == n2
  {
    var f1, f2 := FormatNat(s1), FormatNat(s2);
    var u1, u2 := "-" + NoiseSuffix(n1), "-" + NoiseSuffix(n2);
    SplitAtMarker(f1, NoiseSuffix(n1));
    SplitAtMarker(f2, NoiseSuffix(n2));
    DigitsThenMarker(f1, u1, f2, u2, 'x');
    ParseFormatNat(s1);
    ParseFormatNat(s2);
    CancelPrefix("-", NoiseSuffix(n1), NoiseSuffix(n2));
    ParseNoiseSuffixInverse(n1);
    ParseNoiseSuffixInverse(n2);
  }

  lemma SplitAtMarker(f: string, n: string)
    ensures f + "x-" + n == f + ['x'] + ("-" + n)
  {
  }

  lemma CancelPrefix(p: string, a: string, b: string)
    requires p + a == p + b
    ensures a == b
  {
    assert a == (p + a)[|p|..];
  }

  lemma CancelSuffix(a: string, b: string, q: string)
    requires a + q == b + q
    ensures a == b
  {
    assert a == (a + q)[..|a|];
  }
}
