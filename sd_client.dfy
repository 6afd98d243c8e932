/**
 * The local parts of the image client: the txt2img request body built from the call's
 * arguments and the configuration, the two fields read back from the reply, and the
 * collision-free output path. The HTTP call, base64 decoding and file writing are not
 * modelled; the files already on disk are a finite set of paths.
 */
module SdClient {
  import opened Wrappers
  import opened PyText
  import opened Json

  /** `SDConfig`. */
  datatype SdConfig = SdConfig(
    txt2imgUrl: string,
    timeoutSec: int,
    outputDir: string,
    width: int,
    height: int,
    steps: int,
    cfgScale: real,
    samplerName: string,
    seed: int)

  /** `SDConfig()`: the defaults of the dataclass fields. */
  const DefaultSdConfig: SdConfig := SdConfig(
    "http://127.0.0.1:7860/sdapi/v1/txt2img", 720, "outputs/images",
    768, 1024, 24, 7.0, "DPM++ 2M Karras", -1)

  // ---------------------------------------------------------------- request body

  /** The keyword arguments of `txt2img` that default to the configuration. */
  datatype Overrides = Overrides(
    width: Option<int>,
    height: Option<int>,
    steps: Option<int>,
    cfgScale: Option<real>,
    samplerName: Option<string>,
    seed: Option<int>)

  const NoOverrides: Overrides := Overrides(None, None, None, None, None, None)

  const BaseKeys: set<string> :=
    {"prompt", "negative_prompt", "width", "height", "steps", "cfg_scale", "sampler_name", "seed"}

  /** The base payload: every field the explicit argument when given, else the configuration's. */
  function BasePayload(cfg: SdConfig, prompt: string, negativePrompt: string, o: Overrides): map<string, Json> {
    map[
      "prompt" := JStr(prompt),
      "negative_prompt" := JStr(negativePrompt),
      "width" := JInt(o.width.GetOr(cfg.width)),
      "height" := JInt(o.height.GetOr(cfg.height)),
      "steps" := JInt(o.steps.GetOr(cfg.steps)),
      "cfg_scale" := JFloat(o.cfgScale.GetOr(cfg.cfgScale)),
      "sampler_name" := JStr(o.samplerName.GetOr(cfg.samplerName)),
      "seed" := JInt(o.seed.GetOr(cfg.seed))
    ]
  }

  /**
   * The body `txt2img` posts: the base payload, then `payload.update(extra_payload)` when an
   * extra payload is given and non-empty.
   */
  function Payload(cfg: SdConfig, prompt: string, negativePrompt: string, o: Overrides,
                   extra: Option<map<string, Json>>): (payload: map<string, Json>)
    ensures extra.None? ==> payload.Keys == BaseKeys
    ensures extra.Some? ==> payload.Keys == BaseKeys + extra.value.Keys
    ensures extra.Some? ==> forall k :: k in extra.value ==> payload[k] == extra.value[k]
    ensures forall k :: k in BaseKeys && (extra.None? || k !in extra.value) ==>
      payload[k] == BasePayload(cfg, prompt, negativePrompt, o)[k]
  {
    var base := BasePayload(cfg, prompt, negativePrompt, o);
    if extra.Some? && extra.value != map[] then base + extra.value else base
  }

  /** Each generation setting is the explicit argument when one is given, and the configuration's value otherwise. */
  lemma PayloadFields(cfg: SdConfig, prompt: string, negativePrompt: string, o: Overrides)
    ensures var p := Payload(cfg, prompt, negativePrompt, o, None);
      p["prompt"] == JStr(prompt) && p["negative_prompt"] == JStr(negativePrompt) &&
      (o.width.Some? ==> p["width"] == JInt(o.width.value)) &&
      (o.width.None? ==> p["width"] == JInt(cfg.width)) &&
      (o.height.Some? ==> p["height"] == JInt(o.height.value)) &&
      (o.height.None? ==> p["height"] == JInt(cfg.height)) &&
      (o.steps.Some? ==> p["steps"] == JInt(o.steps.value)) &&
      (o.steps.None? ==> p["steps"] == JInt(cfg.steps)) &&
      (o.cfgScale.Some? ==> p["cfg_scale"] == JFloat(o.cfgScale.value)) &&
      (o.cfgScale.None? ==> p["cfg_scale"] == JFloat(cfg.cfgScale)) &&
      (o.samplerName.Some? ==> p["sampler_name"] == JStr(o.samplerName.value)) &&
      (o.samplerName.None? ==> p["sampler_name"] == JStr(cfg.samplerName)) &&
      (o.seed.Some? ==> p["seed"] == JInt(o.seed.value)) &&
      (o.seed.None? ==> p["seed"] == JInt(cfg.seed))
  {
  }

  /** With no arguments and the default configuration, the request asks for a 768x1024 image in 24 steps with a random seed. */
  lemma DefaultRequest(prompt: string)
    ensures var p := Payload(DefaultSdConfig, prompt, "", NoOverrides, None);
      p["width"] == JInt(768) && p["height"] == JInt(1024) && p["steps"] == JInt(24) &&
      p["cfg_scale"] == JFloat(7.0) && p["sampler_name"] == JStr("DPM++ 2M Karras") && p["seed"] == JInt(-1)
  {
  }

  /** An extra payload entry wins over an explicit argument for the same field. */
  lemma ExtraBeatsArgument(cfg: SdConfig, prompt: string, o: Overrides, seed: int)
    requires o.seed.Some?
    ensures Payload(cfg, prompt, "", o, Some(map["seed" := JInt(seed)]))["seed"] == JInt(seed)
  {
  }

  // ---------------------------------------------------------------- reply fields

  /** The errors `txt2img` raises while reading the reply. */
  datatype SdError = NoImages | BadFirstImage

  /**
   * `_extract_first_image_b64`: the first entry of the reply's `images` list, which must
   * be a non-empty list whose first entry is a non-blank string.
   */
  function ExtractFirstImage(data: map<string, Json>): (r: Result<string, SdError>)
    ensures r == Failure(NoImages) <==> !("images" in data && data["images"].JArray? && data["images"].items != [])
    ensures r.Success? <==>
      "images" in data && data["images"].JArray? && data["images"].items != [] &&
      data["images"].items[0].JStr? && !IsBlank(data["images"].items[0].s)
    ensures r.Success? ==> r.value == data["images"].items[0].s
  {
    var images := Get(data, "images");
    if !images.JArray? || images.items == [] then Failure(NoImages)
    else
      var first := images.items[0];
      if !first.JStr? || Strip(first.s) == "" then Failure(BadFirstImage)
      else Success(first.s)
  }

  /**
   * `_try_extract_seed`: nothing from an absent or empty info; otherwise the integer
   * value of `seed` when it converts, failing that of the first of `all_seeds`.
   */
  function TryExtractSeed(info: Option<map<string, Json>>): (seed: Option<int>)
    ensures info.None? || info.value == map[] ==> seed.None?
    ensures info.Some? && "seed" in info.value && PyInt(info.value["seed"]).Some? ==>
      seed == PyInt(info.value["seed"])
    ensures seed.Some? && !(info.Some? && "seed" in info.value && PyInt(info.value["seed"]).Some?) ==>
      info.Some? && "all_seeds" in info.value && info.value["all_seeds"].JArray? &&
      info.value["all_seeds"].items != [] && seed == PyInt(info.value["all_seeds"].items[0])
    ensures (info.Some? && info.value != map[] && !("seed" in info.value && PyInt(info.value["seed"]).Some?) &&
             "all_seeds" in info.value && info.value["all_seeds"].JArray? && info.value["all_seeds"].items != []) ==>
      seed == PyInt(info.value["all_seeds"].items[0])
  {
    if info.None? || info.value == map[] then None
    else
      var d := info.value;
      var fromSeed := if "seed" in d then PyInt(d["seed"]) else None;
      if fromSeed.Some? then fromSeed
      else if "all_seeds" in d && d["all_seeds"].JArray? && d["all_seeds"].items != [] then
        PyInt(d["all_seeds"].items[0])
      else None
  }

  /** A reply carrying only a list of seeds reports the first; a `seed` that converts beats it. */
  lemma SeedPriority(first: int, other: int)
    ensures TryExtractSeed(Some(map["all_seeds" := JArray([JInt(first), JInt(other)])])) == Some(first)
    ensures TryExtractSeed(Some(map["seed" := JInt(other), "all_seeds" := JArray([JInt(first)])])) == Some(other)
    ensures TryExtractSeed(Some(map["seed" := JNull, "all_seeds" := JArray([JInt(first)])])) == Some(first)
    ensures TryExtractSeed(Some(map["seed" := JArray([])])) == None
  {
  }

  // ---------------------------------------------------------------- output path

  /** A filesystem path as a parent directory and a final name. */
  datatype Path = Path(parent: string, name: string)

  /** Where pathlib sees an extension: the last dot, neither leading nor final. */
  predicate HasSuffix(name: string) {
    var i := RFind(name, ".");
    0 < i < |name| - 1
  }

  /** `Path.suffix`. */
  function Suffix(name: string): (x: string)
    ensures HasSuffix(name) ==> |x| >= 2 && x[0] == '.'
  {
    if HasSuffix(name) then name[RFind(name, ".")..] else ""
  }

  /** `Path.stem`. */
  function Stem(name: string): (s: string)
    ensures s + Suffix(name) == name
    ensures HasSuffix(name) ==> s != ""
  {
    if HasSuffix(name) then name[..RFind(name, ".")] else name
  }

  /** The `i`-th alternative `_unique_path` tries: `<stem>_<i><suffix>` in the same directory. */
  function Candidate(path: Path, i: nat): Path {
    Path(path.parent, Stem(path.name) + "_" + NatToStr(i) + Suffix(path.name))
  }

  /** Different counters give different alternatives. */
  lemma CandidateInjective(path: Path, i: nat, j: nat)
    requires Candidate(path, i) == Candidate(path, j)
    ensures i == j
  {
    var a := Stem(path.name) + "_";
    var x := NatToStr(i);
    var y := NatToStr(j);
    var b := Suffix(path.name);
    assert a + x + b == a + y + b;
    assert |x| == |y|;
    assert x == (a + x + b)[|a|..|a| + |x|];
    assert y == (a + y + b)[|a|..|a| + |y|];
    NatToStrInjective(i, j);
  }

  /** For a name with an extension, every alternative keeps the extension and extends the stem. */
  lemma CandidateKeepsSuffix(path: Path, i: nat)
    requires HasSuffix(path.name)
    ensures Suffix(Candidate(path, i).name) == Suffix(path.name)
    ensures Stem(Candidate(path, i).name) == Stem(path.name) + "_" + NatToStr(i)
  {
    var name := path.name;
    var r := RFind(name, ".");
    var s := Stem(name) + "_" + NatToStr(i);
    var x := Suffix(name);
    var n := Candidate(path, i).name;
    assert n == s + x;
    var k := |s|;
    assert OccursAt(n, ".", k);
    var r2 := RFind(n, ".");
    assert r2 != -1;
    assert k <= r2;
    assert r2 == k by {
      if r2 > k {
        assert n[r2] == name[r + (r2 - k)];
        assert OccursAt(name, ".", r + (r2 - k));
      }
    }
    assert n[k..] == x;
    assert n[..k] == s;
  }

  /** A subset is no larger than its superset. */
  lemma {:induction false} SubsetNoLarger<T>(a: set<T>, b: set<T>)
    requires a <= b
    ensures |a| <= |b|
    decreases a
  {
    if a != {} {
      var x :| x in a;
      SubsetNoLarger(a - {x}, b - {x});
    }
  }

  /**
   * `_unique_path`: the path itself when it is free, otherwise the first free alternative
   * `<stem>_<i><suffix>` counting from 2. The loop ends because every alternative it
   * rejects is a different existing path, and there are finitely many.
   */
  method UniquePath(path: Path, existing: set<Path>) returns (p: Path)
    ensures p !in existing
    ensures p.parent == path.parent
    ensures path !in existing ==> p == path
    ensures path in existing ==>
      exists i :: 2 <= i && p == Candidate(path, i) && forall j :: 2 <= j < i ==> Candidate(path, j) in existing
  {
    if path !in existing {
      return path;
    }
    var i := 2;
    ghost var seen: set<Path> := {};
    while true
      invariant 2 <= i
      invariant seen <= existing && |seen| == i - 2
      invariant forall q :: q in seen ==> exists j :: 2 <= j < i && q == Candidate(path, j)
      invariant forall j :: 2 <= j < i ==> Candidate(path, j) in existing
      decreases |existing| - |seen|
    {
      p := Candidate(path, i);
      if p !in existing {
        return;
      }
      assert p !in seen by {
        if p in seen {
          var j :| 2 <= j < i && p == Candidate(path, j);
          CandidateInjective(path, j, i);
        }
      }
      seen := seen + {p};
      SubsetNoLarger(seen, existing);
      i := i + 1;
    }
  }

  /** The file stem `txt2img` uses: the given one unless absent or empty, else the timestamp. */
  function StemOrTimestamp(fileStem: Option<string>, timestamp: string): (stem: string)
    ensures fileStem.Some? && fileStem.value != "" ==> stem == fileStem.value
    ensures fileStem.None? || fileStem.value == "" ==> stem == timestamp
  {
    if fileStem.Some? && fileStem.value != "" then fileStem.value else timestamp
  }

  /**
   * The file `txt2img` writes: `<stem>.png` in the output directory, or its first free
   * alternative; never a file that already exists.
   */
  method OutputPath(cfg: SdConfig, fileStem: Option<string>, timestamp: string, existing: set<Path>)
    returns (p: Path)
    ensures p !in existing && p.parent == cfg.outputDir
    ensures var first := Path(cfg.outputDir, StemOrTimestamp(fileStem, timestamp) + ".png");
      first !in existing ==> p == first
  {
    var stem := StemOrTimestamp(fileStem, timestamp);
    p := UniquePath(Path(cfg.outputDir, stem + ".png"), existing);
  }
}
