/** The stage driver (src/main.py): the difficulty tables and the chain of
    stages `generate_only_up_stage` sets up, one per kingdom, each linked to
    the one before and the one after it. */
module Driver {
  import opened Wrappers
  import opened Datasets

  // ---------------------------------------------------------------------
  // Difficulty

  datatype Difficulty = Easy | Hard | Ultra

  /** `get_obj_set_count_multiplier`; `None` stands for any value that is
      not a `Difficulty`, for which the program raises. */
  function ObjSetCountMultiplier(d: Option<Difficulty>): (r: Result<nat>)
    ensures r.Ok? <==> d.Some?
  {
    match d
    case Some(Easy) => Ok(3)
    case Some(Hard) => Ok(10)
    case Some(Ultra) => Ok(7)
    case None => Err(InvalidDifficulty)
  }

  /** `get_y_level_increase_per_object`. */
  function YLevelIncreasePerObject(d: Option<Difficulty>): (r: Result<nat>)
    ensures r.Ok? <==> d.Some?
  {
    match d
    case Some(Easy) => Ok(100)
    case Some(Hard) => Ok(160)
    case Some(Ultra) => Ok(160)
    case None => Err(InvalidDifficulty)
  }

  /** Easy places the fewest objects and climbs the least per object, Hard
      places the most, and Hard and Ultra climb alike. */
  lemma DifficultyOrder(d: Difficulty)
    ensures ObjSetCountMultiplier(Some(Easy)).value <= ObjSetCountMultiplier(Some(d)).value
    ensures ObjSetCountMultiplier(Some(d)).value <= ObjSetCountMultiplier(Some(Hard)).value
    ensures YLevelIncreasePerObject(Some(Easy)).value <= YLevelIncreasePerObject(Some(d)).value
    ensures d != Easy ==> YLevelIncreasePerObject(Some(d)) == YLevelIncreasePerObject(Some(Hard))
  {
  }

  // ---------------------------------------------------------------------
  // `generate_only_up_stage`: the chain of stages

  /** The stage sets to generate: a name prefix and its difficulty. */
  const Configs: seq<(string, Difficulty)> := [("OnlyUpUltra", Ultra)]

  const WinStage := "OnlyUpWinStage"

  /** `get_stage_name`. */
  function StageName(config: string, kingdom: string): string
  {
    config + kingdom + "Stage"
  }

  /** `sum([ord(c) for c in stage_name])`. */
  function SumOrd(s: string): (n: nat)
  {
    if s == [] then 0 else s[0] as nat + SumOrd(s[1..])
  }

  /** What one turn of the loop hands `process_stage`, with the difficulty
      and the seed it sets first. */
  datatype StageJob = StageJob(
    difficulty: Difficulty,
    seed: int,
    inputStage: string,
    outputStage: string,
    prevStage: Option<string>,
    nextStage: string)

  /** The `i`-th kingdom's job; `hashSeed` is `hash(args.seed)`, which Python
      salts per process. */
  function JobFor(config: string, difficulty: Difficulty, names: seq<string>, i: nat, hashSeed: int): StageJob
    requires i < |names|
  {
    StageJob(
      difficulty,
      hashSeed + SumOrd(config),
      names[i] + "HomeStage",
      StageName(config, names[i]),
      if i == 0 then None else Some(StageName(config, names[i - 1])),
      if i + 1 >= |names| then WinStage else StageName(config, names[i + 1]))
  }

  /** The jobs of one configuration for the first `k` kingdoms. */
  function ConfigJobs(config: string, difficulty: Difficulty, names: seq<string>, k: nat, hashSeed: int): (js: seq<StageJob>)
    requires k <= |names|
    ensures |js| == k
  {
    seq(k, i requires 0 <= i < k => JobFor(config, difficulty, names, i, hashSeed))
  }

  /** One more kingdom adds its job at the end. */
  lemma ConfigJobsSnoc(config: string, difficulty: Difficulty, names: seq<string>, k: nat, hashSeed: int)
    requires k < |names|
    ensures ConfigJobs(config, difficulty, names, k + 1, hashSeed) ==
      ConfigJobs(config, difficulty, names, k, hashSeed) + [JobFor(config, difficulty, names, k, hashSeed)]
  {
  }

  /** The jobs of the first configurations, configuration by configuration. */
  function AllJobs(configs: seq<(string, Difficulty)>, names: seq<string>, hashSeed: int): seq<StageJob>
  {
    if configs == [] then []
    else
      var last := configs[|configs| - 1];
      AllJobs(configs[..|configs| - 1], names, hashSeed) + ConfigJobs(last.0, last.1, names, |names|, hashSeed)
  }

  function KingdomNames(ds: seq<KingdomDataset>): (names: seq<string>)
    ensures |names| == |ds| && forall i :: 0 <= i < |ds| ==> names[i] == ds[i].name
  {
    if ds == [] then [] else [ds[0].name] + KingdomNames(ds[1..])
  }

  /** The two loops of `generate_only_up_stage` over the configurations and
      the kingdoms, collecting what each turn sets and passes on. */
  method GenerateOnlyUpStage(configs: seq<(string, Difficulty)>, datasets: seq<KingdomDataset>, hashSeed: int) returns (jobs: seq<StageJob>)
    ensures jobs == AllJobs(configs, KingdomNames(datasets), hashSeed)
  {
    ghost var names := KingdomNames(datasets);
    jobs := [];
    var c := 0;
    while c < |configs|
      invariant 0 <= c <= |configs|
      invariant jobs == AllJobs(configs[..c], names, hashSeed)
    {
      var (stageName, difficulty) := configs[c];
      var i := 0;
      ghost var before := jobs;
      while i < |datasets|
        invariant 0 <= i <= |datasets|
        invariant jobs == before + ConfigJobs(stageName, difficulty, names, i, hashSeed)
      {
        var prev := if i == 0 then None else Some(StageName(stageName, datasets[i - 1].name));
        var next := if i + 1 >= |datasets| then WinStage else StageName(stageName, datasets[i + 1].name);
        var seed := hashSeed + SumOrd(stageName);
        var name := datasets[i].name;
        var job := StageJob(difficulty, seed, name + "HomeStage", StageName(stageName, name), prev, next);
        assert job == JobFor(stageName, difficulty, names, i, hashSeed);
        ghost var cj := ConfigJobs(stageName, difficulty, names, i, hashSeed);
        ConfigJobsSnoc(stageName, difficulty, names, i, hashSeed);
        assert (before + cj) + [job] == before + (cj + [job]);
        jobs := jobs + [job];
        i := i + 1;
      }
      ghost var cs := configs[..c + 1];
      assert cs[..c] == configs[..c] && cs[c] == (stageName, difficulty);
      c := c + 1;
    }
    assert configs[..|configs|] == configs;
  }

  /** `generate_only_up_stage` itself, over the program's configurations. */
  method GenerateOnlyUpStages(datasets: seq<KingdomDataset>, hashSeed: int) returns (jobs: seq<StageJob>)
    ensures jobs == ConfigJobs("OnlyUpUltra", Ultra, KingdomNames(datasets), |datasets|, hashSeed)
  {
    jobs := GenerateOnlyUpStage(Configs, datasets, hashSeed);
    OnlyUltra(KingdomNames(datasets), hashSeed);
  }

  /** The program generates one configuration, Ultra. */
  lemma OnlyUltra(names: seq<string>, hashSeed: int)
    ensures AllJobs(Configs, names, hashSeed) == ConfigJobs("OnlyUpUltra", Ultra, names, |names|, hashSeed)
  {
    assert Configs[..0] == [];
  }

  /** Within a configuration each stage links back to the one before it and
      on to the one after it, the first has no previous stage, the last
      leads to the win stage, and every kingdom of the configuration gets
      the same seed. */
  lemma ChainLinks(config: string, difficulty: Difficulty, names: seq<string>, hashSeed: int, i: nat)
    requires i < |names|
    ensures var js := ConfigJobs(config, difficulty, names, |names|, hashSeed);
      js[i].outputStage == StageName(config, names[i]) && js[i].seed == hashSeed + SumOrd(config)
    ensures var js := ConfigJobs(config, difficulty, names, |names|, hashSeed);
      js[i].prevStage == if i == 0 then None else Some(js[i - 1].outputStage)
    ensures var js := ConfigJobs(config, difficulty, names, |names|, hashSeed);
      js[i].nextStage == if i + 1 == |names| then WinStage else js[i + 1].outputStage
  {
    JobLinks(config, difficulty, names, hashSeed, i);
  }

  lemma JobLinks(config: string, difficulty: Difficulty, names: seq<string>, hashSeed: int, i: nat)
    requires i < |names|
    ensures JobFor(config, difficulty, names, i, hashSeed).outputStage == StageName(config, names[i])
    ensures JobFor(config, difficulty, names, i, hashSeed).seed == hashSeed + SumOrd(config)
    ensures i == 0 ==> JobFor(config, difficulty, names, i, hashSeed).prevStage == None
    ensures i > 0 ==>
      JobFor(config, difficulty, names, i, hashSeed).prevStage == Some(JobFor(config, difficulty, names, i - 1, hashSeed).outputStage)
    ensures i + 1 == |names| ==> JobFor(config, difficulty, names, i, hashSeed).nextStage == WinStage
    ensures i + 1 < |names| ==>
      JobFor(config, difficulty, names, i, hashSeed).nextStage == JobFor(config, difficulty, names, i + 1, hashSeed).outputStage
  {
  }

  /** Distinct kingdoms get distinct stage names, so no stage is its own
      neighbour. */
  lemma StageNamesDistinct(config: string, a: string, b: string)
    requires a != b
    ensures StageName(config, a) != StageName(config, b)
  {
    var sa, sb := StageName(config, a), StageName(config, b);
    if |a| == |b| {
      var i :| 0 <= i < |a| && a[i] != b[i];
      assert sa[|config| + i] == a[i] && sb[|config| + i] == b[i];
    } else {
      assert |sa| != |sb|;
    }
  }
}
