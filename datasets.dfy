/** The data the generator draws from: jump recordings (src/generator/data/
    jump_dataset.py), one directory per jump holding `metadata.yaml`,
    `mario.obj` and `cappy.obj`, and kingdom descriptions (src/generator/data/
    kingdom_dataset.py), one `NN-Name.yaml` file per kingdom. Reading files
    is an oracle; what is modelled is how the text and the names are turned
    into values. */
module Datasets {
  import opened Wrappers
  import opened Strings
  import opened Vec

  // ------------------------------------------------------------ jumps

  /** The fields of `JumpMetadata` the program reads. */
  datatype JumpMetadata = JumpMetadata(desc: string, difficulty: int)

  /** `JumpData`: its accessors return these fields unchanged. */
  datatype JumpData = JumpData(name: string, metadata: JumpMetadata, mario: seq<Vec3>, cappy: seq<Vec3>)

  /** `float(token)`: None when Python would raise `ValueError`. */
  type FloatParser = string -> Option<real>

  /** A line with at least four space-separated tokens whose first is `v`. */
  predicate IsVertexLine(line: string)
  {
    var t := Split(line, ' ');
    |t| >= 4 && t[0] == "v"
  }

  /** The point of one line of an OBJ file: None for any other line, an
      error when one of tokens 1 to 3 is not a float; later tokens are
      ignored. */
  function LineVertex(line: string, pf: FloatParser): (r: Option<Result<Vec3>>)
    ensures r.Some? <==> IsVertexLine(line)
    ensures r.Some? ==> var t := Split(line, ' ');
      (r.value.Ok? <==> pf(t[1]).Some? && pf(t[2]).Some? && pf(t[3]).Some?) &&
      (r.value.Ok? ==> r.value.value == Vec3(pf(t[1]).value, pf(t[2]).value, pf(t[3]).value)) &&
      (r.value.Err? ==> r.value.error == ValueError)
  {
    var t := Split(line, ' ');
    if |t| >= 4 && t[0] == "v" then
      var x, y, z := pf(t[1]), pf(t[2]), pf(t[3]);
      if x.None? || y.None? || z.None? then Some(Err(ValueError))
      else Some(Ok(Vec3(x.value, y.value, z.value)))
    else None
  }

  /** The points of a list of lines, in line order. */
  function TrajectoryOf(lines: seq<string>, pf: FloatParser): Result<seq<Vec3>>
    decreases |lines|
  {
    if lines == [] then Ok([])
    else
      var acc :- TrajectoryOf(lines[..|lines| - 1], pf);
      match LineVertex(lines[|lines| - 1], pf)
      case None => Ok(acc)
      case Some(Err(e)) => Err(e)
      case Some(Ok(v)) => Ok(acc + [v])
  }

  /** The points a trajectory file yields are those of its first lines
      followed by those of the rest: file order is kept. */
  lemma {:induction false} TrajectoryOfAppend(a: seq<string>, b: seq<string>, pf: FloatParser)
    requires TrajectoryOf(a, pf).Ok? && TrajectoryOf(b, pf).Ok?
    ensures TrajectoryOf(a + b, pf) == Ok(TrajectoryOf(a, pf).value + TrajectoryOf(b, pf).value)
    decreases |b|
  {
    if b == [] {
      assert a + b == a;
      assert TrajectoryOf(a, pf).value + [] == TrajectoryOf(a, pf).value;
    } else {
      var init := b[..|b| - 1];
      assert (a + b)[..|a + b| - 1] == a + init;
      assert (a + b)[|a + b| - 1] == b[|b| - 1];
      assert TrajectoryOf(init, pf).Ok?;
      TrajectoryOfAppend(a, init, pf);
      var x, y := TrajectoryOf(a, pf).value, TrajectoryOf(init, pf).value;
      match LineVertex(b[|b| - 1], pf)
      case None =>
      case Some(v) =>
        assert v.Ok?;
        assert x + (y + [v.value]) == (x + y) + [v.value];
    }
  }

  /** One line contributes exactly one point when it is a vertex line and
      none otherwise. */
  lemma TrajectoryOfLine(line: string, pf: FloatParser)
    ensures !IsVertexLine(line) ==> TrajectoryOf([line], pf) == Ok([])
    ensures IsVertexLine(line) && LineVertex(line, pf).value.Ok? ==>
            TrajectoryOf([line], pf) == Ok([LineVertex(line, pf).value.value])
    ensures IsVertexLine(line) && LineVertex(line, pf).value.Err? ==> TrajectoryOf([line], pf) == Err(ValueError)
  {
    assert [line][..0] == [];
    if IsVertexLine(line) && LineVertex(line, pf).value.Ok? {
      assert [] + [LineVertex(line, pf).value.value] == [LineVertex(line, pf).value.value];
    }
  }

  /** A failing prefix fails the whole file with the same error. */
  lemma {:induction false} TrajectoryErrStays(a: seq<string>, b: seq<string>, pf: FloatParser)
    requires TrajectoryOf(a, pf).Err?
    ensures TrajectoryOf(a + b, pf) == TrajectoryOf(a, pf)
    decreases |b|
  {
    if b == [] {
      assert a + b == a;
    } else {
      var init := b[..|b| - 1];
      assert (a + b)[..|a + b| - 1] == a + init;
      TrajectoryErrStays(a, init, pf);
    }
  }

  /** The first token of a line starts with the line's first character when
      that is not a space. */
  lemma FirstTokenStarts(line: string, sep: char)
    requires |line| >= 1 && line[0] != sep
    ensures |Split(line, sep)[0]| >= 1 && Split(line, sep)[0][0] == line[0]
  {
  }

  /** Normal (`vn`), texture (`vt`) and face (`f`) lines yield nothing. */
  lemma OtherObjLinesSkipped(line: string)
    requires (|line| >= 2 && line[0] == 'v' && (line[1] == 'n' || line[1] == 't')) || (|line| >= 1 && line[0] == 'f')
    ensures !IsVertexLine(line)
  {
    FirstTokenStarts(line, ' ');
    if line[0] == 'v' {
      FirstTokenStarts(line[1..], ' ');
      assert Split(line, ' ')[0] == [line[0]] + Split(line[1..], ' ')[0];
    }
  }

  /** `JumpData.__parse_trajectory` on the text of a file. */
  method ParseTrajectory(text: string, pf: FloatParser) returns (r: Result<seq<Vec3>>)
    ensures r == TrajectoryOf(Split(text, '\n'), pf)
  {
    var lines := Split(text, '\n');
    var trajectory: seq<Vec3> := [];
    for i := 0 to |lines|
      invariant TrajectoryOf(lines[..i], pf) == Ok(trajectory)
    {
      assert lines[..i + 1][..i] == lines[..i];
      var v := LineVertex(lines[i], pf);
      if v.Some? {
        if v.value.Err? {
          assert lines[..i + 1] + lines[i + 1..] == lines;
          TrajectoryErrStays(lines[..i + 1], lines[i + 1..], pf);
          return Err(v.value.error);
        }
        trajectory := trajectory + [v.value.value];
      }
    }
    assert lines[..|lines|] == lines;
    r := Ok(trajectory);
  }

  /** What reading a jump directory depends on: the metadata of a directory
      and the trajectory of an OBJ file, both by path. */
  type MetaLoader = string -> Result<JumpMetadata>
  type TrajectoryLoader = string -> Result<seq<Vec3>>

  /** `JumpData.from_data_dir(name, dir)`: the metadata, then `mario.obj`,
      then `cappy.obj`; the jump is named after the directory, and the
      `name` argument is not used. */
  function FromDataDir(name: string, dir: string, meta: MetaLoader, load: TrajectoryLoader): (r: Result<JumpData>)
    ensures r.Ok? <==> (meta(PathJoin(dir, "metadata.yaml")).Ok? && load(PathJoin(dir, "mario.obj")).Ok? &&
                        load(PathJoin(dir, "cappy.obj")).Ok?)
    ensures r.Ok? ==> (r.value.name == Basename(dir) &&
                       r.value.metadata == meta(PathJoin(dir, "metadata.yaml")).value &&
                       r.value.mario == load(PathJoin(dir, "mario.obj")).value &&
                       r.value.cappy == load(PathJoin(dir, "cappy.obj")).value)
  {
    var m :- meta(PathJoin(dir, "metadata.yaml"));
    var mario :- load(PathJoin(dir, "mario.obj"));
    var cappy :- load(PathJoin(dir, "cappy.obj"));
    Ok(JumpData(Basename(dir), m, mario, cappy))
  }

  /** The base directory of `get_all_jumps` and the folder under it. */
  const JumpsDir: string := "src/generator/data/jumps/"

  function JumpFolder(captureType: Option<string>): (f: string)
    ensures captureType.None? ==> f == "Mario"
    ensures captureType.Some? ==> f == captureType.value
  {
    if captureType.None? then "Mario" else captureType.value
  }

  /** The jumps of a listing of jump folders, in listing order. */
  function JumpsOf(base: string, folders: seq<string>, meta: MetaLoader, load: TrajectoryLoader): Result<seq<JumpData>>
    decreases |folders|
  {
    if folders == [] then Ok([])
    else
      var acc :- JumpsOf(base, folders[..|folders| - 1], meta, load);
      var f := folders[|folders| - 1];
      var jump :- FromDataDir(f, PathJoin(base, f), meta, load);
      Ok(acc + [jump])
  }

  /** A loaded listing ends with the jump of its last folder, named after it. */
  lemma JumpsOfLast(base: string, folders: seq<string>, meta: MetaLoader, load: TrajectoryLoader)
    requires folders != [] && |folders[|folders| - 1]| > 0 && Free(folders[|folders| - 1], '/')
    requires JumpsOf(base, folders, meta, load).Ok?
    ensures var f := folders[|folders| - 1];
            var acc := JumpsOf(base, folders[..|folders| - 1], meta, load);
            var jump := FromDataDir(f, PathJoin(base, f), meta, load);
            acc.Ok? && jump.Ok? && jump.value.name == f &&
            JumpsOf(base, folders, meta, load).value == acc.value + [jump.value]
  {
    var f := folders[|folders| - 1];
    BasenameOfJoin(base, f);
  }

  /** Loaded jumps are one per folder, in listing order, each named after its
      folder (a directory entry is a non-empty name without `/`). */
  lemma {:induction false} JumpsOfNames(base: string, folders: seq<string>, meta: MetaLoader, load: TrajectoryLoader)
    requires forall k :: 0 <= k < |folders| ==> |folders[k]| > 0 && Free(folders[k], '/')
    requires JumpsOf(base, folders, meta, load).Ok?
    ensures var js := JumpsOf(base, folders, meta, load).value;
            |js| == |folders| && forall k :: 0 <= k < |js| ==> js[k].name == folders[k]
    decreases |folders|
  {
    if folders != [] {
      var init, f := folders[..|folders| - 1], folders[|folders| - 1];
      JumpsOfLast(base, folders, meta, load);
      var acc := JumpsOf(base, init, meta, load).value;
      var last := FromDataDir(f, PathJoin(base, f), meta, load).value;
      JumpsOfNames(base, init, meta, load);
      var js := acc + [last];
      forall k | 0 <= k < |js|
        ensures js[k].name == folders[k]
      {
        if k < |init| {
          assert js[k] == acc[k] && init[k] == folders[k];
        }
      }
    }
  }

  lemma {:induction false} JumpsOfErrStays(base: string, a: seq<string>, b: seq<string>,
                                           meta: MetaLoader, load: TrajectoryLoader)
    requires JumpsOf(base, a, meta, load).Err?
    ensures JumpsOf(base, a + b, meta, load) == JumpsOf(base, a, meta, load)
    decreases |b|
  {
    if b == [] {
      assert a + b == a;
    } else {
      var init := b[..|b| - 1];
      assert (a + b)[..|a + b| - 1] == a + init;
      JumpsOfErrStays(base, a, init, meta, load);
    }
  }

  /** `JumpDataset.get_all_jumps(capture_type)`: `listdir` gives the folder
      names of a directory. */
  method GetAllJumps(captureType: Option<string>, listdir: string -> seq<string>, meta: MetaLoader,
                     load: TrajectoryLoader) returns (r: Result<seq<JumpData>>)
    ensures r == JumpsOf(PathJoin(JumpsDir, JumpFolder(captureType)), listdir(PathJoin(JumpsDir, JumpFolder(captureType))), meta, load)
  {
    var baseDir := PathJoin(JumpsDir, JumpFolder(captureType));
    var folders := listdir(baseDir);
    var jumps: seq<JumpData> := [];
    for i := 0 to |folders|
      invariant JumpsOf(baseDir, folders[..i], meta, load) == Ok(jumps)
    {
      assert folders[..i + 1][..i] == folders[..i];
      var jump := FromDataDir(folders[i], PathJoin(baseDir, folders[i]), meta, load);
      if jump.Err? {
        assert folders[..i + 1] + folders[i + 1..] == folders;
        JumpsOfErrStays(baseDir, folders[..i + 1], folders[i + 1..], meta, load);
        return Err(jump.error);
      }
      jumps := jumps + [jump.value];
    }
    assert folders[..|folders|] == folders;
    r := Ok(jumps);
  }

  // ------------------------------------------------------------ kingdoms

  /** The fields of `KingdomDataset` the program reads. */
  datatype KingdomPb = KingdomPb(sky: string, objects: seq<string>, captures: seq<string>,
                                 captureSpecificObjects: seq<string>)

  /** `KingdomDataset`: `name()`, `get_sky_name()`, `get_objects()`,
      `get_captures()` and `get_capture_specific_objects()` return these
      fields unchanged. */
  datatype KingdomDataset = KingdomDataset(name: string, pb: KingdomPb)

  const KingdomsDir: string := "src/generator/data/kingdoms"

  /** `file.split('-')[1].split('.yaml')[0]`; a name without `-` has no
      second field. */
  function KingdomName(file: string): (r: Result<string>)
    ensures |Split(file, '-')| < 2 <==> r.Err?
    ensures r.Err? ==> r.error == IndexError
    ensures r.Ok? ==> r.value == UntilFirst(Split(file, '-')[1], ".yaml")
  {
    var parts := Split(file, '-');
    if |parts| < 2 then Err(IndexError) else Ok(UntilFirst(parts[1], ".yaml"))
  }

  /** A file named `{prefix}-{name}.yaml` yields `name`, for a prefix and a
      name without `-` in which `.yaml` only ends the file name. */
  lemma KingdomNameOf(prefix: string, name: string)
    requires Free(prefix, '-') && Free(name, '-')
    requires forall i :: 0 <= i < |name| ==> !OccursAt(name + ".yaml", i, ".yaml")
    ensures KingdomName(prefix + "-" + name + ".yaml") == Ok(name)
  {
    var rest := name + ".yaml";
    assert prefix + "-" + name + ".yaml" == prefix + ['-'] + rest;
    assert Free(rest, '-');
    SplitAppend(prefix, '-', rest);
    SplitFree(rest, '-');
    var r := UntilFirst(rest, ".yaml");
    assert OccursAt(rest, |name|, ".yaml");
    assert |r| == |name|;
    assert r == rest[..|name|] == name;
  }

  /** A name without `.` cannot hold `.yaml` before its end. */
  lemma NoDotNoSuffix(name: string)
    requires Free(name, '.')
    ensures forall i :: 0 <= i < |name| ==> !OccursAt(name + ".yaml", i, ".yaml")
  {
    forall i | 0 <= i < |name|
      ensures !OccursAt(name + ".yaml", i, ".yaml")
    {
      var s := name + ".yaml";
      assert s[i..i + 5][0] == s[i] == name[i] != '.';
    }
  }

  /** `00-CapWorld.yaml` is the dataset of `CapWorld`. */
  lemma KingdomNameExample()
    ensures KingdomName("00-CapWorld.yaml") == Ok("CapWorld")
  {
    var name := "CapWorld";
    assert Free(name, '.') && Free(name, '-') && Free("00", '-');
    NoDotNoSuffix(name);
    KingdomNameOf("00", name);
    assert "00" + "-" + name + ".yaml" == "00-CapWorld.yaml";
  }

  /** A `.yaml` file name without `-` raises. */
  lemma KingdomNameWithoutDash(file: string)
    requires Free(file, '-')
    ensures KingdomName(file) == Err(IndexError)
  {
    SplitFree(file, '-');
  }

  /** Python's ordering of `str`: lexicographic on code points. */
  predicate StrLe(a: string, b: string)
    decreases |a|
  {
    a == [] || (b != [] && (a[0] < b[0] || (a[0] == b[0] && StrLe(a[1..], b[1..]))))
  }

  lemma {:induction false} StrLeTotal(a: string, b: string)
    ensures StrLe(a, b) || StrLe(b, a)
    decreases |a|
  {
    if a != [] && b != [] && a[0] == b[0] {
      StrLeTotal(a[1..], b[1..]);
    }
  }

  predicate SortedStrings(s: seq<string>)
  {
    forall i :: 0 < i < |s| ==> StrLe(s[i - 1], s[i])
  }

  function Insert(x: string, s: seq<string>): (r: seq<string>)
    requires SortedStrings(s)
    ensures SortedStrings(r) && multiset(r) == multiset(s) + multiset{x}
    ensures r != [] && (r[0] == x || (s != [] && r[0] == s[0]))
    decreases |s|
  {
    if s == [] then [x]
    else if StrLe(x, s[0]) then [x] + s
    else
      StrLeTotal(x, s[0]);
      var t := Insert(x, s[1..]);
      assert multiset(s) == multiset{s[0]} + multiset(s[1..]) by {
        assert s == [s[0]] + s[1..];
      }
      [s[0]] + t
  }

  /** `sorted(listing)`: an insertion sort with Python's string order. */
  function SortStrings(s: seq<string>): (r: seq<string>)
    ensures SortedStrings(r) && multiset(r) == multiset(s)
    decreases |s|
  {
    if s == [] then []
    else
      var init, x := s[..|s| - 1], s[|s| - 1];
      assert multiset(s) == multiset(init) + multiset{x} by {
        assert s == init + [x];
      }
      Insert(x, SortStrings(init))
  }

  /** `KingdomDataset.from_yaml`: the dataset named `name` with the fields
      loaded from `path`. */
  function FromYaml(name: string, path: string, load: string -> Result<KingdomPb>): (r: Result<KingdomDataset>)
    ensures load(path).Ok? <==> r.Ok?
    ensures r.Ok? ==> r.value.name == name && r.value.pb == load(path).value
  {
    var pb :- load(path);
    Ok(KingdomDataset(name, pb))
  }

  /** One entry of the listing: a `.yaml` file adds its dataset, anything
      else is skipped. */
  function AddDataset(acc: seq<KingdomDataset>, f: string, load: string -> Result<KingdomPb>): Result<seq<KingdomDataset>>
  {
    if !EndsWith(f, ".yaml") then Ok(acc)
    else
      var name :- KingdomName(f);
      var d :- FromYaml(name, PathJoin(KingdomsDir, f), load);
      Ok(acc + [d])
  }

  /** The datasets of a listing: the `.yaml` files, in listing order. */
  function DatasetsOf(files: seq<string>, load: string -> Result<KingdomPb>): Result<seq<KingdomDataset>>
    decreases |files|
  {
    if files == [] then Ok([])
    else
      var acc :- DatasetsOf(files[..|files| - 1], load);
      AddDataset(acc, files[|files| - 1], load)
  }

  /** The `.yaml` entries of a listing, in order. */
  function YamlFiles(files: seq<string>): (r: seq<string>)
    ensures forall k :: 0 <= k < |r| ==> EndsWith(r[k], ".yaml")
    decreases |files|
  {
    if files == [] then []
    else
      var rest := YamlFiles(files[..|files| - 1]);
      if EndsWith(files[|files| - 1], ".yaml") then rest + [files[|files| - 1]] else rest
  }

  /** A loaded listing has one dataset per `.yaml` file, in order, named from
      its file name; other entries are skipped. */
  lemma {:induction false} DatasetsOfNames(files: seq<string>, load: string -> Result<KingdomPb>)
    requires DatasetsOf(files, load).Ok?
    ensures var ds := DatasetsOf(files, load).value; var ys := YamlFiles(files);
            |ds| == |ys| &&
            forall k :: 0 <= k < |ds| ==> KingdomName(ys[k]) == Ok(ds[k].name) &&
                                          Ok(ds[k].pb) == load(PathJoin(KingdomsDir, ys[k]))
    decreases |files|
  {
    if files != [] {
      DatasetsOfNames(files[..|files| - 1], load);
    }
  }

  lemma {:induction false} DatasetsErrStays(a: seq<string>, b: seq<string>, load: string -> Result<KingdomPb>)
    requires DatasetsOf(a, load).Err?
    ensures DatasetsOf(a + b, load) == DatasetsOf(a, load)
    decreases |b|
  {
    if b == [] {
      assert a + b == a;
    } else {
      var init := b[..|b| - 1];
      assert (a + b)[..|a + b| - 1] == a + init;
      DatasetsErrStays(a, init, load);
    }
  }

  /** The listing up to entry `i` included is the listing before it with that
      entry added. */
  lemma DatasetsOfSnoc(files: seq<string>, i: nat, load: string -> Result<KingdomPb>)
    requires i < |files|
    ensures var acc := DatasetsOf(files[..i], load);
            DatasetsOf(files[..i + 1], load) == if acc.Err? then Err(acc.error) else AddDataset(acc.value, files[i], load)
  {
    assert files[..i + 1][..i] == files[..i];
  }

  /** `AddDataset` case by case, as the loop body takes them. */
  lemma AddDatasetCases(acc: seq<KingdomDataset>, f: string, load: string -> Result<KingdomPb>)
    ensures !EndsWith(f, ".yaml") ==> AddDataset(acc, f, load) == Ok(acc)
    ensures EndsWith(f, ".yaml") && KingdomName(f).Err? ==> AddDataset(acc, f, load) == Err(KingdomName(f).error)
    ensures EndsWith(f, ".yaml") && KingdomName(f).Ok? ==>
              var d := FromYaml(KingdomName(f).value, PathJoin(KingdomsDir, f), load);
              AddDataset(acc, f, load) == if d.Err? then Err(d.error) else Ok(acc + [d.value])
  {
  }

  /** `KingdomDataset.get_all_datasets`: `listing` is what `os.listdir`
      returns for the kingdoms directory, in any order. */
  method GetAllDatasets(listing: seq<string>, load: string -> Result<KingdomPb>)
    returns (r: Result<seq<KingdomDataset>>)
    ensures r == DatasetsOf(SortStrings(listing), load)
  {
    var files := SortStrings(listing);
    var datasets: seq<KingdomDataset> := [];
    for i := 0 to |files|
      invariant DatasetsOf(files[..i], load) == Ok(datasets)
    {
      var file := files[i];
      ghost var step := AddDataset(datasets, file, load);
      DatasetsOfSnoc(files, i, load);
      AddDatasetCases(datasets, file, load);
      if !EndsWith(file, ".yaml") {
        assert step == Ok(datasets);
        continue;
      }
      var name := KingdomName(file);
      var dataset := if name.Err? then Err(name.error) else FromYaml(name.value, PathJoin(KingdomsDir, file), load);
      if dataset.Err? {
        assert step == Err(dataset.error);
        assert files[..i + 1] + files[i + 1..] == files;
        DatasetsErrStays(files[..i + 1], files[i + 1..], load);
        return Err(dataset.error);
      }
      assert step == Ok(datasets + [dataset.value]);
      datasets := datasets + [dataset.value];
    }
    assert files[..|files|] == files;
    r := Ok(datasets);
  }

  lemma {:induction false} StrLeRefl(a: string)
    ensures StrLe(a, a)
    decreases |a|
  {
    if a != [] {
      StrLeRefl(a[1..]);
    }
  }

  lemma {:induction false} StrLeTrans(a: string, b: string, c: string)
    requires StrLe(a, b) && StrLe(b, c)
    ensures StrLe(a, c)
    decreases |a|
  {
    if a != [] && a[0] == b[0] && b[0] == c[0] {
      StrLeTrans(a[1..], b[1..], c[1..]);
    }
  }

  /** Sorted by neighbours means sorted for every pair. */
  lemma {:induction false} SortedPair(s: seq<string>, i: int, j: int)
    requires SortedStrings(s) && 0 <= i <= j < |s|
    ensures StrLe(s[i], s[j])
    decreases j - i
  {
    if i == j {
      StrLeRefl(s[i]);
    } else {
      SortedPair(s, i, j - 1);
      StrLeTrans(s[i], s[j - 1], s[j]);
    }
  }

  /** The `.yaml` filter keeps exactly the `.yaml` entries of the listing. */
  lemma {:induction false} YamlFilesMembers(files: seq<string>, f: string)
    ensures f in YamlFiles(files) <==> f in files && EndsWith(f, ".yaml")
    decreases |files|
  {
    if files != [] {
      var init := files[..|files| - 1];
      YamlFilesMembers(init, f);
      assert files == init + [files[|files| - 1]];
    }
  }

  /** Filtering a sorted listing leaves it sorted. */
  lemma {:induction false} YamlFilesSorted(files: seq<string>)
    requires SortedStrings(files)
    ensures SortedStrings(YamlFiles(files))
    decreases |files|
  {
    if files != [] {
      var init, x := files[..|files| - 1], files[|files| - 1];
      assert SortedStrings(init) by {
        forall i | 0 < i < |init| ensures StrLe(init[i - 1], init[i]) {
          assert init[i - 1] == files[i - 1] && init[i] == files[i];
        }
      }
      YamlFilesSorted(init);
      var rest := YamlFiles(init);
      if EndsWith(x, ".yaml") && rest != [] {
        var y := rest[|rest| - 1];
        YamlFilesMembers(init, y);
        var i :| 0 <= i < |init| && init[i] == y;
        SortedPair(files, i, |files| - 1);
        var r := rest + [x];
        forall k | 0 < k < |r| ensures StrLe(r[k - 1], r[k]) {
          if k < |rest| {
            assert r[k - 1] == rest[k - 1] && r[k] == rest[k];
          }
        }
      }
    }
  }

  /** The datasets come in sorted file-name order, one per `.yaml` entry of
      the listing, each named from its file. */
  lemma DatasetsSorted(listing: seq<string>, load: string -> Result<KingdomPb>)
    requires DatasetsOf(SortStrings(listing), load).Ok?
    ensures var ys := YamlFiles(SortStrings(listing)); var ds := DatasetsOf(SortStrings(listing), load).value;
            SortedStrings(ys) && (forall f :: f in ys <==> f in listing && EndsWith(f, ".yaml")) &&
            |ds| == |ys| && forall k :: 0 <= k < |ds| ==> KingdomName(ys[k]) == Ok(ds[k].name)
  {
    var sorted := SortStrings(listing);
    DatasetsOfNames(sorted, load);
    YamlFilesSorted(sorted);
    forall f ensures f in YamlFiles(sorted) <==> f in listing && EndsWith(f, ".yaml") {
      YamlFilesMembers(sorted, f);
      assert f in sorted <==> f in multiset(sorted);
      assert f in listing <==> f in multiset(listing);
    }
  }
}
