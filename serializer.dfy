/** `SerializerContext.__to_dict` (src/stage/serializer/context.py): the
    dictionary a protobuf message turns into has its snake_case field names
    rewritten to the game's CamelCase, the fields of its `components` merged
    flat into it, and its numbers wrapped as BYML integers and floats. */
module Serializer {
  import opened Wrappers
  import opened Strings
  import opened Yaml

  // ---------------------------------------------------------------------
  // Key conversion

  /** `process_key_word`: an empty piece (from a doubled `_`) stands for an
      escaped underscore; any other piece gets its first letter capitalised. */
  function CamelWord(w: string): string
  {
    if w == "" then "_" else [Upper(w[0])] + w[1..]
  }

  function CamelWords(ws: seq<string>): (r: seq<string>)
    ensures |r| == |ws| && forall i :: 0 <= i < |ws| ==> r[i] == CamelWord(ws[i])
  {
    if ws == [] then [] else [CamelWord(ws[0])] + CamelWords(ws[1..])
  }

  /** `''.join(process_key_word(w) for w in key.split('_'))`. */
  function CamelKey(k: string): string
  {
    Concat(CamelWords(Split(k, '_')))
  }

  /** The key of a join is the concatenation of the converted pieces. */
  lemma CamelKeyOfJoin(ws: seq<string>)
    requires |ws| >= 1
    requires forall i :: 0 <= i < |ws| ==> Free(ws[i], '_')
    ensures CamelKey(Join('_', ws)) == Concat(CamelWords(ws))
  {
    SplitJoin(ws, '_');
  }

  lemma JoinExamples()
    ensures Join('_', ["change", "stage", "id"]) == "change_stage_id"
    ensures Join('_', ["no", "delete", "", "shine"]) == "no_delete__shine"
  {
    var a, b := ["change", "stage", "id"], ["no", "delete", "", "shine"];
    assert Join('_', a[1..]) == "stage_id";
    assert Join('_', b[2..]) == "_shine";
    assert Join('_', b[1..]) == "delete__shine";
  }

  lemma CamelWordsExample1()
    ensures CamelWords(["change", "stage", "id"]) == ["Change", "Stage", "Id"]
  {
    assert CamelWord("change") == "Change" by {
      assert Upper('c') == 'C' && "change"[1..] == "hange";
    }
    assert CamelWord("stage") == "Stage" by {
      assert Upper('s') == 'S' && "stage"[1..] == "tage";
    }
    assert CamelWord("id") == "Id" by {
      assert Upper('i') == 'I' && "id"[1..] == "d";
    }
  }

  lemma CamelWordsExample2()
    ensures CamelWords(["no", "delete", "", "shine"]) == ["No", "Delete", "_", "Shine"]
  {
    assert CamelWord("no") == "No" by {
      assert Upper('n') == 'N' && "no"[1..] == "o";
    }
    assert CamelWord("delete") == "Delete" by {
      assert Upper('d') == 'D' && "delete"[1..] == "elete";
    }
    assert CamelWord("") == "_";
    assert CamelWord("shine") == "Shine" by {
      assert Upper('s') == 'S' && "shine"[1..] == "hine";
    }
  }

  lemma ConcatExamples()
    ensures Concat(["Change", "Stage", "Id"]) == "ChangeStageId"
    ensures Concat(["No", "Delete", "_", "Shine"]) == "NoDelete_Shine"
  {
  }

  /** The conversions the serializer relies on for the game's field names;
      the doubled underscore is an escaped one. */
  lemma CamelKeyExamples()
    ensures CamelKey("change_stage_id") == "ChangeStageId"
    ensures CamelKey("no_delete__shine") == "NoDelete_Shine"
  {
    JoinExamples();
    CamelWordsExample1();
    CamelWordsExample2();
    ConcatExamples();
    CamelKeyOfJoin(["change", "stage", "id"]);
    CamelKeyOfJoin(["no", "delete", "", "shine"]);
  }

  /** A key rewritten a second time can change again: a field converted
      once for the flat merge and again inside `components` loses its
      escaped underscore. */
  lemma ReconvertedKey()
    ensures CamelKey("a__b") == "A_B"
    ensures CamelKey(CamelKey("a__b")) == "AB"
  {
    var once, twice := ["a", "", "b"], ["A", "B"];
    assert Join('_', once[1..]) == "_b";
    assert Join('_', once) == "a__b";
    assert Join('_', twice) == "A_B";
    assert CamelWord("a") == "A" by {
      assert Upper('a') == 'A' && "a"[1..] == "";
    }
    assert CamelWord("A") == "A" && CamelWord("B") == "B" && CamelWord("b") == "B";
    assert CamelWords(once) == ["A", "_", "B"];
    assert CamelWords(twice) == ["A", "B"];
    CamelKeyOfJoin(once);
    CamelKeyOfJoin(twice);
    assert Concat(["A", "_", "B"]) == "A_B";
    assert Concat(["A", "B"]) == "AB";
  }

  // ---------------------------------------------------------------------
  // The nested rewrite: `reformat_yml` inside `__to_dict`

  /** Every dictionary anywhere in `y` has each key once, as every dictionary
      `MessageToDict` builds does. */
  predicate AllDistinct(y: Yml)
  {
    match y
    case YList(items) => forall i :: 0 <= i < |items| ==> AllDistinct(items[i])
    case YDict(d) => DistinctKeys(d) && forall i :: 0 <= i < |d| ==> AllDistinct(d[i].1)
    case _ => true
  }

  /** `component[subcomponent]` for a list component: Python indexes a list
      with an int or a bool, negative indices counting from the end. */
  function ListIndex(items: seq<Yml>, sub: Yml): (r: Result<Yml>)
    ensures r.Ok? ==> r.value in items
  {
    match sub
    case YInt(i) =>
      if 0 <= i < |items| then Ok(items[i])
      else if -|items| <= i < 0 then Ok(items[|items| + i])
      else Err(IndexError)
    case YBool(b) =>
      var i := if b then 1 else 0;
      if i < |items| then Ok(items[i]) else Err(IndexError)
    case _ => Err(TypeError)
  }

  /** `reformat_yml(y)`: lists element by element, dictionaries key by key
      in their original order, everything else unchanged. A nesting deeper
      than `depth` is the model's bound and fails with `OutOfFuel`. */
  function Camelled(y: Yml, depth: nat): Result<Yml>
    decreases depth, 0, 0, 0
  {
    match y
    case YList(items) =>
      if depth == 0 then Err(OutOfFuel)
      else
        var r :- CamelList(items, depth - 1);
        Ok(YList(r))
    case YDict(d) =>
      if depth == 0 then Err(OutOfFuel)
      else
        var r :- CamelEntries(d, Keys(d), depth - 1);
        Ok(YDict(r))
    case _ => Ok(y)
  }

  /** `[reformat_yml(x) for x in items]`. */
  function CamelList(items: seq<Yml>, depth: nat): (r: Result<seq<Yml>>)
    ensures r.Ok? ==> |r.value| == |items|
    decreases depth, 1, |items|, 0
  {
    if items == [] then Ok([])
    else
      var x :- Camelled(items[0], depth);
      var rest :- CamelList(items[1..], depth);
      Ok([x] + rest)
  }

  /** The state a value taken into the object by the flat merge is in at
      the end: it is the same Python object as the one inside the component,
      which `reformat_yml` rewrites once more with `components`. A dictionary
      is rewritten in place, so it reads as reformatted; a list keeps its
      identity while its elements are rewritten in place; anything else is
      untouched. */
  function Revisited(y: Yml, depth: nat): Result<Yml>
    decreases depth, 0, 1, 0
  {
    match y
    case YDict(_) => Camelled(y, depth)
    case YList(items) =>
      if depth == 0 then Err(OutOfFuel)
      else
        var r :- RevisitedList(items, depth - 1);
        Ok(YList(r))
    case _ => Ok(y)
  }

  function RevisitedList(items: seq<Yml>, depth: nat): (r: Result<seq<Yml>>)
    ensures r.Ok? ==> |r.value| == |items|
    decreases depth, 0, 1, 1 + |items|
  {
    if items == [] then Ok([])
    else
      var x :- Revisited(items[0], depth);
      var rest :- RevisitedList(items[1..], depth);
      Ok([x] + rest)
  }

  /** `Revisited` on each value of a dictionary, keys unchanged. */
  function RevisitedEntries(d: Entries, depth: nat): (r: Result<Entries>)
    ensures r.Ok? ==> |r.value| == |d|
    decreases depth, 0, 1, 1 + |d|
  {
    if d == [] then Ok([])
    else
      var v :- Revisited(d[0].1, depth);
      var rest :- RevisitedEntries(d[1..], depth);
      Ok([(d[0].0, v)] + rest)
  }

  /** `yml = {**reformat_yml(v), **yml}`: the reformatted field must be a
      dictionary, and the object's own keys win. The values taken from the
      field are those it is left with after `components` is rewritten. */
  function MergeField(cur: Entries, v: Yml, depth: nat): Result<Entries>
    decreases depth, 1, 0, 1
  {
    var r :- Camelled(v, depth);
    if r.YDict? then
      var shared :- RevisitedEntries(r.entries, depth);
      Ok(Merged(shared, cur))
    else Err(TypeError)
  }

  /** The fields of one dictionary component, in order. */
  function MergeDict(cur: Entries, subs: Entries, depth: nat): Result<Entries>
    decreases depth, 1, 0, 2 + |subs|
  {
    if subs == [] then Ok(cur)
    else
      var next :- MergeField(cur, subs[0].1, depth);
      MergeDict(next, subs[1..], depth)
  }

  /** The elements of one list component, each used to index the list. */
  function MergeIndexed(cur: Entries, items: seq<Yml>, subs: seq<Yml>, depth: nat): Result<Entries>
    decreases depth, 1, 0, 2 + |subs|
  {
    if subs == [] then Ok(cur)
    else
      var v :- ListIndex(items, subs[0]);
      var next :- MergeField(cur, v, depth);
      MergeIndexed(next, items, subs[1..], depth)
  }

  /** `for subcomponent in component: ...`: a dictionary yields its keys, a
      list its elements, a string its characters (which cannot index it); any
      other value is not iterable. */
  function MergeComponent(cur: Entries, c: Yml, depth: nat): Result<Entries>
    decreases depth, 1, 1, 0
  {
    match c
    case YDict(subs) => MergeDict(cur, subs, depth)
    case YList(items) => MergeIndexed(cur, items, items, depth)
    case YStr(s) => if s == "" then Ok(cur) else Err(TypeError)
    case _ => Err(TypeError)
  }

  /** `for component in yml['components']: ...`. */
  function MergeComponents(cur: Entries, comps: seq<Yml>, depth: nat): Result<Entries>
    decreases depth, 1, 2 + |comps|, 0
  {
    if comps == [] then Ok(cur)
    else
      var next :- MergeComponent(cur, comps[0], depth);
      MergeComponents(next, comps[1..], depth)
  }

  /** The fields of a dictionary component after the merge: `reformat_yml`
      rewrote each of them in place. */
  function ConvertedFields(subs: Entries, depth: nat): (r: Result<Entries>)
    ensures r.Ok? ==> |r.value| == |subs|
    decreases depth, 1, 3, |subs|
  {
    if subs == [] then Ok([])
    else
      var v :- Camelled(subs[0].1, depth);
      var rest :- ConvertedFields(subs[1..], depth);
      Ok([(subs[0].0, v)] + rest)
  }

  /** The `components` list after the merge: each dictionary component holds
      its rewritten fields; any other component merges only when it is empty
      and is left as it is. */
  function ConvertedComponents(comps: seq<Yml>, depth: nat): (r: Result<seq<Yml>>)
    ensures r.Ok? ==> |r.value| == |comps|
    decreases depth, 1, 4, |comps|
  {
    if comps == [] then Ok([])
    else
      var c :- match comps[0]
        case YDict(subs) =>
          var fs :- ConvertedFields(subs, depth);
          Ok(YDict(fs))
        case other => Ok(other);
      var rest :- ConvertedComponents(comps[1..], depth);
      Ok([c] + rest)
  }

  /** The merge step for one key: only `components` holding a list is merged,
      and the list the object keeps under `components` is the one whose
      component fields the merge rewrote in place. */
  function MergeStep(cur: Entries, key: string, depth: nat): Result<Entries>
    decreases depth, 2, 0, 0
  {
    if key != "components" then Ok(cur)
    else
      match Lookup(cur, key)
      case None => Err(KeyError)
      case Some(YList(comps)) =>
        var merged :- MergeComponents(cur, comps, depth);
        var kept :- ConvertedComponents(comps, depth);
        Ok(Put(merged, key, YList(kept)))
      case Some(_) => Ok(cur)
  }

  /** One turn of the key loop: merge, then `yml[new_key] = reformat_yml(yml.pop(key))`. */
  function KeyStep(cur: Entries, key: string, depth: nat): Result<Entries>
    decreases depth, 2, 0, 1
  {
    var merged :- MergeStep(cur, key, depth);
    match Lookup(merged, key)
    case None => Err(KeyError)
    case Some(v) =>
      var nv :- Camelled(v, depth);
      Ok(Put(Pop(merged, key), CamelKey(key), nv))
  }

  /** The key loop over the snapshot `keys` of the dictionary's keys. */
  function CamelEntries(cur: Entries, keys: seq<string>, depth: nat): Result<Entries>
    decreases depth, 2, 1, |keys|
  {
    if keys == [] then Ok(cur)
    else
      var next :- KeyStep(cur, keys[0], depth);
      CamelEntries(next, keys[1..], depth)
  }

  /** The key loop as the program runs it: over a snapshot of the keys, each
      turn merging `components` and moving the value to the converted key. */
  method RewriteKeys(d: Entries, depth: nat) returns (r: Result<Entries>)
    ensures r == CamelEntries(d, Keys(d), depth)
  {
    var keys := Keys(d);
    var cur := d;
    var i := 0;
    while i < |keys|
      invariant 0 <= i <= |keys|
      invariant CamelEntries(d, keys, depth) == CamelEntries(cur, keys[i..], depth)
    {
      var key := keys[i];
      ghost var before := cur;
      assert keys[i..][0] == key && keys[i..][1..] == keys[i + 1..];
      ghost var step := KeyStep(before, key, depth);
      assert CamelEntries(before, keys[i..], depth) ==
        if step.Err? then Err(step.error) else CamelEntries(step.value, keys[i + 1..], depth);
      if key == "components" {
        var v := Lookup(cur, key);
        if v.None? {
          assert MergeStep(before, key, depth) == Err(KeyError);
          assert step == Err(KeyError);
          return Err(KeyError);
        }
        if v.value.YList? {
          var merged := MergeComponents(cur, v.value.items, depth);
          if merged.Err? {
            assert MergeStep(before, key, depth) == Err(merged.error);
            assert step == Err(merged.error);
            return Err(merged.error);
          }
          var kept := ConvertedComponents(v.value.items, depth);
          if kept.Err? {
            assert MergeStep(before, key, depth) == Err(kept.error);
            assert step == Err(kept.error);
            return Err(kept.error);
          }
          cur := Put(merged.value, key, YList(kept.value));
        }
      }
      assert MergeStep(before, key, depth) == Ok(cur);
      var popped := Lookup(cur, key);
      if popped.None? {
        assert step == Err(KeyError);
        return Err(KeyError);
      }
      var nv := Camelled(popped.value, depth);
      if nv.Err? {
        assert step == Err(nv.error);
        return Err(nv.error);
      }
      cur := Put(Pop(cur, key), CamelKey(key), nv.value);
      assert step == Ok(cur);
      i := i + 1;
    }
    r := Ok(cur);
  }

  // ---------------------------------------------------------------------
  // What the rewrite does to a dictionary without collisions

  /** Each entry under its converted key with its reformatted value, in order. */
  function CamelAll(d: Entries, depth: nat): Result<Entries>
  {
    if d == [] then Ok([])
    else
      var v :- Camelled(d[0].1, depth);
      var rest :- CamelAll(d[1..], depth);
      Ok([(CamelKey(d[0].0), v)] + rest)
  }

  /** `CamelAll` converts every key and reformats every value, and fails
      exactly when some value's reformatting does. */
  lemma {:induction false} CamelAllSpec(d: Entries, depth: nat)
    ensures var r := CamelAll(d, depth);
      r.Ok? ==> |r.value| == |d| && forall i :: 0 <= i < |d| ==>
        r.value[i].0 == CamelKey(d[i].0) && Camelled(d[i].1, depth) == Ok(r.value[i].1)
    ensures CamelAll(d, depth).Err? <==> exists i :: 0 <= i < |d| && Camelled(d[i].1, depth).Err?
  {
    CamelAllOk(d, depth);
    CamelAllErr(d, depth);
  }

  lemma {:induction false} CamelAllOk(d: Entries, depth: nat)
    ensures var r := CamelAll(d, depth);
      r.Ok? ==> |r.value| == |d| && forall i :: 0 <= i < |d| ==>
        r.value[i].0 == CamelKey(d[i].0) && Camelled(d[i].1, depth) == Ok(r.value[i].1)
  {
    if d != [] {
      CamelAllOk(d[1..], depth);
      var rest := CamelAll(d[1..], depth);
      if Camelled(d[0].1, depth).Ok? && rest.Ok? {
        var r := CamelAll(d, depth).value;
        assert r == [(CamelKey(d[0].0), Camelled(d[0].1, depth).value)] + rest.value;
        forall i | 1 <= i < |d|
          ensures r[i] == rest.value[i - 1] && d[i] == d[1..][i - 1]
        {
        }
      }
    }
  }

  lemma {:induction false} CamelAllErr(d: Entries, depth: nat)
    ensures CamelAll(d, depth).Err? <==> exists i :: 0 <= i < |d| && Camelled(d[i].1, depth).Err?
  {
    if d != [] {
      CamelAllErr(d[1..], depth);
      if Camelled(d[0].1, depth).Ok? {
        if CamelAll(d[1..], depth).Err? {
          var j :| 0 <= j < |d[1..]| && Camelled(d[1..][j].1, depth).Err?;
          assert d[j + 1] == d[1..][j];
        }
        if exists i :: 0 <= i < |d| && Camelled(d[i].1, depth).Err? {
          var i :| 0 <= i < |d| && Camelled(d[i].1, depth).Err?;
          assert d[1..][i - 1] == d[i];
        }
      }
    }
  }

  /** No key is `components`, no converted key is a key still to come, and no
      two keys convert alike. */
  predicate NoCollisions(d: Entries)
  {
    d == [] ||
    (d[0].0 != "components" &&
     (forall j :: 1 <= j < |d| ==> CamelKey(d[0].0) != d[j].0 && CamelKey(d[0].0) != CamelKey(d[j].0)) &&
     NoCollisions(d[1..]))
  }

  /** No key still to come converts to a key already converted. */
  predicate Fresh(rest: Entries, done: Entries)
  {
    forall i, j :: 0 <= i < |rest| && 0 <= j < |done| ==> CamelKey(rest[i].0) != done[j].0
  }

  lemma {:induction false} LookupAppend(a: Entries, b: Entries, k: string)
    ensures Lookup(a + b, k) == if Lookup(a, k).Some? then Lookup(a, k) else Lookup(b, k)
  {
    if a != [] {
      assert (a + b)[1..] == a[1..] + b;
      LookupAppend(a[1..], b, k);
    } else {
      assert a + b == b;
    }
  }

  lemma {:induction false} PutAbsent(d: Entries, k: string, v: Yml)
    requires Lookup(d, k) == None
    ensures Put(d, k, v) == d + [(k, v)]
  {
    if d != [] {
      PutAbsent(d[1..], k, v);
      assert [d[0]] + (d[1..] + [(k, v)]) == d + [(k, v)];
    }
  }

  lemma {:induction false} LookupAbsent(d: Entries, k: string)
    requires forall i :: 0 <= i < |d| ==> d[i].0 != k
    ensures Lookup(d, k) == None
  {
    if d != [] {
      LookupAbsent(d[1..], k);
    }
  }

  /** One turn of the key loop on the first entry still to do. */
  lemma KeyStepPlain(rest: Entries, done: Entries, depth: nat)
    requires rest != [] && rest[0].0 != "components"
    requires forall i :: 0 <= i < |rest[1..] + done| ==> (rest[1..] + done)[i].0 != CamelKey(rest[0].0)
    ensures var nv := Camelled(rest[0].1, depth);
      KeyStep(rest + done, rest[0].0, depth) ==
        if nv.Ok? then Ok(rest[1..] + (done + [(CamelKey(rest[0].0), nv.value)])) else Err(nv.error)
  {
    var k := rest[0].0;
    var cur := rest + done;
    assert cur[0] == rest[0] && cur[1..] == rest[1..] + done;
    assert Pop(cur, k) == rest[1..] + done;
    LookupAbsent(rest[1..] + done, CamelKey(k));
    var nv := Camelled(rest[0].1, depth);
    if nv.Ok? {
      PutAbsent(rest[1..] + done, CamelKey(k), nv.value);
      assert (rest[1..] + done) + [(CamelKey(k), nv.value)] == rest[1..] + (done + [(CamelKey(k), nv.value)]);
    }
  }

  /** The conditions for the entries after the first. */
  lemma PlainTail(rest: Entries, done: Entries, nv: Yml)
    requires rest != [] && NoCollisions(rest) && Fresh(rest, done)
    ensures forall i :: 0 <= i < |rest[1..] + done| ==> (rest[1..] + done)[i].0 != CamelKey(rest[0].0)
    ensures Fresh(rest[1..], done + [(CamelKey(rest[0].0), nv)])
  {
    forall i | 0 <= i < |rest[1..] + done|
      ensures (rest[1..] + done)[i].0 != CamelKey(rest[0].0)
    {
      if i < |rest[1..]| {
        assert (rest[1..] + done)[i] == rest[i + 1];
      } else {
        assert (rest[1..] + done)[i] == done[i - |rest[1..]|];
      }
    }
    var done' := done + [(CamelKey(rest[0].0), nv)];
    forall i, j | 0 <= i < |rest[1..]| && 0 <= j < |done'|
      ensures CamelKey(rest[1..][i].0) != done'[j].0
    {
      assert rest[1..][i] == rest[i + 1];
    }
  }

  /** The key loop over entries `rest` still to do, with `done` converted. */
  lemma {:induction false} CamelEntriesPlain(rest: Entries, done: Entries, depth: nat)
    requires NoCollisions(rest) && Fresh(rest, done)
    ensures var e := CamelAll(rest, depth);
      CamelEntries(rest + done, Keys(rest), depth) == if e.Ok? then Ok(done + e.value) else Err(e.error)
  {
    if rest == [] {
      assert rest + done == done && Keys(rest) == [];
      assert CamelEntries(rest + done, Keys(rest), depth) == Ok(done);
      assert CamelAll(rest, depth) == Ok([]);
      assert done + [] == done;
    } else {
      assert Keys(rest)[0] == rest[0].0 && Keys(rest)[1..] == Keys(rest[1..]);
      var nv := Camelled(rest[0].1, depth);
      if nv.Err? {
        PlainTail(rest, done, YNull);
        KeyStepPlain(rest, done, depth);
      } else {
        PlainTail(rest, done, nv.value);
        KeyStepPlain(rest, done, depth);
        var done' := done + [(CamelKey(rest[0].0), nv.value)];
        CamelEntriesPlain(rest[1..], done', depth);
        var e := CamelAll(rest[1..], depth);
        if e.Ok? {
          assert done' + e.value == done + ([(CamelKey(rest[0].0), nv.value)] + e.value);
        }
      }
    }
  }

  /** A dictionary whose keys do not collide once converted and which has no
      `components`: every key is replaced by its CamelCase form in place and
      its value reformatted, and the rewrite fails exactly when a value's
      does. */
  lemma CamelledPlain(d: Entries, depth: nat)
    requires NoCollisions(d)
    ensures var e := CamelAll(d, depth);
      Camelled(YDict(d), depth + 1) == if e.Ok? then Ok(YDict(e.value)) else Err(e.error)
  {
    CamelEntriesPlain(d, [], depth);
    assert d + [] == d;
    var e := CamelAll(d, depth);
    if e.Ok? {
      assert [] + e.value == e.value;
    }
  }

  // ---------------------------------------------------------------------
  // The rewrite keeps dictionaries dictionaries

  /** A dictionary whose keys are distinct and whose values are well formed. */
  predicate WellDict(d: Entries)
  {
    DistinctKeys(d) && forall i :: 0 <= i < |d| ==> AllDistinct(d[i].1)
  }

  lemma PutWell(d: Entries, k: string, v: Yml)
    requires WellDict(d) && AllDistinct(v)
    ensures WellDict(Put(d, k, v))
  {
    PutDistinct(d, k, v);
    PutValues(d, k, v, AllDistinct);
  }

  lemma MergedWell(a: Entries, b: Entries)
    requires WellDict(a) && WellDict(b)
    ensures WellDict(Merged(a, b))
  {
    MergedDistinct(a, b);
    MergedValues(a, b, AllDistinct);
  }

  /** Reformatting a well-formed value gives a well-formed value. */
  lemma {:induction false} CamelledWell(y: Yml, depth: nat)
    requires AllDistinct(y)
    ensures Camelled(y, depth).Ok? ==> AllDistinct(Camelled(y, depth).value)
    decreases depth, 0, 0, 0
  {
    if depth > 0 {
      match y
      case YList(items) => CamelListWell(items, depth - 1);
      case YDict(d) => CamelEntriesWell(d, Keys(d), depth - 1);
      case _ =>
    }
  }

  lemma {:induction false} CamelListWell(items: seq<Yml>, depth: nat)
    requires forall i :: 0 <= i < |items| ==> AllDistinct(items[i])
    ensures CamelList(items, depth).Ok? ==>
      forall i :: 0 <= i < |items| ==> AllDistinct(CamelList(items, depth).value[i])
    decreases depth, 1, |items|, 0
  {
    if items != [] {
      CamelledWell(items[0], depth);
      CamelListWell(items[1..], depth);
      var r := CamelList(items, depth);
      if r.Ok? {
        var rest := CamelList(items[1..], depth).value;
        assert forall i :: 1 <= i < |items| ==> r.value[i] == rest[i - 1] && items[i] == items[1..][i - 1];
      }
    }
  }

  /** A revisited value keeps its keys distinct at every depth. */
  lemma {:induction false} RevisitedWell(y: Yml, depth: nat)
    requires AllDistinct(y)
    ensures Revisited(y, depth).Ok? ==> AllDistinct(Revisited(y, depth).value)
    decreases depth, 0, 1, 0
  {
    match y
    case YDict(_) => CamelledWell(y, depth);
    case YList(items) =>
      if depth > 0 {
        RevisitedListSpec(items, depth - 1);
        var r := RevisitedList(items, depth - 1);
        if r.Ok? {
          forall i | 0 <= i < |items| ensures AllDistinct(r.value[i]) {
            RevisitedWell(items[i], depth - 1);
          }
        }
      }
    case _ =>
  }

  lemma {:induction false} RevisitedListSpec(items: seq<Yml>, depth: nat)
    ensures var r := RevisitedList(items, depth);
      r.Ok? ==> forall i :: 0 <= i < |items| ==> Revisited(items[i], depth) == Ok(r.value[i])
  {
    if items != [] {
      RevisitedListSpec(items[1..], depth);
      var r := RevisitedList(items, depth);
      if r.Ok? {
        assert forall i :: 1 <= i < |items| ==> items[i] == items[1..][i - 1];
      }
    }
  }

  /** Revisiting a dictionary's values keeps its keys, in order, and puts
      each value's revisited state under its own key. */
  lemma {:induction false} RevisitedEntriesSpec(d: Entries, depth: nat)
    ensures var r := RevisitedEntries(d, depth);
      r.Ok? ==> Keys(r.value) == Keys(d) &&
                forall i :: 0 <= i < |d| ==> Revisited(d[i].1, depth) == Ok(r.value[i].1)
  {
    if d != [] {
      RevisitedEntriesSpec(d[1..], depth);
      var r := RevisitedEntries(d, depth);
      if r.Ok? {
        assert forall i :: 1 <= i < |d| ==> d[i] == d[1..][i - 1];
      }
    }
  }

  lemma {:induction false} RevisitedEntriesWell(d: Entries, depth: nat)
    requires WellDict(d)
    ensures RevisitedEntries(d, depth).Ok? ==> WellDict(RevisitedEntries(d, depth).value)
    decreases depth, 0, 1, 1 + |d|
  {
    RevisitedEntriesSpec(d, depth);
    var r := RevisitedEntries(d, depth);
    if r.Ok? {
      SameKeysDistinct(r.value, d);
      forall i | 0 <= i < |d| ensures AllDistinct(r.value[i].1) {
        RevisitedWell(d[i].1, depth);
      }
    }
  }

  /** Each field of a dictionary component is rewritten under its own key. */
  lemma {:induction false} ConvertedFieldsSpec(subs: Entries, depth: nat)
    ensures var r := ConvertedFields(subs, depth);
      r.Ok? ==> Keys(r.value) == Keys(subs) &&
                forall i :: 0 <= i < |subs| ==> Camelled(subs[i].1, depth) == Ok(r.value[i].1)
  {
    if subs != [] {
      ConvertedFieldsSpec(subs[1..], depth);
      var r := ConvertedFields(subs, depth);
      if r.Ok? {
        assert forall i :: 1 <= i < |subs| ==> subs[i] == subs[1..][i - 1];
      }
    }
  }

  /** After the merge, each dictionary component of `components` holds its
      fields rewritten under their own keys, and every other component is
      unchanged. */
  lemma {:induction false} ConvertedComponentsSpec(comps: seq<Yml>, depth: nat)
    ensures var r := ConvertedComponents(comps, depth);
      r.Ok? ==> forall i :: 0 <= i < |comps| ==>
        if comps[i].YDict? then r.value[i].YDict? && ConvertedFields(comps[i].entries, depth) == Ok(r.value[i].entries)
        else r.value[i] == comps[i]
  {
    if comps != [] {
      ConvertedComponentsSpec(comps[1..], depth);
      var r := ConvertedComponents(comps, depth);
      if r.Ok? {
        assert forall i :: 1 <= i < |comps| ==> comps[i] == comps[1..][i - 1];
      }
    }
  }

  lemma {:induction false} ConvertedComponentsWell(comps: seq<Yml>, depth: nat)
    requires forall i :: 0 <= i < |comps| ==> AllDistinct(comps[i])
    ensures var r := ConvertedComponents(comps, depth);
      r.Ok? ==> forall i :: 0 <= i < |comps| ==> AllDistinct(r.value[i])
    decreases depth, 1, 5, 0
  {
    ConvertedComponentsSpec(comps, depth);
    var r := ConvertedComponents(comps, depth);
    if r.Ok? {
      forall i | 0 <= i < |comps| ensures AllDistinct(r.value[i]) {
        if comps[i].YDict? {
          var subs := comps[i].entries;
          ConvertedFieldsSpec(subs, depth);
          var fs := r.value[i].entries;
          SameKeysDistinct(fs, subs);
          forall j | 0 <= j < |subs| ensures AllDistinct(fs[j].1) {
            CamelledWell(subs[j].1, depth);
          }
        }
      }
    }
  }

  lemma {:induction false} MergeFieldWell(cur: Entries, v: Yml, depth: nat)
    requires WellDict(cur) && AllDistinct(v)
    ensures MergeField(cur, v, depth).Ok? ==> WellDict(MergeField(cur, v, depth).value)
    decreases depth, 1, 0, 1
  {
    CamelledWell(v, depth);
    var r := Camelled(v, depth);
    if r.Ok? && r.value.YDict? {
      RevisitedEntriesWell(r.value.entries, depth);
      var shared := RevisitedEntries(r.value.entries, depth);
      if shared.Ok? {
        MergedWell(shared.value, cur);
      }
    }
  }

  lemma {:induction false} MergeDictWell(cur: Entries, subs: Entries, depth: nat)
    requires WellDict(cur) && forall i :: 0 <= i < |subs| ==> AllDistinct(subs[i].1)
    ensures MergeDict(cur, subs, depth).Ok? ==> WellDict(MergeDict(cur, subs, depth).value)
    decreases depth, 1, 0, 2 + |subs|
  {
    if subs != [] {
      MergeFieldWell(cur, subs[0].1, depth);
      var next := MergeField(cur, subs[0].1, depth);
      if next.Ok? {
        assert forall i :: 0 <= i < |subs[1..]| ==> subs[1..][i] == subs[i + 1];
        MergeDictWell(next.value, subs[1..], depth);
      }
    }
  }

  lemma {:induction false} MergeIndexedWell(cur: Entries, items: seq<Yml>, subs: seq<Yml>, depth: nat)
    requires WellDict(cur) && forall i :: 0 <= i < |items| ==> AllDistinct(items[i])
    ensures MergeIndexed(cur, items, subs, depth).Ok? ==> WellDict(MergeIndexed(cur, items, subs, depth).value)
    decreases depth, 1, 0, 2 + |subs|
  {
    if subs != [] {
      var v := ListIndex(items, subs[0]);
      if v.Ok? {
        MergeFieldWell(cur, v.value, depth);
        var next := MergeField(cur, v.value, depth);
        if next.Ok? {
          MergeIndexedWell(next.value, items, subs[1..], depth);
        }
      }
    }
  }

  lemma {:induction false} MergeComponentWell(cur: Entries, c: Yml, depth: nat)
    requires WellDict(cur) && AllDistinct(c)
    ensures MergeComponent(cur, c, depth).Ok? ==> WellDict(MergeComponent(cur, c, depth).value)
    decreases depth, 1, 1, 0
  {
    match c
    case YDict(subs) => MergeDictWell(cur, subs, depth);
    case YList(items) => MergeIndexedWell(cur, items, items, depth);
    case _ =>
  }

  lemma {:induction false} MergeComponentsWell(cur: Entries, comps: seq<Yml>, depth: nat)
    requires WellDict(cur) && forall i :: 0 <= i < |comps| ==> AllDistinct(comps[i])
    ensures MergeComponents(cur, comps, depth).Ok? ==> WellDict(MergeComponents(cur, comps, depth).value)
    decreases depth, 1, 2 + |comps|, 0
  {
    if comps != [] {
      MergeComponentWell(cur, comps[0], depth);
      var next := MergeComponent(cur, comps[0], depth);
      if next.Ok? {
        MergeComponentsWell(next.value, comps[1..], depth);
      }
    }
  }

  lemma {:induction false} MergeStepWell(cur: Entries, key: string, depth: nat)
    requires WellDict(cur)
    ensures MergeStep(cur, key, depth).Ok? ==> WellDict(MergeStep(cur, key, depth).value)
    decreases depth, 2, 0, 0
  {
    if key == "components" {
      LookupValues(cur, key, AllDistinct);
      match Lookup(cur, key)
      case Some(YList(comps)) =>
        MergeComponentsWell(cur, comps, depth);
        ConvertedComponentsWell(comps, depth);
        var merged := MergeComponents(cur, comps, depth);
        var kept := ConvertedComponents(comps, depth);
        if merged.Ok? && kept.Ok? {
          assert WellDict(merged.value);
          assert AllDistinct(YList(kept.value));
          PutWell(merged.value, key, YList(kept.value));
        }
      case _ =>
    }
  }

  lemma {:induction false} KeyStepWell(cur: Entries, key: string, depth: nat)
    requires WellDict(cur)
    ensures KeyStep(cur, key, depth).Ok? ==> WellDict(KeyStep(cur, key, depth).value)
    decreases depth, 2, 0, 1
  {
    MergeStepWell(cur, key, depth);
    var merged := MergeStep(cur, key, depth);
    if merged.Ok? {
      var m := merged.value;
      LookupValues(m, key, AllDistinct);
      match Lookup(m, key)
      case Some(v) =>
        CamelledWell(v, depth);
        var nv := Camelled(v, depth);
        if nv.Ok? {
          PopDistinct(m, key);
          PopValues(m, key, AllDistinct);
          PutWell(Pop(m, key), CamelKey(key), nv.value);
        }
      case None =>
    }
  }

  lemma {:induction false} CamelEntriesWell(cur: Entries, keys: seq<string>, depth: nat)
    requires WellDict(cur)
    ensures CamelEntries(cur, keys, depth).Ok? ==> WellDict(CamelEntries(cur, keys, depth).value)
    decreases depth, 2, 1, |keys|
  {
    if keys != [] {
      KeyStepWell(cur, keys[0], depth);
      var next := KeyStep(cur, keys[0], depth);
      if next.Ok? {
        CamelEntriesWell(next.value, keys[1..], depth);
      }
    }
  }

  // ---------------------------------------------------------------------
  // Components: the object's own keys win

  /** `{**reformat_yml(v), **yml}`: a key the object has keeps its value, and
      any other key takes the reformatted field's, in the state the rewrite
      of `components` leaves it. */
  lemma MergeFieldLookup(cur: Entries, v: Yml, depth: nat, q: string)
    requires WellDict(cur)
    ensures var m := MergeField(cur, v, depth);
      m.Ok? ==> (Lookup(m.value, q) ==
        if Lookup(cur, q).Some? then Lookup(cur, q)
        else Lookup(RevisitedEntries(Camelled(v, depth).value.entries, depth).value, q))
  {
    var r := Camelled(v, depth);
    if r.Ok? && r.value.YDict? {
      var shared := RevisitedEntries(r.value.entries, depth);
      if shared.Ok? {
        MergedLookup(shared.value, cur, q);
      }
    }
  }

  lemma {:induction false} MergeDictKeepsOwn(cur: Entries, subs: Entries, depth: nat, q: string)
    requires WellDict(cur) && forall i :: 0 <= i < |subs| ==> AllDistinct(subs[i].1)
    requires Lookup(cur, q).Some?
    ensures MergeDict(cur, subs, depth).Ok? ==> Lookup(MergeDict(cur, subs, depth).value, q) == Lookup(cur, q)
    decreases |subs|
  {
    if subs != [] {
      MergeFieldLookup(cur, subs[0].1, depth, q);
      MergeFieldWell(cur, subs[0].1, depth);
      var next := MergeField(cur, subs[0].1, depth);
      if next.Ok? {
        assert forall i :: 0 <= i < |subs[1..]| ==> subs[1..][i] == subs[i + 1];
        MergeDictKeepsOwn(next.value, subs[1..], depth, q);
      }
    }
  }

  lemma {:induction false} MergeIndexedKeepsOwn(cur: Entries, items: seq<Yml>, subs: seq<Yml>, depth: nat, q: string)
    requires WellDict(cur) && forall i :: 0 <= i < |items| ==> AllDistinct(items[i])
    requires Lookup(cur, q).Some?
    ensures MergeIndexed(cur, items, subs, depth).Ok? ==>
      Lookup(MergeIndexed(cur, items, subs, depth).value, q) == Lookup(cur, q)
    decreases |subs|
  {
    if subs != [] {
      var v := ListIndex(items, subs[0]);
      if v.Ok? {
        MergeFieldLookup(cur, v.value, depth, q);
        MergeFieldWell(cur, v.value, depth);
        var next := MergeField(cur, v.value, depth);
        if next.Ok? {
          MergeIndexedKeepsOwn(next.value, items, subs[1..], depth, q);
        }
      }
    }
  }

  lemma {:induction false} MergeComponentsKeepOwn(cur: Entries, comps: seq<Yml>, depth: nat, q: string)
    requires WellDict(cur) && forall i :: 0 <= i < |comps| ==> AllDistinct(comps[i])
    requires Lookup(cur, q).Some?
    ensures MergeComponents(cur, comps, depth).Ok? ==>
      Lookup(MergeComponents(cur, comps, depth).value, q) == Lookup(cur, q)
    decreases |comps|
  {
    if comps != [] {
      var c := comps[0];
      MergeComponentWell(cur, c, depth);
      match c {
        case YDict(subs) => MergeDictKeepsOwn(cur, subs, depth, q);
        case YList(items) => MergeIndexedKeepsOwn(cur, items, items, depth, q);
        case _ =>
      }
      var next := MergeComponent(cur, c, depth);
      if next.Ok? {
        MergeComponentsKeepOwn(next.value, comps[1..], depth, q);
      }
    }
  }

  /** Merging `components` flat into a well-formed object keeps it well formed
      and every other key the object already has keeps its value; a
      `components` list is left holding its components with their fields
      rewritten, and any other `components` value leaves the object as it is. */
  lemma ComponentsKeepOwn(cur: Entries, depth: nat)
    requires WellDict(cur)
    ensures var m := MergeStep(cur, "components", depth);
      m.Ok? ==> (WellDict(m.value) &&
                 (forall q :: q != "components" && Lookup(cur, q).Some? ==> Lookup(m.value, q) == Lookup(cur, q)) &&
                 Lookup(cur, "components").Some? &&
                 (var c := Lookup(cur, "components").value;
                  if c.YList? then
                    ConvertedComponents(c.items, depth).Ok? &&
                    Lookup(m.value, "components") == Some(YList(ConvertedComponents(c.items, depth).value))
                  else m.value == cur))
  {
    MergeStepWell(cur, "components", depth);
    LookupValues(cur, "components", AllDistinct);
    match Lookup(cur, "components")
    case Some(YList(comps)) =>
      var merged := MergeComponents(cur, comps, depth);
      var kept := ConvertedComponents(comps, depth);
      if merged.Ok? && kept.Ok? {
        forall q | q != "components" && Lookup(cur, q).Some?
          ensures Lookup(Put(merged.value, "components", YList(kept.value)), q) == Lookup(cur, q)
        {
          MergeComponentsKeepOwn(cur, comps, depth, q);
          PutLookup(merged.value, "components", YList(kept.value), q);
        }
        PutLookup(merged.value, "components", YList(kept.value), "components");
      }
    case _ =>
  }

  // ---------------------------------------------------------------------
  // `__process_obj`: BYML number wrappers

  /** `__process_obj(obj)`: a bool stays a bool (`isinstance` checks bool before int),
      an int and a float get their BYML wrapper, dictionaries and lists are
      processed value by value, anything else is left as it is. */
  function Processed(y: Yml): (r: Yml)
    ensures y.YDict? <==> r.YDict?
    ensures y.YDict? ==> Keys(r.entries) == Keys(y.entries)
    ensures y.YList? <==> r.YList?
    ensures y.YList? ==> |r.items| == |y.items|
    decreases y, 1
  {
    match y
    case YBool(_) => y
    case YInt(i) => BymlInt(i)
    case YFloat(x) => BymlFloat(x)
    case YDict(d) => YDict(ProcessedEntries(d))
    case YList(items) => YList(ProcessedList(items))
    case _ => y
  }

  function ProcessedEntries(d: Entries): (r: Entries)
    ensures Keys(r) == Keys(d)
    decreases d, 0
  {
    if d == [] then [] else [ProcessedEntry(d[0])] + ProcessedEntries(d[1..])
  }

  function ProcessedEntry(e: (string, Yml)): (r: (string, Yml))
    ensures r.0 == e.0
    decreases e, 0
  {
    (e.0, Processed(e.1))
  }

  function ProcessedList(items: seq<Yml>): (r: seq<Yml>)
    ensures |r| == |items|
    decreases items, 0
  {
    if items == [] then [] else [Processed(items[0])] + ProcessedList(items[1..])
  }

  /** `__process_obj` as the program runs it: the values of a dictionary are
      replaced in place, key by key, and a list is rebuilt element by element. */
  method ProcessObj(y: Yml) returns (r: Yml)
    ensures r == Processed(y)
    decreases y
  {
    match y {
      case YBool(_) => r := y;
      case YInt(i) => r := BymlInt(i);
      case YFloat(x) => r := BymlFloat(x);
      case YDict(d) =>
        var e := d;
        var i := 0;
        while i < |d|
          invariant 0 <= i <= |d| && |e| == |d|
          invariant forall j :: 0 <= j < i ==> e[j] == (d[j].0, Processed(d[j].1))
          invariant forall j :: i <= j < |d| ==> e[j] == d[j]
        {
          assert d[i] in d;
          var v := ProcessObj(d[i].1);
          e := e[i := (e[i].0, v)];
          i := i + 1;
        }
        ProcessedEntriesAt(d);
        r := YDict(e);
      case YList(items) =>
        var out := [];
        var i := 0;
        while i < |items|
          invariant 0 <= i <= |items| && |out| == i
          invariant forall j :: 0 <= j < i ==> out[j] == Processed(items[j])
        {
          assert items[i] in items;
          var v := ProcessObj(items[i]);
          out := out + [v];
          i := i + 1;
        }
        ProcessedListAt(items);
        r := YList(out);
      case _ => r := y;
    }
  }

  lemma {:induction false} ProcessedEntriesAt(d: Entries)
    ensures |ProcessedEntries(d)| == |d|
    ensures forall j :: 0 <= j < |d| ==> ProcessedEntries(d)[j] == (d[j].0, Processed(d[j].1))
  {
    if d != [] {
      ProcessedEntriesAt(d[1..]);
      assert forall j :: 1 <= j < |d| ==> ProcessedEntries(d)[j] == ProcessedEntries(d[1..])[j - 1] && d[j] == d[1..][j - 1];
    }
  }

  lemma {:induction false} ProcessedListAt(items: seq<Yml>)
    ensures forall j :: 0 <= j < |items| ==> ProcessedList(items)[j] == Processed(items[j])
  {
    if items != [] {
      ProcessedListAt(items[1..]);
      assert forall j :: 1 <= j < |items| ==> ProcessedList(items)[j] == ProcessedList(items[1..])[j - 1] && items[j] == items[1..][j - 1];
    }
  }

  /** A value as `MessageToDict` yields it: no BYML wrapper anywhere. */
  predicate Plain(y: Yml)
  {
    match y
    case BymlInt(_) => false
    case BymlFloat(_) => false
    case YList(items) => forall i :: 0 <= i < |items| ==> Plain(items[i])
    case YDict(d) => forall i :: 0 <= i < |d| ==> Plain(d[i].1)
    case _ => true
  }

  /** A value ready for the BYML writer: no bare int or float anywhere. */
  predicate Wrapped(y: Yml)
  {
    match y
    case YInt(_) => false
    case YFloat(_) => false
    case YList(items) => forall i :: 0 <= i < |items| ==> Wrapped(items[i])
    case YDict(d) => forall i :: 0 <= i < |d| ==> Wrapped(d[i].1)
    case _ => true
  }

  /** The plain value a wrapped one stands for. */
  function Unwrapped(y: Yml): Yml
    decreases y, 1
  {
    match y
    case BymlInt(i) => YInt(i)
    case BymlFloat(x) => YFloat(x)
    case YDict(d) => YDict(UnwrappedEntries(d))
    case YList(items) => YList(UnwrappedList(items))
    case _ => y
  }

  function UnwrappedEntries(d: Entries): Entries
    decreases d, 0
  {
    if d == [] then [] else [UnwrappedEntry(d[0])] + UnwrappedEntries(d[1..])
  }

  function UnwrappedEntry(e: (string, Yml)): (string, Yml)
    decreases e, 0
  {
    (e.0, Unwrapped(e.1))
  }

  function UnwrappedList(items: seq<Yml>): seq<Yml>
    decreases items, 0
  {
    if items == [] then [] else [Unwrapped(items[0])] + UnwrappedList(items[1..])
  }

  /** Processing leaves no bare number behind. */
  lemma {:induction false} ProcessedWrapped(y: Yml)
    ensures Wrapped(Processed(y))
    decreases y
  {
    match y
    case YDict(d) =>
      ProcessedEntriesAt(d);
      forall i | 0 <= i < |d|
        ensures Wrapped(Processed(y).entries[i].1)
      {
        assert d[i] in d;
        ProcessedWrapped(d[i].1);
      }
    case YList(items) =>
      ProcessedListAt(items);
      forall i | 0 <= i < |items|
        ensures Wrapped(Processed(y).items[i])
      {
        assert items[i] in items;
        ProcessedWrapped(items[i]);
      }
    case _ =>
  }

  /** Removing the wrappers again gives back the plain value. */
  lemma {:induction false} ProcessedRoundTrip(y: Yml)
    requires Plain(y)
    ensures Unwrapped(Processed(y)) == y
    decreases y, 1
  {
    match y
    case YDict(d) => EntriesRoundTrip(d);
    case YList(items) => ListRoundTrip(items);
    case _ =>
  }

  lemma {:induction false} EntriesRoundTrip(d: Entries)
    requires forall i :: 0 <= i < |d| ==> Plain(d[i].1)
    ensures UnwrappedEntries(ProcessedEntries(d)) == d
    decreases d, 0
  {
    if d != [] {
      EntryRoundTrip(d[0]);
      assert forall i :: 0 <= i < |d[1..]| ==> d[1..][i] == d[i + 1];
      EntriesRoundTrip(d[1..]);
    }
  }

  lemma {:induction false} EntryRoundTrip(e: (string, Yml))
    requires Plain(e.1)
    ensures UnwrappedEntry(ProcessedEntry(e)) == e
    decreases e, 0
  {
    ProcessedRoundTrip(e.1);
  }

  lemma {:induction false} ListRoundTrip(items: seq<Yml>)
    requires forall i :: 0 <= i < |items| ==> Plain(items[i])
    ensures UnwrappedList(ProcessedList(items)) == items
    decreases items, 0
  {
    if items != [] {
      ProcessedRoundTrip(items[0]);
      assert forall i :: 0 <= i < |items[1..]| ==> items[1..][i] == items[i + 1];
      ListRoundTrip(items[1..]);
    }
  }

  /** A value already wrapped is left as it is, so processing twice is
      processing once. */
  lemma {:induction false} WrappedFixed(y: Yml)
    requires Wrapped(y)
    ensures Processed(y) == y
    decreases y, 1
  {
    match y
    case YDict(d) => WrappedEntriesFixed(d);
    case YList(items) => WrappedListFixed(items);
    case _ =>
  }

  lemma {:induction false} WrappedEntriesFixed(d: Entries)
    requires forall i :: 0 <= i < |d| ==> Wrapped(d[i].1)
    ensures ProcessedEntries(d) == d
    decreases d, 0
  {
    if d != [] {
      EntryFixed(d[0]);
      assert forall i :: 0 <= i < |d[1..]| ==> d[1..][i] == d[i + 1];
      WrappedEntriesFixed(d[1..]);
    }
  }

  lemma {:induction false} EntryFixed(e: (string, Yml))
    requires Wrapped(e.1)
    ensures ProcessedEntry(e) == e
    decreases e, 0
  {
    WrappedFixed(e.1);
  }

  lemma {:induction false} WrappedListFixed(items: seq<Yml>)
    requires forall i :: 0 <= i < |items| ==> Wrapped(items[i])
    ensures ProcessedList(items) == items
    decreases items, 0
  {
    if items != [] {
      WrappedFixed(items[0]);
      assert forall i :: 0 <= i < |items[1..]| ==> items[1..][i] == items[i + 1];
      WrappedListFixed(items[1..]);
    }
  }

  lemma ProcessedIdempotent(y: Yml)
    ensures Processed(Processed(y)) == Processed(y)
  {
    ProcessedWrapped(y);
    WrappedFixed(Processed(y));
  }

  /** Processing keeps every dictionary's keys, so a well-formed value stays
      well formed. */
  lemma {:induction false} ProcessedWell(y: Yml)
    requires AllDistinct(y)
    ensures AllDistinct(Processed(y))
    decreases y
  {
    match y
    case YDict(d) =>
      ProcessedEntriesAt(d);
      KeysDistinct(d, ProcessedEntries(d));
      forall i | 0 <= i < |d|
        ensures AllDistinct(Processed(y).entries[i].1)
      {
        assert d[i] in d;
        ProcessedWell(d[i].1);
      }
    case YList(items) =>
      ProcessedListAt(items);
      forall i | 0 <= i < |items|
        ensures AllDistinct(Processed(y).items[i])
      {
        assert items[i] in items;
        ProcessedWell(items[i]);
      }
    case _ =>
  }

  /** Distinct keys depend only on the keys. */
  lemma {:induction false} KeysDistinct(a: Entries, b: Entries)
    requires Keys(a) == Keys(b) && DistinctKeys(a)
    ensures DistinctKeys(b)
  {
    if a != [] {
      assert Keys(a[1..]) == Keys(a)[1..] == Keys(b)[1..] == Keys(b[1..]);
      KeysDistinct(a[1..], b[1..]);
      LookupKeys(a[1..], a[0].0);
      LookupKeys(b[1..], b[0].0);
    }
  }

  // ---------------------------------------------------------------------
  // `__to_dict`

  /** What `__to_dict` hands the BYML writer for a message: the reformatted
      dictionary with its numbers wrapped. */
  function ToDict(msg: Yml, depth: nat): Result<Yml>
  {
    var c :- Camelled(msg, depth);
    Ok(Processed(c))
  }

  /** A message dictionary comes out a well-formed dictionary with no bare
      number, and unwrapping gives the reformatted dictionary. */
  lemma ToDictWell(msg: Yml, depth: nat)
    requires AllDistinct(msg) && Plain(msg)
    ensures var r := ToDict(msg, depth);
      r.Ok? ==> AllDistinct(r.value) && Wrapped(r.value) && (msg.YDict? ==> r.value.YDict?)
  {
    CamelledWell(msg, depth);
    var c := Camelled(msg, depth);
    if c.Ok? {
      ProcessedWell(c.value);
      ProcessedWrapped(c.value);
    }
  }
}

