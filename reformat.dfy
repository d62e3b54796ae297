/** The driver's CamelCase to snake_case rewrite of parsed BYML documents
    (`reformat_key` and `reformat_yml` in src/main.py), the inverse of the
    serializer's key rewrite on the names both sides use. */
module Reformat {
  import opened Wrappers
  import opened Strings
  import opened Yaml
  import opened Serializer

  // ---------------------------------------------------------------------
  // `reformat_key`: CamelCase to snake_case

  /** The number of leading characters that are not ASCII capitals. */
  function RunLen(s: string): (n: nat)
    ensures n <= |s|
  {
    if s == [] || IsUpper(s[0]) then 0 else 1 + RunLen(s[1..])
  }

  /** The run holds no capital and ends at a capital or at the end. */
  lemma {:induction false} RunLenSpec(s: string)
    ensures forall i :: 0 <= i < RunLen(s) ==> !IsUpper(s[i])
    ensures RunLen(s) < |s| ==> IsUpper(s[RunLen(s)])
  {
    if s != [] && !IsUpper(s[0]) {
      RunLenSpec(s[1..]);
      assert forall i :: 1 <= i < RunLen(s) ==> s[i] == s[1..][i - 1];
    }
  }

  /** `re.findall('[A-Z][^A-Z]*', s)`: each capital with the run of
      non-capitals after it; whatever comes before the first capital is
      skipped. */
  function Words(s: string): seq<string>
    decreases |s|
  {
    if s == [] then []
    else if !IsUpper(s[0]) then Words(s[1..])
    else
      var n := 1 + RunLen(s[1..]);
      [s[..n]] + Words(s[n..])
  }

  /** A word as the pattern matches it. */
  predicate IsWord(w: string)
  {
    |w| >= 1 && IsUpper(w[0]) && forall i :: 1 <= i < |w| ==> !IsUpper(w[i])
  }

  function LowerWords(ws: seq<string>): (r: seq<string>)
    ensures |r| == |ws| && forall i :: 0 <= i < |ws| ==> r[i] == LowerStr(ws[i])
  {
    if ws == [] then [] else [LowerStr(ws[0])] + LowerWords(ws[1..])
  }

  /** `"_".join(word.lower() for word in re.findall('[A-Z][^A-Z]*', key))`. */
  function SnakeKey(k: string): string
  {
    Join('_', LowerWords(Words(k)))
  }

  /** Every word found is a capital followed by non-capitals. */
  lemma {:induction false} WordsAreWords(s: string)
    ensures forall i :: 0 <= i < |Words(s)| ==> IsWord(Words(s)[i])
    decreases |s|
  {
    if s != [] {
      if !IsUpper(s[0]) {
        WordsAreWords(s[1..]);
      } else {
        var n := 1 + RunLen(s[1..]);
        var w := s[..n];
        RunLenSpec(s[1..]);
        WordsAreWords(s[n..]);
        assert forall i :: 1 <= i < |w| ==> w[i] == s[1..][i - 1];
        assert IsWord(w);
        assert Words(s) == [w] + Words(s[n..]);
      }
    }
  }

  /** A leading non-capital is skipped. */
  lemma WordsSkip(s: string)
    requires s != [] && !IsUpper(s[0])
    ensures Words(s) == Words(s[1..])
    ensures s[RunLen(s)..] == s[1..][RunLen(s[1..])..]
  {
  }

  /** A leading capital starts a word that runs up to the next capital. */
  lemma WordsTake(s: string)
    requires s != [] && IsUpper(s[0])
    ensures var n := 1 + RunLen(s[1..]);
      n <= |s| && Words(s) == [s[..n]] + Words(s[n..])
  {
  }

  /** What follows a word starts with a capital, if anything. */
  lemma RunLenTake(s: string)
    requires s != [] && IsUpper(s[0])
    ensures RunLen(s) == 0 && RunLen(s[1 + RunLen(s[1..])..]) == 0
  {
    var n := 1 + RunLen(s[1..]);
    RunLenSpec(s[1..]);
    if n < |s| {
      assert s[n..][0] == s[1..][n - 1];
    }
  }

  lemma ConcatCons(w: string, ws: seq<string>)
    ensures Concat([w] + ws) == w + Concat(ws)
  {
    assert ([w] + ws)[0] == w && ([w] + ws)[1..] == ws;
  }

  /** A skipped character leaves the spelling to the rest of the key. */
  lemma ConcatSkip(s: string)
    requires s != [] && !IsUpper(s[0])
    requires Concat(Words(s[1..])) == s[1..][RunLen(s[1..])..]
    ensures Concat(Words(s)) == s[RunLen(s)..]
  {
    WordsSkip(s);
  }

  /** A word taken at the front is spelled before the rest of the key. */
  lemma ConcatTake(s: string, n: nat)
    requires s != [] && IsUpper(s[0]) && n == 1 + RunLen(s[1..])
    requires Concat(Words(s[n..])) == s[n..]
    ensures Concat(Words(s)) == s
  {
    WordsTake(s);
    ConcatCons(s[..n], Words(s[n..]));
    assert s[..n] + s[n..] == s;
  }

  /** Together the words spell the key from its first capital on. */
  lemma {:induction false} WordsConcat(s: string)
    ensures Concat(Words(s)) == s[RunLen(s)..]
    decreases |s|
  {
    if s != [] {
      if !IsUpper(s[0]) {
        WordsConcat(s[1..]);
        ConcatSkip(s);
      } else {
        var n := 1 + RunLen(s[1..]);
        var t := s[n..];
        WordsConcat(t);
        RunLenTake(s);
        assert t[RunLen(t)..] == t;
        ConcatTake(s, n);
        assert s[RunLen(s)..] == s;
      }
    }
  }

  /** Each word of the snake_case key is non-empty and starts with a
      lower-case letter, so the join puts exactly one `_` between words and
      none before the first or after the last. */
  lemma SnakeWords(k: string)
    ensures var ws := LowerWords(Words(k));
      SnakeKey(k) == Join('_', ws) &&
      forall i :: 0 <= i < |ws| ==> |ws[i]| >= 1 && IsLower(ws[i][0])
  {
    WordsAreWords(k);
  }

  /** Words before a capital (or the end) end where the capital starts. */
  lemma {:induction false} RunLenAppend(a: string, b: string)
    requires forall i :: 0 <= i < |a| ==> !IsUpper(a[i])
    requires b == [] || IsUpper(b[0])
    ensures RunLen(a + b) == |a|
  {
    if a != [] {
      var s := a + b;
      assert s[0] == a[0] && s[1..] == a[1..] + b;
      assert forall i :: 0 <= i < |a[1..]| ==> a[1..][i] == a[i + 1];
      RunLenAppend(a[1..], b);
      assert RunLen(s) == 1 + RunLen(s[1..]);
    } else {
      assert a + b == b;
    }
  }

  /** A word followed by text that starts at a capital is found first. */
  lemma WordsCons(w: string, rest: string)
    requires IsWord(w)
    requires rest == [] || IsUpper(rest[0])
    ensures Words(w + rest) == [w] + Words(rest)
  {
    var s := w + rest;
    assert s[0] == w[0];
    assert s[1..] == w[1..] + rest;
    RunLenAppend(w[1..], rest);
    var n := 1 + RunLen(s[1..]);
    assert s[..n] == w && s[n..] == rest;
  }

  /** The words of a concatenation of words are those words. */
  lemma {:induction false} WordsOfConcat(ws: seq<string>)
    requires forall i :: 0 <= i < |ws| ==> IsWord(ws[i])
    ensures Words(Concat(ws)) == ws
  {
    if ws != [] {
      var rest := Concat(ws[1..]);
      ConcatCons(ws[0], ws[1..]);
      assert ws == [ws[0]] + ws[1..];
      WordsOfConcat(ws[1..]);
      if ws[1..] != [] {
        ConcatCons(ws[1], ws[2..]);
        assert ws[1..] == [ws[1]] + ws[2..];
      }
      WordsCons(ws[0], rest);
    }
  }

  /** A proto field name, lower-case words joined by `_`. */
  predicate SnakeWord(w: string)
  {
    |w| >= 1 && IsLower(w[0]) && Free(w, '_') && forall i :: 0 <= i < |w| ==> !IsUpper(w[i])
  }

  /** A game key, capitalised words with nothing between them. */
  predicate CamelWordOk(w: string)
  {
    IsWord(w) && Free(w, '_')
  }

  lemma LowerCamelWord(w: string)
    requires SnakeWord(w)
    ensures IsWord(CamelWord(w)) && LowerStr(CamelWord(w)) == w
  {
    var c := CamelWord(w);
    assert c == [Upper(w[0])] + w[1..];
    LowerStrNoUpper(w[1..]);
    assert LowerStr(c) == [Lower(c[0])] + LowerStr(c[1..]);
    LowerUpper(w[0]);
  }

  lemma CamelLowerWord(w: string)
    requires CamelWordOk(w)
    ensures SnakeWord(LowerStr(w)) && CamelWord(LowerStr(w)) == w
  {
    var l := LowerStr(w);
    assert l == [Lower(w[0])] + LowerStr(w[1..]);
    LowerStrNoUpper(w[1..]);
    UpperLower(w[0]);
  }

  lemma {:induction false} LowerCamelWords(ws: seq<string>)
    requires forall i :: 0 <= i < |ws| ==> SnakeWord(ws[i])
    ensures forall i :: 0 <= i < |ws| ==> IsWord(CamelWords(ws)[i])
    ensures LowerWords(CamelWords(ws)) == ws
  {
    var cws := CamelWords(ws);
    forall i | 0 <= i < |ws|
      ensures IsWord(cws[i]) && LowerStr(cws[i]) == ws[i]
    {
      LowerCamelWord(ws[i]);
    }
  }

  lemma {:induction false} CamelLowerWords(cws: seq<string>)
    requires forall i :: 0 <= i < |cws| ==> CamelWordOk(cws[i])
    ensures forall i :: 0 <= i < |cws| ==> Free(LowerWords(cws)[i], '_')
    ensures CamelWords(LowerWords(cws)) == cws
  {
    var ws := LowerWords(cws);
    forall i | 0 <= i < |cws|
      ensures Free(ws[i], '_') && CamelWord(ws[i]) == cws[i]
    {
      CamelLowerWord(cws[i]);
    }
  }

  /** A snake_case field name survives the trip to CamelCase and back. */
  lemma SnakeOfCamel(ws: seq<string>)
    requires |ws| >= 1 && forall i :: 0 <= i < |ws| ==> SnakeWord(ws[i])
    ensures SnakeKey(CamelKey(Join('_', ws))) == Join('_', ws)
  {
    CamelKeyOfJoin(ws);
    LowerCamelWords(ws);
    WordsOfConcat(CamelWords(ws));
  }

  /** A CamelCase game key survives the trip to snake_case and back. */
  lemma CamelOfSnake(cws: seq<string>)
    requires |cws| >= 1 && forall i :: 0 <= i < |cws| ==> CamelWordOk(cws[i])
    ensures CamelKey(SnakeKey(Concat(cws))) == Concat(cws)
  {
    assert forall i :: 0 <= i < |cws| ==> IsWord(cws[i]);
    WordsOfConcat(cws);
    CamelLowerWords(cws);
    CamelKeyOfJoin(LowerWords(cws));
  }
  // ---------------------------------------------------------------------
  // `reformat_yml` in the driver

  /** `reformat_yml(y)` of the driver: lists element by element, each
      dictionary key moved to its snake_case form in the original key order,
      scalars unchanged; nesting deeper than `depth` fails with `OutOfFuel`. */
  function Snaked(y: Yml, depth: nat): Result<Yml>
    decreases depth, 0, 0
  {
    match y
    case YList(items) =>
      if depth == 0 then Err(OutOfFuel)
      else
        var r :- SnakeList(items, depth - 1);
        Ok(YList(r))
    case YDict(d) =>
      if depth == 0 then Err(OutOfFuel)
      else
        var r :- SnakeEntries(d, Keys(d), depth - 1);
        Ok(YDict(r))
    case _ => Ok(y)
  }

  function SnakeList(items: seq<Yml>, depth: nat): (r: Result<seq<Yml>>)
    ensures r.Ok? ==> |r.value| == |items|
    decreases depth, 1, |items|
  {
    if items == [] then Ok([])
    else
      var x :- Snaked(items[0], depth);
      var rest :- SnakeList(items[1..], depth);
      Ok([x] + rest)
  }

  /** `yml[reformat_key(key)] = reformat_yml(yml.pop(key))`. */
  function SnakeStep(cur: Entries, key: string, depth: nat): Result<Entries>
    decreases depth, 2, 0
  {
    match Lookup(cur, key)
    case None => Err(KeyError)
    case Some(v) =>
      var nv :- Snaked(v, depth);
      Ok(Put(Pop(cur, key), SnakeKey(key), nv))
  }

  /** The key loop over the snapshot `keys`. */
  function SnakeEntries(cur: Entries, keys: seq<string>, depth: nat): Result<Entries>
    decreases depth, 3, |keys|
  {
    if keys == [] then Ok(cur)
    else
      var next :- SnakeStep(cur, keys[0], depth);
      SnakeEntries(next, keys[1..], depth)
  }

  /** The driver's key loop as the program runs it. */
  method RewriteSnakeKeys(d: Entries, depth: nat) returns (r: Result<Entries>)
    ensures r == SnakeEntries(d, Keys(d), depth)
  {
    var keys := Keys(d);
    var cur := d;
    var i := 0;
    while i < |keys|
      invariant 0 <= i <= |keys|
      invariant SnakeEntries(d, keys, depth) == SnakeEntries(cur, keys[i..], depth)
    {
      var key := keys[i];
      assert keys[i..][0] == key && keys[i..][1..] == keys[i + 1..];
      ghost var step := SnakeStep(cur, key, depth);
      var popped := Lookup(cur, key);
      if popped.None? {
        assert step == Err(KeyError);
        return Err(KeyError);
      }
      var nv := Snaked(popped.value, depth);
      if nv.Err? {
        assert step == Err(nv.error);
        return Err(nv.error);
      }
      cur := Put(Pop(cur, key), SnakeKey(key), nv.value);
      assert step == Ok(cur);
      i := i + 1;
    }
    r := Ok(cur);
  }

  /** Each entry under its snake_case key with its reformatted value, in order. */
  function SnakeAll(d: Entries, depth: nat): Result<Entries>
  {
    if d == [] then Ok([])
    else
      var v :- Snaked(d[0].1, depth);
      var rest :- SnakeAll(d[1..], depth);
      Ok([(SnakeKey(d[0].0), v)] + rest)
  }

  /** `SnakeAll` converts every key and reformats every value, and fails
      exactly when some value's reformatting does. */
  lemma {:induction false} SnakeAllSpec(d: Entries, depth: nat)
    ensures var r := SnakeAll(d, depth);
      r.Ok? ==> |r.value| == |d| && forall i :: 0 <= i < |d| ==>
        r.value[i].0 == SnakeKey(d[i].0) && Snaked(d[i].1, depth) == Ok(r.value[i].1)
    ensures SnakeAll(d, depth).Err? <==> exists i :: 0 <= i < |d| && Snaked(d[i].1, depth).Err?
  {
    SnakeAllOk(d, depth);
    SnakeAllErr(d, depth);
  }

  lemma {:induction false} SnakeAllOk(d: Entries, depth: nat)
    ensures var r := SnakeAll(d, depth);
      r.Ok? ==> |r.value| == |d| && forall i :: 0 <= i < |d| ==>
        r.value[i].0 == SnakeKey(d[i].0) && Snaked(d[i].1, depth) == Ok(r.value[i].1)
  {
    if d != [] {
      SnakeAllOk(d[1..], depth);
      var rest := SnakeAll(d[1..], depth);
      if Snaked(d[0].1, depth).Ok? && rest.Ok? {
        var r := SnakeAll(d, depth).value;
        assert r == [(SnakeKey(d[0].0), Snaked(d[0].1, depth).value)] + rest.value;
        forall i | 1 <= i < |d|
          ensures r[i] == rest.value[i - 1] && d[i] == d[1..][i - 1]
        {
        }
      }
    }
  }

  lemma {:induction false} SnakeAllErr(d: Entries, depth: nat)
    ensures SnakeAll(d, depth).Err? <==> exists i :: 0 <= i < |d| && Snaked(d[i].1, depth).Err?
  {
    if d != [] {
      SnakeAllErr(d[1..], depth);
      if Snaked(d[0].1, depth).Ok? {
        if SnakeAll(d[1..], depth).Err? {
          var j :| 0 <= j < |d[1..]| && Snaked(d[1..][j].1, depth).Err?;
          assert d[j + 1] == d[1..][j];
        }
        if exists i :: 0 <= i < |d| && Snaked(d[i].1, depth).Err? {
          var i :| 0 <= i < |d| && Snaked(d[i].1, depth).Err?;
          assert d[1..][i - 1] == d[i];
        }
      }
    }
  }

  /** No snake_case key is a key still to come, and no two keys convert alike. */
  predicate SnakeDistinct(d: Entries)
  {
    d == [] ||
    ((forall j :: 1 <= j < |d| ==> SnakeKey(d[0].0) != d[j].0 && SnakeKey(d[0].0) != SnakeKey(d[j].0)) &&
     SnakeDistinct(d[1..]))
  }

  predicate SnakeFresh(rest: Entries, done: Entries)
  {
    forall i, j :: 0 <= i < |rest| && 0 <= j < |done| ==> SnakeKey(rest[i].0) != done[j].0
  }

  lemma SnakeStepPlain(rest: Entries, done: Entries, depth: nat)
    requires rest != []
    requires forall i :: 0 <= i < |rest[1..] + done| ==> (rest[1..] + done)[i].0 != SnakeKey(rest[0].0)
    ensures var nv := Snaked(rest[0].1, depth);
      SnakeStep(rest + done, rest[0].0, depth) ==
        if nv.Ok? then Ok(rest[1..] + (done + [(SnakeKey(rest[0].0), nv.value)])) else Err(nv.error)
  {
    var k := rest[0].0;
    var cur := rest + done;
    assert cur[0] == rest[0] && cur[1..] == rest[1..] + done;
    assert Pop(cur, k) == rest[1..] + done;
    LookupAbsent(rest[1..] + done, SnakeKey(k));
    var nv := Snaked(rest[0].1, depth);
    if nv.Ok? {
      PutAbsent(rest[1..] + done, SnakeKey(k), nv.value);
      assert (rest[1..] + done) + [(SnakeKey(k), nv.value)] == rest[1..] + (done + [(SnakeKey(k), nv.value)]);
    }
  }

  lemma SnakeTail(rest: Entries, done: Entries, nv: Yml)
    requires rest != [] && SnakeDistinct(rest) && SnakeFresh(rest, done)
    ensures forall i :: 0 <= i < |rest[1..] + done| ==> (rest[1..] + done)[i].0 != SnakeKey(rest[0].0)
    ensures SnakeFresh(rest[1..], done + [(SnakeKey(rest[0].0), nv)])
  {
    forall i | 0 <= i < |rest[1..] + done|
      ensures (rest[1..] + done)[i].0 != SnakeKey(rest[0].0)
    {
      if i < |rest[1..]| {
        assert (rest[1..] + done)[i] == rest[i + 1];
      } else {
        assert (rest[1..] + done)[i] == done[i - |rest[1..]|];
      }
    }
    var done' := done + [(SnakeKey(rest[0].0), nv)];
    forall i, j | 0 <= i < |rest[1..]| && 0 <= j < |done'|
      ensures SnakeKey(rest[1..][i].0) != done'[j].0
    {
      assert rest[1..][i] == rest[i + 1];
    }
  }

  /** What the key loop does with the entries `rest` still to convert and
      the converted entries `done` behind them. */
  predicate PlainOutcome(rest: Entries, done: Entries, depth: nat)
  {
    var e := SnakeAll(rest, depth);
    SnakeEntries(rest + done, Keys(rest), depth) == if e.Ok? then Ok(done + e.value) else Err(e.error)
  }

  /** A failing first value fails the loop. */
  lemma SnakePlainErr(rest: Entries, done: Entries, depth: nat)
    requires rest != [] && Snaked(rest[0].1, depth).Err?
    requires forall i :: 0 <= i < |rest[1..] + done| ==> (rest[1..] + done)[i].0 != SnakeKey(rest[0].0)
    ensures PlainOutcome(rest, done, depth)
  {
    var keys := Keys(rest);
    assert keys[0] == rest[0].0;
    SnakeStepPlain(rest, done, depth);
  }

  /** A converted first value moves to the end of `done`. */
  lemma SnakePlainOk(rest: Entries, done: Entries, depth: nat)
    requires rest != [] && Snaked(rest[0].1, depth).Ok?
    requires forall i :: 0 <= i < |rest[1..] + done| ==> (rest[1..] + done)[i].0 != SnakeKey(rest[0].0)
    requires PlainOutcome(rest[1..], done + [(SnakeKey(rest[0].0), Snaked(rest[0].1, depth).value)], depth)
    ensures PlainOutcome(rest, done, depth)
  {
    var keys := Keys(rest);
    assert keys[0] == rest[0].0 && keys[1..] == Keys(rest[1..]);
    SnakeStepPlain(rest, done, depth);
    var entry := (SnakeKey(rest[0].0), Snaked(rest[0].1, depth).value);
    var e := SnakeAll(rest[1..], depth);
    if e.Ok? {
      assert SnakeAll(rest, depth) == Ok([entry] + e.value);
      assert (done + [entry]) + e.value == done + ([entry] + e.value);
    }
  }

  lemma {:induction false} SnakeEntriesPlain(rest: Entries, done: Entries, depth: nat)
    requires SnakeDistinct(rest) && SnakeFresh(rest, done)
    ensures PlainOutcome(rest, done, depth)
  {
    if rest == [] {
      assert rest + done == done && Keys(rest) == [] && done + [] == done;
    } else {
      var nv := Snaked(rest[0].1, depth);
      if nv.Err? {
        SnakeTail(rest, done, YNull);
        SnakePlainErr(rest, done, depth);
      } else {
        SnakeTail(rest, done, nv.value);
        SnakeEntriesPlain(rest[1..], done + [(SnakeKey(rest[0].0), nv.value)], depth);
        SnakePlainOk(rest, done, depth);
      }
    }
  }

  /** A dictionary whose keys do not collide once converted: every key is
      replaced by its snake_case form in place and its value reformatted. */
  lemma SnakedPlain(d: Entries, depth: nat)
    requires SnakeDistinct(d)
    ensures var e := SnakeAll(d, depth);
      Snaked(YDict(d), depth + 1) == if e.Ok? then Ok(YDict(e.value)) else Err(e.error)
  {
    SnakeEntriesPlain(d, [], depth);
    assert PlainOutcome(d, [], depth);
    assert d + [] == d;
    var e := SnakeAll(d, depth);
    if e.Ok? {
      assert [] + e.value == e.value;
    }
  }

  /** Two keys that convert alike: the later one's value overwrites, and
      `FooBar`, `Foo_bar` is such a pair. */
  lemma SnakedCollision(k1: string, k2: string, a: Yml, b: Yml)
    requires k1 != k2 && SnakeKey(k1) == SnakeKey(k2) && SnakeKey(k1) != k2
    requires !a.YList? && !a.YDict? && !b.YList? && !b.YDict?
    ensures Snaked(YDict([(k1, a), (k2, b)]), 1) == Ok(YDict([(SnakeKey(k1), b)]))
  {
    var d := [(k1, a), (k2, b)];
    var k := SnakeKey(k1);
    assert Keys(d) == [k1, k2];
    var c1 := [(k2, b), (k, a)];
    assert Pop(d, k1) == [(k2, b)];
    assert Put([(k2, b)], k, a) == c1;
    assert SnakeStep(d, k1, 0) == Ok(c1);
    assert Lookup(c1, k2) == Some(b) && Snaked(b, 0) == Ok(b);
    assert Pop(c1, k2) == [(k, a)];
    assert Put([(k, a)], k, b) == [(k, b)];
    assert SnakeStep(c1, k2, 0) == Ok([(k, b)]);
    assert [k1, k2][1..] == [k2];
    assert SnakeEntries(d, Keys(d), 0) == SnakeEntries(c1, [k2], 0);
    assert SnakeEntries([(k, b)], [], 0) == Ok([(k, b)]);
    assert SnakeEntries(c1, [k2], 0) == Ok([(k, b)]);
  }
}

/** Worked examples of the driver's key rewrite. */
module ReformatExamples {
  import opened Strings
  import opened Reformat

  lemma WordsBar()
    ensures Words("Bar") == ["Bar"]
  {
    var s := "Bar";
    assert IsUpper(s[0]) && !IsUpper(s[1]) && !IsUpper(s[2]);
    assert s[1..][1..] == "r" && s[1..][1..][1..] == "";
    assert RunLen(s[1..]) == 2;
    assert s[..3] == s && s[3..] == "";
  }

  lemma WordsFooBar()
    ensures Words("FooBar") == ["Foo", "Bar"]
  {
    var s := "FooBar";
    assert IsUpper(s[0]) && !IsUpper(s[1]) && !IsUpper(s[2]) && IsUpper(s[3]);
    assert s[1..][1..] == "oBar" && s[1..][1..][1..] == "Bar";
    RunLenSpec(s[1..]);
    assert RunLen(s[1..]) == 2;
    assert s[..3] == "Foo" && s[3..] == "Bar";
    WordsBar();
  }

  lemma WordsFooUnderBar()
    ensures Words("Foo_bar") == ["Foo_bar"]
  {
    var s := "Foo_bar";
    var t := s[1..];
    assert forall i :: 0 <= i < |t| ==> !IsUpper(t[i]);
    RunLenSpec(t);
    assert RunLen(t) == |t|;
    assert s[..7] == s && s[7..] == "";
  }

  /** A capital followed by lower-case letters and `_` lowers to its
      lower-case form. */
  lemma LowerCapitalised(s: string, t: string)
    requires |s| >= 1 && IsUpper(s[0]) && forall i :: 1 <= i < |s| ==> !IsUpper(s[i])
    requires t == [Lower(s[0])] + s[1..]
    ensures LowerStr(s) == t
  {
    assert LowerStr(s) == [Lower(s[0])] + LowerStr(s[1..]);
    LowerStrNoUpper(s[1..]);
  }

  lemma SnakeKeyFooBar()
    ensures SnakeKey("FooBar") == "foo_bar"
  {
    WordsFooBar();
    assert Lower('F') == 'f' && Lower('B') == 'b';
    LowerCapitalised("Foo", "foo");
    LowerCapitalised("Bar", "bar");
    assert LowerWords(["Foo", "Bar"]) == ["foo", "bar"];
    assert Join('_', ["foo", "bar"]) == "foo" + "_" + Join('_', ["bar"]);
  }

  lemma SnakeKeyFooUnderBar()
    ensures SnakeKey("Foo_bar") == "foo_bar"
  {
    WordsFooUnderBar();
    assert Lower('F') == 'f';
    LowerCapitalised("Foo_bar", "foo_bar");
    assert LowerWords(["Foo_bar"]) == ["foo_bar"];
  }

  /** `FooBar` and `Foo_bar` both become `foo_bar`, a key neither of them is. */
  lemma FooBarCollide()
    ensures "FooBar" != "Foo_bar" && SnakeKey("FooBar") == SnakeKey("Foo_bar") && SnakeKey("FooBar") != "Foo_bar"
  {
    SnakeKeyFooBar();
    SnakeKeyFooUnderBar();
    assert "foo_bar"[0] != "Foo_bar"[0];
  }
}
