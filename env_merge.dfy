/** `mergeIntoMap` and its two variants: copying layers of environment
    variables into a target map, later layers overriding earlier ones,
    either with exact keys or with keys folded to lower case.

    A Go map has no iteration order, so a source map is given here as a
    `Layer`: its (key, value) pairs in the order one `range` loop happens to
    visit them. Every property below holds whatever that order is. */
module EnvMerge {
  import opened Wrappers
  import opened Text

  type Layer = seq<(string, string)>

  /** All writes of all layers, in the order the nested loops make them. */
  function Flatten(layers: seq<Layer>): Layer {
    if layers == [] then [] else Flatten(layers[..|layers| - 1]) + layers[|layers| - 1]
  }

  // ===========================================================================
  // Case-sensitive merge

  /** The target after the writes `ws`, each an exact-key assignment. */
  function ApplyWrites(target: map<string, string>, ws: Layer): map<string, string> {
    if ws == [] then target
    else ApplyWrites(target, ws[..|ws| - 1])[ws[|ws| - 1].0 := ws[|ws| - 1].1]
  }

  /** The value of the last write to key `k`; for a layer with distinct keys,
      the value the source map holds for `k`. */
  function Lookup(ws: Layer, k: string): Option<string> {
    if ws == [] then None
    else if ws[|ws| - 1].0 == k then Some(ws[|ws| - 1].1)
    else Lookup(ws[..|ws| - 1], k)
  }

  /** The value `k` has in the last layer that has `k`. */
  function LayersLookup(layers: seq<Layer>, k: string): Option<string> {
    if layers == [] then None
    else match Lookup(layers[|layers| - 1], k)
      case Some(v) => Some(v)
      case None => LayersLookup(layers[..|layers| - 1], k)
  }

  /** The last write to `k` decides its value; keys nobody writes keep theirs. */
  lemma {:induction false} ApplyWritesLastWins(target: map<string, string>, ws: Layer, k: string)
    ensures k in ApplyWrites(target, ws) <==> k in target || Lookup(ws, k).Some?
    ensures Lookup(ws, k).Some? ==> ApplyWrites(target, ws)[k] == Lookup(ws, k).value
    ensures Lookup(ws, k).None? && k in target ==> ApplyWrites(target, ws)[k] == target[k]
  {
    if ws != [] {
      ApplyWritesLastWins(target, ws[..|ws| - 1], k);
    }
  }

  lemma {:induction false} LookupConcat(a: Layer, b: Layer, k: string)
    ensures Lookup(a + b, k) == if Lookup(b, k).Some? then Lookup(b, k) else Lookup(a, k)
  {
    if b != [] {
      assert (a + b)[..|a + b| - 1] == a + b[..|b| - 1];
      LookupConcat(a, b[..|b| - 1], k);
    } else {
      assert a + b == a;
    }
  }

  lemma {:induction false} LookupFlatten(layers: seq<Layer>, k: string)
    ensures Lookup(Flatten(layers), k) == LayersLookup(layers, k)
  {
    if layers != [] {
      LookupFlatten(layers[..|layers| - 1], k);
      LookupConcat(Flatten(layers[..|layers| - 1]), layers[|layers| - 1], k);
    }
  }

  /** `mergeIntoMapCaseSensitive`: every key ends with the value it has in the
      last source map that contains it, and a key no source map contains
      keeps the target's value. */
  lemma CaseSensitiveMergeLastSourceWins(target: map<string, string>, maps: seq<Layer>, k: string)
    ensures var r := ApplyWrites(target, Flatten(maps));
            && (k in r <==> k in target || LayersLookup(maps, k).Some?)
            && (LayersLookup(maps, k).Some? ==> r[k] == LayersLookup(maps, k).value)
            && (LayersLookup(maps, k).None? && k in target ==> r[k] == target[k])
  {
    ApplyWritesLastWins(target, Flatten(maps), k);
    LookupFlatten(maps, k);
  }

  lemma FlattenStep(maps: seq<Layer>, i: nat)
    requires i < |maps|
    ensures Flatten(maps[..i + 1]) == Flatten(maps[..i]) + maps[i]
  {
    assert maps[..i + 1][..i] == maps[..i];
  }

  /** `mergeIntoMapCaseSensitive`, returning the updated target. */
  method MergeIntoMapCaseSensitive(target: map<string, string>, maps: seq<Layer>) returns (r: map<string, string>)
    ensures r == ApplyWrites(target, Flatten(maps))
  {
    r := target;
    var i := 0;
    while i < |maps|
      invariant 0 <= i <= |maps|
      invariant r == ApplyWrites(target, Flatten(maps[..i]))
    {
      var m := maps[i];
      var j := 0;
      assert Flatten(maps[..i]) + m[..0] == Flatten(maps[..i]);
      while j < |m|
        invariant 0 <= j <= |m|
        invariant r == ApplyWrites(target, Flatten(maps[..i]) + m[..j])
      {
        var (k, v) := m[j];
        r := r[k := v];
        assert (Flatten(maps[..i]) + m[..j + 1])[..|Flatten(maps[..i])| + j] == Flatten(maps[..i]) + m[..j];
        j := j + 1;
      }
      assert m[..j] == m;
      FlattenStep(maps, i);
      i := i + 1;
    }
    assert maps[..i] == maps;
  }

  // ===========================================================================
  // Case-insensitive merge

  /** The target together with `foldKeys`, which maps a folded key to the
      casing under which that key is stored. */
  datatype FoldState = FoldState(env: map<string, string>, folds: map<string, string>)

  /** `toKey`: the stored casing of `s` if its fold is known, otherwise `s`
      itself, which becomes the casing of that fold from then on. */
  function ToKey(folds: map<string, string>, s: string): (string, map<string, string>) {
    var foldKey := ToLower(s);
    if foldKey in folds then (folds[foldKey], folds)
    else (s, folds[ToLower(foldKey) := s])
  }

  /** `target[toKey(k)] = v`. */
  function FoldWrite(st: FoldState, w: (string, string)): FoldState {
    var (key, folds) := ToKey(st.folds, w.0);
    FoldState(st.env[key := w.1], folds)
  }

  function FoldWrites(st: FoldState, ws: Layer): FoldState {
    if ws == [] then st else FoldWrite(FoldWrites(st, ws[..|ws| - 1]), ws[|ws| - 1])
  }

  /** `foldKeys` describes the target: every stored casing is a key of the
      target with that fold, and every key of the target has its fold recorded. */
  ghost predicate FoldIndexed(st: FoldState) {
    && (forall f :: f in st.folds ==> st.folds[f] in st.env && ToLower(st.folds[f]) == f)
    && (forall k :: k in st.env ==> ToLower(k) in st.folds)
  }

  /** No two keys of `env` differ only in case. */
  predicate FoldDistinct(env: map<string, string>) {
    forall a, b :: a in env && b in env && ToLower(a) == ToLower(b) ==> a == b
  }

  /** No two entries of a layer have keys that differ only in case. */
  predicate FoldUnique(ws: Layer) {
    forall i, j :: 0 <= i < j < |ws| ==> ToLower(ws[i].0) != ToLower(ws[j].0)
  }

  /** The value of the last write whose key folds to `f`. */
  function FoldLookup(ws: Layer, f: string): Option<string> {
    if ws == [] then None
    else if ToLower(ws[|ws| - 1].0) == f then Some(ws[|ws| - 1].1)
    else FoldLookup(ws[..|ws| - 1], f)
  }

  /** The key of the first write whose key folds to `f`. */
  function FirstWithFold(ws: Layer, f: string): Option<string> {
    if ws == [] then None
    else match FirstWithFold(ws[..|ws| - 1], f)
      case Some(k) => Some(k)
      case None => if ToLower(ws[|ws| - 1].0) == f then Some(ws[|ws| - 1].0) else None
  }

  /** One write: it lands under the recorded casing of its fold, which is
      recorded (as the written key) if it was not yet; nothing else changes. */
  lemma FoldWriteFacts(st: FoldState, w: (string, string))
    requires FoldIndexed(st)
    ensures var r := FoldWrite(st, w);
            var f := ToLower(w.0);
            && FoldIndexed(r)
            && r.folds == (if f in st.folds then st.folds else st.folds[f := w.0])
            && r.env == st.env[r.folds[f] := w.1]
  {
    ToLowerIdempotent(w.0);
  }

  lemma {:induction false} FoldWritesIndexed(st: FoldState, ws: Layer)
    requires FoldIndexed(st)
    ensures FoldIndexed(FoldWrites(st, ws))
  {
    if ws != [] {
      FoldWritesIndexed(st, ws[..|ws| - 1]);
      FoldWriteFacts(FoldWrites(st, ws[..|ws| - 1]), ws[|ws| - 1]);
    }
  }

  /** The casing of a fold is the target's if the target had one, and
      otherwise that of the first source key with that fold. */
  lemma {:induction false} FoldWritesCasing(st: FoldState, ws: Layer, f: string)
    requires FoldIndexed(st)
    ensures var r := FoldWrites(st, ws);
            && (f in r.folds <==> f in st.folds || FirstWithFold(ws, f).Some?)
            && (f in st.folds ==> r.folds[f] == st.folds[f])
            && (f !in st.folds && FirstWithFold(ws, f).Some? ==> r.folds[f] == FirstWithFold(ws, f).value)
  {
    if ws != [] {
      var prefix := ws[..|ws| - 1];
      FoldWritesCasing(st, prefix, f);
      FoldWritesIndexed(st, prefix);
      FoldWriteFacts(FoldWrites(st, prefix), ws[|ws| - 1]);
    }
  }

  /** The value stored under a fold is that of the latest write with that fold. */
  lemma {:induction false} FoldWritesLatestValue(st: FoldState, ws: Layer, f: string)
    requires FoldIndexed(st)
    requires FoldLookup(ws, f).Some?
    ensures var r := FoldWrites(st, ws);
            f in r.folds && r.folds[f] in r.env && r.env[r.folds[f]] == FoldLookup(ws, f).value
  {
    var prefix := ws[..|ws| - 1];
    FoldWritesIndexed(st, prefix);
    FoldWriteFacts(FoldWrites(st, prefix), ws[|ws| - 1]);
    if ToLower(ws[|ws| - 1].0) != f {
      FoldWritesLatestValue(st, prefix, f);
    }
  }

  /** A target key whose fold no source key has keeps its value. */
  lemma {:induction false} FoldWritesUntouched(st: FoldState, ws: Layer, k: string)
    requires FoldIndexed(st)
    requires k in st.env && FoldLookup(ws, ToLower(k)).None?
    ensures var r := FoldWrites(st, ws);
            k in r.env && r.env[k] == st.env[k]
  {
    if ws != [] {
      var prefix := ws[..|ws| - 1];
      FoldWritesUntouched(st, prefix, k);
      FoldWritesIndexed(st, prefix);
      FoldWriteFacts(FoldWrites(st, prefix), ws[|ws| - 1]);
    }
  }

  /** A target key that is not the recorded casing of its fold is never
      written: every write to that fold lands under the recorded casing. */
  lemma {:induction false} FoldWritesShadowed(st: FoldState, ws: Layer, k: string)
    requires FoldIndexed(st)
    requires k in st.env && st.folds[ToLower(k)] != k
    ensures var r := FoldWrites(st, ws);
            k in r.env && r.env[k] == st.env[k]
  {
    if ws != [] {
      var prefix := ws[..|ws| - 1];
      FoldWritesShadowed(st, prefix, k);
      FoldWritesIndexed(st, prefix);
      FoldWritesCasing(st, prefix, ToLower(k));
      FoldWriteFacts(FoldWrites(st, prefix), ws[|ws| - 1]);
    }
  }

  /** The merge adds no key other than the stored casing of a written fold. */
  lemma {:induction false} FoldWritesKeys(st: FoldState, ws: Layer, k: string)
    requires FoldIndexed(st)
    ensures var r := FoldWrites(st, ws);
            k in r.env <==> k in st.env || (FoldLookup(ws, ToLower(k)).Some? && ToLower(k) in r.folds && r.folds[ToLower(k)] == k)
  {
    if ws != [] {
      var prefix := ws[..|ws| - 1];
      FoldWritesKeys(st, prefix, k);
      FoldWritesIndexed(st, prefix);
      FoldWriteFacts(FoldWrites(st, prefix), ws[|ws| - 1]);
      FoldWritesCasing(st, prefix, ToLower(k));
    }
  }

  /** Every key is stored under the casing recorded for its fold. */
  ghost predicate FoldCanonical(st: FoldState) {
    FoldIndexed(st) && forall k :: k in st.env ==> st.folds[ToLower(k)] == k
  }

  lemma CanonicalIsFoldDistinct(st: FoldState)
    requires FoldIndexed(st)
    ensures FoldCanonical(st) <==> FoldDistinct(st.env)
  {
    if FoldCanonical(st) {
      forall a, b | a in st.env && b in st.env && ToLower(a) == ToLower(b)
        ensures a == b
      {
        assert st.folds[ToLower(a)] == a;
      }
    }
  }

  lemma {:induction false} FoldWritesCanonical(st: FoldState, ws: Layer)
    requires FoldCanonical(st)
    ensures FoldCanonical(FoldWrites(st, ws))
  {
    if ws != [] {
      var prefix := ws[..|ws| - 1];
      FoldWritesCanonical(st, prefix);
      FoldWriteFacts(FoldWrites(st, prefix), ws[|ws| - 1]);
    }
  }

  /** A target without keys that differ only in case never gains such keys. */
  lemma FoldWritesKeepFoldDistinct(st: FoldState, ws: Layer)
    requires FoldIndexed(st) && FoldDistinct(st.env)
    ensures FoldDistinct(FoldWrites(st, ws).env)
  {
    CanonicalIsFoldDistinct(st);
    FoldWritesCanonical(st, ws);
    FoldWritesIndexed(st, ws);
    CanonicalIsFoldDistinct(FoldWrites(st, ws));
  }

  /** `mergeIntoMapCaseInsensitive`, with `initialFolds` the index it builds
      from the target (when the target has keys that differ only in case,
      which of them the index records depends on Go's iteration order). */
  ghost predicate MergedCaseInsensitive(target: map<string, string>, initialFolds: map<string, string>,
                                        maps: seq<Layer>, r: map<string, string>) {
    FoldIndexed(FoldState(target, initialFolds)) && r == FoldWrites(FoldState(target, initialFolds), Flatten(maps)).env
  }

  /** The case-insensitive merge, all five promises at once: a source key
      lands under the casing already stored for its fold (the target's, or
      the first source key's), with the value of the latest write; a target
      key whose fold no source has is unchanged; so is a target key that is
      not the stored casing of its fold; and no key is added but the stored
      casing of a written fold. */
  lemma CaseInsensitiveMergeSpec(target: map<string, string>, initialFolds: map<string, string>,
                                 maps: seq<Layer>, r: map<string, string>, k: string)
    requires MergedCaseInsensitive(target, initialFolds, maps, r)
    ensures var ws := Flatten(maps);
            var f := ToLower(k);
            && (FoldLookup(ws, f).Some? && k in target && initialFolds[f] == k ==> k in r && r[k] == FoldLookup(ws, f).value)
            && (FoldLookup(ws, f).Some? && f !in initialFolds && FirstWithFold(ws, f) == Some(k) ==> k in r && r[k] == FoldLookup(ws, f).value)
            && (FoldLookup(ws, f).None? && k in target ==> k in r && r[k] == target[k])
            && (k in target && initialFolds[f] != k ==> k in r && r[k] == target[k])
            && (k in r && k !in target ==> FoldLookup(ws, f).Some? && f !in initialFolds && FirstWithFold(ws, f) == Some(k))
  {
    var st := FoldState(target, initialFolds);
    var ws := Flatten(maps);
    var f := ToLower(k);
    FoldWritesCasing(st, ws, f);
    FoldWritesKeys(st, ws, k);
    if FoldLookup(ws, f).Some? {
      FoldWritesLatestValue(st, ws, f);
    } else if k in target {
      FoldWritesUntouched(st, ws, k);
    }
    if k in target && initialFolds[f] != k {
      FoldWritesShadowed(st, ws, k);
    }
  }

  /** "PATH" then "Path": one entry, under the casing written first, holding
      the value written last. */
  lemma FirstCasingLastValue(target: map<string, string>, initialFolds: map<string, string>,
                             a: string, x: string, b: string, y: string, r: map<string, string>)
    requires MergedCaseInsensitive(target, initialFolds, [[(a, x)], [(b, y)]], r)
    requires ToLower(a) == ToLower(b)
    requires forall k :: k in target ==> ToLower(k) != ToLower(a)
    ensures a in r && r[a] == y
    ensures forall k :: k in r && ToLower(k) == ToLower(a) ==> k == a
  {
    var ws := Flatten([[(a, x)], [(b, y)]]);
    assert [[(a, x)], [(b, y)]][..1] == [[(a, x)]];
    assert [[(a, x)]][..0] == [];
    assert Flatten([[(a, x)]]) == [(a, x)];
    assert ws == [(a, x)] + [(b, y)];
    assert ws[..1] == [(a, x)];
    assert [(a, x)][..0] == [];
    assert FirstWithFold([(a, x)], ToLower(a)) == Some(a);
    assert ToLower(a) !in initialFolds;
    assert FirstWithFold(ws, ToLower(a)) == Some(a);
    assert FoldLookup(ws, ToLower(a)) == Some(y);
    CaseInsensitiveMergeSpec(target, initialFolds, [[(a, x)], [(b, y)]], r, a);
    forall k | k in r && ToLower(k) == ToLower(a)
      ensures k == a
    {
      CaseInsensitiveMergeSpec(target, initialFolds, [[(a, x)], [(b, y)]], r, k);
    }
  }

  /** The first loop of `mergeIntoMapCaseInsensitive`: record, for every
      key of the target, its fold and that casing. */
  method IndexFolds(target: map<string, string>) returns (foldKeys: map<string, string>)
    ensures FoldIndexed(FoldState(target, foldKeys))
  {
    foldKeys := map[];
    var pending := target.Keys;
    while pending != {}
      invariant pending <= target.Keys
      invariant forall f :: f in foldKeys ==> foldKeys[f] in target && ToLower(foldKeys[f]) == f
      invariant forall k :: k in target && k !in pending ==> ToLower(k) in foldKeys
      decreases pending
    {
      var k :| k in pending;
      foldKeys := foldKeys[ToLower(k) := k];
      pending := pending - {k};
    }
  }

  /** The inner loop of `mergeIntoMapCaseInsensitive`: one source, in its
      iteration order, through `toKey`. */
  method FoldLayer(env: map<string, string>, folds: map<string, string>, m: Layer)
    returns (r: map<string, string>, foldKeys: map<string, string>)
    ensures FoldState(r, foldKeys) == FoldWrites(FoldState(env, folds), m)
  {
    r, foldKeys := env, folds;
    var j := 0;
    while j < |m|
      invariant 0 <= j <= |m|
      invariant FoldState(r, foldKeys) == FoldWrites(FoldState(env, folds), m[..j])
    {
      var (k, v) := m[j];
      var key: string;
      var foldKey := ToLower(k);
      if foldKey in foldKeys {
        key := foldKeys[foldKey];
      } else {
        foldKeys := foldKeys[ToLower(foldKey) := k];
        key := k;
      }
      r := r[key := v];
      assert m[..j + 1][..j] == m[..j];
      j := j + 1;
    }
    assert m[..j] == m;
  }

  /** Writing `a` then `b` is writing `a + b`. */
  lemma {:induction false} FoldWritesConcat(st: FoldState, a: Layer, b: Layer)
    ensures FoldWrites(st, a + b) == FoldWrites(FoldWrites(st, a), b)
    decreases |b|
  {
    if b == [] {
      assert a + b == a;
    } else {
      var n := |b| - 1;
      FoldWritesConcat(st, a, b[..n]);
      assert (a + b)[..|a + b| - 1] == a + b[..n];
    }
  }

  /** `mergeIntoMapCaseInsensitive`, returning the updated target and (as a
      ghost) the fold index it started from. */
  method MergeIntoMapCaseInsensitive(target: map<string, string>, maps: seq<Layer>)
    returns (r: map<string, string>, ghost initialFolds: map<string, string>)
    ensures MergedCaseInsensitive(target, initialFolds, maps, r)
  {
    var foldKeys := IndexFolds(target);
    initialFolds := foldKeys;
    ghost var st0 := FoldState(target, initialFolds);
    r := target;
    var i := 0;
    while i < |maps|
      invariant 0 <= i <= |maps|
      invariant FoldState(r, foldKeys) == FoldWrites(st0, Flatten(maps[..i]))
    {
      r, foldKeys := FoldLayer(r, foldKeys, maps[i]);
      FoldWritesConcat(st0, Flatten(maps[..i]), maps[i]);
      FlattenStep(maps, i);
      i := i + 1;
    }
    assert maps[..i] == maps;
  }

  /** The merge the backend calls for: exact keys, or keys folded to lower case. */
  ghost predicate MergedBy(caseInsensitive: bool, target: map<string, string>, maps: seq<Layer>, r: map<string, string>) {
    if caseInsensitive then exists folds :: MergedCaseInsensitive(target, folds, maps, r)
    else r == ApplyWrites(target, Flatten(maps))
  }

  /** `mergeIntoMap`. */
  method MergeIntoMap(caseInsensitive: bool, target: map<string, string>, maps: seq<Layer>) returns (r: map<string, string>)
    ensures MergedBy(caseInsensitive, target, maps, r)
  {
    if caseInsensitive {
      ghost var folds;
      r, folds := MergeIntoMapCaseInsensitive(target, maps);
    } else {
      r := MergeIntoMapCaseSensitive(target, maps);
    }
  }

  lemma {:induction false} FoldLookupOfFoldUnique(ws: Layer, k: string)
    requires FoldUnique(ws)
    requires Lookup(ws, k).Some?
    ensures FoldLookup(ws, ToLower(k)) == Lookup(ws, k)
  {
    var prefix := ws[..|ws| - 1];
    if ws[|ws| - 1].0 != k {
      FoldLookupOfFoldUnique(prefix, k);
      var i :| 0 <= i < |prefix| && prefix[i].0 == k by {
        LookupHasWrite(prefix, k);
      }
      assert ToLower(ws[i].0) != ToLower(ws[|ws| - 1].0);
    }
  }

  lemma {:induction false} LookupHasWrite(ws: Layer, k: string)
    requires Lookup(ws, k).Some?
    ensures exists i :: 0 <= i < |ws| && ws[i].0 == k
  {
    if ws[|ws| - 1].0 != k {
      LookupHasWrite(ws[..|ws| - 1], k);
      var i :| 0 <= i < |ws| - 1 && ws[..|ws| - 1][i].0 == k;
      assert ws[i].0 == k;
    }
  }

  /** A single-layer merge (how the step's own environment is merged, last):
      every key the layer declares ends with the declared value, under its
      own name (exact keys) or under the casing already stored for its fold. */
  lemma LastLayerWins(caseInsensitive: bool, target: map<string, string>, layer: Layer,
                      r: map<string, string>, k: string)
    requires MergedBy(caseInsensitive, target, [layer], r)
    requires caseInsensitive ==> FoldUnique(layer)
    requires Lookup(layer, k).Some?
    ensures !caseInsensitive ==> k in r && r[k] == Lookup(layer, k).value
    ensures caseInsensitive ==> exists key :: key in r && ToLower(key) == ToLower(k) && r[key] == Lookup(layer, k).value
  {
    assert Flatten([layer]) == layer by {
      assert [layer][..0] == [];
    }
    if caseInsensitive {
      var folds :| MergedCaseInsensitive(target, folds, [layer], r);
      var st := FoldState(target, folds);
      FoldLookupOfFoldUnique(layer, k);
      FoldWritesLatestValue(st, layer, ToLower(k));
      FoldWritesIndexed(st, layer);
      var key := FoldWrites(st, layer).folds[ToLower(k)];
      assert key in r && ToLower(key) == ToLower(k);
    } else {
      ApplyWritesLastWins(target, layer, k);
    }
  }
}
