/**
 * The `migrateLayers` loop shared by the migrators: every fetched layer is
 * migrated; a layer the migration skips is left out, every other one is
 * saved on the target and its old id mapped to the id the target returns.
 * Saving is abstract: `save(i, doc)` is the id the target hands out for the
 * document of the `i`-th fetched layer. A `HashMap.put` on an id seen before
 * overwrites, so the last layer with a given old id wins.
 */
module LayerIds {
  import opened Json

  /** How one fetched layer is migrated: a failure, a skip (`None`) or the document to save. */
  type Migration = Json -> Result<Option<Json>>

  /** The saving step: the new id the target returns for the document of the `i`-th layer. */
  type Save = (nat, Json) -> int

  /** The migration keeps the layer (it is saved and gets a new id). */
  predicate Kept(migrate: Migration, layer: Json) {
    migrate(layer).Ok? && migrate(layer).value.Some?
  }

  /** The layer's old id, `intValue()` of its `id` (0 when there is none). */
  function OldId(layer: Json): int {
    match Get(layer, "id")
    case None => 0
    case Some(id) => IntValue(id)
  }

  /** The step for one layer cannot fail: it migrates, and a kept layer has an `id`. */
  predicate StepSucceeds(migrate: Migration, layer: Json) {
    migrate(layer).Ok? && (migrate(layer).value.Some? ==> Has(layer, "id"))
  }

  /** The id map after the first `n` layers, in loop order; the first failing step ends it. */
  function IdMapUpTo(ls: seq<Json>, n: nat, migrate: Migration, save: Save): Result<map<int, int>>
    requires n <= |ls|
  {
    if n == 0 then Ok(map[])
    else
      var m :- IdMapUpTo(ls, n - 1, migrate, save);
      var out :- migrate(ls[n - 1]);
      match out
      case None => Ok(m)
      case Some(doc) =>
        var id :- Required(Get(ls[n - 1], "id"), "id");
        Ok(m[IntValue(id) := save(n - 1, doc)])
  }

  /** Once a step has failed, later layers change nothing. */
  lemma {:induction false} FailureSticks(ls: seq<Json>, i: nat, n: nat, migrate: Migration, save: Save)
    requires i <= n <= |ls|
    requires IdMapUpTo(ls, i, migrate, save).Fail?
    ensures IdMapUpTo(ls, n, migrate, save) == IdMapUpTo(ls, i, migrate, save)
    decreases n
  {
    if n > i {
      FailureSticks(ls, i, n - 1, migrate, save);
    }
  }

  /** The old ids of the kept layers among the first `n`. */
  ghost function KeptIds(ls: seq<Json>, n: nat, migrate: Migration): set<int>
    requires n <= |ls|
  {
    set i | 0 <= i < n && Kept(migrate, ls[i]) :: OldId(ls[i])
  }

  /** Layer `i` is the last kept layer among the first `n` whose old id is `k`. */
  ghost predicate LastKept(ls: seq<Json>, n: nat, migrate: Migration, i: int, k: int)
    requires n <= |ls|
  {
    && 0 <= i < n && Kept(migrate, ls[i]) && OldId(ls[i]) == k
    && forall j :: i < j < n && Kept(migrate, ls[j]) ==> OldId(ls[j]) != k
  }

  /** The map after `n` layers exists exactly when every one of those steps succeeds. */
  lemma {:induction false} IdMapSucceedsIff(ls: seq<Json>, n: nat, migrate: Migration, save: Save)
    requires n <= |ls|
    ensures IdMapUpTo(ls, n, migrate, save).Ok? <==> forall i :: 0 <= i < n ==> StepSucceeds(migrate, ls[i])
    decreases n
  {
    if n > 0 {
      IdMapSucceedsIff(ls, n - 1, migrate, save);
    }
  }

  /** The keys of the map after `n` layers are the old ids of the kept layers among them. */
  lemma {:induction false} IdMapKeys(ls: seq<Json>, n: nat, migrate: Migration, save: Save)
    requires n <= |ls|
    requires IdMapUpTo(ls, n, migrate, save).Ok?
    ensures IdMapUpTo(ls, n, migrate, save).value.Keys == KeptIds(ls, n, migrate)
    decreases n
  {
    if n > 0 {
      IdMapKeys(ls, n - 1, migrate, save);
      var l := ls[n - 1];
      if Kept(migrate, l) {
        assert KeptIds(ls, n, migrate) == KeptIds(ls, n - 1, migrate) + {OldId(l)};
      } else {
        assert KeptIds(ls, n, migrate) == KeptIds(ls, n - 1, migrate);
      }
    }
  }

  /** Every key of `m` maps to what `save` returned for the last kept layer, among the first `n`, with that old id. */
  ghost predicate SavedLast(ls: seq<Json>, n: nat, migrate: Migration, save: Save, m: map<int, int>)
    requires n <= |ls|
  {
    forall k :: k in m ==> exists i :: LastKept(ls, n, migrate, i, k) && m[k] == save(i, migrate(ls[i]).value.value)
  }

  /** A key that was last set by an earlier layer is still last set by it when a layer with another id (or a skipped one) follows. */
  lemma LastKeptExtends(ls: seq<Json>, n: nat, migrate: Migration, i: int, k: int)
    requires 0 < n <= |ls|
    requires LastKept(ls, n - 1, migrate, i, k)
    requires Kept(migrate, ls[n - 1]) ==> OldId(ls[n - 1]) != k
    ensures LastKept(ls, n, migrate, i, k)
  {
  }

  lemma IdMapValuesStep(ls: seq<Json>, n: nat, migrate: Migration, save: Save)
    requires 0 < n <= |ls|
    requires IdMapUpTo(ls, n, migrate, save).Ok?
    requires SavedLast(ls, n - 1, migrate, save, IdMapUpTo(ls, n - 1, migrate, save).value)
    ensures SavedLast(ls, n, migrate, save, IdMapUpTo(ls, n, migrate, save).value)
  {
    var prev := IdMapUpTo(ls, n - 1, migrate, save).value;
    var m := IdMapUpTo(ls, n, migrate, save).value;
    var l := ls[n - 1];
    var kept := Kept(migrate, l);
    if kept {
      assert m == prev[OldId(l) := save(n - 1, migrate(l).value.value)];
    } else {
      assert m == prev;
    }
    forall k | k in m
      ensures exists i :: LastKept(ls, n, migrate, i, k) && m[k] == save(i, migrate(ls[i]).value.value)
    {
      if kept && k == OldId(l) {
        assert LastKept(ls, n, migrate, n - 1, k);
      } else {
        assert k in prev && m[k] == prev[k];
        var i :| LastKept(ls, n - 1, migrate, i, k) && prev[k] == save(i, migrate(ls[i]).value.value);
        LastKeptExtends(ls, n, migrate, i, k);
      }
    }
  }

  /** Each key maps to what `save` returned for the last kept layer with that old id. */
  lemma {:induction false} IdMapValues(ls: seq<Json>, n: nat, migrate: Migration, save: Save)
    requires n <= |ls|
    requires IdMapUpTo(ls, n, migrate, save).Ok?
    ensures SavedLast(ls, n, migrate, save, IdMapUpTo(ls, n, migrate, save).value)
    decreases n
  {
    if n > 0 {
      IdMapValues(ls, n - 1, migrate, save);
      IdMapValuesStep(ls, n, migrate, save);
    }
  }

  /**
   * The loop itself, over the layers a `for` over the fetched node visits.
   * It computes the map above, so the map's keys are exactly the old ids of
   * the kept layers and each points at the id `save` returned for the last
   * kept layer with that id.
   */
  method CollectIds(layers: Json, migrate: Migration, save: Save) returns (r: Result<map<int, int>>)
    ensures r == IdMapUpTo(Elements(layers), |Elements(layers)|, migrate, save)
    ensures r.Ok? <==> forall i :: 0 <= i < |Elements(layers)| ==> StepSucceeds(migrate, Elements(layers)[i])
    ensures r.Ok? ==> r.value.Keys == KeptIds(Elements(layers), |Elements(layers)|, migrate)
    ensures r.Ok? ==> SavedLast(Elements(layers), |Elements(layers)|, migrate, save, r.value)
  {
    var ls := Elements(layers);
    var m: map<int, int> := map[];
    var i := 0;
    while i < |ls|
      invariant 0 <= i <= |ls|
      invariant IdMapUpTo(ls, i, migrate, save) == Ok(m)
    {
      var out := migrate(ls[i]);
      if out.Fail? {
        FailureSticks(ls, i + 1, |ls|, migrate, save);
        IdMapSucceedsIff(ls, |ls|, migrate, save);
        return Fail(out.error);
      }
      if out.value.Some? {
        var id := Get(ls[i], "id");
        if id.None? {
          FailureSticks(ls, i + 1, |ls|, migrate, save);
          IdMapSucceedsIff(ls, |ls|, migrate, save);
          return Fail(NullPointer("id"));
        }
        m := m[IntValue(id.value) := save(i, out.value.value)];
      }
      i := i + 1;
    }
    IdMapSucceedsIff(ls, |ls|, migrate, save);
    IdMapKeys(ls, |ls|, migrate, save);
    IdMapValues(ls, |ls|, migrate, save);
    return Ok(m);
  }
}
